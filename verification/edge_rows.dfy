/** What a box's database is after a configuration, row by row, for every database and every configuration.

Nothing is asked of either: a payload may point outside itself, use another organization's ids or name an id twice.
What each statement of the transaction does shows in the rows that are left and in what is refused. */
module EdgeRows {
  import opened Options
  import opened EdgeApply

  // ----------------------------------------------------------------- rows

  function Get(t: Table, id: int): Option<Row> { if id in t then Some(t[id]) else None }

  /** The last item with an id: of two, the later one is kept. */
  function LastFor(items: seq<Item>, id: int): Option<Row> {
    if |items| == 0 then None
    else
      var i := items[|items| - 1];
      if i.id == id then Some(Row(i.parent, i.data)) else LastFor(items[..|items| - 1], id)
  }

  /** The payload's row, or the one there was. */
  function RowThen(t: Table, items: seq<Item>, id: int): Option<Row> {
    if LastFor(items, id).Some? then LastFor(items, id) else Get(t, id)
  }

  /** Whose a row is, by following its parents up after the upserts. */
  predicate SiteIsOrgs(db: Db, cfg: Config, s: int) {
    var r := RowThen(db.sites, cfg.sites, s); r.Some? && r.value.parent == cfg.orgId
  }

  predicate AreaIsOrgs(db: Db, cfg: Config, a: int) {
    var r := RowThen(db.areas, cfg.areas, a); r.Some? && SiteIsOrgs(db, cfg, r.value.parent)
  }

  predicate GatewayIsOrgs(db: Db, cfg: Config, g: int) {
    var r := RowThen(db.gateways, cfg.gateways, g); r.Some? && AreaIsOrgs(db, cfg, r.value.parent)
  }

  predicate TagIsOrgs(db: Db, cfg: Config, t: int) {
    var r := RowThen(db.tags, cfg.tags, t); r.Some? && GatewayIsOrgs(db, cfg, r.value.parent)
  }

  /** A gateway of the organization's that the payload does not mention. */
  predicate GatewayGoes(db: Db, cfg: Config, g: int) {
    g in db.gateways && LastFor(cfg.gateways, g).None? && AreaIsOrgs(db, cfg, db.gateways[g].parent)
  }

  /** What is left: the payload's rows, and those that are not the organization's. */
  function GatewayThen(db: Db, cfg: Config, g: int): Option<Row> {
    if GatewayGoes(db, cfg, g) then None else RowThen(db.gateways, cfg.gateways, g)
  }

  function TagThen(db: Db, cfg: Config, t: int): Option<Row> {
    if LastFor(cfg.tags, t).Some? then LastFor(cfg.tags, t)
    else if t in db.tags && !GatewayIsOrgs(db, cfg, db.tags[t].parent) then Some(db.tags[t])
    else None
  }

  /** An alarm definition also goes with a tag that went with its gateway, even if the payload brings the tag back. */
  function AlarmThen(db: Db, cfg: Config, a: int): Option<Row> {
    if LastFor(cfg.alarms, a).Some? then LastFor(cfg.alarms, a)
    else if a in db.alarms && !TagIsOrgs(db, cfg, db.alarms[a].parent) && !TagWent(db, cfg, db.alarms[a].parent)
    then Some(db.alarms[a])
    else None
  }

  predicate TagWent(db: Db, cfg: Config, t: int) { t in db.tags && GatewayGoes(db, cfg, db.tags[t].parent) }

  // ------------------------------------------------------------- what is refused

  /** Every item finds its parent where it is written. */
  predicate FindsParents(db: Db, cfg: Config) {
    && (forall k :: 0 <= k < |cfg.sites| ==> cfg.sites[k].parent == cfg.orgId || cfg.sites[k].parent in db.orgs)
    && (forall k :: 0 <= k < |cfg.areas| ==> RowThen(db.sites, cfg.sites, cfg.areas[k].parent).Some?)
    && (forall k :: 0 <= k < |cfg.gateways| ==> RowThen(db.areas, cfg.areas, cfg.gateways[k].parent).Some?)
    && (forall k :: 0 <= k < |cfg.tags| ==> GatewayThen(db, cfg, cfg.tags[k].parent).Some?)
    && (forall k :: 0 <= k < |cfg.alarms| ==> TagThen(db, cfg, cfg.alarms[k].parent).Some?)
  }

  // -------------------------------------------------------------- the result

  predicate IsGreatest(ids: set<int>, n: int) { n >= 1 && (forall i :: i in ids ==> i <= n) && (n == 1 || n in ids) }

  predicate StandsAtGreatest(sequences: map<Level, int>, level: Level, ids: set<int>) {
    level in sequences && IsGreatest(ids, sequences[level])
  }

  /** Every sequence stands at the greatest id of its table, and at 1 without one. */
  predicate SequencesAreRight(d: Db) {
    && StandsAtGreatest(d.sequences, Organizations, d.orgs.Keys) && StandsAtGreatest(d.sequences, Sites, d.sites.Keys)
    && StandsAtGreatest(d.sequences, Areas, d.areas.Keys) && StandsAtGreatest(d.sequences, Gateways, d.gateways.Keys)
    && StandsAtGreatest(d.sequences, Tags, d.tags.Keys)
    && StandsAtGreatest(d.sequences, AlarmDefinitions, d.alarms.Keys)
  }

  /** Every table holds the rows it should. */
  ghost predicate RowsAreRight(db: Db, cfg: Config, d: Db) {
    forall id ::
      && Get(d.sites, id) == RowThen(db.sites, cfg.sites, id)
      && Get(d.areas, id) == RowThen(db.areas, cfg.areas, id)
      && Get(d.gateways, id) == GatewayThen(db, cfg, id)
      && Get(d.tags, id) == TagThen(db, cfg, id)
      && Get(d.alarms, id) == AlarmThen(db, cfg, id)
  }

  ghost predicate IsApplied(db: Db, cfg: Config, d: Db) {
    && d.orgs == db.orgs[cfg.orgId := cfg.orgName]
    && RowsAreRight(db, cfg, d)
    && d.maxAge == (if cfg.maxAge > 0 then Some(cfg.maxAge) else db.maxAge)
    && SequencesAreRight(d)
  }

  // ------------------------------------------------------------- step by step

  lemma {:induction false} GetPut(t: Table, items: seq<Item>, id: int)
    ensures Get(PutAll(t, items), id) == RowThen(t, items, id)
  {
    if |items| > 0 {
      GetPut(t, items[..|items| - 1], id);
    }
  }

  lemma {:induction false} LastForIff(items: seq<Item>, id: int)
    ensures LastFor(items, id).Some? <==> id in Ids(items)
  {
    if |items| > 0 {
      LastForIff(items[..|items| - 1], id);
      IdsSnoc(items);
    }
  }

  lemma OrgsThen(db: Db, cfg: Config)
    ensures var d := WithHierarchy(db, cfg);
            && (forall s :: s in OrgSites(d, cfg.orgId) <==> SiteIsOrgs(db, cfg, s))
            && (forall a :: a in OrgAreas(d, cfg.orgId) <==> AreaIsOrgs(db, cfg, a))
            && (forall s :: Get(d.sites, s) == RowThen(db.sites, cfg.sites, s))
            && (forall a :: Get(d.areas, a) == RowThen(db.areas, cfg.areas, a))
  {
    var d := WithHierarchy(db, cfg);
    forall s
      ensures Get(d.sites, s) == RowThen(db.sites, cfg.sites, s)
      ensures s in OrgSites(d, cfg.orgId) <==> SiteIsOrgs(db, cfg, s)
    {
      GetPut(db.sites, cfg.sites, s);
    }
    forall a
      ensures Get(d.areas, a) == RowThen(db.areas, cfg.areas, a)
      ensures a in OrgAreas(d, cfg.orgId) <==> AreaIsOrgs(db, cfg, a)
    {
      GetPut(db.areas, cfg.areas, a);
    }
  }

  /** The hierarchy is written: d holds the organization's areas. */
  ghost predicate AreasDone(db: Db, cfg: Config, d: Db) {
    && d.gateways == db.gateways && d.tags == db.tags && d.alarms == db.alarms
    && forall a :: a in OrgAreas(d, cfg.orgId) <==> AreaIsOrgs(db, cfg, a)
  }

  /** The gateways are written and thinned. */
  ghost predicate GatewaysThen(db: Db, cfg: Config, d: Db) {
    && (forall g :: Get(d.gateways, g) == GatewayThen(db, cfg, g))
    && (forall g :: g in OrgGateways(d, cfg.orgId) <==> GatewayIsOrgs(db, cfg, g) && LastFor(cfg.gateways, g).Some?)
    && (forall t :: Get(d.tags, t) == if TagWent(db, cfg, t) then None else Get(db.tags, t))
    && (forall a :: Get(d.alarms, a) == if a in db.alarms && TagWent(db, cfg, db.alarms[a].parent) then None
                                        else Get(db.alarms, a))
  }

  lemma GatewaysGone(db: Db, cfg: Config, d: Db)
    requires AreasDone(db, cfg, d)
    ensures var up := d.(gateways := PutAll(d.gateways, cfg.gateways));
            forall g :: g in OrgGateways(up, cfg.orgId) - Ids(cfg.gateways) <==> GatewayGoes(db, cfg, g)
  {
    var up := d.(gateways := PutAll(d.gateways, cfg.gateways));
    assert OrgAreas(up, cfg.orgId) == OrgAreas(d, cfg.orgId);
    forall g
      ensures g in OrgGateways(up, cfg.orgId) - Ids(cfg.gateways) <==> GatewayGoes(db, cfg, g)
    {
      GetPut(db.gateways, cfg.gateways, g);
      LastForIff(cfg.gateways, g);
    }
  }

  lemma GatewaysAre(db: Db, cfg: Config, d: Db)
    requires AreasDone(db, cfg, d)
    ensures GatewaysThen(db, cfg, WithGateways(d, cfg))
  {
    var d' := WithGateways(d, cfg);
    GatewaysGone(db, cfg, d);
    assert OrgAreas(d', cfg.orgId) == OrgAreas(d, cfg.orgId);
    forall g
      ensures Get(d'.gateways, g) == GatewayThen(db, cfg, g)
      ensures g in OrgGateways(d', cfg.orgId) <==> GatewayIsOrgs(db, cfg, g) && LastFor(cfg.gateways, g).Some?
    {
      GatewayIs(db, cfg, d, g);
    }
  }

  lemma GatewayIs(db: Db, cfg: Config, d: Db, g: int)
    requires AreasDone(db, cfg, d)
    ensures var d' := WithGateways(d, cfg);
            && Get(d'.gateways, g) == GatewayThen(db, cfg, g)
            && (g in OrgGateways(d', cfg.orgId) <==> GatewayIsOrgs(db, cfg, g) && LastFor(cfg.gateways, g).Some?)
  {
    GatewaysGone(db, cfg, d);
    var d' := WithGateways(d, cfg);
    assert OrgAreas(d', cfg.orgId) == OrgAreas(d, cfg.orgId);
    GetPut(db.gateways, cfg.gateways, g);
    LastForIff(cfg.gateways, g);
  }

  /** The tags are written and thinned. */
  ghost predicate TagsThen(db: Db, cfg: Config, d: Db) {
    && (forall t :: Get(d.tags, t) == TagThen(db, cfg, t))
    && (forall t :: t in OrgTags(d, cfg.orgId) <==> LastFor(cfg.tags, t).Some? && TagIsThere(db, cfg, t))
    && (forall a :: Get(d.alarms, a) ==
                    if a in db.alarms && (TagWent(db, cfg, db.alarms[a].parent)
                                          || TagGoes(db, cfg, db.alarms[a].parent)) then None
                    else Get(db.alarms, a))
  }

  /** The payload's tag is below a gateway of the organization's in the payload. */
  predicate TagIsThere(db: Db, cfg: Config, t: int) {
    var r := RowThen(db.tags, cfg.tags, t);
    r.Some? && GatewayIsOrgs(db, cfg, r.value.parent) && LastFor(cfg.gateways, r.value.parent).Some?
  }

  /** A tag that is missing from the payload below such a gateway. */
  predicate TagGoes(db: Db, cfg: Config, t: int) {
    t in db.tags && LastFor(cfg.tags, t).None? && GatewayIsOrgs(db, cfg, db.tags[t].parent)
  }

  lemma TagsGone(db: Db, cfg: Config, d: Db)
    requires GatewaysThen(db, cfg, d)
    ensures var up := d.(tags := PutAll(d.tags, cfg.tags));
            forall t :: t in OrgTags(up, cfg.orgId) - Ids(cfg.tags) <==> TagGoes(db, cfg, t) && !TagWent(db, cfg, t)
  {
    var up := d.(tags := PutAll(d.tags, cfg.tags));
    assert OrgGateways(up, cfg.orgId) == OrgGateways(d, cfg.orgId);
    forall t
      ensures t in OrgTags(up, cfg.orgId) - Ids(cfg.tags) <==> TagGoes(db, cfg, t) && !TagWent(db, cfg, t)
    {
      GetPut(d.tags, cfg.tags, t);
      LastForIff(cfg.tags, t);
    }
  }

  lemma TagsAre(db: Db, cfg: Config, d: Db)
    requires GatewaysThen(db, cfg, d)
    ensures TagsThen(db, cfg, WithTags(d, cfg))
  {
    var d' := WithTags(d, cfg);
    TagsGone(db, cfg, d);
    forall t
      ensures Get(d'.tags, t) == TagThen(db, cfg, t)
      ensures t in OrgTags(d', cfg.orgId) <==> LastFor(cfg.tags, t).Some? && TagIsThere(db, cfg, t)
    {
      TagIs(db, cfg, d, t);
    }
  }

  lemma TagIs(db: Db, cfg: Config, d: Db, t: int)
    requires GatewaysThen(db, cfg, d)
    ensures var d' := WithTags(d, cfg);
            && Get(d'.tags, t) == TagThen(db, cfg, t)
            && (t in OrgTags(d', cfg.orgId) <==> LastFor(cfg.tags, t).Some? && TagIsThere(db, cfg, t))
  {
    TagsGone(db, cfg, d);
    var d' := WithTags(d, cfg);
    assert OrgGateways(d', cfg.orgId) == OrgGateways(d, cfg.orgId);
    GetPut(d.tags, cfg.tags, t);
    LastForIff(cfg.tags, t);
  }

  lemma {:induction false} LastForIsOne(items: seq<Item>, id: int)
    requires LastFor(items, id).Some?
    ensures exists k :: 0 <= k < |items| && items[k].parent == LastFor(items, id).value.parent
  {
    var last := |items| - 1;
    if items[last].id == id {
      assert items[last].parent == LastFor(items, id).value.parent;
    } else {
      LastForIsOne(items[..last], id);
      var k :| 0 <= k < |items[..last]| && items[..last][k].parent == LastFor(items[..last], id).value.parent;
      assert items[k] == items[..last][k];
    }
  }

  /** A tag of the payload with a parent, below the organization, is below a gateway of the payload. */
  lemma OrgTagsAre(db: Db, cfg: Config, t: int)
    requires forall k :: 0 <= k < |cfg.tags| ==> GatewayThen(db, cfg, cfg.tags[k].parent).Some?
    requires LastFor(cfg.tags, t).Some?
    ensures TagIsThere(db, cfg, t) <==> TagIsOrgs(db, cfg, t)
  {
    LastForIsOne(cfg.tags, t);
  }

  lemma AlarmsAre(db: Db, cfg: Config, d: Db)
    requires TagsThen(db, cfg, d)
    requires forall k :: 0 <= k < |cfg.tags| ==> GatewayThen(db, cfg, cfg.tags[k].parent).Some?
    ensures forall a :: Get(WithAlarms(d, cfg).alarms, a) == AlarmThen(db, cfg, a)
  {
    var up, d' := d.(alarms := PutAll(d.alarms, cfg.alarms)), WithAlarms(d, cfg);
    assert OrgTags(up, cfg.orgId) == OrgTags(d, cfg.orgId);
    forall a
      ensures Get(d'.alarms, a) == AlarmThen(db, cfg, a)
    {
      GetPut(d.alarms, cfg.alarms, a);
      LastForIff(cfg.alarms, a);
      if a in db.alarms && LastFor(cfg.tags, db.alarms[a].parent).Some? {
        OrgTagsAre(db, cfg, db.alarms[a].parent);
      }
    }
  }

  // ------------------------------------------------------------------ together

  lemma ParentsAreIn(items: seq<Item>, parents: set<int>, t: Table)
    requires parents == t.Keys
    ensures ParentsIn(items, parents) <==> forall k :: 0 <= k < |items| ==> Get(t, items[k].parent).Some?
  {
  }

  /** The tables after four levels. */
  lemma LevelsAre(db: Db, cfg: Config)
    ensures var d2 := WithHierarchy(db, cfg); var d3 := WithGateways(d2, cfg); var d4 := WithTags(d3, cfg);
            && (forall s :: Get(d2.sites, s) == RowThen(db.sites, cfg.sites, s))
            && (forall a :: Get(d2.areas, a) == RowThen(db.areas, cfg.areas, a))
            && GatewaysThen(db, cfg, d3) && TagsThen(db, cfg, d4)
            && d4.sites == d2.sites && d4.areas == d2.areas && d4.gateways == d3.gateways
  {
    OrgsThen(db, cfg);
    GatewaysAre(db, cfg, WithHierarchy(db, cfg));
    TagsAre(db, cfg, WithGateways(WithHierarchy(db, cfg), cfg));
  }

  /** Exactly an item without its parent is refused. */
  lemma RefusedIff(db: Db, cfg: Config)
    requires cfg.orgId > 0
    ensures var d2 := WithHierarchy(db, cfg); var d3 := WithGateways(d2, cfg); var d4 := WithTags(d3, cfg);
            && (Applied(db, cfg).Failed? <==> !FindsParents(db, cfg))
            && (Applied(db, cfg).Failed? ==> Applied(db, cfg).error == ForeignKeyViolation)
            && (Applied(db, cfg).Ok? ==>
                  Applied(db, cfg).db == WithSequences(WithSettings(WithAlarms(d4, cfg), cfg)))
  {
    LevelsAre(db, cfg);
    var d2 := WithHierarchy(db, cfg);
    var d3 := WithGateways(d2, cfg);
    var d4 := WithTags(d3, cfg);
    assert WithOrg(db, cfg).orgs.Keys == db.orgs.Keys + {cfg.orgId};
    ParentsAreIn(cfg.areas, d2.sites.Keys, d2.sites);
    ParentsAreIn(cfg.gateways, d2.areas.Keys, d2.areas);
    ParentsAreIn(cfg.tags, d3.gateways.Keys, d3.gateways);
    ParentsAreIn(cfg.alarms, d4.tags.Keys, d4.tags);
    assert WithSites(WithOrg(db, cfg), cfg).sites == d2.sites;
  }

  lemma RowsAre(db: Db, cfg: Config)
    requires FindsParents(db, cfg)
    ensures var d4 := WithTags(WithGateways(WithHierarchy(db, cfg), cfg), cfg);
            RowsAreRight(db, cfg, WithAlarms(d4, cfg))
  {
    LevelsAre(db, cfg);
    AlarmsAre(db, cfg, WithTags(WithGateways(WithHierarchy(db, cfg), cfg), cfg));
  }

  lemma SequenceMoves(d: Db, level: Level)
    ensures StandsAtGreatest(WithSequences(d).sequences, level, IdsOf(d, level))
  {
    match level
    case Organizations =>
    case Sites =>
    case Areas =>
    case Gateways =>
    case Tags =>
    case AlarmDefinitions =>
  }

  lemma SequencesMove(d: Db)
    ensures SequencesAreRight(WithSequences(d))
  {
    SequenceMoves(d, Organizations);
    SequenceMoves(d, Sites);
    SequenceMoves(d, Areas);
    SequenceMoves(d, Gateways);
    SequenceMoves(d, Tags);
    SequenceMoves(d, AlarmDefinitions);
  }

  /** A configuration that names no organization is refused; one with an item whose parent is not there fails; and
      every other one is applied, to exactly these rows. */
  lemma AppliedInRows(db: Db, cfg: Config)
    ensures cfg.orgId <= 0 ==> Applied(db, cfg) == Failed(NoOrganization)
    ensures cfg.orgId > 0 && !FindsParents(db, cfg) ==> Applied(db, cfg) == Failed(ForeignKeyViolation)
    ensures cfg.orgId > 0 && FindsParents(db, cfg) ==>
              Applied(db, cfg).Ok? && IsApplied(db, cfg, Applied(db, cfg).db)
  {
    if cfg.orgId > 0 {
      RefusedIff(db, cfg);
      if FindsParents(db, cfg) {
        RowsAre(db, cfg);
        var d5 := WithAlarms(WithTags(WithGateways(WithHierarchy(db, cfg), cfg), cfg), cfg);
        SequencesMove(WithSettings(d5, cfg));
        assert d5.orgs == db.orgs[cfg.orgId := cfg.orgName];
      }
    }
  }
}
