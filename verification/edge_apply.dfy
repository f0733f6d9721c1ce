/** Mirroring a configuration into a box's own database.

Five tables hang under the organizations: sites, areas, gateways, tags and alarm
definitions, each row pointing at its parent. Apply upserts the payload level by level,
removes the organization's gateways, tags and alarm definitions the payload no longer
mentions, and moves the id sequences, in one transaction that a foreign-key violation
rolls back. */
module EdgeApply {
  import opened Options

  /** `data` stands for the columns that are copied and not looked at. */
  datatype Row = Row(parent: int, data: string)
  datatype Item = Item(id: int, parent: int, data: string)

  type Table = map<int, Row>

  datatype Level = Organizations | Sites | Areas | Gateways | Tags | AlarmDefinitions

  datatype Db = Db(orgs: map<int, string>, sites: Table, areas: Table, gateways: Table, tags: Table, alarms: Table,
                   sequences: map<Level, int>, maxAge: Option<int>)

  datatype Config = Config(orgId: int, orgName: string, sites: seq<Item>, areas: seq<Item>, gateways: seq<Item>,
                           tags: seq<Item>, alarms: seq<Item>, maxAge: int)

  datatype Error = NoOrganization | ForeignKeyViolation
  datatype Result = Ok(db: Db) | Failed(error: Error)

  // -------------------------------------------------------------- upserts

  /** The table with the items written over it, in order. */
  function PutAll(t: Table, items: seq<Item>): Table {
    if |items| == 0 then t
    else
      var i := items[|items| - 1];
      PutAll(t, items[..|items| - 1])[i.id := Row(i.parent, i.data)]
  }

  predicate ParentsIn(items: seq<Item>, parents: set<int>) {
    forall i :: 0 <= i < |items| ==> items[i].parent in parents
  }

  function Ids(items: seq<Item>): set<int> { set i | i in items :: i.id }

  /** Rows of t below one of the given parents. */
  function Below(t: Table, parents: set<int>): set<int> { set id | id in t && t[id].parent in parents }

  function Remove(t: Table, ids: set<int>): Table { map id | id in t && id !in ids :: t[id] }

  /** The organization's ids, level by level, by following the parents up. */
  function OrgSites(db: Db, org: int): set<int> { Below(db.sites, {org}) }
  function OrgAreas(db: Db, org: int): set<int> { Below(db.areas, OrgSites(db, org)) }
  function OrgGateways(db: Db, org: int): set<int> { Below(db.gateways, OrgAreas(db, org)) }
  function OrgTags(db: Db, org: int): set<int> { Below(db.tags, OrgGateways(db, org)) }
  function OrgAlarms(db: Db, org: int): set<int> { Below(db.alarms, OrgTags(db, org)) }

  // -------------------------------------------------- the steps, as values

  function WithGateways(db: Db, cfg: Config): Db {
    var upserted := db.(gateways := PutAll(db.gateways, cfg.gateways));
    var gone := OrgGateways(upserted, cfg.orgId) - Ids(cfg.gateways);
    var tagsGone := Below(db.tags, gone);
    upserted.(gateways := Remove(upserted.gateways, gone), tags := Remove(db.tags, tagsGone),
              alarms := Remove(db.alarms, Below(db.alarms, tagsGone)))
  }

  function WithTags(db: Db, cfg: Config): Db {
    var upserted := db.(tags := PutAll(db.tags, cfg.tags));
    var gone := OrgTags(upserted, cfg.orgId) - Ids(cfg.tags);
    upserted.(tags := Remove(upserted.tags, gone), alarms := Remove(db.alarms, Below(db.alarms, gone)))
  }

  function WithAlarms(db: Db, cfg: Config): Db {
    var upserted := db.(alarms := PutAll(db.alarms, cfg.alarms));
    upserted.(alarms := Remove(upserted.alarms, OrgAlarms(upserted, cfg.orgId) - Ids(cfg.alarms)))
  }

  function IdsOf(db: Db, level: Level): set<int> {
    match level
    case Organizations => db.orgs.Keys
    case Sites => db.sites.Keys
    case Areas => db.areas.Keys
    case Gateways => db.gateways.Keys
    case Tags => db.tags.Keys
    case AlarmDefinitions => db.alarms.Keys
  }

  /** The greatest of some ids, at least `floor`. */
  ghost function Greatest(ids: set<int>, floor: int): (m: int)
    ensures m >= floor && (forall i :: i in ids ==> i <= m) && (m == floor || m in ids)
  {
    if exists i :: i in ids then
      var x :| x in ids;
      var rest := Greatest(ids - {x}, floor);
      assert forall i :: i in ids ==> i == x || i in ids - {x};
      if x > rest then x else rest
    else floor
  }

  ghost function WithSequences(db: Db): Db {
    db.(sequences := map[Organizations := Greatest(IdsOf(db, Organizations), 1), Sites := Greatest(IdsOf(db, Sites), 1),
                         Areas := Greatest(IdsOf(db, Areas), 1), Gateways := Greatest(IdsOf(db, Gateways), 1),
                         Tags := Greatest(IdsOf(db, Tags), 1),
                         AlarmDefinitions := Greatest(IdsOf(db, AlarmDefinitions), 1)])
  }

  function WithOrg(db: Db, cfg: Config): Db { db.(orgs := db.orgs[cfg.orgId := cfg.orgName]) }
  function WithSites(db: Db, cfg: Config): Db { db.(sites := PutAll(db.sites, cfg.sites)) }
  function WithAreas(db: Db, cfg: Config): Db { db.(areas := PutAll(db.areas, cfg.areas)) }
  function WithSettings(db: Db, cfg: Config): Db { if cfg.maxAge <= 0 then db else db.(maxAge := Some(cfg.maxAge)) }

  /** The whole transaction. */
  ghost function Applied(db: Db, cfg: Config): Result {
    if cfg.orgId <= 0 then Failed(NoOrganization) else
    var d0 := WithOrg(db, cfg);
    if !ParentsIn(cfg.sites, d0.orgs.Keys) then Failed(ForeignKeyViolation) else
    var d1 := WithSites(d0, cfg);
    if !ParentsIn(cfg.areas, d1.sites.Keys) then Failed(ForeignKeyViolation) else
    var d2 := WithAreas(d1, cfg);
    if !ParentsIn(cfg.gateways, d2.areas.Keys) then Failed(ForeignKeyViolation) else
    var d3 := WithGateways(d2, cfg);
    if !ParentsIn(cfg.tags, d3.gateways.Keys) then Failed(ForeignKeyViolation) else
    var d4 := WithTags(d3, cfg);
    if !ParentsIn(cfg.alarms, d4.tags.Keys) then Failed(ForeignKeyViolation) else
    Ok(WithSequences(WithSettings(WithAlarms(d4, cfg), cfg)))
  }

  // ---------------------------------------------------------- the reference

  function TableOf(items: seq<Item>): Table { PutAll(map[], items) }

  /** A table with the organization's share replaced by the payload. */
  function Replaced(t: Table, own: set<int>, items: seq<Item>): Table { Remove(t, own) + TableOf(items) }

  /** What a box should hold: the payload in place of the organization's gateways, tags
      and alarm definitions, and everything else as it was. */
  ghost function Mirrored(db: Db, cfg: Config): Db { WithSequences(MirroredTables(db, cfg)) }

  function MirroredTables(db: Db, cfg: Config): Db {
    Db(
      db.orgs[cfg.orgId := cfg.orgName], PutAll(db.sites, cfg.sites), PutAll(db.areas, cfg.areas),
      Replaced(db.gateways, OrgGateways(db, cfg.orgId), cfg.gateways),
      Replaced(db.tags, OrgTags(db, cfg.orgId), cfg.tags),
      Replaced(db.alarms, OrgAlarms(db, cfg.orgId), cfg.alarms),
      db.sequences, if cfg.maxAge <= 0 then db.maxAge else Some(cfg.maxAge))
  }

  ghost predicate PlantKeys(db: Db) {
    && (forall i :: i in db.sites ==> db.sites[i].parent in db.orgs)
    && (forall i :: i in db.areas ==> db.areas[i].parent in db.sites)
  }

  ghost predicate ForeignKeys(db: Db) {
    && PlantKeys(db)
    && (forall i :: i in db.gateways ==> db.gateways[i].parent in db.areas)
    && (forall i :: i in db.tags ==> db.tags[i].parent in db.gateways)
    && (forall i :: i in db.alarms ==> db.alarms[i].parent in db.tags)
  }

  /** Every reference inside the payload leads to the payload. */
  predicate ReferentiallyClosed(cfg: Config) {
    && ParentsIn(cfg.sites, {cfg.orgId}) && ParentsIn(cfg.areas, Ids(cfg.sites))
    && ParentsIn(cfg.gateways, Ids(cfg.areas)) && ParentsIn(cfg.tags, Ids(cfg.gateways))
    && ParentsIn(cfg.alarms, Ids(cfg.tags))
  }

  /** The payload uses no id that is another organization's here. */
  ghost predicate OwnIds(db: Db, cfg: Config) {
    && Ids(cfg.sites) * db.sites.Keys <= OrgSites(db, cfg.orgId)
    && Ids(cfg.areas) * db.areas.Keys <= OrgAreas(db, cfg.orgId)
    && Ids(cfg.gateways) * db.gateways.Keys <= OrgGateways(db, cfg.orgId)
    && Ids(cfg.tags) * db.tags.Keys <= OrgTags(db, cfg.orgId)
    && Ids(cfg.alarms) * db.alarms.Keys <= OrgAlarms(db, cfg.orgId)
  }

  // ---------------------------------------------------------------- levels

  lemma IdsSnoc(items: seq<Item>)
    requires |items| > 0
    ensures Ids(items) == Ids(items[..|items| - 1]) + {items[|items| - 1].id}
  {
    assert items == items[..|items| - 1] + [items[|items| - 1]];
  }

  lemma {:induction false} PutAllKeys(t: Table, items: seq<Item>)
    ensures PutAll(t, items).Keys == t.Keys + Ids(items)
  {
    if |items| > 0 {
      PutAllKeys(t, items[..|items| - 1]);
      IdsSnoc(items);
    }
  }

  /** An upsert leaves a row as it was or as the payload has it. */
  lemma {:induction false} PutAllRow(t: Table, items: seq<Item>, id: int)
    requires id in PutAll(t, items)
    ensures id in Ids(items) ==> id in TableOf(items) && PutAll(t, items)[id] == TableOf(items)[id]
    ensures id !in Ids(items) ==> id in t && PutAll(t, items)[id] == t[id]
  {
    if |items| > 0 {
      IdsSnoc(items);
      var last := items[|items| - 1];
      PutAllKeys(map[], items);
      PutAllKeys(t, items[..|items| - 1]);
      if id != last.id {
        PutAllRow(t, items[..|items| - 1], id);
      }
    }
  }

  lemma PutAllRows(t: Table, items: seq<Item>)
    ensures PutAll(t, items).Keys == t.Keys + Ids(items) && TableOf(items).Keys == Ids(items)
    ensures forall id :: id in PutAll(t, items) ==>
      PutAll(t, items)[id] == if id in Ids(items) then TableOf(items)[id] else t[id]
  {
    PutAllKeys(t, items);
    PutAllKeys(map[], items);
    forall id | id in PutAll(t, items)
      ensures PutAll(t, items)[id] == if id in Ids(items) then TableOf(items)[id] else t[id]
    {
      PutAllRow(t, items, id);
    }
  }

  lemma {:induction false} TableOfParents(items: seq<Item>, parents: set<int>)
    requires ParentsIn(items, parents)
    ensures forall id :: id in TableOf(items) ==> TableOf(items)[id].parent in parents
  {
    if |items| > 0 {
      assert ParentsIn(items[..|items| - 1], parents);
      TableOfParents(items[..|items| - 1], parents);
      var last := items[|items| - 1];
      assert TableOf(items) == TableOf(items[..|items| - 1])[last.id := Row(last.parent, last.data)];
    }
  }

  /** An upsert below an organization adds the items to what is below it. */
  lemma UpsertBelow(t: Table, keys: set<int>, own: set<int>, own': set<int>, items: seq<Item>)
    requires forall id :: id in t ==> t[id].parent in keys
    requires own <= own' && own' * keys <= own && ParentsIn(items, own')
    requires Ids(items) * t.Keys <= Below(t, own)
    ensures Below(PutAll(t, items), own') == Below(t, own) + Ids(items)
  {
    PutAllRows(t, items);
    TableOfParents(items, own');
    var written := PutAll(t, items);
    forall id
      ensures id in Below(written, own') <==> id in Below(t, own) + Ids(items)
    {
      if id in t && id !in Ids(items) {
        assert written[id] == t[id] && t[id].parent in keys;
      }
    }
  }

  /** Cascades took rows of the organization only, and every row below a parent that is gone. */
  ghost predicate Thinned(t: Table, own: set<int>, own': set<int>, thin: Table) {
    && (forall id :: id in thin ==> id in t && thin[id] == t[id] && (t[id].parent in own ==> t[id].parent in own'))
    && (forall id :: id in t && id !in thin ==> t[id].parent in own)
  }

  /** One level of the mirror: rows below parents that went away are gone, the items
      are written, and what is left below the parents and not among the items is
      removed. Together: the organization's share is replaced by the items. */
  lemma LevelIsReplaced(t: Table, thin: Table, keys: set<int>, own: set<int>, own': set<int>, items: seq<Item>)
    requires forall id :: id in t ==> t[id].parent in keys
    requires own' * keys <= own && ParentsIn(items, own')
    requires Ids(items) * t.Keys <= Below(t, own)
    requires Thinned(t, own, own', thin)
    ensures var written := PutAll(thin, items);
            Remove(written, Below(written, own') - Ids(items)) == Replaced(t, Below(t, own), items)
  {
    PutAllRows(thin, items);
    PutAllRows(map[], items);
    var written := PutAll(thin, items);
    var left := Remove(written, Below(written, own') - Ids(items));
    var right := Replaced(t, Below(t, own), items);
    forall id
      ensures id in left <==> id in right
      ensures id in left && id in right ==> left[id] == right[id]
    {
      if id !in Ids(items) {
        assert id in t ==> t[id].parent in keys;
        assert id in written ==> written[id] == thin[id];
      }
    }
    assert left.Keys == right.Keys;
  }

  /** What is below the organization afterwards. */
  lemma BelowReplaced(t: Table, keys: set<int>, own: set<int>, own': set<int>, items: seq<Item>)
    requires forall id :: id in t ==> t[id].parent in keys
    requires own' * keys <= own && ParentsIn(items, own')
    ensures Below(Replaced(t, Below(t, own), items), own') == Ids(items)
  {
    PutAllRows(map[], items);
    TableOfParents(items, own');
    var r := Replaced(t, Below(t, own), items);
    forall id
      ensures id in Below(r, own') <==> id in Ids(items)
    {
      if id in r && id !in Ids(items) {
        assert r[id] == t[id] && t[id].parent in keys;
      }
    }
  }

  // ---------------------------------------------------------- the five steps

  ghost predicate Applicable(db: Db, cfg: Config) {
    cfg.orgId > 0 && ForeignKeys(db) && ReferentiallyClosed(cfg) && OwnIds(db, cfg)
  }

  function WithHierarchy(db: Db, cfg: Config): Db { WithAreas(WithSites(WithOrg(db, cfg), cfg), cfg) }

  /** The hierarchy after its upserts. */
  lemma HierarchyGrows(db: Db, cfg: Config)
    requires Applicable(db, cfg)
    ensures var d := WithHierarchy(db, cfg);
            && OrgSites(d, cfg.orgId) == OrgSites(db, cfg.orgId) + Ids(cfg.sites)
            && OrgAreas(d, cfg.orgId) == OrgAreas(db, cfg.orgId) + Ids(cfg.areas)
            && d.sites.Keys == db.sites.Keys + Ids(cfg.sites) && d.areas.Keys == db.areas.Keys + Ids(cfg.areas)
  {
    var org := cfg.orgId;
    PutAllKeys(db.sites, cfg.sites);
    PutAllKeys(db.areas, cfg.areas);
    UpsertBelow(db.sites, db.orgs.Keys + {org}, {org}, {org}, cfg.sites);
    var sites := OrgSites(db, org) + Ids(cfg.sites);
    UpsertBelow(db.areas, db.sites.Keys, OrgSites(db, org), sites, cfg.areas);
  }

  /** The gateways are replaced, and tags and alarm definitions thinned. */
  ghost predicate GatewaysDone(db: Db, cfg: Config, d: Db) {
    && d == WithHierarchy(db, cfg).(gateways := d.gateways, tags := d.tags, alarms := d.alarms)
    && d.gateways == Replaced(db.gateways, OrgGateways(db, cfg.orgId), cfg.gateways)
    && OrgGateways(d, cfg.orgId) == Ids(cfg.gateways)
    && Thinned(db.tags, OrgGateways(db, cfg.orgId), Ids(cfg.gateways), d.tags)
    && Thinned(db.alarms, OrgTags(db, cfg.orgId), d.tags.Keys, d.alarms)
  }

  /** Gateways and tags are replaced, and alarm definitions thinned. */
  ghost predicate TagsDone(db: Db, cfg: Config, d: Db) {
    && d == WithHierarchy(db, cfg).(gateways := d.gateways, tags := d.tags, alarms := d.alarms)
    && d.gateways == Replaced(db.gateways, OrgGateways(db, cfg.orgId), cfg.gateways)
    && d.tags == Replaced(db.tags, OrgTags(db, cfg.orgId), cfg.tags)
    && OrgTags(d, cfg.orgId) == Ids(cfg.tags)
    && Thinned(db.alarms, OrgTags(db, cfg.orgId), Ids(cfg.tags), d.alarms)
  }

  /** A table thins itself by losing the rows below the parents that are gone. */
  lemma CascadeThins(t: Table, own: set<int>, own': set<int>)
    ensures Thinned(t, own, own', Remove(t, Below(t, own - own')))
  {
  }

  lemma GatewaysAreReplaced(db: Db, cfg: Config)
    requires Applicable(db, cfg)
    ensures GatewaysDone(db, cfg, WithGateways(WithHierarchy(db, cfg), cfg))
  {
    var org, d := cfg.orgId, WithHierarchy(db, cfg);
    GatewayLevel(db, cfg, d);
    var d' := WithGateways(d, cfg);
    assert OrgAreas(d', org) == OrgAreas(d, org);
    var gone := OrgGateways(db, org) - Ids(cfg.gateways);
    assert Below(PutAll(db.gateways, cfg.gateways), OrgAreas(d, org)) - Ids(cfg.gateways) == gone;
    CascadeThins(db.tags, OrgGateways(db, org), Ids(cfg.gateways));
    GatewayCascade(db.tags, db.alarms, OrgGateways(db, org), gone);
  }

  lemma GatewayLevel(db: Db, cfg: Config, d: Db)
    requires Applicable(db, cfg) && d == WithHierarchy(db, cfg)
    ensures var own', written := OrgAreas(d, cfg.orgId), PutAll(db.gateways, cfg.gateways);
            var replaced := Replaced(db.gateways, OrgGateways(db, cfg.orgId), cfg.gateways);
            && Below(written, own') == OrgGateways(db, cfg.orgId) + Ids(cfg.gateways)
            && Remove(written, Below(written, own') - Ids(cfg.gateways)) == replaced
            && Below(replaced, own') == Ids(cfg.gateways)
  {
    HierarchyGrows(db, cfg);
    var own, own' := OrgAreas(db, cfg.orgId), OrgAreas(d, cfg.orgId);
    UpsertBelow(db.gateways, db.areas.Keys, own, own', cfg.gateways);
    LevelIsReplaced(db.gateways, db.gateways, db.areas.Keys, own, own', cfg.gateways);
    BelowReplaced(db.gateways, db.areas.Keys, own, own', cfg.gateways);
  }

  lemma GatewayCascade(tags: Table, alarms: Table, own: set<int>, gone: set<int>)
    requires gone <= own
    requires forall id :: id in alarms ==> alarms[id].parent in tags
    ensures Thinned(alarms, Below(tags, own), Remove(tags, Below(tags, gone)).Keys,
                    Remove(alarms, Below(alarms, Below(tags, gone))))
  {
  }

  lemma TagCascade(all: Table, alarms: Table, own: set<int>, kept: set<int>, own': set<int>, gone: set<int>)
    requires Thinned(all, own, kept, alarms)
    requires forall tag :: tag in own && tag in kept && tag !in own' ==> tag in gone
    requires gone <= own - own'
    ensures Thinned(all, own, own', Remove(alarms, Below(alarms, gone)))
  {
  }

  lemma TagsAreReplaced(db: Db, cfg: Config, d: Db)
    requires Applicable(db, cfg) && GatewaysDone(db, cfg, d)
    ensures TagsDone(db, cfg, WithTags(d, cfg))
  {
    var org := cfg.orgId;
    var own, own' := OrgGateways(db, org), Ids(cfg.gateways);
    LevelIsReplaced(db.tags, d.tags, db.gateways.Keys, own, own', cfg.tags);
    BelowReplaced(db.tags, db.gateways.Keys, own, own', cfg.tags);
    var d' := WithTags(d, cfg);
    TagsGone(db, cfg, d);
    TagCascade(db.alarms, d.alarms, OrgTags(db, org), d.tags.Keys, Ids(cfg.tags),
               Below(PutAll(d.tags, cfg.tags), own') - Ids(cfg.tags));
    assert OrgGateways(d', org) == own';
  }

  /** The tags deleted as missing are those of the organization that are still there and not in the payload. */
  lemma TagsGone(db: Db, cfg: Config, d: Db)
    requires Applicable(db, cfg) && GatewaysDone(db, cfg, d)
    ensures var gone := Below(PutAll(d.tags, cfg.tags), Ids(cfg.gateways)) - Ids(cfg.tags);
            && gone <= OrgTags(db, cfg.orgId) - Ids(cfg.tags)
            && (forall tag :: tag in OrgTags(db, cfg.orgId) && tag in d.tags.Keys && tag !in Ids(cfg.tags) ==>
                  tag in gone)
  {
    PutAllRows(d.tags, cfg.tags);
    var written := PutAll(d.tags, cfg.tags);
    forall tag | tag in written && tag !in Ids(cfg.tags)
      ensures tag in d.tags && written[tag] == db.tags[tag]
      ensures db.tags[tag].parent in Ids(cfg.gateways) ==> tag in OrgTags(db, cfg.orgId)
    {
      assert db.tags[tag].parent in db.gateways.Keys;
    }
  }

  lemma AlarmsAreReplaced(db: Db, cfg: Config, d: Db)
    requires Applicable(db, cfg) && TagsDone(db, cfg, d)
    ensures WithAlarms(d, cfg) == d.(alarms := Replaced(db.alarms, OrgAlarms(db, cfg.orgId), cfg.alarms))
  {
    LevelIsReplaced(db.alarms, d.alarms, db.tags.Keys, OrgTags(db, cfg.orgId), Ids(cfg.tags), cfg.alarms);
    var upserted := d.(alarms := PutAll(d.alarms, cfg.alarms));
    assert OrgAlarms(upserted, cfg.orgId) == Below(upserted.alarms, Ids(cfg.tags));
  }

  lemma ParentsInMore(items: seq<Item>, parents: set<int>, more: set<int>)
    requires ParentsIn(items, parents) && parents <= more
    ensures ParentsIn(items, more)
  {
  }

  /** No upsert misses its parent. */
  lemma NothingIsRefused(db: Db, cfg: Config)
    requires Applicable(db, cfg)
    ensures var d2 := WithHierarchy(db, cfg); var d3 := WithGateways(d2, cfg); var d4 := WithTags(d3, cfg);
            && ParentsIn(cfg.sites, WithOrg(db, cfg).orgs.Keys) && ParentsIn(cfg.areas, d2.sites.Keys)
            && ParentsIn(cfg.gateways, d2.areas.Keys) && ParentsIn(cfg.tags, d3.gateways.Keys)
            && ParentsIn(cfg.alarms, d4.tags.Keys)
  {
    HierarchyGrows(db, cfg);
    GatewaysAreReplaced(db, cfg);
    var d2 := WithHierarchy(db, cfg);
    var d3 := WithGateways(d2, cfg);
    TagsAreReplaced(db, cfg, d3);
    var d4 := WithTags(d3, cfg);
    ParentsInMore(cfg.sites, {cfg.orgId}, WithOrg(db, cfg).orgs.Keys);
    ParentsInMore(cfg.areas, Ids(cfg.sites), d2.sites.Keys);
    ParentsInMore(cfg.gateways, Ids(cfg.areas), d2.areas.Keys);
    OwnIsStored(d3, cfg.orgId);
    ParentsInMore(cfg.tags, Ids(cfg.gateways), d3.gateways.Keys);
    OwnIsStored(d4, cfg.orgId);
    ParentsInMore(cfg.alarms, Ids(cfg.tags), d4.tags.Keys);
  }

  lemma OwnIsStored(d: Db, org: int)
    ensures OrgGateways(d, org) <= d.gateways.Keys && OrgTags(d, org) <= d.tags.Keys
  {
  }

  lemma StepsMirror(db: Db, cfg: Config)
    requires Applicable(db, cfg)
    ensures WithSettings(WithAlarms(WithTags(WithGateways(WithHierarchy(db, cfg), cfg), cfg), cfg), cfg)
            == MirroredTables(db, cfg)
  {
    GatewaysAreReplaced(db, cfg);
    var d3 := WithGateways(WithHierarchy(db, cfg), cfg);
    TagsAreReplaced(db, cfg, d3);
    var d4 := WithTags(d3, cfg);
    AlarmsAreReplaced(db, cfg, d4);
    DoneIsMirrored(db, cfg, d4, WithAlarms(d4, cfg));
  }

  lemma DoneIsMirrored(db: Db, cfg: Config, d: Db, d': Db)
    requires TagsDone(db, cfg, d) && d' == d.(alarms := Replaced(db.alarms, OrgAlarms(db, cfg.orgId), cfg.alarms))
    ensures WithSettings(d', cfg) == MirroredTables(db, cfg)
  {
  }

  /** A closed configuration is applied, and the result is the mirror: however the
      organization's rows looked before, whichever of them the cascades take on the way. */
  lemma ApplyMirrors(db: Db, cfg: Config)
    requires Applicable(db, cfg)
    ensures Applied(db, cfg) == Ok(Mirrored(db, cfg))
  {
    NothingIsRefused(db, cfg);
    StepsMirror(db, cfg);
  }

  // ------------------------------------------------- what the mirror is like

  lemma ReplacedRest(t: Table, own: set<int>, items: seq<Item>)
    requires Ids(items) * t.Keys <= own
    ensures Remove(Replaced(t, own, items), Ids(items)) == Remove(t, own)
  {
    PutAllKeys(map[], items);
    assert Remove(Replaced(t, own, items), Ids(items)).Keys == Remove(t, own).Keys;
  }

  lemma PutRest(t: Table, own: set<int>, items: seq<Item>)
    requires Ids(items) * t.Keys <= own
    ensures Remove(PutAll(t, items), own + Ids(items)) == Remove(t, own)
  {
    PutAllRows(t, items);
    assert Remove(PutAll(t, items), own + Ids(items)).Keys == Remove(t, own).Keys;
  }

  /** The organization's gateways, tags and alarm definitions are the payload's,
      row for row; sites and areas are only ever added or rewritten. */
  ghost predicate HoldsPayload(db: Db, cfg: Config, d: Db) {
    && OrgSites(d, cfg.orgId) == OrgSites(db, cfg.orgId) + Ids(cfg.sites)
    && OrgAreas(d, cfg.orgId) == OrgAreas(db, cfg.orgId) + Ids(cfg.areas)
    && Only(d.gateways, OrgGateways(d, cfg.orgId)) == TableOf(cfg.gateways)
    && Only(d.tags, OrgTags(d, cfg.orgId)) == TableOf(cfg.tags)
    && Only(d.alarms, OrgAlarms(d, cfg.orgId)) == TableOf(cfg.alarms)
  }

  function Only(t: Table, ids: set<int>): Table { map id | id in t && id in ids :: t[id] }

  /** What is not the organization's is the same rows before and after. */
  ghost predicate OthersUntouched(db: Db, org: int, d: Db) {
    && OtherPlantsUntouched(db, org, d)
    && Remove(d.gateways, OrgGateways(d, org)) == Remove(db.gateways, OrgGateways(db, org))
    && Remove(d.tags, OrgTags(d, org)) == Remove(db.tags, OrgTags(db, org))
    && Remove(d.alarms, OrgAlarms(d, org)) == Remove(db.alarms, OrgAlarms(db, org))
  }

  ghost predicate OtherPlantsUntouched(db: Db, org: int, d: Db) {
    && d.orgs - {org} == db.orgs - {org}
    && Remove(d.sites, OrgSites(d, org)) == Remove(db.sites, OrgSites(db, org))
    && Remove(d.areas, OrgAreas(d, org)) == Remove(db.areas, OrgAreas(db, org))
  }

  lemma MirrorOwnIds(db: Db, cfg: Config)
    requires Applicable(db, cfg)
    ensures var d := Mirrored(db, cfg); var org := cfg.orgId;
            && OrgSites(d, org) == OrgSites(db, org) + Ids(cfg.sites)
            && OrgAreas(d, org) == OrgAreas(db, org) + Ids(cfg.areas)
            && OrgGateways(d, org) == Ids(cfg.gateways) && OrgTags(d, org) == Ids(cfg.tags)
            && OrgAlarms(d, org) == Ids(cfg.alarms)
  {
    var d, org := Mirrored(db, cfg), cfg.orgId;
    HierarchyGrows(db, cfg);
    assert OrgAreas(d, org) == OrgAreas(WithHierarchy(db, cfg), org);
    BelowReplaced(db.gateways, db.areas.Keys, OrgAreas(db, org), OrgAreas(d, org), cfg.gateways);
    BelowReplaced(db.tags, db.gateways.Keys, OrgGateways(db, org), Ids(cfg.gateways), cfg.tags);
    BelowReplaced(db.alarms, db.tags.Keys, OrgTags(db, org), Ids(cfg.tags), cfg.alarms);
  }

  lemma ReplacedOnly(t: Table, own: set<int>, items: seq<Item>)
    ensures Only(Replaced(t, own, items), Ids(items)) == TableOf(items)
  {
    PutAllKeys(map[], items);
    assert Only(Replaced(t, own, items), Ids(items)).Keys == TableOf(items).Keys;
  }

  lemma MirrorHoldsPayload(db: Db, cfg: Config)
    requires Applicable(db, cfg)
    ensures HoldsPayload(db, cfg, Mirrored(db, cfg))
  {
    MirrorOwnIds(db, cfg);
    ReplacedOnly(db.gateways, OrgGateways(db, cfg.orgId), cfg.gateways);
    ReplacedOnly(db.tags, OrgTags(db, cfg.orgId), cfg.tags);
    ReplacedOnly(db.alarms, OrgAlarms(db, cfg.orgId), cfg.alarms);
  }

  lemma RenamedRest(orgs: map<int, string>, org: int, name: string)
    ensures orgs[org := name] - {org} == orgs - {org}
  {
  }

  lemma MirrorLeavesOtherPlants(db: Db, cfg: Config)
    requires Applicable(db, cfg)
    ensures OtherPlantsUntouched(db, cfg.orgId, Mirrored(db, cfg))
  {
    MirrorOwnIds(db, cfg);
    var org := cfg.orgId;
    RenamedRest(db.orgs, org, cfg.orgName);
    PutRest(db.sites, OrgSites(db, org), cfg.sites);
    PutRest(db.areas, OrgAreas(db, org), cfg.areas);
  }

  lemma MirrorLeavesOthers(db: Db, cfg: Config)
    requires Applicable(db, cfg)
    ensures OthersUntouched(db, cfg.orgId, Mirrored(db, cfg))
  {
    MirrorLeavesOtherPlants(db, cfg);
    MirrorOwnIds(db, cfg);
    var org := cfg.orgId;
    ReplacedRest(db.gateways, OrgGateways(db, org), cfg.gateways);
    ReplacedRest(db.tags, OrgTags(db, org), cfg.tags);
    ReplacedRest(db.alarms, OrgAlarms(db, org), cfg.alarms);
  }

  /** Rows that are not the organization's keep their parent, the payload's find theirs in the payload. */
  lemma ReplacedParents(t: Table, parents: set<int>, own: set<int>, items: seq<Item>, parents': set<int>)
    requires forall id :: id in t ==> t[id].parent in parents
    requires parents - own <= parents' && ParentsIn(items, parents')
    ensures forall id :: id in Replaced(t, Below(t, own), items) ==>
      Replaced(t, Below(t, own), items)[id].parent in parents'
  {
    PutAllKeys(map[], items);
    TableOfParents(items, parents');
  }

  lemma PutParents(t: Table, parents: set<int>, items: seq<Item>, parents': set<int>)
    requires forall id :: id in t ==> t[id].parent in parents
    requires parents <= parents' && ParentsIn(items, parents')
    ensures forall id :: id in PutAll(t, items) ==> PutAll(t, items)[id].parent in parents'
  {
    PutAllRows(t, items);
    TableOfParents(items, parents');
  }

  lemma MirrorKeepsPlantKeys(db: Db, cfg: Config)
    requires Applicable(db, cfg)
    ensures PlantKeys(Mirrored(db, cfg))
  {
    var d := Mirrored(db, cfg);
    PutAllKeys(db.sites, cfg.sites);
    PutParents(db.sites, db.orgs.Keys, cfg.sites, d.orgs.Keys);
    PutParents(db.areas, db.sites.Keys, cfg.areas, d.sites.Keys);
  }

  lemma MirrorKeepsForeignKeys(db: Db, cfg: Config)
    requires Applicable(db, cfg)
    ensures ForeignKeys(Mirrored(db, cfg))
  {
    MirrorKeepsPlantKeys(db, cfg);
    var d, org := Mirrored(db, cfg), cfg.orgId;
    PutAllKeys(db.areas, cfg.areas);
    PutAllKeys(map[], cfg.gateways);
    PutAllKeys(map[], cfg.tags);
    ReplacedParents(db.gateways, db.areas.Keys, OrgAreas(db, org), cfg.gateways, d.areas.Keys);
    ReplacedParents(db.tags, db.gateways.Keys, OrgGateways(db, org), cfg.tags, d.gateways.Keys);
    ReplacedParents(db.alarms, db.tags.Keys, OrgTags(db, org), cfg.alarms, d.tags.Keys);
  }

  lemma MirrorMovesSequences(db: Db, cfg: Config, level: Level)
    ensures level in Mirrored(db, cfg).sequences && Mirrored(db, cfg).sequences[level] >= 1
    ensures forall id :: id in IdsOf(Mirrored(db, cfg), level) ==> id <= Mirrored(db, cfg).sequences[level]
  {
    var d := Mirrored(db, cfg);
    match level
    case Organizations => assert d.sequences[Organizations] == Greatest(d.orgs.Keys, 1);
    case Sites => assert d.sequences[Sites] == Greatest(d.sites.Keys, 1);
    case Areas => assert d.sequences[Areas] == Greatest(d.areas.Keys, 1);
    case Gateways => assert d.sequences[Gateways] == Greatest(d.gateways.Keys, 1);
    case Tags => assert d.sequences[Tags] == Greatest(d.tags.Keys, 1);
    case AlarmDefinitions => assert d.sequences[AlarmDefinitions] == Greatest(d.alarms.Keys, 1);
  }

  /** A configuration that fits the database still fits it after another one. */
  lemma StillApplicable(db: Db, first: Config, cfg: Config)
    requires first.orgId == cfg.orgId && Applicable(db, first) && Applicable(db, cfg)
    ensures Applicable(Mirrored(db, first), cfg)
  {
    var d, org := Mirrored(db, first), cfg.orgId;
    MirrorKeepsForeignKeys(db, first);
    MirrorLeavesOthers(db, first);
    StillOwn(db.sites, OrgSites(db, org), d.sites, OrgSites(d, org), Ids(cfg.sites));
    StillOwn(db.areas, OrgAreas(db, org), d.areas, OrgAreas(d, org), Ids(cfg.areas));
    StillOwn(db.gateways, OrgGateways(db, org), d.gateways, OrgGateways(d, org), Ids(cfg.gateways));
    StillOwn(db.tags, OrgTags(db, org), d.tags, OrgTags(d, org), Ids(cfg.tags));
    StillOwn(db.alarms, OrgAlarms(db, org), d.alarms, OrgAlarms(d, org), Ids(cfg.alarms));
  }

  lemma StillOwn(t: Table, own: set<int>, t': Table, own': set<int>, ids: set<int>)
    requires Remove(t', own') == Remove(t, own) && ids * t.Keys <= own
    ensures ids * t'.Keys <= own'
  {
    forall id | id in ids * t'.Keys
      ensures id in own'
    {
      assert id in Remove(t', own') ==> id in Remove(t, own);
    }
  }

  /** A box converges: whatever was applied before for the organization, the gateways,
      tags and alarm definitions are those of the last configuration. */
  lemma LastConfigurationWins(db: Db, first: Config, cfg: Config)
    requires first.orgId == cfg.orgId && Applicable(db, first) && Applicable(db, cfg)
    ensures Applied(Mirrored(db, first), cfg) == Ok(Mirrored(Mirrored(db, first), cfg))
    ensures var d, last := Mirrored(db, cfg), Mirrored(Mirrored(db, first), cfg);
            last.gateways == d.gateways && last.tags == d.tags && last.alarms == d.alarms
  {
    StillApplicable(db, first, cfg);
    ApplyMirrors(Mirrored(db, first), cfg);
    MirrorLeavesOthers(db, first);
  }

  lemma PutTwice(t: Table, items: seq<Item>)
    ensures PutAll(PutAll(t, items), items) == PutAll(t, items)
  {
    PutAllRows(t, items);
    PutAllRows(PutAll(t, items), items);
    PutAllKeys(map[], items);
    forall id | id in PutAll(t, items)
      ensures PutAll(PutAll(t, items), items)[id] == PutAll(t, items)[id]
    {
    }
    assert PutAll(PutAll(t, items), items).Keys == PutAll(t, items).Keys;
  }

  lemma SequencesDoNotMatter(db: Db, cfg: Config)
    ensures Mirrored(WithSequences(db), cfg) == Mirrored(db, cfg)
  {
    var a, b := MirroredTables(WithSequences(db), cfg), MirroredTables(db, cfg);
    SequencesAreRecomputed(a, b);
  }

  lemma SequencesAreRecomputed(a: Db, b: Db)
    requires a == b.(sequences := a.sequences)
    ensures WithSequences(a) == WithSequences(b)
  {
  }

  lemma MirrorOfAMirror(db: Db, cfg: Config, last: Db)
    requires last == Mirrored(Mirrored(db, cfg), cfg)
    requires var d := Mirrored(db, cfg); last.gateways == d.gateways && last.tags == d.tags && last.alarms == d.alarms
    ensures last == Mirrored(db, cfg)
  {
    var d := MirroredTables(db, cfg);
    SequencesDoNotMatter(d, cfg);
    PutTwice(db.sites, cfg.sites);
    PutTwice(db.areas, cfg.areas);
    assert d.orgs[cfg.orgId := cfg.orgName] == d.orgs;
    assert MirroredTables(d, cfg) == d;
  }

  /** Applying the same configuration again changes nothing. */
  lemma ApplyIsIdempotent(db: Db, cfg: Config)
    requires Applicable(db, cfg)
    ensures Applied(Mirrored(db, cfg), cfg) == Ok(Mirrored(db, cfg))
  {
    LastConfigurationWins(db, cfg, cfg);
    MirrorOfAMirror(db, cfg, Mirrored(Mirrored(db, cfg), cfg));
  }

  // ------------------------------------------------------- the box's database

  /** One upsert after another; a row without its parent stops the transaction. */
  method WriteAll(t: Table, items: seq<Item>, parents: set<int>) returns (ok: bool, written: Table)
    ensures ok <==> ParentsIn(items, parents)
    ensures ok ==> written == PutAll(t, items)
  {
    written := t;
    for n := 0 to |items|
      invariant ParentsIn(items[..n], parents) && written == PutAll(t, items[..n])
    {
      if items[n].parent !in parents {
        return false, written;
      }
      written := written[items[n].id := Row(items[n].parent, items[n].data)];
      assert items[..n + 1][..n] == items[..n];
    }
    assert items[..|items|] == items;
    return true, written;
  }

  /** The payload's ids of one level. */
  method Listed(items: seq<Item>) returns (ids: set<int>)
    ensures ids == Ids(items)
  {
    ids := {};
    for n := 0 to |items|
      invariant ids == Ids(items[..n])
    {
      ids := ids + {items[n].id};
      assert items[..n + 1] == items[..n] + [items[n]];
    }
    assert items[..|items|] == items;
  }

  method MaxId(ids: set<int>) returns (m: int)
    ensures m == Greatest(ids, 1)
  {
    m := 1;
    var left := ids;
    while exists i :: i in left
      invariant left <= ids && m >= 1 && (m == 1 || m in ids)
      invariant forall i :: i in ids ==> i in left || i <= m
      decreases |left|
    {
      var id :| id in left;
      left := left - {id};
      if id > m {
        m := id;
      }
    }
  }

  class BoxDatabase {
    var orgs: map<int, string>
    var sites: Table
    var areas: Table
    var gateways: Table
    var tags: Table
    var alarms: Table
    var sequences: map<Level, int>
    var maxAge: Option<int>

    ghost function State(): Db
      reads this
    {
      Db(orgs, sites, areas, gateways, tags, alarms, sequences, maxAge)
    }

    /** Tags go, and their alarm definitions with them. */
    method CascadeTags(gone: set<int>)
      modifies this`tags, this`alarms
      ensures tags == Remove(old(tags), gone) && alarms == Remove(old(alarms), Below(old(alarms), gone))
    {
      tags := Remove(tags, gone);
      alarms := Remove(alarms, Below(alarms, gone));
    }

    method ApplyHierarchy(cfg: Config) returns (ok: bool)
      modifies this`sites, this`areas
      ensures ok <==> ParentsIn(cfg.sites, old(orgs).Keys) && ParentsIn(cfg.areas, PutAll(old(sites), cfg.sites).Keys)
      ensures ok ==> State() == WithAreas(WithSites(old(State()), cfg), cfg)
    {
      ok, sites := WriteAll(sites, cfg.sites, orgs.Keys);
      if ok {
        ok, areas := WriteAll(areas, cfg.areas, sites.Keys);
      }
    }

    method ApplyGateways(cfg: Config) returns (ok: bool)
      modifies this`gateways, this`tags, this`alarms
      ensures ok <==> ParentsIn(cfg.gateways, old(areas).Keys)
      ensures ok ==> State() == WithGateways(old(State()), cfg)
    {
      ok, gateways := WriteAll(gateways, cfg.gateways, areas.Keys);
      if ok {
        var keep := Listed(cfg.gateways);
        var gone := Below(gateways, Below(areas, Below(sites, {cfg.orgId}))) - keep;
        gateways := Remove(gateways, gone);
        CascadeTags(Below(tags, gone));
      }
    }

    method ApplyTags(cfg: Config) returns (ok: bool)
      modifies this`tags, this`alarms
      ensures ok <==> ParentsIn(cfg.tags, old(gateways).Keys)
      ensures ok ==> State() == WithTags(old(State()), cfg)
    {
      ok, tags := WriteAll(tags, cfg.tags, gateways.Keys);
      if ok {
        var keep := Listed(cfg.tags);
        CascadeTags(Below(tags, Below(gateways, Below(areas, Below(sites, {cfg.orgId})))) - keep);
      }
    }

    method ApplyAlarms(cfg: Config) returns (ok: bool)
      modifies this`alarms
      ensures ok <==> ParentsIn(cfg.alarms, old(tags).Keys)
      ensures ok ==> State() == WithAlarms(old(State()), cfg)
    {
      ok, alarms := WriteAll(alarms, cfg.alarms, tags.Keys);
      if ok {
        var keep := Listed(cfg.alarms);
        var ownTags := Below(tags, Below(gateways, Below(areas, Below(sites, {cfg.orgId}))));
        alarms := Remove(alarms, Below(alarms, ownTags) - keep);
      }
    }

    method MoveSequences()
      modifies this`sequences
      ensures State() == WithSequences(old(State()))
    {
      var o := MaxId(orgs.Keys);
      var s := MaxId(sites.Keys);
      var a := MaxId(areas.Keys);
      var g := MaxId(gateways.Keys);
      var t := MaxId(tags.Keys);
      var d := MaxId(alarms.Keys);
      sequences := map[Organizations := o, Sites := s, Areas := a, Gateways := g, Tags := t, AlarmDefinitions := d];
    }

    /** The transaction's statements; what they leave behind when one fails is for the caller to undo. */
    method WriteStatements(cfg: Config) returns (ok: bool)
      requires cfg.orgId > 0
      modifies this
      ensures Applied(old(State()), cfg) == if ok then Ok(State()) else Failed(ForeignKeyViolation)
    {
      orgs := orgs[cfg.orgId := cfg.orgName];
      ok := ApplyHierarchy(cfg);
      if !ok { return; }
      ok := ApplyGateways(cfg);
      if !ok { return; }
      ok := ApplyTags(cfg);
      if !ok { return; }
      ok := ApplyAlarms(cfg);
      if !ok { return; }
      if cfg.maxAge > 0 {
        maxAge := Some(cfg.maxAge);
      }
      MoveSequences();
    }

    /** Apply: commits the whole configuration or nothing of it. */
    method Apply(cfg: Config) returns (error: Option<Error>)
      modifies this
      ensures match Applied(old(State()), cfg)
              case Ok(db) => error == None && State() == db
              case Failed(e) => error == Some(e) && State() == old(State())
    {
      if cfg.orgId <= 0 {
        return Some(NoOrganization);
      }
      var o, s, a, g, t, d, q, m := orgs, sites, areas, gateways, tags, alarms, sequences, maxAge;
      var ok := WriteStatements(cfg);
      if !ok {
        orgs, sites, areas, gateways, tags, alarms, sequences, maxAge := o, s, a, g, t, d, q, m;
        return Some(ForeignKeyViolation);
      }
      return None;
    }
  }
}
