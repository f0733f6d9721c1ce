/** The boxes of an organization, together.

Each box is sent its share of the central configuration and applies it to its own database,
whatever that database held. Afterwards every gateway, tag and alarm definition of the
organization is in the database of exactly the box that owns it, with its central row, and in no
other; what the server owns is in none. */
module EdgeFleet {
  import opened Options
  import opened EdgeAssignment
  import opened EdgeApply

  /** The central configuration of an organization. */
  datatype Plant = Plant(orgId: int, orgName: string, sites: seq<Item>, areas: seq<Item>,
                         gateways: seq<Gateway>, tags: seq<Tag>, alarms: seq<Alarm>, maxAge: int)

  /** Rows as they are sent: which box a gateway is given to stays behind. */
  function GatewayItem(g: Gateway): Item { Item(g.id, g.area, g.data) }
  function TagItem(t: Tag): Item { Item(t.id, t.gateway, t.data) }
  function AlarmItem(a: Alarm): Item { Item(a.id, a.tag, a.data) }

  function GatewayItems(s: seq<Gateway>): (r: seq<Item>)
    ensures |r| == |s| && forall i :: 0 <= i < |s| ==> r[i] == GatewayItem(s[i])
  {
    seq(|s|, i requires 0 <= i < |s| => GatewayItem(s[i]))
  }

  function TagItems(s: seq<Tag>): (r: seq<Item>)
    ensures |r| == |s| && forall i :: 0 <= i < |s| ==> r[i] == TagItem(s[i])
  {
    seq(|s|, i requires 0 <= i < |s| => TagItem(s[i]))
  }

  function AlarmItems(s: seq<Alarm>): (r: seq<Item>)
    ensures |r| == |s| && forall i :: 0 <= i < |s| ==> r[i] == AlarmItem(s[i])
  {
    seq(|s|, i requires 0 <= i < |s| => AlarmItem(s[i]))
  }

  function ShareFor(p: Plant, boxes: seq<Box>, owner: int): Share {
    ShareOf(owner, boxes, p.gateways, p.tags, p.alarms)
  }

  /** What a box is sent: sites and areas whole, the rest cut to its share. */
  function Payload(p: Plant, boxes: seq<Box>, owner: int): EdgeApply.Config {
    var s := ShareFor(p, boxes, owner);
    EdgeApply.Config(p.orgId, p.orgName, p.sites, p.areas, GatewayItems(s.gateways), TagItems(s.tags),
                     AlarmItems(s.alarms), p.maxAge)
  }

  /** Central rows have one id each, and every reference leads somewhere. */
  ghost predicate Sane(p: Plant) {
    && p.orgId > 0 && Closed(p.gateways, p.tags, p.alarms)
    && ParentsIn(p.sites, {p.orgId}) && ParentsIn(p.areas, Ids(p.sites))
    && (forall g :: g in p.gateways ==> g.area in Ids(p.areas))
    && (forall a, b :: a in p.alarms && b in p.alarms && a.id == b.id ==> a == b)
  }

  // ------------------------------------------------------ from shares to tables

  lemma GatewayItemIds(s: seq<Gateway>)
    ensures Ids(GatewayItems(s)) == GatewayIds(s)
    ensures forall g :: g in s ==> GatewayItem(g) in GatewayItems(s)
  {
    forall g | g in s
      ensures GatewayItem(g) in GatewayItems(s)
    {
      var i := MemberIndex(s, g);
      assert GatewayItems(s)[i] == GatewayItem(g);
    }
    forall x | x in GatewayItems(s)
      ensures exists g :: g in s && g.id == x.id
    {
      var i := MemberIndex(GatewayItems(s), x);
      assert s[i] in s;
    }
  }

  lemma TagItemIds(s: seq<Tag>)
    ensures Ids(TagItems(s)) == TagIds(s)
    ensures forall t :: t in s ==> TagItem(t) in TagItems(s)
  {
    forall t | t in s
      ensures TagItem(t) in TagItems(s)
    {
      var i := MemberIndex(s, t);
      assert TagItems(s)[i] == TagItem(t);
    }
    forall x | x in TagItems(s)
      ensures exists t :: t in s && t.id == x.id
    {
      var i := MemberIndex(TagItems(s), x);
      assert s[i] in s;
    }
  }

  function AlarmIds(s: seq<Alarm>): set<int> { set a | a in s :: a.id }

  lemma AlarmItemIds(s: seq<Alarm>)
    ensures Ids(AlarmItems(s)) == AlarmIds(s)
    ensures forall a :: a in s ==> AlarmItem(a) in AlarmItems(s)
  {
    forall a | a in s
      ensures AlarmItem(a) in AlarmItems(s)
    {
      var i := MemberIndex(s, a);
      assert AlarmItems(s)[i] == AlarmItem(a);
    }
    forall x | x in AlarmItems(s)
      ensures exists a :: a in s && a.id == x.id
    {
      var i := MemberIndex(AlarmItems(s), x);
      assert s[i] in s;
    }
  }

  /** With one row an id, the table holds each item as it is. */
  lemma {:induction false} TableHolds(items: seq<Item>, x: Item)
    requires x in items && forall y :: y in items && y.id == x.id ==> y == x
    ensures x.id in TableOf(items) && TableOf(items)[x.id] == Row(x.parent, x.data)
  {
    var n := |items| - 1;
    if items[n].id == x.id {
      assert items[n] in items;
    } else {
      TableHolds(items[..n], x);
    }
  }

  /** A share can be written: it is closed, as the payload has to be. */
  lemma PayloadIsClosed(p: Plant, boxes: seq<Box>, owner: int)
    requires Sane(p)
    ensures ReferentiallyClosed(Payload(p, boxes, owner))
  {
    var s := ShareFor(p, boxes, owner);
    SharesAreClosed(owner, boxes, p.gateways, p.tags, p.alarms);
    OwnedByMembers(owner, boxes, p.gateways);
    GatewayItemIds(s.gateways);
    TagItemIds(s.tags);
    forall i | 0 <= i < |s.gateways|
      ensures GatewayItems(s.gateways)[i].parent in Ids(p.areas)
    {
      assert s.gateways[i] in s.gateways;
    }
    forall i | 0 <= i < |s.tags|
      ensures TagItems(s.tags)[i].parent in Ids(GatewayItems(s.gateways))
    {
      assert s.tags[i] in s.tags;
    }
    forall i | 0 <= i < |s.alarms|
      ensures AlarmItems(s.alarms)[i].parent in Ids(TagItems(s.tags))
    {
      assert s.alarms[i] in s.alarms;
    }
  }

  // --------------------------------------------------------------- one box

  /** The database is a box's own: its foreign keys hold, and no id of the share is another organization's there. */
  ghost predicate Ready(p: Plant, boxes: seq<Box>, owner: int, db: Db) {
    ForeignKeys(db) && OwnIds(db, Payload(p, boxes, owner))
  }

  /** The database holds of the organization exactly the share, row for row. */
  ghost predicate HoldsShare(d: Db, org: int, s: Share) {
    && OrgGateways(d, org) == GatewayIds(s.gateways) && OrgTags(d, org) == TagIds(s.tags)
    && OrgAlarms(d, org) == AlarmIds(s.alarms)
    && (forall g :: g in s.gateways ==> g.id in d.gateways && d.gateways[g.id] == Row(g.area, g.data))
    && (forall t :: t in s.tags ==> t.id in d.tags && d.tags[t.id] == Row(t.gateway, t.data))
    && (forall a :: a in s.alarms ==> a.id in d.alarms && d.alarms[a.id] == Row(a.tag, a.data))
  }

  lemma ReplacedHolds(t: Table, own: set<int>, items: seq<Item>, x: Item)
    requires x in items && forall y :: y in items && y.id == x.id ==> y == x
    ensures x.id in Replaced(t, own, items) && Replaced(t, own, items)[x.id] == Row(x.parent, x.data)
  {
    TableHolds(items, x);
  }

  lemma GatewaysHeld(p: Plant, boxes: seq<Box>, owner: int, t: Table, own: set<int>, g: Gateway)
    requires Sane(p) && g in ShareFor(p, boxes, owner).gateways
    ensures var r := Replaced(t, own, GatewayItems(ShareFor(p, boxes, owner).gateways));
            g.id in r && r[g.id] == Row(g.area, g.data)
  {
    var s := ShareFor(p, boxes, owner).gateways;
    OwnedByMembers(owner, boxes, p.gateways);
    GatewayItemIds(s);
    forall y | y in GatewayItems(s) && y.id == g.id
      ensures y == GatewayItem(g)
    {
      var i := MemberIndex(GatewayItems(s), y);
      assert s[i] in s;
    }
    ReplacedHolds(t, own, GatewayItems(s), GatewayItem(g));
  }

  lemma TagsHeld(p: Plant, boxes: seq<Box>, owner: int, t: Table, own: set<int>, x: Tag)
    requires Sane(p) && x in ShareFor(p, boxes, owner).tags
    ensures var r := Replaced(t, own, TagItems(ShareFor(p, boxes, owner).tags));
            x.id in r && r[x.id] == Row(x.gateway, x.data)
  {
    var s := ShareFor(p, boxes, owner).tags;
    TagsOfMembers(GatewayIds(ShareFor(p, boxes, owner).gateways), p.tags);
    TagItemIds(s);
    forall y | y in TagItems(s) && y.id == x.id
      ensures y == TagItem(x)
    {
      var i := MemberIndex(TagItems(s), y);
      assert s[i] in s;
    }
    ReplacedHolds(t, own, TagItems(s), TagItem(x));
  }

  lemma AlarmsHeld(p: Plant, boxes: seq<Box>, owner: int, t: Table, own: set<int>, x: Alarm)
    requires Sane(p) && x in ShareFor(p, boxes, owner).alarms
    ensures var r := Replaced(t, own, AlarmItems(ShareFor(p, boxes, owner).alarms));
            x.id in r && r[x.id] == Row(x.tag, x.data)
  {
    var s := ShareFor(p, boxes, owner).alarms;
    AlarmsOfMembers(TagIds(ShareFor(p, boxes, owner).tags), p.alarms);
    AlarmItemIds(s);
    forall y | y in AlarmItems(s) && y.id == x.id
      ensures y == AlarmItem(x)
    {
      var i := MemberIndex(AlarmItems(s), y);
      assert s[i] in s;
    }
    ReplacedHolds(t, own, AlarmItems(s), AlarmItem(x));
  }

  /** A box that applies what it is sent holds its share, whatever it held before. */
  lemma BoxHoldsItsShare(p: Plant, boxes: seq<Box>, owner: int, db: Db)
    requires Sane(p) && Ready(p, boxes, owner, db)
    ensures var cfg := Payload(p, boxes, owner);
            Applied(db, cfg) == Ok(Mirrored(db, cfg))
              && HoldsShare(Mirrored(db, cfg), p.orgId, ShareFor(p, boxes, owner))
  {
    var cfg, s := Payload(p, boxes, owner), ShareFor(p, boxes, owner);
    PayloadIsClosed(p, boxes, owner);
    ApplyMirrors(db, cfg);
    MirrorOwnIds(db, cfg);
    GatewayItemIds(s.gateways);
    TagItemIds(s.tags);
    AlarmItemIds(s.alarms);
    forall g | g in s.gateways
      ensures g.id in Mirrored(db, cfg).gateways && Mirrored(db, cfg).gateways[g.id] == Row(g.area, g.data)
    {
      GatewaysHeld(p, boxes, owner, db.gateways, OrgGateways(db, p.orgId), g);
    }
    forall t | t in s.tags
      ensures t.id in Mirrored(db, cfg).tags && Mirrored(db, cfg).tags[t.id] == Row(t.gateway, t.data)
    {
      TagsHeld(p, boxes, owner, db.tags, OrgTags(db, p.orgId), t);
    }
    forall a | a in s.alarms
      ensures a.id in Mirrored(db, cfg).alarms && Mirrored(db, cfg).alarms[a.id] == Row(a.tag, a.data)
    {
      AlarmsHeld(p, boxes, owner, db.alarms, OrgAlarms(db, p.orgId), a);
    }
  }

  // ------------------------------------------------------------- all boxes

  /** Box i's database after it has applied its share. */
  ghost function After(p: Plant, boxes: seq<Box>, dbs: seq<Db>, i: nat): Db
    requires i < |boxes| == |dbs|
  {
    Mirrored(dbs[i], Payload(p, boxes, boxes[i].id))
  }

  /** A tag with its alarms is at one owner. */
  ghost predicate TagAt(p: Plant, boxes: seq<Box>, dbs: seq<Db>, t: Tag, o: nat)
    requires |boxes| == |dbs|
  {
    forall i :: 0 <= i < |boxes| ==>
      && (t.id in OrgTags(After(p, boxes, dbs, i), p.orgId) <==> i == o)
      && (i == o ==>
            t.id in After(p, boxes, dbs, i).tags
            && After(p, boxes, dbs, i).tags[t.id] == Row(t.gateway, t.data))
      && forall a :: a in p.alarms && a.tag == t.id ==>
            (a.id in OrgAlarms(After(p, boxes, dbs, i), p.orgId) <==> i == o)
  }

  lemma TagInBox(p: Plant, boxes: seq<Box>, dbs: seq<Db>, t: Tag, i: nat)
    requires Sane(p) && ProperIds(boxes) && i < |boxes| == |dbs| && Ready(p, boxes, boxes[i].id, dbs[i]) && t in p.tags
    ensures var d, mine := After(p, boxes, dbs, i), TagOwner(t, boxes, p.gateways) == boxes[i].id;
            && (t.id in OrgTags(d, p.orgId) <==> mine)
            && (mine ==> t.id in d.tags && d.tags[t.id] == Row(t.gateway, t.data))
            && forall a :: a in p.alarms && a.tag == t.id ==> (a.id in OrgAlarms(d, p.orgId) <==> mine)
  {
    var owner := boxes[i].id;
    var s := ShareFor(p, boxes, owner);
    BoxHoldsItsShare(p, boxes, owner, dbs[i]);
    TagInShareIff(owner, boxes, p.gateways, p.tags, p.alarms, t);
    TagsOfMembers(GatewayIds(s.gateways), p.tags);
    AlarmsOfMembers(TagIds(s.tags), p.alarms);
    forall a | a in p.alarms && a.tag == t.id
      ensures a.id in AlarmIds(s.alarms) <==> a in s.alarms
      ensures a in s.alarms <==> t in s.tags
    {
      AlarmInShareIff(owner, boxes, p.gateways, p.tags, p.alarms, a, t);
    }
  }

  /** Once every box has applied its share, every tag of the organization and its alarms are in the
      database of exactly one box, with their central rows, or in none: the server's. */
  lemma FleetPartitionsTags(p: Plant, boxes: seq<Box>, dbs: seq<Db>, t: Tag) returns (o: nat)
    requires Sane(p) && ProperIds(boxes) && |dbs| == |boxes| && t in p.tags
    requires forall i :: 0 <= i < |boxes| ==> Ready(p, boxes, boxes[i].id, dbs[i])
    ensures o <= |boxes| && TagOwner(t, boxes, p.gateways) == OwnerAt(boxes, o) && TagAt(p, boxes, dbs, t, o)
  {
    o := TagOwnerIsOne(t, boxes, p.gateways);
    forall i | 0 <= i < |boxes|
      ensures t.id in OrgTags(After(p, boxes, dbs, i), p.orgId) <==> i == o
      ensures i == o ==>
        t.id in After(p, boxes, dbs, i).tags && After(p, boxes, dbs, i).tags[t.id] == Row(t.gateway, t.data)
      ensures forall a :: a in p.alarms && a.tag == t.id ==>
        (a.id in OrgAlarms(After(p, boxes, dbs, i), p.orgId) <==> i == o)
    {
      TagInBox(p, boxes, dbs, t, i);
    }
  }

  /** And so is every gateway. */
  lemma FleetPartitionsGateways(p: Plant, boxes: seq<Box>, dbs: seq<Db>, g: Gateway) returns (o: nat)
    requires Sane(p) && ProperIds(boxes) && |dbs| == |boxes| && g in p.gateways
    requires forall i :: 0 <= i < |boxes| ==> Ready(p, boxes, boxes[i].id, dbs[i])
    ensures o <= |boxes| && Owner(g, boxes) == OwnerAt(boxes, o)
    ensures forall i :: 0 <= i < |boxes| ==>
      && (g.id in OrgGateways(After(p, boxes, dbs, i), p.orgId) <==> i == o)
      && (i == o ==>
            g.id in After(p, boxes, dbs, i).gateways
            && After(p, boxes, dbs, i).gateways[g.id] == Row(g.area, g.data))
  {
    o := OwnerIsOne(g, boxes);
    forall i | 0 <= i < |boxes|
      ensures g.id in OrgGateways(After(p, boxes, dbs, i), p.orgId) <==> i == o
      ensures i == o ==>
        g.id in After(p, boxes, dbs, i).gateways && After(p, boxes, dbs, i).gateways[g.id] == Row(g.area, g.data)
    {
      BoxHoldsItsShare(p, boxes, boxes[i].id, dbs[i]);
      OwnedByMembers(boxes[i].id, boxes, p.gateways);
    }
  }
}
