/** Who polls which gateway.

Every gateway is polled by exactly one thing: its box, or the server. `Owner` is the
rule; the lists the boxes and the server poll by are cut with it, and `FilterTree` cuts
a whole configuration down to one box. */
module EdgeAssignment {
  import opened Options

  const SERVER := 0

  datatype Scope = ScopeAssigned | ScopeAll

  datatype Box = Box(id: int, scope: Scope)

  /** `data` stands for the columns the assignment does not look at. */
  datatype Gateway = Gateway(id: int, agent: Option<int>, area: int, data: string)
  datatype Tag = Tag(id: int, gateway: int, data: string)
  datatype Alarm = Alarm(id: int, tag: int, data: string)

  // ------------------------------------------------------------- the rule

  predicate HasBox(boxes: seq<Box>, id: int) { exists i :: 0 <= i < |boxes| && boxes[i].id == id }

  /** The box that takes what nobody was given, or the server. */
  function Fallback(boxes: seq<Box>): int {
    if |boxes| == 0 then SERVER
    else if boxes[0].scope.ScopeAll? then boxes[0].id
    else Fallback(boxes[1..])
  }

  /** The rule: the box a gateway was given to, if it still exists; else the first box
      that takes everything; else the server. */
  function Owner(gw: Gateway, boxes: seq<Box>): int {
    if gw.agent.Some? && HasBox(boxes, gw.agent.value) then gw.agent.value else Fallback(boxes)
  }

  /** The gateway was given to a box that is there. */
  predicate IsGiven(gw: Gateway, boxes: seq<Box>) { gw.agent.Some? && exists b :: b in boxes && b.id == gw.agent.value }

  /** Box i is the first that takes what nobody was given. */
  predicate TakesTheRest(boxes: seq<Box>, i: int) {
    0 <= i < |boxes| && boxes[i].scope == ScopeAll && forall j :: 0 <= j < i ==> boxes[j].scope == ScopeAssigned
  }

  /** The rule from outside: the box it was given to; else the first box that takes the rest; else,
      when there is none, the server. */
  predicate IsOwner(gw: Gateway, boxes: seq<Box>, owner: int) {
    if IsGiven(gw, boxes) then gw.agent == Some(owner)
    else if forall b :: b in boxes ==> b.scope == ScopeAssigned then owner == 0
    else exists i :: 0 <= i < |boxes| && TakesTheRest(boxes, i) && boxes[i].id == owner
  }

  lemma {:induction false} FallbackTakesTheRest(boxes: seq<Box>) returns (i: nat)
    requires exists b :: b in boxes && b.scope == ScopeAll
    ensures TakesTheRest(boxes, i) && Fallback(boxes) == boxes[i].id
  {
    if boxes[0].scope == ScopeAll {
      i := 0;
    } else {
      var rest := FallbackTakesTheRest(boxes[1..]);
      i := rest + 1;
    }
  }

  lemma {:induction false} FallbackIsTheServer(boxes: seq<Box>)
    requires forall b :: b in boxes ==> b.scope == ScopeAssigned
    ensures Fallback(boxes) == 0
  {
    if |boxes| > 0 {
      assert boxes[0] in boxes;
      FallbackIsTheServer(boxes[1..]);
    }
  }

  lemma GivenIsHasBox(gw: Gateway, boxes: seq<Box>)
    ensures IsGiven(gw, boxes) <==> gw.agent.Some? && HasBox(boxes, gw.agent.value)
  {
    if IsGiven(gw, boxes) {
      var b :| b in boxes && b.id == gw.agent.value;
      var i := MemberIndex(boxes, b);
      assert boxes[i].id == gw.agent.value;
    }
    if gw.agent.Some? && HasBox(boxes, gw.agent.value) {
      var i :| 0 <= i < |boxes| && boxes[i].id == gw.agent.value;
      assert boxes[i] in boxes;
    }
  }

  lemma OwnerIsRight(gw: Gateway, boxes: seq<Box>)
    ensures IsOwner(gw, boxes, Owner(gw, boxes))
  {
    GivenIsHasBox(gw, boxes);
    if !IsGiven(gw, boxes) {
      if exists b :: b in boxes && b.scope == ScopeAll {
        var i := FallbackTakesTheRest(boxes);
      } else {
        FallbackIsTheServer(boxes);
      }
    }
  }

  lemma OneFirst(boxes: seq<Box>, i: nat, j: nat)
    requires TakesTheRest(boxes, i) && TakesTheRest(boxes, j)
    ensures i == j
  {
  }

  /** One owner fits the rule, and it is the one found. */
  lemma IsOwnerIff(gw: Gateway, boxes: seq<Box>, owner: int)
    ensures IsOwner(gw, boxes, owner) <==> owner == Owner(gw, boxes)
  {
    OwnerIsRight(gw, boxes);
    if IsOwner(gw, boxes, owner) && !IsGiven(gw, boxes) && exists b :: b in boxes && b.scope == ScopeAll {
      var i :| 0 <= i < |boxes| && TakesTheRest(boxes, i) && boxes[i].id == owner;
      var j :| 0 <= j < |boxes| && TakesTheRest(boxes, j) && boxes[j].id == Owner(gw, boxes);
      OneFirst(boxes, i, j);
    }
  }

  /** Boxes have positive ids: a gateway is the server's exactly when it was given to no box that is
      there and none takes the rest. */
  lemma ServerOwnsIff(gw: Gateway, boxes: seq<Box>)
    requires ProperIds(boxes)
    ensures IsOwner(gw, boxes, 0) <==> !IsGiven(gw, boxes) && forall b :: b in boxes ==> b.scope == ScopeAssigned
  {
    if IsGiven(gw, boxes) {
      var b :| b in boxes && b.id == gw.agent.value;
      var i := MemberIndex(boxes, b);
    }
  }

  method FindOwner(gw: Gateway, boxes: seq<Box>) returns (owner: int)
    ensures owner == Owner(gw, boxes) && IsOwner(gw, boxes, owner)
  {
    OwnerIsRight(gw, boxes);
    if gw.agent.Some? {
      for i := 0 to |boxes|
        invariant forall j :: 0 <= j < i ==> boxes[j].id != gw.agent.value
      {
        if boxes[i].id == gw.agent.value {
          return boxes[i].id;
        }
      }
    }
    for i := 0 to |boxes|
      invariant Fallback(boxes) == Fallback(boxes[i..])
    {
      if boxes[i].scope.ScopeAll? {
        return boxes[i].id;
      }
    }
    return SERVER;
  }

  /** The fallback is the server or a box of the list. */
  lemma {:induction false} FallbackIsABox(boxes: seq<Box>)
    ensures Fallback(boxes) == SERVER || HasBox(boxes, Fallback(boxes))
  {
    if |boxes| > 0 && !boxes[0].scope.ScopeAll? {
      FallbackIsABox(boxes[1..]);
      if Fallback(boxes) != SERVER {
        var i :| 0 <= i < |boxes[1..]| && boxes[1..][i].id == Fallback(boxes);
        assert boxes[i + 1].id == Fallback(boxes);
      }
    }
  }

  // ----------------------------------------------------------- the lists

  /** out[n] is all[at[n]], and nothing else of all is to be kept: what is kept, in its order, as often. */
  ghost predicate KeepsAt<T>(out: seq<T>, all: seq<T>, keep: T -> bool, at: seq<nat>) {
    && |at| == |out|
    && (forall m, n :: 0 <= m < n < |at| ==> at[m] < at[n])
    && (forall n :: 0 <= n < |at| ==> at[n] < |all| && out[n] == all[at[n]] && keep(out[n]))
    && (forall i :: 0 <= i < |all| && keep(all[i]) ==> i in at)
  }

  lemma KeepsAtSnoc<T>(out: seq<T>, all: seq<T>, keep: T -> bool, at: seq<nat>, x: T)
    requires KeepsAt(out, all, keep, at) && keep(x)
    ensures KeepsAt(out + [x], all + [x], keep, at + [|all|])
  {
    var at', all' := at + [|all|], all + [x];
    forall i | 0 <= i < |all'| && keep(all'[i])
      ensures i in at'
    {
      assert i < |all| ==> i in at;
      assert at'[|at|] == |all|;
    }
  }

  lemma KeepsAtSkip<T>(out: seq<T>, all: seq<T>, keep: T -> bool, at: seq<nat>, x: T)
    requires KeepsAt(out, all, keep, at) && !keep(x)
    ensures KeepsAt(out, all + [x], keep, at)
  {
    var all' := all + [x];
    forall i | 0 <= i < |all'| && keep(all'[i])
      ensures i in at
    {
      assert all'[i] == if i < |all| then all[i] else x;
    }
  }

  /** What of all is to be kept. */
  function Filter<T>(all: seq<T>, keep: T -> bool): seq<T> {
    if |all| == 0 then [] else Filter(all[..|all| - 1], keep) + if keep(all[|all| - 1]) then [all[|all| - 1]] else []
  }

  lemma {:induction false} FilterKeeps<T>(all: seq<T>, keep: T -> bool) returns (at: seq<nat>)
    ensures KeepsAt(Filter(all, keep), all, keep, at)
  {
    at := [];
    if |all| > 0 {
      var n := |all| - 1;
      at := FilterKeeps(all[..n], keep);
      assert all[..n] + [all[n]] == all;
      if keep(all[n]) {
        KeepsAtSnoc(Filter(all[..n], keep), all[..n], keep, at, all[n]);
        at := at + [n];
      } else {
        KeepsAtSkip(Filter(all[..n], keep), all[..n], keep, at, all[n]);
      }
    }
  }

  function OwnedTest(boxes: seq<Box>, owner: int): Gateway -> bool { (g: Gateway) => IsOwner(g, boxes, owner) }

  function OwnedBy(owner: int, boxes: seq<Box>, gws: seq<Gateway>): seq<Gateway> {
    if |gws| == 0 then []
    else
      OwnedBy(owner, boxes, gws[..|gws| - 1])
      + if Owner(gws[|gws| - 1], boxes) == owner then [gws[|gws| - 1]] else []
  }

  /** An owner's list is exactly its gateways, in their order. */
  lemma {:induction false} OwnedByIsFilter(owner: int, boxes: seq<Box>, gws: seq<Gateway>)
    ensures OwnedBy(owner, boxes, gws) == Filter(gws, OwnedTest(boxes, owner))
  {
    if |gws| > 0 {
      OwnedByIsFilter(owner, boxes, gws[..|gws| - 1]);
      IsOwnerIff(gws[|gws| - 1], boxes, owner);
    }
  }

  method ListOwnedBy(owner: int, boxes: seq<Box>, gws: seq<Gateway>) returns (out: seq<Gateway>)
    ensures out == OwnedBy(owner, boxes, gws) == Filter(gws, OwnedTest(boxes, owner))
  {
    out := [];
    for i := 0 to |gws|
      invariant out == OwnedBy(owner, boxes, gws[..i])
    {
      assert gws[..i + 1][..i] == gws[..i];
      var o := FindOwner(gws[i], boxes);
      if o == owner {
        out := out + [gws[i]];
      }
    }
    assert gws[..|gws|] == gws;
    OwnedByIsFilter(owner, boxes, gws);
  }

  /** Agent zero is a key from before boxes had identities: it gets everything. */
  function GatewaysFor(agent: int, boxes: seq<Box>, gws: seq<Gateway>): seq<Gateway> {
    if agent == SERVER then gws else OwnedBy(agent, boxes, gws)
  }

  function ServerGateways(boxes: seq<Box>, gws: seq<Gateway>): seq<Gateway> { OwnedBy(SERVER, boxes, gws) }

  predicate ProperIds(boxes: seq<Box>) {
    && (forall i :: 0 <= i < |boxes| ==> boxes[i].id > 0)
    && (forall i, j :: 0 <= i < j < |boxes| ==> boxes[i].id != boxes[j].id)
  }

  lemma {:induction false} OwnedByMembers(owner: int, boxes: seq<Box>, gws: seq<Gateway>)
    ensures forall g :: g in OwnedBy(owner, boxes, gws) <==> g in gws && Owner(g, boxes) == owner
  {
    if |gws| > 0 {
      OwnedByMembers(owner, boxes, gws[..|gws| - 1]);
      assert gws == gws[..|gws| - 1] + [gws[|gws| - 1]];
    }
  }

  /** What all the boxes poll, list after list. */
  function AllBoxes(boxes: seq<Box>, upTo: nat, gws: seq<Gateway>): seq<Gateway>
    requires upTo <= |boxes|
  {
    if upTo == 0 then [] else AllBoxes(boxes, upTo - 1, gws) + GatewaysFor(boxes[upTo - 1].id, boxes, gws)
  }

  /** With proper ids an owner is the server or one box. */
  lemma OwnerIsOne(gw: Gateway, boxes: seq<Box>) returns (i: nat)
    requires ProperIds(boxes)
    ensures i <= |boxes|
    ensures i == |boxes| ==> Owner(gw, boxes) == SERVER
    ensures i < |boxes| ==> Owner(gw, boxes) == boxes[i].id
    ensures forall j :: 0 <= j < |boxes| && j != i ==> boxes[j].id != Owner(gw, boxes)
  {
    FallbackIsABox(boxes);
    if Owner(gw, boxes) == SERVER {
      i := |boxes|;
    } else {
      i :| 0 <= i < |boxes| && boxes[i].id == Owner(gw, boxes);
    }
  }

  /** How often a gateway is in a list. */
  function Times(s: seq<Gateway>, x: Gateway): nat {
    if |s| == 0 then 0 else Times(s[..|s| - 1], x) + if s[|s| - 1] == x then 1 else 0
  }

  lemma {:induction false} TimesIsMultiplicity(s: seq<Gateway>, x: Gateway)
    ensures Times(s, x) == multiset(s)[x]
  {
    if |s| > 0 {
      TimesIsMultiplicity(s[..|s| - 1], x);
      assert s == s[..|s| - 1] + [s[|s| - 1]];
    }
  }

  lemma {:induction false} TimesConcat(a: seq<Gateway>, b: seq<Gateway>, x: Gateway)
    ensures Times(a + b, x) == Times(a, x) + Times(b, x)
  {
    if |b| == 0 {
      assert a + b == a;
    } else {
      TimesConcat(a, b[..|b| - 1], x);
      assert (a + b)[..|a + b| - 1] == a + b[..|b| - 1];
    }
  }

  lemma {:induction false} OwnedByTimes(owner: int, boxes: seq<Box>, gws: seq<Gateway>, x: Gateway)
    ensures Times(OwnedBy(owner, boxes, gws), x) == if Owner(x, boxes) == owner then Times(gws, x) else 0
  {
    if |gws| > 0 {
      var init, last := gws[..|gws| - 1], gws[|gws| - 1];
      OwnedByTimes(owner, boxes, init, x);
      if Owner(last, boxes) == owner {
        assert Times([last], x) == (if last == x then 1 else 0) by { assert [last][..0] == []; }
        TimesConcat(OwnedBy(owner, boxes, init), [last], x);
      } else {
        assert OwnedBy(owner, boxes, gws) == OwnedBy(owner, boxes, init);
      }
    }
  }

  predicate OwnedUpTo(boxes: seq<Box>, upTo: nat, owner: int)
    requires upTo <= |boxes|
  {
    exists j :: 0 <= j < upTo && boxes[j].id == owner
  }

  /** n, once for every one of the first boxes that is the owner. */
  function PerOwner(boxes: seq<Box>, upTo: nat, owner: int, n: nat): nat
    requires upTo <= |boxes|
  {
    if upTo == 0 then 0 else PerOwner(boxes, upTo - 1, owner, n) + if boxes[upTo - 1].id == owner then n else 0
  }

  /** With distinct ids, once at most. */
  lemma {:induction false} PerOwnerIsOnce(boxes: seq<Box>, upTo: nat, owner: int, n: nat)
    requires ProperIds(boxes) && upTo <= |boxes|
    ensures PerOwner(boxes, upTo, owner, n) == if OwnedUpTo(boxes, upTo, owner) then n else 0
  {
    if upTo > 0 {
      PerOwnerIsOnce(boxes, upTo - 1, owner, n);
      OwnedByOneMore(boxes, upTo, owner);
    }
  }

  lemma OwnedByOneMore(boxes: seq<Box>, upTo: nat, owner: int)
    requires ProperIds(boxes) && 0 < upTo <= |boxes|
    ensures OwnedUpTo(boxes, upTo, owner) <==> OwnedUpTo(boxes, upTo - 1, owner) || boxes[upTo - 1].id == owner
    ensures !(OwnedUpTo(boxes, upTo - 1, owner) && boxes[upTo - 1].id == owner)
  {
  }

  function BoxTimes(boxes: seq<Box>, i: nat, gws: seq<Gateway>, x: Gateway): nat
    requires i < |boxes|
  {
    Times(GatewaysFor(boxes[i].id, boxes, gws), x)
  }

  lemma TimesForBox(boxes: seq<Box>, i: nat, gws: seq<Gateway>, x: Gateway)
    requires ProperIds(boxes) && i < |boxes|
    ensures BoxTimes(boxes, i, gws, x) == if boxes[i].id == Owner(x, boxes) then Times(gws, x) else 0
  {
    OwnedByTimes(boxes[i].id, boxes, gws, x);
  }

  /** How often a gateway is in the lists of the first boxes, list by list. */
  function InLists(counts: seq<nat>): nat {
    if |counts| == 0 then 0 else InLists(counts[..|counts| - 1]) + counts[|counts| - 1]
  }

  lemma {:induction false} AllBoxesTimes(boxes: seq<Box>, upTo: nat, gws: seq<Gateway>, x: Gateway, counts: seq<nat>)
    requires upTo <= |boxes| && |counts| == upTo && forall i :: 0 <= i < upTo ==>
      counts[i] == BoxTimes(boxes, i, gws, x)
    ensures Times(AllBoxes(boxes, upTo, gws), x) == InLists(counts)
  {
    if upTo > 0 {
      AllBoxesTimes(boxes, upTo - 1, gws, x, counts[..upTo - 1]);
      TimesConcat(AllBoxes(boxes, upTo - 1, gws), GatewaysFor(boxes[upTo - 1].id, boxes, gws), x);
    }
  }

  lemma {:induction false} CountsPerOwner(boxes: seq<Box>, counts: seq<nat>, owner: int, n: nat)
    requires |counts| <= |boxes| && forall i :: 0 <= i < |counts| ==> counts[i] == if boxes[i].id == owner then n else 0
    ensures InLists(counts) == PerOwner(boxes, |counts|, owner, n)
  {
    if |counts| > 0 {
      CountsPerOwner(boxes, counts[..|counts| - 1], owner, n);
    }
  }

  lemma AllBoxesPerOwner(boxes: seq<Box>, gws: seq<Gateway>, x: Gateway)
    requires ProperIds(boxes)
    ensures Times(AllBoxes(boxes, |boxes|, gws), x) == PerOwner(boxes, |boxes|, Owner(x, boxes), Times(gws, x))
  {
    var counts := seq(|boxes|, i requires 0 <= i < |boxes| => BoxTimes(boxes, i, gws, x));
    AllBoxesTimes(boxes, |boxes|, gws, x, counts);
    forall i | 0 <= i < |counts|
      ensures counts[i] == if boxes[i].id == Owner(x, boxes) then Times(gws, x) else 0
    {
      TimesForBox(boxes, i, gws, x);
    }
    CountsPerOwner(boxes, counts, Owner(x, boxes), Times(gws, x));
  }

  /** Among the boxes' lists and the server's a gateway is as often as it was there. */
  lemma PolledOnce(boxes: seq<Box>, gws: seq<Gateway>, x: Gateway)
    requires ProperIds(boxes)
    ensures Times(AllBoxes(boxes, |boxes|, gws), x) + Times(ServerGateways(boxes, gws), x) == Times(gws, x)
  {
    var owner, n := Owner(x, boxes), Times(gws, x);
    AllBoxesPerOwner(boxes, gws, x);
    PerOwnerIsOnce(boxes, |boxes|, owner, n);
    OwnedByTimes(SERVER, boxes, gws, x);
    var i := OwnerIsOne(x, boxes);
  }

  /** Every gateway is polled by exactly one thing: the boxes' lists and the server's
      together are the gateways, each as often as it was there. */
  lemma EveryGatewayHasOnePoller(boxes: seq<Box>, gws: seq<Gateway>)
    requires ProperIds(boxes)
    ensures multiset(AllBoxes(boxes, |boxes|, gws)) + multiset(ServerGateways(boxes, gws)) == multiset(gws)
  {
    forall x
      ensures multiset(AllBoxes(boxes, |boxes|, gws))[x] + multiset(ServerGateways(boxes, gws))[x] == multiset(gws)[x]
    {
      PolledOnce(boxes, gws, x);
      TimesIsMultiplicity(AllBoxes(boxes, |boxes|, gws), x);
      TimesIsMultiplicity(ServerGateways(boxes, gws), x);
      TimesIsMultiplicity(gws, x);
    }
  }

  // ----------------------------------------------------------- stability

  function Without(boxes: seq<Box>, id: int): seq<Box> {
    if |boxes| == 0 then []
    else (if boxes[0].id == id then [] else [boxes[0]]) + Without(boxes[1..], id)
  }

  lemma {:induction false} WithoutKeepsOthers(boxes: seq<Box>, id: int, other: int)
    ensures HasBox(Without(boxes, id), other) <==> HasBox(boxes, other) && other != id
  {
    if |boxes| > 0 {
      WithoutKeepsOthers(boxes[1..], id, other);
      var rest := Without(boxes, id);
      assert boxes == [boxes[0]] + boxes[1..];
      HasBoxCons(boxes[0], boxes[1..], other);
      if boxes[0].id != id {
        HasBoxCons(boxes[0], Without(boxes[1..], id), other);
      } else {
        assert rest == Without(boxes[1..], id);
      }
    }
  }

  lemma HasBoxCons(b: Box, rest: seq<Box>, id: int)
    ensures HasBox([b] + rest, id) <==> b.id == id || HasBox(rest, id)
  {
    var all := [b] + rest;
    if HasBox(rest, id) {
      var i :| 0 <= i < |rest| && rest[i].id == id;
      assert all[i + 1].id == id;
    }
    if b.id == id {
      assert all[0].id == id;
    }
    if HasBox(all, id) && b.id != id {
      var i :| 0 <= i < |all| && all[i].id == id;
      assert rest[i - 1].id == id;
    }
  }

  lemma {:induction false} FallbackWithout(boxes: seq<Box>, id: int)
    requires Fallback(boxes) != id
    ensures Fallback(Without(boxes, id)) == Fallback(boxes)
  {
    if |boxes| > 0 && !boxes[0].scope.ScopeAll? {
      FallbackWithout(boxes[1..], id);
      if boxes[0].id == id {
        assert Without(boxes, id) == Without(boxes[1..], id);
      } else {
        assert Without(boxes, id)[1..] == Without(boxes[1..], id);
      }
    }
  }

  /** Deleting a box changes the owner of the gateways it owned, and of no other. */
  lemma DeletingABoxIsLocal(gw: Gateway, boxes: seq<Box>, id: int)
    requires Owner(gw, boxes) != id
    ensures Owner(gw, Without(boxes, id)) == Owner(gw, boxes)
  {
    if gw.agent.Some? {
      WithoutKeepsOthers(boxes, id, gw.agent.value);
    }
    if !(gw.agent.Some? && HasBox(boxes, gw.agent.value)) {
      FallbackWithout(boxes, id);
    }
  }

  /** And what it owned is not left to a box that is gone. */
  lemma DeletedBoxOwnsNothing(gw: Gateway, boxes: seq<Box>, id: int)
    requires id != SERVER
    ensures Owner(gw, Without(boxes, id)) != id
  {
    FallbackIsABox(Without(boxes, id));
    WithoutKeepsOthers(boxes, id, id);
  }

  /** An assignment to a box that does not exist is no assignment. */
  lemma DanglingIsUnassigned(gw: Gateway, boxes: seq<Box>)
    requires gw.agent.Some? && !HasBox(boxes, gw.agent.value)
    ensures Owner(gw, boxes) == Owner(gw.(agent := None), boxes)
  {
  }

  // --------------------------------------------------------- FilterTree

  function TagsOf(kept: set<int>, tags: seq<Tag>): seq<Tag> {
    if |tags| == 0 then []
    else TagsOf(kept, tags[..|tags| - 1]) + if tags[|tags| - 1].gateway in kept then [tags[|tags| - 1]] else []
  }

  function AlarmsOf(kept: set<int>, alarms: seq<Alarm>): seq<Alarm> {
    if |alarms| == 0 then []
    else
      AlarmsOf(kept, alarms[..|alarms| - 1])
      + if alarms[|alarms| - 1].tag in kept then [alarms[|alarms| - 1]] else []
  }

  function GatewayIds(gws: seq<Gateway>): set<int> { set g | g in gws :: g.id }
  function TagIds(tags: seq<Tag>): set<int> { set t | t in tags :: t.id }

  /** The tag is on one of the gateways, and the alarm on one of the tags. */
  function TagTest(gws: seq<Gateway>): Tag -> bool { (t: Tag) => exists g :: g in gws && g.id == t.gateway }
  function AlarmTest(tags: seq<Tag>): Alarm -> bool { (a: Alarm) => exists t :: t in tags && t.id == a.tag }

  lemma {:induction false} TagsOfIsFilter(gws: seq<Gateway>, tags: seq<Tag>)
    ensures TagsOf(GatewayIds(gws), tags) == Filter(tags, TagTest(gws))
  {
    if |tags| > 0 {
      TagsOfIsFilter(gws, tags[..|tags| - 1]);
    }
  }

  lemma {:induction false} AlarmsOfIsFilter(tags: seq<Tag>, alarms: seq<Alarm>)
    ensures AlarmsOf(TagIds(tags), alarms) == Filter(alarms, AlarmTest(tags))
  {
    if |alarms| > 0 {
      AlarmsOfIsFilter(tags, alarms[..|alarms| - 1]);
    }
  }

  /** A box is left its own gateways, and the key without an identity all of them. */
  function LeftTo(agent: int, boxes: seq<Box>, all: seq<Gateway>): seq<Gateway> {
    if agent == 0 then all else Filter(all, OwnedTest(boxes, agent))
  }

  method NarrowGateways(agent: int, boxes: seq<Box>, all: seq<Gateway>) returns (kept: seq<Gateway>, unassigned: nat)
    ensures kept == GatewaysFor(agent, boxes, all) == LeftTo(agent, boxes, all)
    ensures unassigned == |ServerGateways(boxes, all)| == |Filter(all, OwnedTest(boxes, 0))|
  {
    var server := ListOwnedBy(SERVER, boxes, all);
    unassigned, kept := |server|, all;
    if agent != SERVER {
      kept := ListOwnedBy(agent, boxes, all);
    }
  }

  /** The tags on the gateways. */
  method KeepTags(gateways: seq<Gateway>, tags: seq<Tag>) returns (kept: seq<Tag>)
    ensures kept == TagsOf(GatewayIds(gateways), tags) == Filter(tags, TagTest(gateways))
  {
    TagsOfIsFilter(gateways, tags);
    var keptGateway: set<int> := {};
    for i := 0 to |gateways|
      invariant keptGateway == GatewayIds(gateways[..i])
    {
      keptGateway := keptGateway + {gateways[i].id};
      assert gateways[..i + 1] == gateways[..i] + [gateways[i]];
    }
    assert gateways[..|gateways|] == gateways;
    kept := [];
    for i := 0 to |tags|
      invariant kept == TagsOf(keptGateway, tags[..i])
    {
      assert tags[..i + 1][..i] == tags[..i];
      if tags[i].gateway in keptGateway {
        kept := kept + [tags[i]];
      }
    }
    assert tags[..|tags|] == tags;
  }

  /** The alarms on the tags. */
  method KeepAlarms(tags: seq<Tag>, alarms: seq<Alarm>) returns (kept: seq<Alarm>)
    ensures kept == AlarmsOf(TagIds(tags), alarms) == Filter(alarms, AlarmTest(tags))
  {
    AlarmsOfIsFilter(tags, alarms);
    var keptTag: set<int> := {};
    for i := 0 to |tags|
      invariant keptTag == TagIds(tags[..i])
    {
      keptTag := keptTag + {tags[i].id};
      assert tags[..i + 1] == tags[..i] + [tags[i]];
    }
    assert tags[..|tags|] == tags;
    kept := [];
    for i := 0 to |alarms|
      invariant kept == AlarmsOf(keptTag, alarms[..i])
    {
      assert alarms[..i + 1][..i] == alarms[..i];
      if alarms[i].tag in keptTag {
        kept := kept + [alarms[i]];
      }
    }
    assert alarms[..|alarms|] == alarms;
  }

  /** The part of a configuration that narrowing touches. */
  class Config {
    var gateways: seq<Gateway>
    var tags: seq<Tag>
    var alarms: seq<Alarm>
    var unassigned: nat

    constructor (gateways: seq<Gateway>, tags: seq<Tag>, alarms: seq<Alarm>)
      ensures this.gateways == gateways && this.tags == tags && this.alarms == alarms && unassigned == 0
    {
      this.gateways, this.tags, this.alarms, this.unassigned := gateways, tags, alarms, 0;
    }

    /** FilterTree: gateways first, then the tags of those, then the alarms of those. */
    method FilterTree(agent: int, boxes: seq<Box>)
      modifies this
      ensures unassigned == |ServerGateways(boxes, old(gateways))|
      ensures gateways == GatewaysFor(agent, boxes, old(gateways))
      ensures tags == TagsOf(GatewayIds(gateways), old(tags))
      ensures alarms == AlarmsOf(TagIds(tags), old(alarms))
      ensures gateways == LeftTo(agent, boxes, old(gateways))
      ensures unassigned == |Filter(old(gateways), OwnedTest(boxes, 0))|
      ensures tags == Filter(old(tags), TagTest(gateways)) && alarms == Filter(old(alarms), AlarmTest(tags))
      ensures agent != SERVER ==>
        Share(gateways, tags, alarms) == ShareOf(agent, boxes, old(gateways), old(tags), old(alarms))
    {
      gateways, unassigned := NarrowGateways(agent, boxes, gateways);
      tags := KeepTags(gateways, tags);
      alarms := KeepAlarms(tags, alarms);
    }
  }

  lemma {:induction false} TagsOfMembers(kept: set<int>, tags: seq<Tag>)
    ensures forall t :: t in TagsOf(kept, tags) <==> t in tags && t.gateway in kept
  {
    if |tags| > 0 {
      TagsOfMembers(kept, tags[..|tags| - 1]);
      assert tags == tags[..|tags| - 1] + [tags[|tags| - 1]];
    }
  }

  lemma {:induction false} AlarmsOfMembers(kept: set<int>, alarms: seq<Alarm>)
    ensures forall a :: a in AlarmsOf(kept, alarms) <==> a in alarms && a.tag in kept
  {
    if |alarms| > 0 {
      AlarmsOfMembers(kept, alarms[..|alarms| - 1]);
      assert alarms == alarms[..|alarms| - 1] + [alarms[|alarms| - 1]];
    }
  }

  /** Ids are primary keys, and every reference leads somewhere. */
  ghost predicate Closed(gws: seq<Gateway>, tags: seq<Tag>, alarms: seq<Alarm>) {
    && (forall g, h :: g in gws && h in gws && g.id == h.id ==> g == h)
    && (forall t, u :: t in tags && u in tags && t.id == u.id ==> t == u)
    && (forall t :: t in tags ==> t.gateway in GatewayIds(gws))
    && (forall a :: a in alarms ==> a.tag in TagIds(tags))
  }

  /** The configuration one owner ends up with. */
  datatype Share = Share(gateways: seq<Gateway>, tags: seq<Tag>, alarms: seq<Alarm>)

  function ShareOf(owner: int, boxes: seq<Box>, gws: seq<Gateway>, tags: seq<Tag>, alarms: seq<Alarm>): Share {
    var g := OwnedBy(owner, boxes, gws);
    var t := TagsOf(GatewayIds(g), tags);
    Share(g, t, AlarmsOf(TagIds(t), alarms))
  }

  /** A share is itself referentially closed: a box can write it. */
  lemma SharesAreClosed(owner: int, boxes: seq<Box>, gws: seq<Gateway>, tags: seq<Tag>, alarms: seq<Alarm>)
    requires Closed(gws, tags, alarms)
    ensures var s := ShareOf(owner, boxes, gws, tags, alarms); Closed(s.gateways, s.tags, s.alarms)
  {
    var s := ShareOf(owner, boxes, gws, tags, alarms);
    OwnedByMembers(owner, boxes, gws);
    TagsOfMembers(GatewayIds(s.gateways), tags);
    AlarmsOfMembers(TagIds(s.tags), alarms);
  }

  /** The owner of a tag's gateway, and of an alarm's tag. */
  ghost function TagOwner(t: Tag, boxes: seq<Box>, gws: seq<Gateway>): int
    requires t.gateway in GatewayIds(gws)
  {
    var g :| g in gws && g.id == t.gateway;
    Owner(g, boxes)
  }

  /** A tag is in an owner's share exactly when its gateway is that owner's. */
  lemma TagInShareIff(owner: int, boxes: seq<Box>, gws: seq<Gateway>, tags: seq<Tag>, alarms: seq<Alarm>, t: Tag)
    requires Closed(gws, tags, alarms) && t in tags
    ensures t in ShareOf(owner, boxes, gws, tags, alarms).tags <==> TagOwner(t, boxes, gws) == owner
  {
    var s := ShareOf(owner, boxes, gws, tags, alarms);
    OwnedByMembers(owner, boxes, gws);
    TagsOfMembers(GatewayIds(s.gateways), tags);
  }

  /** An alarm is in an owner's share exactly when its tag is. */
  lemma AlarmInShareIff(owner: int, boxes: seq<Box>, gws: seq<Gateway>, tags: seq<Tag>, alarms: seq<Alarm>, a: Alarm,
                        t: Tag)
    requires Closed(gws, tags, alarms) && a in alarms && t in tags && t.id == a.tag
    ensures a in ShareOf(owner, boxes, gws, tags, alarms).alarms <==> TagOwner(t, boxes, gws) == owner
  {
    var s := ShareOf(owner, boxes, gws, tags, alarms);
    TagInShareIff(owner, boxes, gws, tags, alarms, t);
    TagsOfMembers(GatewayIds(s.gateways), tags);
    AlarmsOfMembers(TagIds(s.tags), alarms);
  }

  lemma TagOwnerIsOne(t: Tag, boxes: seq<Box>, gws: seq<Gateway>) returns (i: nat)
    requires ProperIds(boxes) && t.gateway in GatewayIds(gws)
    ensures i <= |boxes|
    ensures TagOwner(t, boxes, gws) == if i == |boxes| then SERVER else boxes[i].id
    ensures forall j :: 0 <= j < |boxes| && j != i ==> boxes[j].id != TagOwner(t, boxes, gws)
  {
    var g :| g in gws && g.id == t.gateway && Owner(g, boxes) == TagOwner(t, boxes, gws);
    i := OwnerIsOne(g, boxes);
  }

  function OwnerAt(boxes: seq<Box>, i: nat): int
    requires i <= |boxes|
  {
    if i == |boxes| then SERVER else boxes[i].id
  }

  /** A tag and its alarm belong to one owner's share and to no other's. */
  ghost predicate OnlyIn(owner: int, boxes: seq<Box>, gws: seq<Gateway>, tags: seq<Tag>, alarms: seq<Alarm>, a: Alarm,
                         t: Tag) {
    forall o :: (t in ShareOf(o, boxes, gws, tags, alarms).tags <==> o == owner)
             && (a in ShareOf(o, boxes, gws, tags, alarms).alarms <==> o == owner)
  }

  /** Tags and alarms are partitioned with the gateways: each is in the share of exactly
      one box, or in the server's and in no box's. */
  lemma EveryTagAndAlarmHasOneOwner(boxes: seq<Box>, gws: seq<Gateway>, tags: seq<Tag>, alarms: seq<Alarm>, a: Alarm,
                                    t: Tag)
    requires ProperIds(boxes) && Closed(gws, tags, alarms) && t in tags && a in alarms && a.tag == t.id
    ensures exists i :: 0 <= i <= |boxes| && OnlyIn(OwnerAt(boxes, i), boxes, gws, tags, alarms, a, t)
  {
    var i := TagOwnerIsOne(t, boxes, gws);
    forall o
      ensures t in ShareOf(o, boxes, gws, tags, alarms).tags <==> o == OwnerAt(boxes, i)
      ensures a in ShareOf(o, boxes, gws, tags, alarms).alarms <==> o == OwnerAt(boxes, i)
    {
      TagInShareIff(o, boxes, gws, tags, alarms, t);
      AlarmInShareIff(o, boxes, gws, tags, alarms, a, t);
    }
    assert OnlyIn(OwnerAt(boxes, i), boxes, gws, tags, alarms, a, t);
  }

  lemma {:induction false} TagsOfAll(kept: set<int>, tags: seq<Tag>)
    requires forall t :: t in tags ==> t.gateway in kept
    ensures TagsOf(kept, tags) == tags
  {
    if |tags| > 0 {
      TagsOfAll(kept, tags[..|tags| - 1]);
      assert tags[|tags| - 1] in tags;
    }
  }

  lemma {:induction false} AlarmsOfAll(kept: set<int>, alarms: seq<Alarm>)
    requires forall a :: a in alarms ==> a.tag in kept
    ensures AlarmsOf(kept, alarms) == alarms
  {
    if |alarms| > 0 {
      AlarmsOfAll(kept, alarms[..|alarms| - 1]);
      assert alarms[|alarms| - 1] in alarms;
    }
  }

  /** A key without an identity keeps the whole configuration. */
  lemma LegacyKeyGetsEverything(boxes: seq<Box>, gws: seq<Gateway>, tags: seq<Tag>, alarms: seq<Alarm>)
    requires Closed(gws, tags, alarms)
    ensures var g := GatewaysFor(SERVER, boxes, gws); var t := TagsOf(GatewayIds(g), tags);
            g == gws && t == tags && AlarmsOf(TagIds(t), alarms) == alarms
  {
    TagsOfAll(GatewayIds(gws), tags);
    AlarmsOfAll(TagIds(tags), alarms);
  }
}
