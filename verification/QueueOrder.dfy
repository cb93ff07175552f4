/** The order in which a zone's updates come onto the queue. The order gated updates
    keep is that in which they are let out; between the gate and the queue no lock is
    held. */
module QueueOrder {
  import opened Wrappers
  import opened Handover
  import opened HandoverSteps
  import opened GatedUpdates

  /** What decides one zone's order: what was let out, the head that a drain has put on
      the queue included; and of the updates accepted, which are on their way from the
      gate and which the queue refused. */
  datatype Way = Way(out: seq<Item>, accepted: map<DistId, Accepted>, passing: set<DistId>, refused: set<DistId>)

  function WayOf(f: Flow, zone: ZoneKey): Way {
    var head := if zone in f.drains && f.drains[zone].answer == Some(true)
        then [Item(f.drains[zone].w.update, f.drains[zone].w.id)] else [];
    Way(Log(f.out, zone) + head, f.accepted, f.passing, f.refused)
  }

  /** What a step puts on the queue, of one zone. */
  function Puts(f: Flow, s: Step, zone: ZoneKey): seq<Item> {
    match s
    case PassedReaches(id, queued) =>
        if queued && OfZone(f.accepted, id, zone) then [Item(f.accepted[id].update, id)] else []
    case DrainReaches(z, queued) => if queued && z == zone && z in f.drains
        then [Item(f.drains[z].w.update, f.drains[z].w.id)] else []
    case _ => []
  }

  predicate OfZone(accepted: map<DistId, Accepted>, id: DistId, zone: ZoneKey) {
    id in accepted && accepted[id].zone == zone
  }

  function Within(items: seq<Item>, ids: set<DistId>): seq<Item> {
    if items == [] then []
    else Within(items[..|items| - 1], ids) + if items[|items| - 1].id in ids then [items[|items| - 1]] else []
  }

  function Without(items: seq<Item>, ids: set<DistId>): seq<Item> {
    if items == [] then []
    else Without(items[..|items| - 1], ids) + if items[|items| - 1].id in ids then [] else [items[|items| - 1]]
  }

  /** What came onto the queue, and behind it what is on its way there, is what was let
      out, in order, but for what the queue refused. */
  predicate AsLetOut(w: Way, queued: seq<Item>) {
    Without(w.out, w.refused) == queued + Within(w.out, w.passing)
  }

  /** Let out before out[n], and on its way still. */
  predicate EarlierOnItsWay(w: Way, n: nat)
    requires n <= |w.out|
  {
    exists i :: 0 <= i < n && w.out[i].id in w.passing
  }

  /** The step puts an update on the queue while one of its zone that was let out before
      it is still on its way. */
  predicate Overtakes(f: Flow, s: Step, zone: ZoneKey) {
    var w := WayOf(f, zone);
    match s
    case PassedReaches(id, queued) =>
      queued && OfZone(f.accepted, id, zone) && exists j ::
          0 <= j < |w.out| && w.out[j].id == id && EarlierOnItsWay(w, j)
    case DrainReaches(z, queued) => queued && z == zone && EarlierOnItsWay(w, |w.out|)
    case _ => false
  }

  // ---- Lists of items -----------------------------------------------------------------

  lemma OneMore(items: seq<Item>, x: Item, ids: set<DistId>)
    ensures Within(items + [x], ids) == Within(items, ids) + if x.id in ids then [x] else []
    ensures Without(items + [x], ids) == Without(items, ids) + if x.id in ids then [] else [x]
  {
    assert (items + [x])[..|items|] == items;
  }

  lemma {:induction false} SameIds(items: seq<Item>, a: set<DistId>, b: set<DistId>)
    requires forall i :: 0 <= i < |items| ==> (items[i].id in a <==> items[i].id in b)
    ensures Within(items, a) == Within(items, b) && Without(items, a) == Without(items, b)
  {
    if items != [] { SameIds(items[..|items| - 1], a, b); }
  }

  lemma {:induction false} NoneWithin(items: seq<Item>, ids: set<DistId>)
    ensures Within(items, ids) == [] <==> forall i :: 0 <= i < |items| ==> items[i].id !in ids
  {
    if items != [] { NoneWithin(items[..|items| - 1], ids); }
  }

  /** The first of those within: none before it is. */
  lemma {:induction false} FirstWithin(items: seq<Item>, ids: set<DistId>) returns (i: nat)
    requires Within(items, ids) != []
    ensures i < |items| && items[i] == Within(items, ids)[0] && items[i].id in ids
    ensures forall k :: 0 <= k < i ==> items[k].id !in ids
  {
    var init := items[..|items| - 1];
    if Within(init, ids) != [] { i := FirstWithin(init, ids); }
    else {
      NoneWithin(init, ids);
      i := |items| - 1;
    }
  }

  lemma {:induction false} DropWithin(items: seq<Item>, ids: set<DistId>, id: DistId)
    ensures Without(Within(items, ids), {id}) == Within(items, ids - {id})
  {
    if items != [] {
      var init, last := items[..|items| - 1], items[|items| - 1];
      DropWithin(init, ids, id);
      OneMore(Within(init, ids), last, {id});
      assert Within(init, ids) + [] == Within(init, ids) && Within(init, ids - {id}) + [] == Within(init, ids - {id});
    }
  }

  lemma {:induction false} DropWithout(items: seq<Item>, ids: set<DistId>, id: DistId)
    ensures Without(Without(items, ids), {id}) == Without(items, ids + {id})
  {
    if items != [] {
      var init, last := items[..|items| - 1], items[|items| - 1];
      DropWithout(init, ids, id);
      OneMore(Without(init, ids), last, {id});
      assert Without(init, ids) + [] == Without(init, ids)
          && Without(init, ids + {id}) + [] == Without(init, ids + {id});
    }
  }

  lemma {:induction false} DropApart(a: seq<Item>, b: seq<Item>, ids: set<DistId>)
    ensures Without(a + b, ids) == Without(a, ids) + Without(b, ids)
  {
    if b == [] { assert a + b == a; }
    else {
      var init, last := b[..|b| - 1], b[|b| - 1];
      DropApart(a, init, ids);
      assert a + b == (a + init) + [last];
      OneMore(a + init, last, ids);
    }
  }

  lemma {:induction false} DropNothing(items: seq<Item>, id: DistId)
    requires forall i :: 0 <= i < |items| ==> items[i].id != id
    ensures Without(items, {id}) == items
  {
    if items != [] { DropNothing(items[..|items| - 1], id); }
  }

  lemma {:induction false} DropFirst(items: seq<Item>, id: DistId)
    requires items != [] && items[0].id == id && forall i :: 1 <= i < |items| ==> items[i].id != id
    ensures Without(items, {id}) == items[1..]
  {
    assert items == [items[0]] + items[1..];
    DropApart([items[0]], items[1..], {id});
    DropNothing(items[1..], id);
    assert Without([items[0]], {id}) == [];
  }

  lemma {:induction false} WithinAre(items: seq<Item>, ids: set<DistId>, id: DistId)
    requires forall i, j :: 0 <= i < j < |items| && items[i].id == items[j].id ==> items[i].id != id
    ensures forall k, l :: 0 <= k < l < |Within(items, ids)| && Within(items, ids)[k].id == Within(items, ids)[l].id ==>
        Within(items, ids)[k].id != id
    ensures forall k :: 0 <= k < |Within(items, ids)| ==> Within(items, ids)[k] in items
  {
    if items != [] { WithinAre(items[..|items| - 1], ids, id); }
  }

  lemma AfterTheFirst(queued: seq<Item>, way: seq<Item>, left: seq<Item>, x: Item)
    requires way != []
    ensures queued + way == queued + [x] + left <==> way[0] == x && way[1..] == left
  {
    if queued + way == queued + [x] + left {
      assert way == (queued + way)[|queued|..] == (queued + [x] + left)[|queued|..] == [x] + left;
    }
  }

  // ---- One step of the way ----------------------------------------------------------------

  ghost predicate Well(w: Way, zone: ZoneKey, queued: seq<Item>) {
    && (forall i :: 0 <= i < |w.out| ==>
        w.out[i].id in w.accepted && w.accepted[w.out[i].id] == Accepted(zone, w.out[i].update))
    && (forall i, j :: 0 <= i < j < |w.out| && w.out[i].id == w.out[j].id ==>
        w.out[i].id !in w.passing && w.out[i].id !in w.refused)
    && (forall id :: id in w.passing && OfZone(w.accepted, id, zone) ==> OnTheWay(w.out, id))
    && (forall i :: 0 <= i < |queued| ==>
        queued[i].id in w.accepted && queued[i].id !in w.passing && queued[i].id !in w.refused)
  }

  predicate OnTheWay(out: seq<Item>, id: DistId) { exists i :: 0 <= i < |out| && out[i].id == id }

  /** An update of the zone passes the gate. */
  function LetThrough(w: Way, zone: ZoneKey, x: Item): Way {
    Way(w.out + [x], w.accepted[x.id := Accepted(zone, x.update)], w.passing + {x.id}, w.refused)
  }

  lemma PassingIsWell(w: Way, zone: ZoneKey, x: Item, queued: seq<Item>)
    requires Well(w, zone, queued) && x.id !in w.accepted && x.id !in w.refused && x.id !in w.passing
    ensures Well(LetThrough(w, zone, x), zone, queued)
  {
    var w' := LetThrough(w, zone, x);
    forall id | id in w'.passing && OfZone(w'.accepted, id, zone) ensures OnTheWay(w'.out, id) {
      if id == x.id { assert w'.out[|w.out|].id == id; }
      else {
        var i :| 0 <= i < |w.out| && w.out[i].id == id;
        assert w'.out[i].id == id;
      }
    }
  }

  lemma PassingGoesBehind(w: Way, zone: ZoneKey, x: Item, queued: seq<Item>)
    requires Well(w, zone, queued) && x.id !in w.accepted && x.id !in w.refused && x.id !in w.passing
    requires AsLetOut(w, queued)
    ensures AsLetOut(LetThrough(w, zone, x), queued)
  {
    ANewOneGoesBehind(w.out, x, w.passing, w.refused, queued);
  }

  lemma ANewOneGoesBehind(out: seq<Item>, x: Item, passing: set<DistId>, refused: set<DistId>, queued: seq<Item>)
    requires x.id !in refused && forall i :: 0 <= i < |out| ==> out[i].id != x.id
    requires Without(out, refused) == queued + Within(out, passing)
    ensures Without(out + [x], refused) == queued + Within(out + [x], passing + {x.id})
  {
    OneMore(out, x, passing + {x.id});
    OneMore(out, x, refused);
    SameIds(out, passing, passing + {x.id});
    assert queued + Within(out, passing) + [x] == queued + (Within(out, passing) + [x]);
  }

  /** One that passed the gate comes onto the queue, or is refused there. */
  function Reaches(w: Way, id: DistId, queued: bool): Way {
    w.(passing := w.passing - {id}, refused := if queued then w.refused else w.refused + {id})
  }

  lemma ReachingIsWell(w: Way, zone: ZoneKey, j: nat, queued: seq<Item>)
    requires Well(w, zone, queued) && j < |w.out| && w.out[j].id in w.passing && w.out[j].id !in w.refused
    ensures Well(Reaches(w, w.out[j].id, true), zone, queued + [w.out[j]])
    ensures Well(Reaches(w, w.out[j].id, false), zone, queued)
  {
  }

  lemma ReachingKeepsOrder(w: Way, zone: ZoneKey, j: nat, queued: seq<Item>)
    requires Well(w, zone, queued) && j < |w.out| && w.out[j].id in w.passing && AsLetOut(w, queued)
    ensures AsLetOut(Reaches(w, w.out[j].id, true), queued + [w.out[j]]) <==> !EarlierOnItsWay(w, j)
  {
    var x, way, left := w.out[j], Within(w.out, w.passing), Within(w.out, w.passing - {w.out[j].id});
    NoneWithin(w.out, w.passing);
    var i := FirstWithin(w.out, w.passing);
    assert EarlierOnItsWay(w, j) <==> i != j;
    DropWithin(w.out, w.passing, x.id);
    AfterTheFirst(queued, way, left, x);
    if i == j {
      WithinAre(w.out, w.passing, x.id);
      DropFirst(way, x.id);
    }
  }

  lemma RefusingKeepsOrder(w: Way, zone: ZoneKey, id: DistId, queued: seq<Item>)
    requires Well(w, zone, queued) && id in w.passing && AsLetOut(w, queued)
    ensures AsLetOut(Reaches(w, id, false), queued)
  {
    DropWithin(w.out, w.passing, id);
    DropWithout(w.out, w.refused, id);
    DropApart(queued, Within(w.out, w.passing), {id});
    DropNothing(queued, id);
  }

  /** A drain puts its head on the queue. */
  lemma DrainingIsWell(w: Way, zone: ZoneKey, x: Item, queued: seq<Item>)
    requires Well(w, zone, queued) && x.id !in w.passing && x.id !in w.refused && x.id in w.accepted
        && w.accepted[x.id] == Accepted(zone, x.update)
    ensures Well(w.(out := w.out + [x]), zone, queued + [x])
  {
    var out' := w.out + [x];
    forall id | id in w.passing && OfZone(w.accepted, id, zone) ensures OnTheWay(out', id) {
      var i :| 0 <= i < |w.out| && w.out[i].id == id;
      assert out'[i].id == id;
    }
  }

  lemma DrainingKeepsOrder(w: Way, x: Item, queued: seq<Item>)
    requires AsLetOut(w, queued) && x.id !in w.passing && x.id !in w.refused
    ensures AsLetOut(w.(out := w.out + [x]), queued + [x]) <==> !EarlierOnItsWay(w, |w.out|)
  {
    var way := Within(w.out, w.passing);
    NoneWithin(w.out, w.passing);
    OneMore(w.out, x, w.passing);
    OneMore(w.out, x, w.refused);
    if way == [] { assert queued + way + [x] == queued + [x] + way; }
    else {
      var i := FirstWithin(w.out, w.passing);
      assert queued + way + [x] == queued + (way + [x]);
      AfterTheFirst(queued, way + [x], way, x);
    }
  }

  /** What passes, reaches the queue or is refused is another zone's. */
  ghost predicate Elsewhere(w: Way, w': Way, zone: ZoneKey) {
    && w'.out == w.out
    && (forall id :: id in w.accepted ==> id in w'.accepted && w'.accepted[id] == w.accepted[id])
    && (forall id :: id in w'.passing && OfZone(w'.accepted, id, zone) ==>
        id in w.passing && OfZone(w.accepted, id, zone))
    && (forall id :: OfZone(w.accepted, id, zone) ==>
        (id in w'.passing <==> id in w.passing) && (id in w'.refused <==> id in w.refused))
    && (forall id :: id in w.accepted && (id in w'.passing || id in w'.refused) ==> id in w.passing || id in w.refused)
  }

  lemma ElsewhereNothingChanges(w: Way, w': Way, zone: ZoneKey, queued: seq<Item>)
    requires Well(w, zone, queued) && Elsewhere(w, w', zone)
    ensures Well(w', zone, queued) && (AsLetOut(w', queued) <==> AsLetOut(w, queued))
  {
    SameIds(w.out, w.passing, w'.passing);
    SameIds(w.out, w.refused, w'.refused);
  }

  // ---- One step of the flow ---------------------------------------------------------------

  lemma PassingIsAccepted(f: Flow, id: DistId)
    requires SentWell(f, id) && (id in f.accepted ==> Places(f, id) == 1)
    ensures id in f.passing ==> id in f.accepted && id !in f.refused
    ensures id in f.refused ==> id in f.accepted
  {
  }

  lemma TheHeadIsOnlyWaiting(f: Flow, zone: ZoneKey)
    requires Sound(f) && zone in f.drains && f.drains[zone].answer.None?
    ensures var w := f.drains[zone].w;
      w.id in f.accepted && f.accepted[w.id] == Accepted(zone, w.update) && w.id !in f.passing && w.id !in f.refused
  {
    var id := f.drains[zone].w.id;
    assert WaitsWell(f, zone);
    HeadWaits(f, zone);
    assert SentWell(f, id) && Places(f, id) == 1;
  }

  /** In order stays in order exactly when the step does not overtake. */
  ghost predicate OrderKept(f: Flow, f': Flow, s: Step, zone: ZoneKey, queued: seq<Item>, queued': seq<Item>) {
    && Well(WayOf(f', zone), zone, queued')
    && (AsLetOut(WayOf(f, zone), queued) ==> (AsLetOut(WayOf(f', zone), queued') <==> !Overtakes(f, s, zone)))
  }

  /** What an arrival that passes changes. */
  lemma AnArrivalThatPasses(f: Flow, zone: ZoneKey, update: ZoneUpdate, id: DistId, now: Time)
    requires WaitsWell(f, zone) && Zone(f.t, zone).want.Some? && update.acting.None?
        && Gate(f.t, zone, update, id, now).1.Passes?
    ensures var f' := Arrive(f, zone, update, id, now);
      && zone !in f.drains && f'.drains == f.drains && f'.refused == f.refused && f'.passing == f.passing + {id}
      && f'.accepted == f.accepted[id := Accepted(zone, update)] && f'.out == Write(f.out, zone, Item(update, id))
  {
  }

  lemma ArrivingKeepsOrder(f: Flow, s: Step, zone: ZoneKey, queued: seq<Item>)
    requires Sound(f) && s.Arrives? && Enabled(f, s) && Well(WayOf(f, zone), zone, queued)
    ensures OrderKept(f, Arrive(f, s.zone, s.update, s.id, s.now), s, zone, queued, queued)
  {
    assert SentWell(f, s.id) && WaitsWell(f, s.zone);
    PassingIsAccepted(f, s.id);
    var w, f', answer := WayOf(f, zone), Arrive(f, s.zone, s.update, s.id, s.now),
        Gate(f.t, s.zone, s.update, s.id, s.now).1;
    if answer.Passes? {
      AnArrivalThatPasses(f, s.zone, s.update, s.id, s.now);
      ArrivedOnTheWay(f, f', s.zone, Item(s.update, s.id), zone, queued);
    } else if answer.Waits? {
      AnArrivalThatWaits(f, s.zone, s.update, s.id, s.now);
      WaitingIsElsewhere(f, f', s.zone, s.update, s.id, zone);
      ElsewhereNothingChanges(w, WayOf(f', zone), zone, queued);
    }
  }

  lemma WaitingIsElsewhere(f: Flow, f': Flow, z: ZoneKey, update: ZoneUpdate, id: DistId, zone: ZoneKey)
    requires ArrivedAndWaits(f, f', z, update, id) && id !in f.accepted && id !in f.passing && id !in f.refused
    ensures Elsewhere(WayOf(f, zone), WayOf(f', zone), zone)
  {
  }

  lemma ArrivedOnTheWay(f: Flow, f': Flow, z: ZoneKey, x: Item, zone: ZoneKey, queued: seq<Item>)
    requires Well(WayOf(f, zone), zone, queued) && x.id !in f.accepted && x.id !in f.passing && x.id !in f.refused
        && z !in f.drains
    requires f'.drains == f.drains && f'.refused == f.refused && f'.passing == f.passing + {x.id}
    requires f'.accepted == f.accepted[x.id := Accepted(z, x.update)] && f'.out == Write(f.out, z, x)
    ensures Well(WayOf(f', zone), zone, queued)
        && (AsLetOut(WayOf(f, zone), queued) ==> AsLetOut(WayOf(f', zone), queued))
  {
    var w := WayOf(f, zone);
    if z == zone {
      assert Log(f.out, zone) + [] == Log(f.out, zone) && Log(f'.out, zone) + [] == Log(f'.out, zone);
      assert WayOf(f', zone) == LetThrough(w, zone, x);
      PassingIsWell(w, zone, x, queued);
      if AsLetOut(w, queued) { PassingGoesBehind(w, zone, x, queued); }
    } else {
      ElsewhereNothingChanges(w, WayOf(f', zone), zone, queued);
    }
  }

  lemma ReachingKeepsOrderHere(f: Flow, id: DistId, taken: bool, zone: ZoneKey, queued: seq<Item>)
    requires id in f.passing && id in f.accepted && id !in f.refused && Well(WayOf(f, zone), zone, queued)
    ensures var s := PassedReaches(id, taken);
      OrderKept(f, PassedReach(f, id, taken), s, zone, queued, queued + Puts(f, s, zone))
  {
    var w, w' := WayOf(f, zone), WayOf(PassedReach(f, id, taken), zone);
    assert w' == Reaches(w, id, taken);
    assert queued + [] == queued;
    if OfZone(f.accepted, id, zone) {
      var j := TheOneBeforeIt(w, zone, id, queued);
      assert Puts(f, PassedReaches(id, taken), zone) == if taken then [w.out[j]] else [];
      ReachedOnTheWay(w, zone, j, queued);
    } else {
      ElsewhereNothingChanges(w, w', zone, queued);
    }
  }

  lemma TheOneBeforeIt(w: Way, zone: ZoneKey, id: DistId, queued: seq<Item>) returns (j: nat)
    requires Well(w, zone, queued) && id in w.passing && OfZone(w.accepted, id, zone)
    ensures j < |w.out| && w.out[j] == Item(w.accepted[id].update, id)
    ensures EarlierOnItsWay(w, j) <==> exists k :: 0 <= k < |w.out| && w.out[k].id == id && EarlierOnItsWay(w, k)
  {
    assert OnTheWay(w.out, id);
    j :| 0 <= j < |w.out| && w.out[j].id == id;
  }

  lemma ReachedOnTheWay(w: Way, zone: ZoneKey, j: nat, queued: seq<Item>)
    requires Well(w, zone, queued) && j < |w.out| && w.out[j].id in w.passing && w.out[j].id !in w.refused
    ensures var x := w.out[j];
      && Well(Reaches(w, x.id, true), zone, queued + [x]) && Well(Reaches(w, x.id, false), zone, queued)
      && (AsLetOut(w, queued) ==> AsLetOut(Reaches(w, x.id, false), queued))
      && (AsLetOut(w, queued) ==> (AsLetOut(Reaches(w, x.id, true), queued + [x]) <==> !EarlierOnItsWay(w, j)))
  {
    ReachingIsWell(w, zone, j, queued);
    if AsLetOut(w, queued) {
      ReachingKeepsOrder(w, zone, j, queued);
      RefusingKeepsOrder(w, zone, w.out[j].id, queued);
    }
  }

  lemma DrainingKeepsOrderHere(f: Flow, z: ZoneKey, taken: bool, zone: ZoneKey, queued: seq<Item>)
    requires z in f.drains && f.drains[z].answer.None? && Well(WayOf(f, zone), zone, queued)
    requires var w := f.drains[z].w;
      && w.id in f.accepted && f.accepted[w.id] == Accepted(z, w.update)
      && w.id !in f.passing && w.id !in f.refused
    ensures var s := DrainReaches(z, taken);
      OrderKept(f, DrainReach(f, z, taken), s, zone, queued, queued + Puts(f, s, zone))
  {
    WhatADrainLetsOut(f, z, taken, zone);
    var s := DrainReaches(z, taken);
    if z == zone && taken {
      DrainedOnTheWay(WayOf(f, zone), zone, Puts(f, s, zone)[0], queued);
      assert Puts(f, s, zone) == [Puts(f, s, zone)[0]];
    } else {
      NothingOnTheWay(WayOf(f, zone), WayOf(DrainReach(f, z, taken), zone), queued, Puts(f, s, zone));
    }
  }

  lemma DrainedOnTheWay(w: Way, zone: ZoneKey, x: Item, queued: seq<Item>)
    requires Well(w, zone, queued) && x.id !in w.passing && x.id !in w.refused && x.id in w.accepted
        && w.accepted[x.id] == Accepted(zone, x.update)
    ensures var w' := w.(out := w.out + [x]);
      Well(w', zone, queued + [x]) && (AsLetOut(w, queued) ==>
          (AsLetOut(w', queued + [x]) <==> !EarlierOnItsWay(w, |w.out|)))
  {
    DrainingIsWell(w, zone, x, queued);
    if AsLetOut(w, queued) { DrainingKeepsOrder(w, x, queued); }
  }

  lemma NothingOnTheWay(w: Way, w': Way, queued: seq<Item>, put: seq<Item>)
    requires put == [] && w' == w.(out := w.out + put)
    ensures w' == w && queued + put == queued
  {
    assert w.out + [] == w.out;
  }

  lemma WhatADrainLetsOut(f: Flow, z: ZoneKey, taken: bool, zone: ZoneKey)
    requires z in f.drains && f.drains[z].answer.None?
    ensures var w := WayOf(f, zone);
      WayOf(DrainReach(f, z, taken), zone) == w.(out := w.out + Puts(f, DrainReaches(z, taken), zone))
  {
    var log := Log(f.out, zone);
    assert log + [] == log;
    assert WayOf(f, zone).out + [] == WayOf(f, zone).out;
  }

  lemma TheRestKeepsTheWay(f: Flow, s: Step, zone: ZoneKey)
    requires Sound(f) && Enabled(f, s) && !s.Arrives? && !s.PassedReaches? && !s.DrainReaches?
    ensures WayOf(Next(f, s), zone) == WayOf(f, zone)
  {
    match s
    case DrainStarts(z, now) =>
      assert WaitsWell(f, z);
      DrainStartKeepsTheWay(f, z, now, zone);
    case DrainEnds(z) => DrainEndKeepsTheWay(f, z, zone);
    case Word(id, status, acting, removed) =>
        AWordKeepsTheWay(f, id, WordOnUpdate(f.t, id, status, acting, removed).1, removed, zone);
    case WaitsAgain(id) => WaitingAgainKeepsTheWay(f, id, zone);
    case AgesOut(now) => AgingKeepsTheWay(f, now, zone);
    case HandoverMoves(_) =>
  }

  lemma DrainEndKeepsTheWay(f: Flow, z: ZoneKey, zone: ZoneKey)
    requires z in f.drains && f.drains[z].answer.Some? && z in f.t.zones && |f.t.zones[z].waiting| > 0
    ensures WayOf(DrainEnd(f, z), zone) == WayOf(f, zone)
  {
    DrainEndChanges(f, z);
    TheHeadIsWrittenDown(f, DrainEnd(f, z), z, zone);
  }

  ghost predicate WritesDownTheHead(f: Flow, f': Flow, z: ZoneKey) {
    && z in f.drains && f.drains[z].answer.Some?
    && f'.accepted == f.accepted && f'.passing == f.passing && f'.refused == f.refused && f'.drains == f.drains - {z}
    && f'.out == if f.drains[z].answer.value
        then Write(f.out, z, Item(f.drains[z].w.update, f.drains[z].w.id)) else f.out
  }

  lemma DrainEndChanges(f: Flow, z: ZoneKey)
    requires z in f.drains && f.drains[z].answer.Some? && z in f.t.zones && |f.t.zones[z].waiting| > 0
    ensures WritesDownTheHead(f, DrainEnd(f, z), z)
  {
  }

  lemma TheHeadIsWrittenDown(f: Flow, f': Flow, z: ZoneKey, zone: ZoneKey)
    requires WritesDownTheHead(f, f', z)
    ensures WayOf(f', zone) == WayOf(f, zone)
  {
    assert Log(f'.out, zone) + [] == Log(f'.out, zone);
  }

  lemma DrainStartKeepsTheWay(f: Flow, z: ZoneKey, now: Time, zone: ZoneKey)
    requires CanDrain(f.t, z) && WaitsWell(f, z)
    ensures WayOf(DrainStart(f, z, now), zone) == WayOf(f, zone)
  {
  }

  lemma AWordKeepsTheWay(f: Flow, id: DistId, word: UpdateWord, removed: seq<string>, zone: ZoneKey)
    ensures WayOf(Answered(f, id, word, removed), zone) == WayOf(f, zone)
  {
  }

  lemma WaitingAgainKeepsTheWay(f: Flow, id: DistId, zone: ZoneKey)
    requires id in f.inHand
    ensures WayOf(WaitAgain(f, id), zone) == WayOf(f, zone)
  {
  }

  lemma AgingKeepsTheWay(f: Flow, now: Time, zone: ZoneKey)
    ensures WayOf(AgeOut(f, now), zone) == WayOf(f, zone)
  {
  }

  lemma AStepKeepsOrder(f: Flow, s: Step, zone: ZoneKey, queued: seq<Item>)
    requires Sound(f) && Enabled(f, s) && Well(WayOf(f, zone), zone, queued)
    ensures OrderKept(f, Next(f, s), s, zone, queued, queued + Puts(f, s, zone))
  {
    assert queued + [] == queued;
    if s.Arrives? { ArrivingKeepsOrder(f, s, zone, queued); }
    else if s.PassedReaches? {
      assert SentWell(f, s.id);
      PassingIsAccepted(f, s.id);
      ReachingKeepsOrderHere(f, s.id, s.queued, zone, queued);
    } else if s.DrainReaches? {
      TheHeadIsOnlyWaiting(f, s.zone);
      DrainingKeepsOrderHere(f, s.zone, s.queued, zone, queued);
    }
    else { TheRestKeepsTheWay(f, s, zone); }
  }

  // ---- Every run ------------------------------------------------------------------------------

  /** In every state of the run the zone's updates came onto the queue as they were let
      out; `queued` came there before it. */
  ghost predicate InOrderThroughout(f: Flow, steps: seq<Step>, zone: ZoneKey, queued: seq<Item>)
    requires CanHappen(f, steps)
    decreases |steps|
  {
    && AsLetOut(WayOf(f, zone), queued)
    && (steps == [] || InOrderThroughout(Next(f, steps[0]), steps[1..], zone, queued + Puts(f, steps[0], zone)))
  }

  ghost predicate NothingOvertakenIn(f: Flow, steps: seq<Step>, zone: ZoneKey)
    requires CanHappen(f, steps)
    decreases |steps|
  {
    steps == [] || (!Overtakes(f, steps[0], zone) && NothingOvertakenIn(Next(f, steps[0]), steps[1..], zone))
  }

  lemma {:induction false} InOrderWhenNothingOvertakes(f: Flow, steps: seq<Step>, zone: ZoneKey, queued: seq<Item>)
    requires Sound(f) && CanHappen(f, steps) && Well(WayOf(f, zone), zone, queued) && AsLetOut(WayOf(f, zone), queued)
    ensures InOrderThroughout(f, steps, zone, queued) <==> NothingOvertakenIn(f, steps, zone)
    decreases |steps|
  {
    if steps != [] {
      AStepKeepsOrder(f, steps[0], zone, queued);
      StepIsSound(f, steps[0]);
      if !Overtakes(f, steps[0], zone) {
        InOrderWhenNothingOvertakes(Next(f, steps[0]), steps[1..], zone, queued + Puts(f, steps[0], zone));
      }
    }
  }

  /** In every run, of every zone: the updates are on the queue in the order they were
      let out, and those on their way behind them, in every state, exactly when none
      comes onto the queue while one of the zone let out before it is on its way. */
  lemma TheQueueHasThemAsLetOut(steps: seq<Step>, zone: ZoneKey)
    requires CanHappen(START, steps)
    ensures InOrderThroughout(START, steps, zone, []) <==> NothingOvertakenIn(START, steps, zone)
  {
    StartIsSound();
    InOrderWhenNothingOvertakes(START, steps, zone, []);
  }

  /** While one of the zone is on its way to the queue nothing else of it comes there: so
      with a gate that is held until the update is on the queue. */
  ghost predicate OneAtATime(f: Flow, steps: seq<Step>, zone: ZoneKey)
    requires CanHappen(f, steps)
    decreases |steps|
  {
    steps == [] || (
      && (forall id, x :: id in f.passing && OfZone(f.accepted, id, zone) && x in Puts(f, steps[0], zone) ==>
          x.id == id)
      && OneAtATime(Next(f, steps[0]), steps[1..], zone))
  }

  lemma AloneItOvertakesNothing(f: Flow, s: Step, zone: ZoneKey, queued: seq<Item>)
    requires Well(WayOf(f, zone), zone, queued)
    requires s.DrainReaches? && s.zone == zone ==> zone in f.drains && f.drains[zone].w.id !in f.passing
    requires s.PassedReaches? ==> s.id in f.passing
    requires forall id, x :: id in f.passing && OfZone(f.accepted, id, zone) && x in Puts(f, s, zone) ==> x.id == id
    ensures !Overtakes(f, s, zone)
  {
    var w, puts := WayOf(f, zone), Puts(f, s, zone);
    if puts != [] {
      assert puts[0] in puts;
      forall i | 0 <= i < |w.out| ensures w.out[i].id in w.passing ==> w.out[i].id == puts[0].id { }
    }
  }

  lemma {:induction false} OneAtATimeNothingOvertakes(f: Flow, steps: seq<Step>, zone: ZoneKey, queued: seq<Item>)
    requires Sound(f) && CanHappen(f, steps) && Well(WayOf(f, zone), zone, queued) && OneAtATime(f, steps, zone)
    ensures NothingOvertakenIn(f, steps, zone)
    decreases |steps|
  {
    if steps != [] {
      var s := steps[0];
      if s.DrainReaches? && s.zone == zone { TheHeadIsOnlyWaiting(f, zone); }
      AloneItOvertakesNothing(f, s, zone, queued);
      AStepKeepsOrder(f, s, zone, queued);
      StepIsSound(f, s);
      OneAtATimeNothingOvertakes(Next(f, s), steps[1..], zone, queued + Puts(f, s, zone));
    }
  }

  // ---- And it may be overtaken -------------------------------------------------------------

  lemma {:induction false} EveryRunIsWell(f: Flow, steps: seq<Step>, zone: ZoneKey, queued: seq<Item>)
    requires Sound(f) && CanHappen(f, steps) && Well(WayOf(f, zone), zone, queued)
    ensures Sound(After(f, steps)) && Well(WayOf(After(f, steps), zone), zone, [])
    decreases |steps|
  {
    if steps != [] {
      AStepKeepsOrder(f, steps[0], zone, queued);
      StepIsSound(f, steps[0]);
      EveryRunIsWell(Next(f, steps[0]), steps[1..], zone, queued + Puts(f, steps[0], zone));
    }
  }

  /** Another of the zone's updates may go out: the gate or a drain would let one out, a
      drain has its head in hand, or one let out later is on its way too. */
  predicate AnotherMayGoOut(f: Flow, zone: ZoneKey, id: DistId) {
    || (zone in f.t.zones && f.t.zones[zone].Holds() && !f.t.zones[zone].draining)
    || (zone in f.drains && f.drains[zone].answer.None?)
    || LaterOnItsWay(WayOf(f, zone), id)
  }

  predicate LaterOnItsWay(w: Way, id: DistId) {
    exists i, j :: 0 <= i < j < |w.out| && w.out[i].id == id && w.out[j].id in w.passing
  }

  ghost predicate LeadsToOvertaking(f: Flow, steps: seq<Step>, zone: ZoneKey) {
    steps != [] && CanHappen(f, steps[..|steps| - 1])
    && Enabled(After(f, steps[..|steps| - 1]), steps[|steps| - 1])
        && Overtakes(After(f, steps[..|steps| - 1]), steps[|steps| - 1], zone)
  }

  lemma OneStepLeads(f: Flow, s: Step, zone: ZoneKey)
    requires Enabled(f, s) && Overtakes(f, s, zone)
    ensures LeadsToOvertaking(f, [s], zone)
  {
    assert [s][..0] == [];
  }

  lemma TwoStepsLead(f: Flow, s: Step, s': Step, zone: ZoneKey)
    requires Enabled(f, s) && Enabled(Next(f, s), s') && Overtakes(Next(f, s), s', zone)
    ensures LeadsToOvertaking(f, [s, s'], zone)
  {
    assert [s, s'][..1] == [s] && [s][1..] == [];
  }

  /** From every state a run comes to, with an update of the zone on its way from the
      gate and another that may go out, a run goes on to overtake it. */
  lemma OneOnItsWayMayBeOvertaken(run: seq<Step>, f: Flow, zone: ZoneKey, id: DistId, update: ZoneUpdate,
      newId: DistId) returns (steps: seq<Step>)
    requires CanHappen(START, run) && f == After(START, run)
    requires id in f.passing && OfZone(f.accepted, id, zone) && AnotherMayGoOut(f, zone, id)
    requires newId !in f.accepted && update.acting.None?
    ensures LeadsToOvertaking(f, steps, zone)
  {
    StartIsSound();
    EveryRunIsWell(START, run, zone, []);
    var w := WayOf(f, zone);
    assert OnTheWay(w.out, id);
    var i :| 0 <= i < |w.out| && w.out[i].id == id;
    assert SentWell(f, newId) && WaitsWell(f, zone);
    if LaterOnItsWay(w, id) {
      steps := ALaterOneOvertakes(f, zone, id);
    } else if zone in f.drains && f.drains[zone].answer.None? {
      steps := [DrainReaches(zone, true)];
      assert EarlierOnItsWay(w, |w.out|);
      OneStepLeads(f, steps[0], zone);
    } else if f.t.zones[zone].waiting != [] {
      steps := TheWaitOvertakes(f, zone, i);
    } else {
      steps := [Arrives(zone, update, newId, 0), PassedReaches(newId, true)];
      NewOnesOvertake(f, zone, update, newId, i);
      TwoStepsLead(f, steps[0], steps[1], zone);
    }
  }

  lemma ALaterOneOvertakes(f: Flow, zone: ZoneKey, id: DistId) returns (steps: seq<Step>)
    requires id in f.passing && LaterOnItsWay(WayOf(f, zone), id) && Well(WayOf(f, zone), zone, [])
    ensures LeadsToOvertaking(f, steps, zone)
  {
    var w := WayOf(f, zone);
    var k, j :| 0 <= k < j < |w.out| && w.out[k].id == id && w.out[j].id in w.passing;
    steps := [PassedReaches(w.out[j].id, true)];
    assert EarlierOnItsWay(w, j);
    OneStepLeads(f, steps[0], zone);
  }

  lemma TheWaitOvertakes(f: Flow, zone: ZoneKey, i: nat) returns (steps: seq<Step>)
    requires CanDrain(f.t, zone) && i < |WayOf(f, zone).out| && WayOf(f, zone).out[i].id in f.passing
    requires WaitsWell(f, zone)
    ensures LeadsToOvertaking(f, steps, zone)
  {
    var w := WayOf(f, zone);
    steps := [DrainStarts(zone, 0), DrainReaches(zone, true)];
    DrainStartKeepsTheWay(f, zone, 0, zone);
    assert EarlierOnItsWay(w, |w.out|);
    TwoStepsLead(f, steps[0], steps[1], zone);
  }

  lemma NewOnesOvertake(f: Flow, zone: ZoneKey, update: ZoneUpdate, newId: DistId, i: nat)
    requires WaitsWell(f, zone) && newId !in f.accepted && update.acting.None?
    requires zone in f.t.zones && f.t.zones[zone].Holds() && !f.t.zones[zone].draining && f.t.zones[zone].waiting == []
    requires i < |WayOf(f, zone).out| && WayOf(f, zone).out[i].id in f.passing
    ensures Enabled(f, Arrives(zone, update, newId, 0))
    ensures var f' := Arrive(f, zone, update, newId, 0);
      Enabled(f', PassedReaches(newId, true)) && Overtakes(f', PassedReaches(newId, true), zone)
  {
    AnArrivalThatPasses(f, zone, update, newId, 0);
    var f' := Arrive(f, zone, update, newId, 0);
    var w, w', x := WayOf(f, zone), WayOf(f', zone), Item(update, newId);
    assert Log(f.out, zone) + [] == Log(f.out, zone) && Log(f'.out, zone) + [] == Log(f'.out, zone);
    assert w'.out == w.out + [x];
    assert w'.out[i] == w.out[i] && w'.out[|w.out|] == x && EarlierOnItsWay(w', |w.out|);
  }
}
