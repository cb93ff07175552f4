/** The ledger of syncs with the parent that are owed: one mark a zone, with three
    holds that are set and lifted independently, asked for when nothing holds it. */
module OwedSync {
  type Zone = string

  /** room: asked for, and the queue was full. key: held for the zone's key. frozen:
      held while the zone is frozen. */
  datatype Mark = Mark(room: bool, key: bool, frozen: bool)

  datatype Reply = Queued | QueueFull | NotAsked

  /** What an ask finds: the zones an owed sync still applies to, those caught up, and
      what asking for the sync of each would do. */
  datatype Env = Env(applies: set<Zone>, caughtUp: set<Zone>, replies: map<Zone, Reply>) {
    function ReplyTo(zone: Zone): Reply { if zone in replies then replies[zone] else NotAsked }
  }

  /** The marks; and, of the whole run, the marks made and how each ended. */
  datatype Ledger = Ledger(owed: map<Zone, Mark>, made: multiset<Zone>, queued: multiset<Zone>,
      dropped: multiset<Zone>, cleared: multiset<Zone>)

  // ---- The steps -----------------------------------------------------------------------

  function Owe(l: Ledger, zone: Zone): Ledger {
    if zone in l.owed then l else l.(owed := l.owed[zone := Mark(false, false, false)], made := l.made + multiset{zone})
  }

  function Hold(l: Ledger, zone: Zone, room: bool, key: bool, frozen: bool): Ledger {
    var l1 := Owe(l, zone);
    var m := l1.owed[zone];
    l1.(owed := l1.owed[zone := Mark(m.room || room, m.key || key, m.frozen || frozen)])
  }

  function Release(l: Ledger, zone: Zone, key: bool): Ledger {
    if zone !in l.owed then l
    else l.(owed := l.owed[zone := if key then l.owed[zone].(key := false) else l.owed[zone].(frozen := false)])
  }

  function End(l: Ledger, zone: Zone): map<Zone, Mark> { l.owed - {zone} }

  function Clear(l: Ledger, zone: Zone): Ledger {
    if zone !in l.owed then l else l.(owed := End(l, zone), cleared := l.cleared + multiset{zone})
  }

  function Drop(l: Ledger, zone: Zone): Ledger { l.(owed := End(l, zone), dropped := l.dropped + multiset{zone}) }

  function Queue(l: Ledger, zone: Zone): Ledger { l.(owed := End(l, zone), queued := l.queued + multiset{zone}) }

  /** The queue is full: those of the zones left that are free wait for room. */
  function WaitForRoom(l: Ledger, zones: seq<Zone>, env: Env): Ledger {
    l.(owed := map z | z in l.owed :: if z in zones then RoomFor(l.owed[z], z, env) else l.owed[z])
  }

  function RoomFor(m: Mark, z: Zone, env: Env): Mark {
    if !m.key && !m.frozen && z in env.caughtUp then m.(room := true) else m
  }

  lemma OneMoreWaits(l: Ledger, zones: seq<Zone>, j: nat, env: Env)
    requires j < |zones|
    ensures var w, z := WaitForRoom(l, zones[..j], env).owed, zones[j];
      WaitForRoom(l, zones[..j + 1], env).owed == if z in w then w[z := RoomFor(w[z], z, env)] else w
  {
    assert zones[..j + 1] == zones[..j] + [zones[j]];
    var w, z, w' := WaitForRoom(l, zones[..j], env).owed, zones[j], WaitForRoom(l, zones[..j + 1], env).owed;
    var want := if z in w then w[z := RoomFor(w[z], z, env)] else w;
    assert w'.Keys == want.Keys;
    forall y | y in w' ensures w'[y] == want[y] { }
  }

  /** askOwed, zone by zone. */
  function Ask(l: Ledger, zones: seq<Zone>, env: Env): Ledger
    decreases |zones|
  {
    if zones == [] then l
    else
      var z := zones[0];
      if z !in l.owed then Ask(l, zones[1..], env)
      else if z !in env.applies then Ask(Drop(l, z), zones[1..], env)
      else if l.owed[z].key || l.owed[z].frozen || z !in env.caughtUp then Ask(l, zones[1..], env)
      else match env.ReplyTo(z)
        case Queued => Ask(Queue(l, z), zones[1..], env)
        case NotAsked => Ask(Drop(l, z), zones[1..], env)
        case QueueFull => WaitForRoom(l, zones, env)
  }

  // ---- The ledger itself ---------------------------------------------------------------

  class OwedLedger {
    var owed: map<Zone, Mark>
    ghost var made: multiset<Zone>
    ghost var queued: multiset<Zone>
    ghost var dropped: multiset<Zone>
    ghost var cleared: multiset<Zone>

    ghost function Value(): Ledger
      reads this
    {
      Ledger(owed, made, queued, dropped, cleared)
    }

    constructor ()
      ensures Value() == Ledger(map[], multiset{}, multiset{}, multiset{}, multiset{})
    {
      owed, made, queued, dropped, cleared := map[], multiset{}, multiset{}, multiset{}, multiset{};
    }

    method OweSync(zone: Zone)
      modifies this
      ensures Value() == Owe(old(Value()), zone)
    {
      if zone !in owed {
        owed := owed[zone := Mark(false, false, false)];
        made := made + multiset{zone};
      }
    }

    /** holdUnlessCaughtUp: the test and the mark in one. */
    method HoldUnlessCaughtUp(zone: Zone, caughtUp: bool) returns (held: bool)
      modifies this
      ensures held == !caughtUp
      ensures Value() == if held then Owe(old(Value()), zone) else old(Value())
    {
      if caughtUp { return false; }
      OweSync(zone);
      return true;
    }

    method OweForRoom(zone: Zone)
      modifies this
      ensures Value() == Hold(old(Value()), zone, true, false, false)
    {
      OweSync(zone);
      owed := owed[zone := owed[zone].(room := true)];
    }

    method OweForKey(zone: Zone)
      modifies this
      ensures Value() == Hold(old(Value()), zone, false, true, false)
    {
      OweSync(zone);
      owed := owed[zone := owed[zone].(key := true)];
    }

    method OweForFreeze(zone: Zone)
      modifies this
      ensures Value() == Hold(old(Value()), zone, false, false, true)
    {
      OweSync(zone);
      owed := owed[zone := owed[zone].(frozen := true)];
    }

    method ReleaseKeyOwed(zone: Zone) returns (was: bool)
      modifies this
      ensures Value() == Release(old(Value()), zone, true)
      ensures was <==> zone in old(owed) && old(owed)[zone].key
    {
      if zone !in owed || !owed[zone].key {
        assert zone in owed ==> owed[zone := owed[zone].(key := false)] == owed;
        return false;
      }
      owed := owed[zone := owed[zone].(key := false)];
      return true;
    }

    method ReleaseFreezeOwed(zone: Zone) returns (was: bool)
      modifies this
      ensures Value() == Release(old(Value()), zone, false)
      ensures was <==> zone in old(owed) && old(owed)[zone].frozen
    {
      if zone !in owed || !owed[zone].frozen {
        assert zone in owed ==> owed[zone := owed[zone].(frozen := false)] == owed;
        return false;
      }
      owed := owed[zone := owed[zone].(frozen := false)];
      return true;
    }

    method ClearOwed(zone: Zone)
      modifies this
      ensures Value() == Clear(old(Value()), zone)
    {
      if zone in owed {
        cleared := cleared + multiset{zone};
        owed := owed - {zone};
      }
    }

    /** The full queue: the zones that are free wait for room. */
    method MarkWaiting(zones: seq<Zone>, env: Env)
      modifies this`owed
      ensures Value() == WaitForRoom(old(Value()), zones, env)
    {
      for j := 0 to |zones|
        invariant Value() == WaitForRoom(old(Value()), zones[..j], env)
      {
        OneMoreWaits(old(Value()), zones, j, env);
        assert zones[j] in owed ==> owed[zones[j] := owed[zones[j]]] == owed;
        if zones[j] in owed && !owed[zones[j]].key && !owed[zones[j]].frozen && zones[j] in env.caughtUp {
          owed := owed[zones[j] := owed[zones[j]].(room := true)];
        }
      }
      assert zones[..|zones|] == zones;
    }

    method DropMark(zone: Zone)
      modifies this
      ensures Value() == Drop(old(Value()), zone)
    {
      dropped := dropped + multiset{zone};
      owed := owed - {zone};
    }

    /** askOwed: each zone given that is owed, caught up and not held is asked for,
        once; the pass ends at the first full queue. A mark ends by being queued, or
        dropped; one that is held or not caught up stays while it applies. */
    method AskOwed(zones: seq<Zone>, env: Env)
      modifies this
      ensures Value() == Ask(old(Value()), zones, env)
      ensures forall z :: PassDid(old(Value()), Value(), zones, env, z)
    {
      forall z ensures PassDid(Value(), Ask(Value(), zones, env), zones, env, z) {
        WhatAPassDoes(Value(), zones, env, z);
      }
      for i := 0 to |zones|
        invariant Ask(Value(), zones[i..], env) == Ask(old(Value()), zones, env)
      {
        var zone := zones[i];
        assert zones[i..][0] == zone && zones[i..][1..] == zones[i + 1..];
        if zone !in owed { continue; }
        if zone !in env.applies {
          DropMark(zone);
          continue;
        }
        if owed[zone].key || owed[zone].frozen { continue; }
        if zone !in env.caughtUp { continue; }
        match env.ReplyTo(zone)
        case Queued =>
          queued := queued + multiset{zone};
          owed := owed - {zone};
        case NotAsked =>
          DropMark(zone);
        case QueueFull =>
          MarkWaiting(zones[i..], env);
          return;
      }
      assert zones[|zones|..] == [];
    }
  }

  // ---- Runs ------------------------------------------------------------------------------

  datatype Event =
    | Owing(zone: Zone)
    | OwingForRoom(zone: Zone)
    | OwingForKey(zone: Zone)
    | OwingForFreeze(zone: Zone)
    | ReleasingKey(zone: Zone)
    | ReleasingFreeze(zone: Zone)
    | Clearing(zone: Zone)
    | Asking(zones: seq<Zone>, env: Env)

  function Take(l: Ledger, ev: Event): Ledger {
    match ev
    case Owing(z) => Owe(l, z)
    case OwingForRoom(z) => Hold(l, z, true, false, false)
    case OwingForKey(z) => Hold(l, z, false, true, false)
    case OwingForFreeze(z) => Hold(l, z, false, false, true)
    case ReleasingKey(z) => Release(l, z, true)
    case ReleasingFreeze(z) => Release(l, z, false)
    case Clearing(z) => Clear(l, z)
    case Asking(zones, env) => Ask(l, zones, env)
  }

  function TakeAll(l: Ledger, run: seq<Event>): Ledger {
    if run == [] then l else Take(TakeAll(l, run[..|run| - 1]), run[|run| - 1])
  }

  const NEW_LEDGER := Ledger(map[], multiset{}, multiset{}, multiset{}, multiset{})

  // ---- What a pass does ------------------------------------------------------------------------

  /** y is owed, applies, is caught up and not held, and is asked for in vain. */
  predicate FindsItFull(l: Ledger, env: Env, y: Zone) {
    && y in l.owed && !l.owed[y].key && !l.owed[y].frozen && y in env.caughtUp && y in env.applies
    && env.ReplyTo(y) == QueueFull
  }

  /** The pass comes to z before a full queue ends it. */
  predicate Reached(l: Ledger, zones: seq<Zone>, env: Env, z: Zone) {
    exists i :: 0 <= i < |zones| && zones[i] == z && forall j :: 0 <= j < i ==> !FindsItFull(l, env, zones[j])
  }

  /** A full queue ends the pass at z, or before it. */
  predicate EndsByThen(l: Ledger, zones: seq<Zone>, env: Env, z: Zone) {
    exists i, k :: 0 <= i <= k < |zones| && zones[k] == z && FindsItFull(l, env, zones[i])
  }

  /** z is owed, caught up and held neither for the key nor for the freeze. */
  predicate Askable(l: Ledger, env: Env, z: Zone) {
    z in l.owed && !l.owed[z].key && !l.owed[z].frozen && z in env.caughtUp
  }

  predicate IsQueued(l: Ledger, zones: seq<Zone>, env: Env, z: Zone) {
    Reached(l, zones, env, z) && Askable(l, env, z) && z in env.applies && env.ReplyTo(z) == Queued
  }

  predicate IsDropped(l: Ledger, zones: seq<Zone>, env: Env, z: Zone) {
    && Reached(l, zones, env, z) && z in l.owed
    && (z !in env.applies || (Askable(l, env, z) && env.ReplyTo(z) == NotAsked))
  }

  /** What a pass does to a zone's mark. Reached before a full queue, it is queued when
      it applies, is caught up, not held and there is room; it is dropped when it applies
      no more, or is caught up, not held and not to be asked. Any other mark stays, with
      its holds as they were; it waits for room when it did, or when it is caught up and
      not held and a full queue ended the pass by then. */
  predicate PassDid(l: Ledger, l': Ledger, zones: seq<Zone>, env: Env, z: Zone) {
    && l'.queued[z] == l.queued[z] + (if IsQueued(l, zones, env, z) then 1 else 0)
    && l'.dropped[z] == l.dropped[z] + (if IsDropped(l, zones, env, z) then 1 else 0)
    && (z in l'.owed <==> z in l.owed && !IsQueued(l, zones, env, z) && !IsDropped(l, zones, env, z))
    && (z in l'.owed ==>
          && l'.owed[z].key == l.owed[z].key && l'.owed[z].frozen == l.owed[z].frozen
          && (l'.owed[z].room <==> l.owed[z].room || (Askable(l, env, z) && EndsByThen(l, zones, env, z))))
    && l'.made == l.made && l'.cleared == l.cleared
  }

  /** The first zone, and the rest: where the ledgers before them agree but for the first. */
  lemma ReachedFirstOrLater(l: Ledger, l1: Ledger, zones: seq<Zone>, env: Env, z: Zone)
    requires zones != [] && !FindsItFull(l, env, zones[0])
    requires l1.owed == l.owed || l1.owed == l.owed - {zones[0]}
    ensures Reached(l, zones, env, z) <==> z == zones[0] || Reached(l1, zones[1..], env, z)
  {
    var rest := zones[1..];
    if i :| 0 <= i < |zones| && zones[i] == z && forall j :: 0 <= j < i ==> !FindsItFull(l, env, zones[j]) {
      if i > 0 {
        assert rest[i - 1] == z;
        assert forall j :: 0 <= j < i - 1 ==> rest[j] == zones[j + 1];
      }
    }
    if i :| 0 <= i < |rest| && rest[i] == z && forall j :: 0 <= j < i ==> !FindsItFull(l1, env, rest[j]) {
      forall j | 0 <= j < i + 1 ensures !FindsItFull(l, env, zones[j]) {
        if j > 0 { assert rest[j - 1] == zones[j]; }
      }
      assert zones[i + 1] == z;
    }
  }

  lemma EndsLaterOrNot(l: Ledger, l1: Ledger, zones: seq<Zone>, env: Env, z: Zone)
    requires zones != [] && !FindsItFull(l, env, zones[0])
    requires l1.owed == l.owed || l1.owed == l.owed - {zones[0]}
    ensures EndsByThen(l, zones, env, z) <==> EndsByThen(l1, zones[1..], env, z)
  {
    var rest := zones[1..];
    if i, k :| 0 <= i <= k < |zones| && zones[k] == z && FindsItFull(l, env, zones[i]) {
      assert rest[k - 1] == z && FindsItFull(l1, env, rest[i - 1]);
    }
    if i, k :| 0 <= i <= k < |rest| && rest[k] == z && FindsItFull(l1, env, rest[i]) {
      assert zones[k + 1] == z && FindsItFull(l, env, zones[i + 1]);
    }
  }

  /** One zone done as the pass does it, and the rest as said: the whole as said. */
  lemma OneAndTheRest(l: Ledger, l1: Ledger, l': Ledger, zones: seq<Zone>, env: Env, z: Zone)
    requires zones != [] && !FindsItFull(l, env, zones[0]) && PassDid(l1, l', zones[1..], env, z)
    requires var y := zones[0];
      || (l1 == l && (y in l.owed ==> y in env.applies && !Askable(l, env, y)))
      || (l1 == Drop(l, y) && y in l.owed && y !in env.applies)
      || (l1 == Drop(l, y) && Askable(l, env, y) && env.ReplyTo(y) == NotAsked)
      || (l1 == Queue(l, y) && Askable(l, env, y) && y in env.applies && env.ReplyTo(y) == Queued)
    ensures PassDid(l, l', zones, env, z)
  {
    ReachedFirstOrLater(l, l1, zones, env, z);
    EndsLaterOrNot(l, l1, zones, env, z);
  }

  lemma {:induction false} WhatAPassDoes(l: Ledger, zones: seq<Zone>, env: Env, z: Zone)
    ensures PassDid(l, Ask(l, zones, env), zones, env, z)
    decreases |zones|
  {
    if zones != [] {
      var y, rest := zones[0], zones[1..];
      if FindsItFull(l, env, y) {
        APassThatEnds(l, zones, env, z);
      } else {
        var l1 := if y !in l.owed then l else if y !in env.applies then Drop(l, y) else if !Askable(l, env, y) then l
          else if env.ReplyTo(y) == Queued then Queue(l, y) else Drop(l, y);
        WhatAPassDoes(l1, rest, env, z);
        OneAndTheRest(l, l1, Ask(l1, rest, env), zones, env, z);
      }
    }
  }

  lemma APassThatEnds(l: Ledger, zones: seq<Zone>, env: Env, z: Zone)
    requires zones != [] && FindsItFull(l, env, zones[0])
    ensures PassDid(l, Ask(l, zones, env), zones, env, z)
  {
    assert Reached(l, zones, env, z) ==> z == zones[0];
    if z in zones {
      var k :| 0 <= k < |zones| && zones[k] == z;
      assert FindsItFull(l, env, zones[0]) && EndsByThen(l, zones, env, z);
    }
  }

  // ---- Conservation ------------------------------------------------------------------------

  /** Of every zone: each mark made is still owed, or ended once. */
  predicate BalancedAt(l: Ledger, z: Zone) {
    l.made[z] == l.queued[z] + l.dropped[z] + l.cleared[z] + if z in l.owed then 1 else 0
  }

  lemma TakingBalances(l: Ledger, ev: Event, z: Zone)
    requires BalancedAt(l, z)
    ensures BalancedAt(Take(l, ev), z)
  {
    if ev.Asking? { WhatAPassDoes(l, ev.zones, ev.env, z); }
  }

  /** In every run: a mark made leads to at most one queued sync, and ends only by being
      queued, by no longer applying or not being asked, or by being cleared. */
  lemma {:induction false} EveryMarkIsAccountedFor(run: seq<Event>, z: Zone)
    ensures BalancedAt(TakeAll(NEW_LEDGER, run), z)
    ensures TakeAll(NEW_LEDGER, run).queued[z] <= TakeAll(NEW_LEDGER, run).made[z]
    decreases |run|
  {
    if run != [] {
      EveryMarkIsAccountedFor(run[..|run| - 1], z);
      TakingBalances(TakeAll(NEW_LEDGER, run[..|run| - 1]), run[|run| - 1], z);
    }
  }

  // ---- When a mark ends ----------------------------------------------------------------------

  predicate Owes(ev: Event, z: Zone) {
    ev == Owing(z) || ev == OwingForRoom(z) || ev == OwingForKey(z) || ev == OwingForFreeze(z)
  }

  /** The chain of the zone ends; or a pass comes to its mark, and it applies no more, or
      is caught up, not held, and asked for with room or not to be asked. */
  predicate Ends(l: Ledger, ev: Event, z: Zone) {
    || ev == Clearing(z)
    || (ev.Asking? && Reached(l, ev.zones, ev.env, z) && z in l.owed
          && (z !in ev.env.applies || (Askable(l, ev.env, z) && ev.env.ReplyTo(z) != QueueFull)))
  }

  lemma OneEventEnds(l: Ledger, ev: Event, z: Zone)
    ensures z in Take(l, ev).owed <==> Owes(ev, z) || (z in l.owed && !Ends(l, ev, z))
  {
    if ev.Asking? { OnePassEnds(l, ev.zones, ev.env, z); }
  }

  lemma OnePassEnds(l: Ledger, zones: seq<Zone>, env: Env, z: Zone)
    ensures z in Ask(l, zones, env).owed <==> z in l.owed && !Ends(l, Asking(zones, env), z)
  {
    WhatAPassDoes(l, zones, env, z);
  }

  /** A mark was made, and has not ended since. */
  predicate MadeAndNotEnded(run: seq<Event>, z: Zone) {
    run != [] &&
    var init, last := run[..|run| - 1], run[|run| - 1];
    Owes(last, z) || (MadeAndNotEnded(init, z) && !Ends(TakeAll(NEW_LEDGER, init), last, z))
  }

  /** In every run a zone's sync is owed exactly then. */
  lemma {:induction false} OwedExactlyUntilItEnds(run: seq<Event>, z: Zone)
    ensures z in TakeAll(NEW_LEDGER, run).owed <==> MadeAndNotEnded(run, z)
    decreases |run|
  {
    if run != [] {
      OwedExactlyUntilItEnds(run[..|run| - 1], z);
      OneEventEnds(TakeAll(NEW_LEDGER, run[..|run| - 1]), run[|run| - 1], z);
    }
  }

  datatype Waiting = ForTheKey | ForTheFreeze | ForTheCatchUp

  predicate WaitsFor(m: Mark, why: Waiting) {
    (why.ForTheKey? ==> m.key) && (why.ForTheFreeze? ==> m.frozen)
  }

  /** What it waits for does not come, it goes on applying, and its chain does not end. */
  predicate LeavesItWaiting(ev: Event, z: Zone, why: Waiting) {
    && ev != Clearing(z)
    && (ev.Asking? ==> z in ev.env.applies && (why.ForTheCatchUp? ==> z !in ev.env.caughtUp))
    && (why.ForTheKey? ==> ev != ReleasingKey(z))
    && (why.ForTheFreeze? ==> ev != ReleasingFreeze(z))
  }

  /** A mark that waits for the key, the freeze or the catch-up is not lost: however many
      passes come by, in whatever order the other holds are set and lifted, it is still
      owed, and waits still, until what it waits for comes. */
  lemma {:induction false} WhatWaitsIsNotLost(l: Ledger, run: seq<Event>, z: Zone, why: Waiting)
    requires z in l.owed && WaitsFor(l.owed[z], why)
    requires forall i :: 0 <= i < |run| ==> LeavesItWaiting(run[i], z, why)
    ensures var l' := TakeAll(l, run); z in l'.owed && WaitsFor(l'.owed[z], why)
    decreases |run|
  {
    if run != [] {
      var init, last := run[..|run| - 1], run[|run| - 1];
      WhatWaitsIsNotLost(l, init, z, why);
      assert LeavesItWaiting(last, z, why);
      OneEventEnds(TakeAll(l, init), last, z);
      TakingHolds(TakeAll(l, init), last, z);
    }
  }

  // ---- What is asked for ----------------------------------------------------------------------

  /** A pass queues a zone's sync at most once, and exactly when it is owed, applies, is
      caught up and held neither for the key nor for the freeze, is asked for with room,
      and no such zone before it in the pass found the queue full. */
  lemma OnlyTheFreeAreQueued(l: Ledger, zones: seq<Zone>, env: Env, z: Zone)
    ensures Ask(l, zones, env).queued[z] == l.queued[z] +
      if && z in l.owed && !l.owed[z].key && !l.owed[z].frozen && z in env.caughtUp && z in env.applies
         && env.ReplyTo(z) == Queued && Reached(l, zones, env, z) then 1 else 0
  {
    WhatAPassDoes(l, zones, env, z);
  }

  // ---- The holds over a run --------------------------------------------------------------------

  /** The hold was set and not lifted since, whatever was done to the other one. */
  predicate OpenKey(run: seq<Event>, z: Zone) {
    run != [] &&
    var last := run[|run| - 1];
    if last == OwingForKey(z) then true else if last == ReleasingKey(z) then false else OpenKey(run[..|run| - 1], z)
  }

  predicate OpenFreeze(run: seq<Event>, z: Zone) {
    run != [] &&
    var last := run[|run| - 1];
    if last == OwingForFreeze(z) then true else if last == ReleasingFreeze(z) then false
        else OpenFreeze(run[..|run| - 1], z)
  }

  /** Where in the run the mark that is owed now was made. */
  function Since(run: seq<Event>, z: Zone): (at: nat)
    ensures at <= |run|
  {
    if run == [] || z !in TakeAll(NEW_LEDGER, run).owed then |run|
    else if z !in TakeAll(NEW_LEDGER, run[..|run| - 1]).owed then |run| - 1
    else Since(run[..|run| - 1], z)
  }

  /** One event sets and lifts just its own hold, and only an asking for room and a pass
      that a full queue ends have a mark wait for room. */
  lemma TakingHolds(l: Ledger, ev: Event, z: Zone)
    requires z in Take(l, ev).owed
    ensures var key, frozen := z in l.owed && l.owed[z].key, z in l.owed && l.owed[z].frozen;
      && Take(l, ev).owed[z].key == (if ev == OwingForKey(z) then true
          else if ev == ReleasingKey(z) then false else key)
      && Take(l, ev).owed[z].frozen == (if ev == OwingForFreeze(z) then true
          else if ev == ReleasingFreeze(z) then false else frozen)
      && (Take(l, ev).owed[z].room <==>
            || ev == OwingForRoom(z) || (z in l.owed && l.owed[z].room)
            || (ev.Asking? && Askable(l, ev.env, z) && EndsByThen(l, ev.zones, ev.env, z)))
  {
    if ev.Asking? { OnePassHolds(l, ev.zones, ev.env, z); }
  }

  lemma OnePassHolds(l: Ledger, zones: seq<Zone>, env: Env, z: Zone)
    requires z in Ask(l, zones, env).owed
    ensures var m := Ask(l, zones, env).owed[z];
      && z in l.owed && m.key == l.owed[z].key && m.frozen == l.owed[z].frozen
      && (m.room <==> l.owed[z].room || (Askable(l, env, z) && EndsByThen(l, zones, env, z)))
  {
    WhatAPassDoes(l, zones, env, z);
  }

  /** A mark is held for the key exactly when that hold was set since the mark was made
      and not lifted after; for the freeze likewise. */
  lemma {:induction false} TheHoldsAreThoseSet(run: seq<Event>, z: Zone)
    requires z in TakeAll(NEW_LEDGER, run).owed
    ensures var mark, since := TakeAll(NEW_LEDGER, run).owed[z], run[Since(run, z)..];
      mark.key == OpenKey(since, z) && mark.frozen == OpenFreeze(since, z)
    decreases |run|
  {
    if run != [] {
      var init, last := run[..|run| - 1], run[|run| - 1];
      TakingHolds(TakeAll(NEW_LEDGER, init), last, z);
      if z in TakeAll(NEW_LEDGER, init).owed {
        TheHoldsAreThoseSet(init, z);
        assert run[Since(run, z)..] == init[Since(init, z)..] + [last];
        LastHold(init[Since(init, z)..], last, z);
      } else {
        assert run[Since(run, z)..] == [] + [last];
        LastHold([], last, z);
      }
    }
  }

  lemma LastHold(run: seq<Event>, last: Event, z: Zone)
    ensures OpenKey(run + [last], z) == if last == OwingForKey(z) then true
        else if last == ReleasingKey(z) then false else OpenKey(run, z)
    ensures OpenFreeze(run + [last], z) == if last == OwingForFreeze(z) then true
        else if last == ReleasingFreeze(z) then false else OpenFreeze(run, z)
  {
  }

  /** So a sync is queued only for a zone that is caught up, and that neither hold has
      been set for and not lifted, in whatever order they were set and lifted. */
  lemma QueuedOnlyWhenNothingHoldsIt(run: seq<Event>, zones: seq<Zone>, env: Env, z: Zone)
    requires var l := TakeAll(NEW_LEDGER, run); Ask(l, zones, env).queued[z] != l.queued[z]
    ensures z in env.caughtUp && z in env.applies && z in TakeAll(NEW_LEDGER, run).owed
    ensures !OpenKey(run[Since(run, z)..], z) && !OpenFreeze(run[Since(run, z)..], z)
  {
    OnlyTheFreeAreQueued(TakeAll(NEW_LEDGER, run), zones, env, z);
    TheHoldsAreThoseSet(run, z);
  }
}
