/** The agent's catch-up tracker, with the loops its methods run; each is shown to do
    what CatchUp's function of that step says. */
module CatchUpTracker {
  import opened Collections
  import opened Wrappers
  import Names
  import opened CatchUp
  import opened CatchUpEntries

  predicate First(z: Zone, zones: set<Zone>) {
    z in zones && forall y :: y in zones ==> !Names.Before(y, z)
  }

  lemma FirstOfMore(x: Zone, z: Zone, zones: set<Zone>)
    requires First(z, zones)
    ensures First(if Names.Before(x, z) then x else z, zones + {x})
  {
    if Names.Before(x, z) {
      forall y | y in zones + {x} ensures !Names.Before(y, x) {
        if Names.Before(y, x) {
          Names.BeforeIsAsymmetric(y, x);
          Names.BeforeIsTransitive(y, x, z);
        }
      }
    }
  }

  lemma {:induction false} ThereIsAFirst(zones: set<Zone>)
    requires zones != {}
    ensures exists z :: First(z, zones)
  {
    var x :| x in zones;
    var others := zones - {x};
    if others == {} {
      forall y | y in zones ensures !Names.Before(y, x) {
        assert y !in others;
        if Names.Before(x, x) { Names.BeforeIsAsymmetric(x, x); }
      }
      assert First(x, zones);
    } else {
      ThereIsAFirst(others);
      var z :| First(z, others);
      FirstOfMore(x, z, others);
      assert zones == others + {x};
    }
  }

  predicate Ascending(zones: seq<Zone>) {
    forall i, j :: 0 <= i < j < |zones| ==> zones[i] != zones[j] && !Names.Before(zones[j], zones[i])
  }

  /** The first n of them. */
  ghost function FirstOf(zones: seq<Zone>, n: nat): set<Zone>
    requires n <= |zones|
  {
    Elements(zones[..n])
  }

  lemma OneMoreZone(zones: seq<Zone>, i: nat)
    requires Ascending(zones) && i < |zones|
    ensures zones[i] !in FirstOf(zones, i) && FirstOf(zones, i + 1) == FirstOf(zones, i) + {zones[i]}
  {
  }

  lemma AllTheFirst(zones: seq<Zone>)
    ensures FirstOf(zones, |zones|) == Elements(zones)
  {
    assert zones[..|zones|] == zones;
  }

  class AgentTracker {
    var entries: map<Key, Entry>
    var names: nat

    function Value(): Tracker
      reads this
    {
      Tracker(entries, names)
    }

    constructor ()
      ensures Value() == Tracker(map[], 0)
    {
      entries, names := map[], 0;
    }

    /** newRfiNonce */
    method NewName(k: Key) returns (name: Name)
      ensures name == Name(names, k)
    {
      name := Name(names, k);
    }

    method AskFor(k: Key, reason: Reason, startRequest: string, operational: bool, now: Time) returns (did: AskResult)
      modifies this
      ensures (Value(), did) == Ask(old(Value()), k, reason, startRequest, operational, now)
    {
      var e := if k in entries then entries[k] else NEW_ENTRY;
      if e.state != Idle {
        if reason != PeerStart { return OutstandingAsk; }
        if e.reason == PeerStart && (e.state != Sent || (startRequest != "" && e.startRequest == startRequest)) {
          return OutstandingAsk;
        }
      }
      if reason != Manual && reason != PeerStart && e.complete && now < e.answered + RECENT { return RecentAsk; }
      var name := NewName(k);
      e := Entry(Idle, name, reason, startRequest, 0, e.answered, false, 0, false, false, 0);
      names := names + 1;
      if !operational {
        entries := entries[k := e.(state := Noted)];
        return NotedAsk;
      }
      entries := entries[k := e.(state := Due)];
      return Recorded;
    }

    /** PeerOperational's locked region: what waits for the peer goes out. */
    method WakeFor(peer: Peer)
      modifies this
      ensures Value() == PeerOperational(old(Value()), peer)
    {
      var todo := entries.Keys;
      while todo != {}
        invariant todo <= old(entries).Keys && names == old(names)
        invariant entries == map k | k in old(entries) ::
            if k.peer == peer && k !in todo then Woken(old(entries)[k], k, names) else old(entries)[k]
      {
        var k :| k in todo;
        if k.peer == peer {
          var e := entries[k];
          if e.state == Noted {
            entries := entries[k := e.(state := Due)];
          } else if e.state == Paused {
            var name := NewName(k);
            entries := entries[k := e.(state := Due, request := name)];
          }
        }
        todo := todo - {k};
      }
      names := names + 1;
    }

    method Fail(k: Key, now: Time)
      requires k in entries
      modifies this`entries
      ensures entries == old(entries)[k := Failed(old(entries)[k], now)]
    {
      var e := entries[k];
      var after := RETRY_EVERY;
      var delays := [5 * SECOND, 15 * SECOND, 30 * SECOND, 60 * SECOND];
      if e.attempt + 1 <= |delays| { after := delays[e.attempt]; }
      entries := entries[k := e.(state := Retry, attempt := e.attempt + 1, deadline := now + after, acked := false,
          arrived := false)];
    }

    method TakeAnswer(k: Key, request: Name, complete: bool, now: Time)
      modifies this`entries
      ensures Value() == Answered(old(Value()), k, request, complete, now)
    {
      if k !in entries || entries[k].state != Sent || entries[k].request != request { return; }
      entries := entries[k := entries[k].(answered := now)];
      if !complete {
        Fail(k, now);
        assert entries == old(entries)[k := entries[k]];
        return;
      }
      entries := entries[k := entries[k].(state := Idle, complete := true, attempt := 0)];
    }

    method KeepAnswer(k: Key, request: Name)
      modifies this`entries
      ensures Value() == Arrived(old(Value()), k, request)
    {
      if k in entries && entries[k].state == Sent && entries[k].request == request {
        entries := entries[k := entries[k].(arrived := true)];
      }
    }

    method NoteActive(zone: Zone, beat: Time, now: Time)
      modifies this`entries
      ensures Value() == ActiveChanged(old(Value()), zone, beat, now)
    {
      var until := now + AnswerTime(beat);
      var todo := entries.Keys;
      while todo != {}
        invariant todo <= old(entries).Keys
        invariant entries == map k | k in old(entries) ::
            if k.zone == zone && k !in todo then Restarted(old(entries)[k], until) else old(entries)[k]
      {
        var k :| k in todo;
        if k.zone == zone {
          var e := entries[k];
          if e.state == Sent && (e.acked || e.arrived) {
            e := e.(arrived := false, acked := true);
            if e.deadline < until { e := e.(deadline := until); }
            entries := entries[k := e];
          }
        }
        todo := todo - {k};
      }
    }

    method Drop(peer: Peer)
      modifies this`entries
      ensures Value() == Forget(old(Value()), peer)
    {
      var todo := entries.Keys;
      while todo != {}
        invariant todo <= old(entries).Keys
        invariant entries == map k | k in old(entries) && (k.peer != peer || k in todo) :: old(entries)[k]
      {
        var k :| k in todo;
        if k.peer == peer { entries := entries - {k}; }
        todo := todo - {k};
      }
    }

    method DropStale(zone: Zone, apply: set<Peer>)
      modifies this`entries
      ensures Value() == Prune(old(Value()), zone, apply)
    {
      var todo := entries.Keys;
      while todo != {}
        invariant todo <= old(entries).Keys
        invariant entries == map k | k in old(entries) && (k.zone != zone || k.peer in apply || k in todo) ::
            old(entries)[k]
      {
        var k :| k in todo;
        if k.zone == zone && k.peer !in apply { entries := entries - {k}; }
        todo := todo - {k};
      }
    }

    method EndSend(k: Key, request: Name, ok: bool, now: Time)
      modifies this`entries
      ensures Value() == SendEnded(old(Value()), k, request, ok, now)
    {
      if k !in entries || entries[k].state != Sent || entries[k].request != request { return; }
      if !ok {
        Fail(k, now);
        return;
      }
      var e := entries[k].(acked := true);
      if e.deadline < now + ANSWER_WAIT { e := e.(deadline := now + ANSWER_WAIT); }
      entries := entries[k := e];
    }

    /** caughtUpLocked: the zone's own read is done, and every voting peer has answered
        complete, with nothing outstanding to it. */
    method CaughtUp(zone: Zone, ownRead: bool, voters: seq<Peer>) returns (ok: bool, waitsFor: seq<Peer>)
      ensures forall p :: p in waitsFor <==>
          p in voters && !(Key(zone, p) in entries && entries[Key(zone, p)].complete
          && !entries[Key(zone, p)].Outstanding())
      ensures ok <==> ownRead && forall p :: p in voters ==>
          Key(zone, p) in entries && entries[Key(zone, p)].complete && !entries[Key(zone, p)].Outstanding()
    {
      waitsFor := [];
      for i := 0 to |voters|
        invariant forall p :: p in waitsFor <==>
            p in voters[..i] && !(Key(zone, p) in entries && entries[Key(zone, p)].complete
            && !entries[Key(zone, p)].Outstanding())
      {
        var k := Key(zone, voters[i]);
        if k !in entries || !entries[k].complete || entries[k].Outstanding() { waitsFor := waitsFor + [voters[i]]; }
      }
      assert voters[..|voters|] == voters;
      ok := ownRead && |waitsFor| == 0;
      if waitsFor != [] { assert waitsFor[0] in waitsFor; }
    }

    // ---- step -----------------------------------------------------------------------

    method SortedZones() returns (zones: seq<Zone>)
      ensures Ascending(zones) && forall z :: z in zones <==> exists k :: k in entries && k.zone == z
    {
      zones := [];
      ghost var all := set k | k in entries :: k.zone;
      var todo := set k | k in entries :: k.zone;
      while todo != {}
        invariant todo <= all && Ascending(zones)
        invariant forall z :: z in zones <==> z in all - todo
        invariant forall z, y :: z in zones && y in todo ==> !Names.Before(y, z)
      {
        ThereIsAFirst(todo);
        var z :| First(z, todo);
        assert forall i :: 0 <= i < |zones| ==> zones[i] in zones;
        zones := zones + [z];
        todo := todo - {z};
      }
    }

    /** The first loop of step, for one zone. */
    method DoOne(k: Key, look: Look)
      requires k in entries
      modifies this`entries
      ensures var e := old(entries)[k];
        entries == if Dropped(e, k.zone, look) then old(entries) - {k} else old(entries)[k := Passed(e, k, look, names)]
    {
      var e := entries[k];
      assert entries == entries[k := e];
      if e.state == Sent && e.acked && !e.arrived && k.zone !in look.unknown && look.now >= e.deadline {
        Fail(k, look.now);
      } else if e.state == Retry && look.now >= e.deadline {
        if k.zone !in look.apply {
          entries := entries - {k};
        } else if !look.operational {
          entries := entries[k := e.(state := Paused)];
        } else {
          var name := NewName(k);
          entries := entries[k := e.(state := Due, request := name, acked := false)];
        }
      } else if e.state == Due && !look.operational {
        entries := entries[k := e.(state := Noted)];
      }
    }

    method PassZone(peer: Peer, look: Look, zone: Zone, inFlight0: nat, ghost was: Tracker, ghost done: set<Zone>)
      returns (inFlight: nat)
      requires zone !in done && PassedSoFar(Value(), was, peer, look, done, inFlight0)
      modifies this`entries
      ensures PassedSoFar(Value(), was, peer, look, done + {zone}, inFlight)
    {
      var k := Key(zone, peer);
      ghost var before := Value();
      PassedOneMore(was, peer, look, done, zone);
      if k in entries { DoOne(k, look); }
      CountedOneMore(before, Value(), peer, done, zone);
      inFlight := inFlight0;
      if k in entries && entries[k].state == Sent && !entries[k].arrived { inFlight := inFlight + 1; }
    }

    /** The first loop of step, and the count of what waits at the peer. */
    method DoWhatIsDue(peer: Peer, look: Look, zones: seq<Zone>) returns (inFlight: nat)
      requires Ascending(zones) && forall k :: k in entries ==> k.zone in zones
      modifies this
      ensures Value() == Pass(old(Value()), peer, look)
      ensures inFlight == |InFlightTo(Value(), peer)|
    {
      ghost var was := Value();
      inFlight := PassZones(peer, look, zones);
      names := names + 1;
      PassedAll(was, peer, look, Elements(zones));
      assert InFlightTo(Value(), peer) * Elements(zones) == InFlightTo(Value(), peer);
    }

    method PassZones(peer: Peer, look: Look, zones: seq<Zone>) returns (inFlight: nat)
      requires Ascending(zones)
      modifies this`entries
      ensures PassedSoFar(Value(), old(Value()), peer, look, Elements(zones), inFlight)
    {
      inFlight := 0;
      ghost var was := Value();
      PassedNone(was, peer, look);
      ghost var done: set<Zone> := {};
      for i := 0 to |zones|
        invariant done == FirstOf(zones, i) && PassedSoFar(Value(), was, peer, look, done, inFlight)
      {
        OneMoreZone(zones, i);
        inFlight := PassZone(peer, look, zones[i], inFlight, was, done);
        done := done + {zones[i]};
      }
      AllTheFirst(zones);
    }

    /** The second loop of step: the request to send, or when to wake. */
    method PickNext(peer: Peer, look: Look, zones: seq<Zone>, inFlight: nat) returns (picked: Option<Zone>, next: Time)
      requires Ascending(zones) && (forall k :: k in entries ==> k.zone in zones)
          && inFlight == |InFlightTo(Value(), peer)|
      requires forall z :: RunsFor(Value(), peer, look, z) ==> Value().entries[Key(z, peer)].deadline > look.now
      ensures MayPick(Value(), peer, picked)
      ensures picked.None? ==> WakesAt(Value(), peer, look, next)
    {
      next := 0;
      for i := 0 to |zones|
        invariant inFlight < IN_FLIGHT ==> forall j :: 0 <= j < i ==> zones[j] !in DueTo(Value(), peer)
        invariant forall j :: 0 <= j < i && RunsFor(Value(), peer, look, zones[j]) ==>
            0 < next <= entries[Key(zones[j], peer)].deadline
        invariant next != 0 ==> exists z :: RunsFor(Value(), peer, look, z) && next == entries[Key(z, peer)].deadline
      {
        var k := Key(zones[i], peer);
        if k in entries {
          var e := entries[k];
          if e.state == Due && inFlight < IN_FLIGHT {
            PicksTheFirst(Value(), peer, zones, i);
            return Some(zones[i]), 0;
          }
          var waits := e.state == Sent && e.acked && !e.arrived && zones[i] !in look.unknown;
          if (e.state == Retry || waits) && (next == 0 || e.deadline < next) {
            assert RunsFor(Value(), peer, look, zones[i]);
            next := e.deadline;
          }
        }
      }
      picked := None;
      PicksNone(Value(), peer, zones);
    }

    method SendOne(k: Key, now: Time) returns (request: Name)
      requires k in entries
      modifies this`entries
      ensures Value() == Send(old(Value()), k, now) && Outgoing(Value(), k, request)
    {
      request := entries[k].request;
      entries := entries[k := entries[k].(state := Sent, asked := now, acked := false, deadline := 0)];
    }

    /** step. Nothing goes out to a peer that is not operational, nor when eight wait
        there. When nothing goes out, `next` is the earliest of the running deadlines,
        and after now; 0 when none runs. A retry whose time has come is asked again
        where its zone applies, or paused, and is dropped where it does not; nothing
        else is dropped. */
    method Step(peer: Peer, look: Look) returns (sent: Option<Zone>, request: Name, next: Time)
      modifies this
      ensures May(old(Value()), Stepping(peer, look, sent)) && Value() == Take(old(Value()), Stepping(peer, look, sent))
      ensures sent.Some? ==> look.operational && Outgoing(Value(), Key(sent.value, peer), request)
      ensures sent.None? ==> WakesAt(Value(), peer, look, next)
      ensures forall k :: k in old(entries) ==> RetriesAsked(old(Value()), Value(), peer, look, sent, k)
    {
      var zones := SortedZones();
      ghost var was := Value();
      PassLeaves(was, peer, look);
      var inFlight := DoWhatIsDue(peer, look, zones);
      sent, next := PickNext(peer, look, zones, inFlight);
      SteppingIs(was, peer, look, sent);
      request := Unnamed;
      if sent.Some? { request := SendOne(Key(sent.value, peer), look.now); }
      forall k | k in was.entries ensures RetriesAsked(was, Value(), peer, look, sent, k) {
        RetriesAreAsked(was, peer, look, sent, k);
      }
    }
  }

  /** The entry is gone exactly when it was the peer's to be asked again, its time had
      come and its zone applies no more. Where it applies it is paused, its peer not
      operational, or else due or out under a new name. */
  ghost predicate RetriesAsked(was: Tracker, now: Tracker, peer: Peer, look: Look, sent: Option<Zone>, k: Key)
    requires k in was.entries
  {
    var e := was.entries[k];
    var due := k.peer == peer && e.state == Retry && e.deadline <= look.now;
    && (k !in now.entries <==> due && k.zone !in look.apply)
    && (due && k in now.entries && !look.operational ==> now.entries[k] == e.(state := Paused))
    && (due && k in now.entries && look.operational ==>
          && now.entries[k].state == (if sent == Some(k.zone) then Sent else Due)
          && now.entries[k].request == Name(was.names, k))
  }

  lemma RetriesAreAsked(was: Tracker, peer: Peer, look: Look, sent: Option<Zone>, k: Key)
    requires May(was, Stepping(peer, look, sent)) && k in was.entries
    ensures RetriesAsked(was, Take(was, Stepping(peer, look, sent)), peer, look, sent, k)
  {
    GoesExactlyWhenItMay(was, Stepping(peer, look, sent), k);
    if k.peer == peer && was.entries[k].state == Retry { WhatAStepDoesToARetry(was, peer, look, sent, k); }
  }

  /** How many of these zones' requests wait at the peer. */
  ghost function WaitingIn(t: Tracker, peer: Peer, zones: set<Zone>): nat { |InFlightTo(t, peer) * zones| }

  /** Some of the zones are passed, and the count is of those of them that wait. */
  ghost predicate PassedSoFar(now: Tracker, was: Tracker, peer: Peer, look: Look, done: set<Zone>, inFlight: nat) {
    now == PassOver(was, peer, look, done) && inFlight == WaitingIn(now, peer, done)
  }

  /** The first loop, over some of the zones. */
  function PassOver(t: Tracker, peer: Peer, look: Look, zones: set<Zone>): Tracker {
    t.(entries := map k | k in t.entries
        && !(k.peer == peer && k.zone in zones && Dropped(t.entries[k], k.zone, look)) ::
                    if k.peer == peer && k.zone in zones then Passed(t.entries[k], k, look, t.names) else t.entries[k])
  }

  lemma PassedNone(t: Tracker, peer: Peer, look: Look)
    ensures PassOver(t, peer, look, {}) == t
  {
  }

  lemma PassedOneMore(t: Tracker, peer: Peer, look: Look, zones: set<Zone>, z: Zone)
    requires z !in zones
    ensures var k, p := Key(z, peer), PassOver(t, peer, look, zones).entries;
      && (k in p <==> k in t.entries) && (k in p ==> p[k] == t.entries[k])
      && PassOver(t, peer, look, zones + {z}).entries ==
           if k !in p then p
           else if Dropped(p[k], z, look) then p - {k}
           else p[k := Passed(p[k], k, look, t.names)]
  {
  }

  lemma CountedOneMore(t: Tracker, t': Tracker, peer: Peer, done: set<Zone>, z: Zone)
    requires z !in done && forall k :: k != Key(z, peer) ==> EntryOf(t, k) == EntryOf(t', k)
    ensures |InFlightTo(t', peer) * (done + {z})| ==
      |InFlightTo(t, peer) * done| + if Key(z, peer) in t'.entries && t'.entries[Key(z, peer)].InFlight() then 1 else 0
  {
    var here := if Key(z, peer) in t'.entries && t'.entries[Key(z, peer)].InFlight() then {z} else {};
    forall y ensures y in InFlightTo(t', peer) * (done + {z}) <==> y in InFlightTo(t, peer) * done + here {
      assert y != z ==> EntryOf(t, Key(y, peer)) == EntryOf(t', Key(y, peer));
      assert y in InFlightTo(t', peer) <==> Key(y, peer) in t'.entries && t'.entries[Key(y, peer)].InFlight();
      assert y in InFlightTo(t, peer) <==> Key(y, peer) in t.entries && t.entries[Key(y, peer)].InFlight();
    }
    assert InFlightTo(t', peer) * (done + {z}) == InFlightTo(t, peer) * done + here;
  }

  lemma PassedAll(t: Tracker, peer: Peer, look: Look, zones: set<Zone>)
    requires forall k :: k in t.entries ==> k.zone in zones
    ensures PassOver(t, peer, look, zones).entries == Pass(t, peer, look).entries
    ensures forall z :: z in InFlightTo(Pass(t, peer, look), peer) ==> z in zones
  {
  }

  predicate RunsFor(t: Tracker, peer: Peer, look: Look, z: Zone) {
    Key(z, peer) in t.entries && t.entries[Key(z, peer)].Runs(z in look.unknown)
  }

  /** What is left after the first loop is due only to an operational peer, and every
      deadline that runs lies ahead. */
  lemma PassLeaves(t: Tracker, peer: Peer, look: Look)
    ensures var t1 := Pass(t, peer, look);
      && (DueTo(t1, peer) != {} ==> look.operational)
      && (forall z :: RunsFor(t1, peer, look, z) ==> t1.entries[Key(z, peer)].deadline > look.now)
  {
  }

  /** The earliest of the deadlines that run, none of which is past; 0 when none runs. */
  ghost predicate WakesAt(t: Tracker, peer: Peer, look: Look, next: Time) {
    if next == 0 then forall z :: !RunsFor(t, peer, look, z)
    else
      && next > look.now
      && (forall z :: RunsFor(t, peer, look, z) ==> next <= t.entries[Key(z, peer)].deadline)
      && (exists z :: RunsFor(t, peer, look, z) && next == t.entries[Key(z, peer)].deadline)
  }

  lemma SteppingIs(t: Tracker, peer: Peer, look: Look, picked: Option<Zone>)
    requires MayPick(Pass(t, peer, look), peer, picked)
    ensures May(t, Stepping(peer, look, picked))
    ensures var t1 := Pass(t, peer, look);
      && (picked.Some? ==> Key(picked.value, peer) in t1.entries)
      && Take(t, Stepping(peer, look, picked)) == if picked.Some?
          then Send(t1, Key(picked.value, peer), look.now) else t1
  {
  }

  lemma PicksTheFirst(t: Tracker, peer: Peer, zones: seq<Zone>, i: nat)
    requires Ascending(zones) && i < |zones| && (forall k :: k in t.entries ==> k.zone in zones)
    requires forall j :: 0 <= j < i ==> zones[j] !in DueTo(t, peer)
    requires Key(zones[i], peer) in t.entries && t.entries[Key(zones[i], peer)].state == Due
        && |InFlightTo(t, peer)| < IN_FLIGHT
    ensures MayPick(t, peer, Some(zones[i]))
  {
    assert zones[i] in DueTo(t, peer);
    forall z | z in DueTo(t, peer) ensures !Names.Before(z, zones[i]) {
      var j :| 0 <= j < |zones| && zones[j] == z;
      if j == i && Names.Before(z, z) { Names.BeforeIsAsymmetric(z, z); }
    }
  }

  lemma PicksNone(t: Tracker, peer: Peer, zones: seq<Zone>)
    requires forall k :: k in t.entries ==> k.zone in zones
    ensures (forall j :: 0 <= j < |zones| ==> zones[j] !in DueTo(t, peer)) ==> DueTo(t, peer) == {}
    ensures forall z :: z in DueTo(t, peer) ==> z in zones
  {
  }
}
