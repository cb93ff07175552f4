/** The agent's handoverTracker as the program has it: its maps, updated in place
    by its methods. Each method is one lock-held region, proved to be the step of
    HandoverSteps.dfy; Drain is the loop over two of them. */
module HandoverTracker {
  import opened Wrappers
  import opened Handover
  import opened HandoverSteps

  /** What a tick resends, of some of the zones. */
  ghost function SendsOf(was: map<ZoneKey, ZoneHandover>, now: Time, ids: ZoneKey -> DistId,
      done: set<ZoneKey>): map<ZoneKey, Flight>
    requires done <= was.Keys
  {
    map zone | zone in done && TickZone(was[zone], now, ids(zone)).1.Some? ::
        TickZone(was[zone], now, ids(zone)).1.value
  }

  lemma SendsOneMore(was: map<ZoneKey, ZoneHandover>, now: Time, ids: ZoneKey -> DistId, done: set<ZoneKey>,
      zone: ZoneKey)
    requires done <= was.Keys && zone in was && zone !in done
    ensures var send := TickZone(was[zone], now, ids(zone)).1;
      SendsOf(was, now, ids, done + {zone}) == if send.Some? then SendsOf(was, now, ids, done)[zone := send.value]
          else SendsOf(was, now, ids, done)
  {
  }

  /** What is held forgotten, what is wanted handed again. */
  function StartedOver(z: ZoneHandover, now: Time, id: DistId): (ZoneHandover, Option<Flight>) {
    Due(z.(held := None), true, now, id)
  }

  class Tracker {
    var zones: map<ZoneKey, ZoneHandover>
    var sent: map<DistId, SentUpdate>

    function State(): HandoverSteps.Tracker
      reads this
    {
      HandoverSteps.Tracker(zones, sent)
    }

    constructor ()
      ensures State() == HandoverSteps.Tracker(map[], map[])
    {
      zones, sent := map[], map[];
    }

    /** The zone's entry, made when there is none. */
    method ZoneEntry(zone: ZoneKey) returns (z: ZoneHandover)
      modifies this`zones
      ensures z == Zone(old(State()), zone)
      ensures State() == Put(old(State()), zone, z)
    {
      if zone !in zones { zones := zones[zone := NEW_ZONE]; }
      z := zones[zone];
      assert zones == old(zones)[zone := z];
    }

    /** dueLocked, on the entry of a zone. */
    method DueLocked(zone: ZoneKey, again: bool, now: Time, id: DistId) returns (send: Option<Flight>)
      requires zone in zones
      modifies this`zones
      ensures var (z, due) := Due(old(zones[zone]), again, now, id);
              zones == old(zones)[zone := z] && send == due
    {
      var z := zones[zone];
      if z.want.None? || z.Holds() || (!again && z.flight.Some? && z.want.value.SameAs(z.flight.value.h)) {
        assert zones == old(zones)[zone := z];
        return None;
      }
      var h := z.want.value.(made := now, reset := z.reset, refresh := false);
      send := Some(Flight(id, h, now));
      zones := zones[zone := z.(flight := send)];
    }

    method HandOver(h: ActingHandover, now: Time, id: DistId) returns (send: Option<Flight>)
      modifies this`zones
      ensures (State(), send) == HandoverSteps.HandOver(old(State()), h, now, id)
    {
      var z := ZoneEntry(h.zone);
      zones := zones[h.zone := z.(want := Some(h))];
      send := DueLocked(h.zone, false, now, id);
      assert zones == old(zones)[h.zone := zones[h.zone]];
    }

    /** What deliver does when the queue refused the hand-over. */
    method Undelivered(zone: ZoneKey, id: DistId)
      modifies this`zones
      ensures State() == HandoverSteps.Undelivered(old(State()), zone, id)
    {
      var z := ZoneEntry(zone);
      if z.flight.Some? && z.flight.value.id == id {
        zones := zones[zone := z.(flight := None)];
        assert zones == old(zones)[zone := zones[zone]];
      }
    }

    method Learned(zone: ZoneKey, held: Option<ActingHandover>, now: Time, id: DistId) returns (send: Option<Flight>)
      modifies this`zones
      ensures (State(), send) == HandoverSteps.Learned(old(State()), zone, held, now, id)
    {
      var z := ZoneEntry(zone);
      if z.held.Some? && (held.None? || held.value.OlderThan(z.held.value)) { return None; }
      zones := zones[zone := z.(held := held)];
      send := DueLocked(zone, false, now, id);
      assert zones == old(zones)[zone := zones[zone]];
    }

    method StartOver(zone: ZoneKey, now: Time, id: DistId) returns (send: Option<Flight>)
      requires zone in zones
      modifies this`zones
      ensures var due := Due(old(zones)[zone].(held := None), true, now, id);
        zones == old(zones)[zone := due.0] && send == due.1
    {
      zones := zones[zone := zones[zone].(held := None)];
      send := DueLocked(zone, true, now, id);
      assert zones == old(zones)[zone := zones[zone]];
    }

    /** The combiner's start: every zone is handed over again. */
    method CombinerStarted(now: Time, ids: ZoneKey -> DistId) returns (sends: map<ZoneKey, Flight>)
      modifies this`zones
      ensures State() == HandoverSteps.CombinerStarted(old(State()), now, ids)
      ensures forall zone :: zone in sends <==>
        zone in old(zones) && Due(old(zones[zone]).(held := None), true, now, ids(zone)).1.Some?
      ensures forall zone :: zone in sends ==> zones[zone].flight == Some(sends[zone])
    {
      sends := StartAllOver(now, ids);
      assert zones == HandoverSteps.CombinerStarted(old(State()), now, ids).zones;
    }

    method StartAllOver(now: Time, ids: ZoneKey -> DistId) returns (sends: map<ZoneKey, Flight>)
      modifies this`zones
      ensures zones.Keys == old(zones).Keys
      ensures forall zone :: zone in zones ==> zones[zone] == StartedOver(old(zones[zone]), now, ids(zone)).0
      ensures forall zone :: zone in sends <==> zone in zones && StartedOver(old(zones)[zone], now, ids(zone)).1.Some?
      ensures forall zone :: zone in sends ==> zones[zone].flight == Some(sends[zone])
    {
      sends := map[];
      ghost var was := zones;
      var todo := zones.Keys;
      while todo != {}
        invariant todo <= was.Keys == zones.Keys
        invariant forall zone :: zone in todo ==> zones[zone] == was[zone]
        invariant forall zone :: zone in was.Keys - todo ==> zones[zone] == StartedOver(was[zone], now, ids(zone)).0
        invariant forall zone :: zone in sends <==>
            zone in was.Keys - todo && StartedOver(was[zone], now, ids(zone)).1.Some?
        invariant forall zone :: zone in sends ==> zones[zone].flight == Some(sends[zone])
      {
        var zone :| zone in todo;
        todo := todo - {zone};
        var send := StartOver(zone, now, ids(zone));
        if send.Some? { sends := sends[zone := send.value]; }
      }
    }

    method Again(zone: ZoneKey, now: Time, id: DistId) returns (send: Option<Flight>)
      modifies this`zones
      ensures (State(), send) == HandoverSteps.Again(old(State()), zone, now, id)
    {
      var z := ZoneEntry(zone);
      zones := zones[zone := z.(held := None)];
      send := DueLocked(zone, true, now, id);
      assert zones == old(zones)[zone := zones[zone]];
    }

    method LetHoldGo(zone: ZoneKey, now: Time, id: DistId) returns (send: Option<Flight>)
      modifies this`zones
      ensures (State(), send) == HandoverSteps.LetHoldGo(old(State()), zone, now, id)
    {
      if zone !in zones || zones[zone].want.None? || !zones[zone].want.value.sets.hold { return None; }
      var h := zones[zone].want.value;
      zones := zones[zone := zones[zone].(want := Some(h.(sets := h.sets.(hold := false))))];
      send := DueLocked(zone, false, now, id);
      assert zones == old(zones)[zone := zones[zone]];
    }

    method HoldLast(zone: ZoneKey, now: Time, id: DistId) returns (send: Option<Flight>)
      modifies this`zones
      ensures (State(), send) == HandoverSteps.HoldLast(old(State()), zone, now, id)
    {
      var z := ZoneEntry(zone);
      var base := z.held;
      if base.None? { base := z.want; }
      if base.None? || |base.value.records| == 0 { return None; }
      var h := base.value.(sets := base.value.sets.(hold := true));
      if z.want.Some? && h.SameAs(z.want.value) { return None; }
      zones := zones[zone := z.(want := Some(h))];
      send := DueLocked(zone, false, now, id);
      assert zones == old(zones)[zone := zones[zone]];
    }

    method Forgot(zone: ZoneKey)
      modifies this`zones
      ensures State() == HandoverSteps.Forgot(old(State()), zone)
    {
      var z := ZoneEntry(zone);
      zones := zones[zone := z.(reset := true, held := None)];
      assert zones == old(zones)[zone := zones[zone]];
    }

    /** The ticker's lock-held part, and the zones it drains after it. */
    method Tick(now: Time, ids: ZoneKey -> DistId) returns (sends: map<ZoneKey, Flight>, drains: set<ZoneKey>)
      modifies this
      ensures State() == HandoverSteps.Tick(old(State()), now, ids)
      ensures drains == set zone | zone in old(zones) && old(zones[zone]).waiting != []
      ensures forall zone :: zone in sends <==>
        zone in old(zones) && TickZone(old(zones[zone]), now, ids(zone)).1.Some?
      ensures forall zone :: zone in sends ==> zones[zone].flight == Some(sends[zone])
    {
      sends, drains := TickZones(now, ids);
      ForgetOldSends(now);
    }

    method ResendOne(zone: ZoneKey, now: Time, id: DistId) returns (send: Option<Flight>)
      requires zone in zones
      modifies this`zones
      ensures var tick := TickZone(old(zones)[zone], now, id);
        zones == old(zones)[zone := tick.0] && send == tick.1
    {
      send := None;
      assert zones == zones[zone := zones[zone]];
      if zones[zone].flight.None? || now - zones[zone].flight.value.at > HANDOVER_RESEND {
        send := DueLocked(zone, true, now, id);
      }
    }

    method TickZones(now: Time, ids: ZoneKey -> DistId) returns (sends: map<ZoneKey, Flight>, drains: set<ZoneKey>)
      modifies this`zones
      ensures zones == HandoverSteps.Tick(old(State()), now, ids).zones
      ensures drains == set zone | zone in old(zones) && old(zones[zone]).waiting != []
      ensures forall zone :: zone in sends <==>
        zone in old(zones) && TickZone(old(zones[zone]), now, ids(zone)).1.Some?
      ensures forall zone :: zone in sends ==> zones[zone].flight == Some(sends[zone])
    {
      sends, drains := map[], {};
      ghost var was := zones;
      var todo := zones.Keys;
      while todo != {}
        invariant todo <= was.Keys == zones.Keys
        invariant forall zone :: zone in todo ==> zones[zone] == was[zone]
        invariant forall zone :: zone in was.Keys - todo ==> zones[zone] == TickZone(was[zone], now, ids(zone)).0
        invariant sends == SendsOf(was, now, ids, was.Keys - todo)
        invariant drains == set zone | zone in was.Keys - todo && was[zone].waiting != []
      {
        var zone :| zone in todo;
        var send := ResendOne(zone, now, ids(zone));
        SendsOneMore(was, now, ids, was.Keys - todo, zone);
        assert was.Keys - (todo - {zone}) == was.Keys - todo + {zone};
        todo := todo - {zone};
        if send.Some? { sends := sends[zone := send.value]; }
        if |zones[zone].waiting| > 0 { drains := drains + {zone}; }
      }
      assert was.Keys - {} == was.Keys;
    }

    method ForgetOldSends(now: Time)
      modifies this`sent
      ensures sent == map id | id in old(sent) && now - old(sent[id]).at <= NOTE_MAX_AGE :: old(sent[id])
    {
      var ages := sent.Keys;
      while ages != {}
        invariant ages <= old(sent).Keys && ages <= sent.Keys
        invariant sent == map id | id in old(sent) && (id in ages || now - old(sent[id]).at <= NOTE_MAX_AGE) ::
            old(sent[id])
      {
        var id :| id in ages;
        ages := ages - {id};
        if now - sent[id].at > NOTE_MAX_AGE { sent := sent - {id}; }
      }
    }

    method Gate(zone: ZoneKey, update: ZoneUpdate, id: DistId, now: Time) returns (answer: GateAnswer)
      modifies this
      ensures (State(), answer) == HandoverSteps.Gate(old(State()), zone, update, id, now)
    {
      if update.acting.Some? || zone !in zones || zones[zone].want.None? { return Passes; }
      var z := zones[zone];
      if !z.Holds() || z.draining || |z.waiting| > 0 {
        if |z.waiting| >= HANDOVER_MAX_WAITING { return TooMany; }
        zones := zones[zone := z.(waiting := z.waiting + [WaitingUpdate(zone, update, id, [])])];
        return Waits;
      }
      sent := sent[id := SentUpdate(zone, update, z.held.value, now, [])];
      return Passes;
    }

    method Unsent(id: DistId)
      modifies this`sent
      ensures State() == HandoverSteps.Unsent(old(State()), id)
    {
      sent := sent - {id};
    }

    method DrainTake(zone: ZoneKey, now: Time) returns (w: Option<WaitingUpdate>)
      modifies this
      ensures (State(), w) == HandoverSteps.DrainTake(old(State()), zone, now)
    {
      if zone !in zones || zones[zone].draining || |zones[zone].waiting| == 0 || !zones[zone].Holds() { return None; }
      var z := zones[zone];
      w := Some(z.waiting[0]);
      zones := zones[zone := z.(draining := true)];
      sent := sent[w.value.id := SentUpdate(w.value.zone, w.value.update, z.held.value, now, w.value.removed)];
    }

    method DrainDone(zone: ZoneKey, w: WaitingUpdate, queued: bool)
      requires zone in zones && |zones[zone].waiting| > 0
      modifies this
      ensures State() == HandoverSteps.DrainDone(old(State()), zone, w, queued)
    {
      var z := zones[zone].(draining := false);
      zones := zones[zone := z];
      if !queued {
        sent := sent - {w.id};
        return;
      }
      zones := zones[zone := z.(waiting := z.waiting[1..])];
      assert zones == old(zones)[zone := zones[zone]];
    }

    /** drain, with nothing in between its rounds: `answers` are the queue's. It
        ends when nothing may go out, or at the first update the queue refuses. */
    method Drain(zone: ZoneKey, now: Time, answers: seq<bool>) returns (out: seq<WaitingUpdate>)
      modifies this
      ensures (State(), out) == HandoverSteps.Drain(old(State()), zone, now, answers)
    {
      ghost var whole := HandoverSteps.Drain(State(), zone, now, answers);
      out := [];
      var i := 0;
      assert answers[0..] == answers;
      while i < |answers|
        invariant i <= |answers|
        invariant HandoverSteps.Drain(State(), zone, now, answers[i..]).0 == whole.0
        invariant out + HandoverSteps.Drain(State(), zone, now, answers[i..]).1 == whole.1
      {
        assert out + [] == out;
        assert answers[i..][0] == answers[i] && answers[i..][1..] == answers[i + 1..];
        var w := DrainTake(zone, now);
        if w.None? { return; }
        DrainDone(zone, w.value, answers[i]);
        if !answers[i] { return; }
        out := out + [w.value];
        i := i + 1;
      }
      assert out + [] == out;
    }

    /** The word on a hand-over in flight. `found` says that it was one. */
    method WordOnHandover(id: DistId, status: ConfirmStatus, now: Time, newId: DistId)
      returns (found: bool, send: Option<Flight>)
      requires DistinctFlights(State())
      modifies this`zones
      ensures found == IsHandover(old(State()), id)
      ensures !found ==> State() == old(State()) && send == None
      ensures forall zone :: InFlight(old(State()), zone, id) ==>
        (State(), send) == HandoverWord(old(State()), zone, status, now, newId)
    {
      found, send := false, None;
      var todo := zones.Keys;
      while todo != {}
        invariant todo <= zones.Keys
        invariant State() == old(State())
        invariant forall zone :: InFlight(State(), zone, id) ==> zone in todo
      {
        var zone :| zone in todo;
        todo := todo - {zone};
        var z := zones[zone];
        if z.flight.Some? && z.flight.value.id == id {
          assert InFlight(old(State()), zone, id);
          var h := z.flight.value.h;
          z := z.(flight := None);
          if status != Success {
            zones := zones[zone := z.(held := None)];
          } else {
            zones := zones[zone := z.(held := Some(h), reset := z.reset && !h.reset)];
            send := DueLocked(zone, false, now, newId);
            assert zones == old(zones)[zone := zones[zone]];
          }
          return true, send;
        }
      }
    }

    /** The first lock-held part of the word on an update: it is to go again when
        the word is a refusal, and judged by something else than is wanted, or
        given by a combiner that acts by something else. */
    method WordOnUpdate(id: DistId, status: ConfirmStatus, acting: Option<ActingStamp>, removed: seq<string>)
      returns (word: UpdateWord)
      modifies this`sent
      ensures (State(), word) == HandoverSteps.WordOnUpdate(old(State()), id, status, acting, removed)
      ensures sent == old(sent) - {id}
      ensures word.NotOurs? <==> id !in old(sent)
      ensures id in old(sent) ==>
        var (s, want) := (old(sent)[id], Zone(State(), old(sent)[id].zone).want);
        && (word.SendAgain? <==>
              && (status == Failed || status == Rejected || status == Ignored || status == Partial)
              && want.Some?
              && (|| !want.value.SameAs(s.under)
                  || (acting.Some? && (acting.value.serial, acting.value.digest, acting.value.step)
                        != (s.under.serial, s.under.digest, s.under.step))))
        && (word.SendAgain? ==> word.w == WaitingUpdate(s.zone, s.update, id, s.removed + removed))
        && (word.Final? ==> word.carried == s.removed)
    {
      if id !in sent { return NotOurs; }
      var s := sent[id];
      sent := sent - {id};
      var stale := s.zone in zones && zones[s.zone].want.Some?
        && (!zones[s.zone].want.value.SameAs(s.under) || (acting.Some? && !acting.value.Names(s.under)));
      match status {
        case Failed | Rejected | Ignored | Partial =>
        case _ => return Final(s.removed);
      }
      if !stale { return Final(s.removed); }
      return SendAgain(WaitingUpdate(s.zone, s.update, id, s.removed + removed));
    }

    /** The second: it waits behind what waits already. */
    method Requeue(w: WaitingUpdate)
      modifies this`zones
      ensures State() == HandoverSteps.Requeue(old(State()), w)
    {
      var z := ZoneEntry(w.zone);
      zones := zones[w.zone := z.(waiting := z.waiting + [w])];
      assert zones == old(zones)[w.zone := zones[w.zone]];
    }
  }
}
