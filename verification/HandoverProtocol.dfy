/** The agent's tracker and the combiner's store together, over a network that
    loses, duplicates, delays and reorders: a message once put on the network may
    arrive any number of times, at any later time, or never.

    A step is one lock-held region of one part. A pass over all zones (the
    combiner's start report, the ticker) is taken zone by zone here, which allows
    every interleaving the pass allows and more. */
module HandoverProtocol {
  import opened Wrappers
  import opened Serial
  import opened Handover
  import opened ActingStore
  import opened HandoverSteps

  datatype Message =
    | HandoverMsg(id: DistId, h: ActingHandover)
    | TakenWord(id: DistId)                                      // the combiner's success on a hand-over
    | EditsAnswer(zone: ZoneKey, held: Option<ActingHandover>)   // what it holds, by an own read

  /** `due` are the hand-overs made and not yet put on the queue, `issued` every
      hand-over ever made, by its distribution, and `took` everything the
      combiner has ever held. */
  datatype System = System(
    agent: Tracker, combiner: Store, net: set<Message>,
    due: map<DistId, ActingHandover>, issued: map<DistId, ActingHandover>, took: set<ActingHandover>)

  datatype Step =
    | HandsOver(h: ActingHandover, now: Time, id: DistId)
    | Queued(id: DistId)
    | NotQueued(id: DistId)
    | CombinerTakes(id: DistId, agent: string, now: Time, tableWorks: bool, acts: bool)
    | CombinerAnswers(zone: ZoneKey)
    | CombinerRestarts
    | AgentRestarts
    | WordArrives(zone: ZoneKey, id: DistId, status: ConfirmStatus, now: Time, newId: DistId)
    | AnswerArrives(zone: ZoneKey, held: Option<ActingHandover>, now: Time, newId: DistId)
    | StartArrives(zone: ZoneKey, now: Time, newId: DistId)
    | HoldLetGo(zone: ZoneKey, now: Time, newId: DistId)
    | HeldLast(zone: ZoneKey, now: Time, newId: DistId)
    | Ticks(zone: ZoneKey, now: Time, newId: DistId)
    | AgesOut(now: Time)
    | PassesGate(zone: ZoneKey, update: ZoneUpdate, id: DistId, now: Time)
    | StartsDrain(zone: ZoneKey, now: Time)
    | EndsDrain(zone: ZoneKey, w: WaitingUpdate, queued: bool)
    | QueueRefused(id: DistId)
    | UpdateWordArrives(id: DistId, status: ConfirmStatus, acting: Option<ActingStamp>, removed: seq<string>)
    | WaitsAgain(w: WaitingUpdate)

  /** The agent moves, and makes the hand-over it sends, if any. */
  function Sends(s: System, move: (Tracker, Option<Flight>)): System {
    match move.1
    case None => s.(agent := move.0)
    case Some(f) => s.(agent := move.0, due := s.due[f.id := f.h], issued := s.issued[f.id := f.h])
  }

  /** What may happen. A success on a hand-over arrives only once the combiner
      gave it, an answer only as it was given; a refusal may arrive at any time. A
      new distribution's id is new. What is handed over carries instructions, its
      serials lie in the window, and nothing is forgotten. */
  predicate Enabled(base: uint32, s: System, step: Step) {
    match step
    case HandsOver(h, _, id) => Fits(base, h) && id !in s.issued
    case Queued(id) => id in s.due
    case NotQueued(id) => id in s.due
    case CombinerTakes(id, _, _, _, _) => id in s.issued && HandoverMsg(id, s.issued[id]) in s.net
    case WordArrives(zone, id, status, _, newId) =>
      newId !in s.issued && InFlight(s.agent, zone, id) && (status == Success ==> TakenWord(id) in s.net)
    case AnswerArrives(zone, held, _, newId) => newId !in s.issued && EditsAnswer(zone, held) in s.net
    case StartArrives(_, _, newId) => newId !in s.issued
    case HoldLetGo(_, _, newId) => newId !in s.issued
    case HeldLast(_, _, newId) => newId !in s.issued
    case Ticks(zone, _, newId) => newId !in s.issued && zone in s.agent.zones
    case EndsDrain(zone, w, _) => zone in s.agent.zones && |s.agent.zones[zone].waiting| > 0
    case _ => true
  }

  function Next(read: Reader, base: uint32, s: System, step: Step): System
    requires Enabled(base, s, step)
  {
    match step
    case HandsOver(h, now, id) => Sends(s, HandOver(s.agent, h, now, id))
    case Queued(id) => s.(net := s.net + {HandoverMsg(id, s.due[id])}, due := s.due - {id})
    case NotQueued(id) => s.(agent := Undelivered(s.agent, s.due[id].zone, id), due := s.due - {id})
    case CombinerTakes(id, agent, now, works, acts) =>
      var (store, answer) := Take(read, s.combiner, s.issued[id], agent, now, works);
      s.(combiner := store,
         net := if answer.error.None? && acts then s.net + {TakenWord(id)} else s.net,
         took := if s.issued[id].zone in store.zones then s.took + {store.zones[s.issued[id].zone].handover}
             else s.took)
    case CombinerAnswers(zone) => s.(net := s.net + {EditsAnswer(zone, HeldFor(s.combiner, zone))})
    case CombinerRestarts => s.(combiner := Happens(read, s.combiner, Restart))
    case AgentRestarts => s.(agent := Tracker(map[], map[]), due := map[])
    case WordArrives(zone, id, status, now, newId) => Sends(s, HandoverWord(s.agent, zone, status, now, newId))
    case AnswerArrives(zone, held, now, newId) => Sends(s, Learned(s.agent, zone, held, now, newId))
    case StartArrives(zone, now, newId) => Sends(s, Again(s.agent, zone, now, newId))
    case HoldLetGo(zone, now, newId) => Sends(s, LetHoldGo(s.agent, zone, now, newId))
    case HeldLast(zone, now, newId) => Sends(s, HoldLast(s.agent, zone, now, newId))
    case Ticks(zone, now, newId) =>
      var (z, send) := TickZone(s.agent.zones[zone], now, newId);
      Sends(s, (Put(s.agent, zone, z), send))
    case AgesOut(now) =>
      s.(agent := s.agent.(sent := map id | id in s.agent.sent && now - s.agent.sent[id].at <= NOTE_MAX_AGE ::
          s.agent.sent[id]))
    case PassesGate(zone, update, id, now) => s.(agent := Gate(s.agent, zone, update, id, now).0)
    case StartsDrain(zone, now) => s.(agent := DrainTake(s.agent, zone, now).0)
    case EndsDrain(zone, w, queued) => s.(agent := DrainDone(s.agent, zone, w, queued))
    case QueueRefused(id) => s.(agent := Unsent(s.agent, id))
    case UpdateWordArrives(id, status, acting, removed) =>
        s.(agent := WordOnUpdate(s.agent, id, status, acting, removed).0)
    case WaitsAgain(w) => s.(agent := Requeue(s.agent, w))
  }

  /** The agent starts with nothing; the combiner with whatever it has kept. */
  ghost predicate Starts(read: Reader, base: uint32, s: System) {
    && s.agent == Tracker(map[], map[])
    && Durable(read, s.combiner) && HoldsInWindow(base, s.combiner)
    && (forall zone :: zone in s.combiner.zones ==> s.combiner.zones[zone].handover.zone == zone)
    && s.net == {} && s.due == map[] && s.issued == map[]
    && s.took == set zone | zone in s.combiner.zones :: s.combiner.zones[zone].handover
  }

  ghost predicate CanHappen(read: Reader, base: uint32, s: System, steps: seq<Step>)
    decreases |steps|
  {
    steps == [] || (Enabled(base, s, steps[0]) && CanHappen(read, base, Next(read, base, s, steps[0]), steps[1..]))
  }

  ghost function After(read: Reader, base: uint32, s: System, steps: seq<Step>): System
    requires CanHappen(read, base, s, steps)
    decreases |steps|
  {
    if steps == [] then s else After(read, base, Next(read, base, s, steps[0]), steps[1..])
  }

  // ---- What every step keeps ---------------------------------------------------

  /** The combiner has held what h hands, and holds nothing below that now. */
  ghost predicate Backed(base: uint32, s: System, h: ActingHandover) {
    exists t :: t in s.took && BackedBy(base, s.combiner, t, h)
  }

  ghost predicate BackedBy(base: uint32, store: Store, t: ActingHandover, h: ActingHandover) {
    && t.zone == h.zone && t.SameAs(h)
    && NotBelow(base, HeldFor(store, h.zone), Some(t))
  }

  ghost predicate ZoneSound(base: uint32, s: System, zone: ZoneKey, z: ZoneHandover) {
    && !z.reset
    && (z.want.Some? ==> Fits(base, z.want.value) && z.want.value.zone == zone)
    && (z.held.Some? ==> Known(base, s, zone, z.held.value))
    && (z.flight.Some? ==> Issued(s, zone, z.flight.value))
  }

  ghost predicate Issued(s: System, zone: ZoneKey, f: Flight) {
    f.h.zone == zone && f.id in s.issued && s.issued[f.id] == f.h
  }

  ghost predicate Known(base: uint32, s: System, zone: ZoneKey, h: ActingHandover) {
    && h.zone == zone && Fits(base, h) && Backed(base, s, h)
    && (h in s.took || h in s.issued.Values)
  }

  ghost predicate AgentSound(base: uint32, s: System) {
    && (forall zone :: zone in s.agent.zones ==> ZoneSound(base, s, zone, s.agent.zones[zone]))
    && (forall id :: id in s.agent.sent ==> Backed(base, s, s.agent.sent[id].under))
  }

  ghost predicate CombinerSound(read: Reader, base: uint32, s: System) {
    && Durable(read, s.combiner) && HoldsInWindow(base, s.combiner)
    && (forall zone :: zone in s.combiner.zones ==>
          s.combiner.zones[zone].handover.zone == zone && s.combiner.zones[zone].handover in s.took)
    && (forall h :: h in s.took ==> Fits(base, h))
    && (forall id :: id in s.issued ==> Fits(base, s.issued[id]) && !s.issued[id].refresh)
  }

  ghost predicate NetSound(base: uint32, s: System) {
    && (forall id :: id in s.due ==> id in s.issued && s.issued[id] == s.due[id])
    && (forall id, h :: HandoverMsg(id, h) in s.net ==> id in s.issued && s.issued[id] == h)
    && (forall id :: TakenWord(id) in s.net ==> id in s.issued && Backed(base, s, s.issued[id]))
    && (forall zone, h :: EditsAnswer(zone, Some(h)) in s.net ==> Known(base, s, zone, h))
  }

  ghost predicate Sound(read: Reader, base: uint32, s: System) {
    CombinerSound(read, base, s) && AgentSound(base, s) && NetSound(base, s)
  }

  /** A system no worse informed: the combiner has held all it had and is not
      below, and every hand-over issued stays issued. */
  ghost predicate Grows(base: uint32, s: System, s': System) {
    && s.took <= s'.took
    && (forall id :: id in s.issued ==> id in s'.issued && s'.issued[id] == s.issued[id])
    && (forall zone :: NotBelow(base, HeldFor(s'.combiner, zone), HeldFor(s.combiner, zone)))
  }

  lemma LevelIsReflexive(base: uint32, h: ActingHandover)
    ensures AtOrAbove(base, h, h)
  {
  }

  lemma BackedGrows(base: uint32, s: System, s': System, h: ActingHandover)
    requires Grows(base, s, s') && Backed(base, s, h)
    ensures Backed(base, s', h)
  {
  }

  lemma KnownGrows(base: uint32, s: System, s': System, zone: ZoneKey, h: ActingHandover)
    requires Grows(base, s, s') && Known(base, s, zone, h)
    ensures Known(base, s', zone, h)
  {
  }

  lemma AgentSoundGrows(base: uint32, s: System, s': System)
    requires Grows(base, s, s') && AgentSound(base, s) && s'.agent == s.agent
    ensures AgentSound(base, s')
  {
    forall zone | zone in s'.agent.zones ensures ZoneSound(base, s', zone, s'.agent.zones[zone]) {
      var z := s.agent.zones[zone];
      assert ZoneSound(base, s, zone, z);
      if z.held.Some? { KnownGrows(base, s, s', zone, z.held.value); }
    }
    forall id | id in s'.agent.sent ensures Backed(base, s', s'.agent.sent[id].under) {
      BackedGrows(base, s, s', s.agent.sent[id].under);
    }
  }

  lemma NetSoundGrows(base: uint32, s: System, s': System)
    requires Grows(base, s, s') && NetSound(base, s) && s'.net == s.net && s'.due == s.due
    ensures NetSound(base, s')
  {
  }

  lemma SameLevels(base: uint32, s: System, s': System)
    requires s'.combiner == s.combiner
    ensures forall zone :: NotBelow(base, HeldFor(s'.combiner, zone), HeldFor(s.combiner, zone))
  {
  }

  /** A hand-over is made, under a new distribution. */
  lemma IssueIsSound(read: Reader, base: uint32, s: System, f: Flight)
    requires Sound(read, base, s) && f.id !in s.issued && Fits(base, f.h) && !f.h.refresh
    ensures var s' := s.(due := s.due[f.id := f.h], issued := s.issued[f.id := f.h]);
            Sound(read, base, s') && Grows(base, s, s')
  {
    var s' := s.(due := s.due[f.id := f.h], issued := s.issued[f.id := f.h]);
    SameLevels(base, s, s');
    assert Grows(base, s, s');
    AgentSoundGrows(base, s, s');
    var asked := s'.(due := s.due);
    NetSoundGrows(base, s, asked);
    forall id | TakenWord(id) in s'.net ensures id in s'.issued && Backed(base, s', s'.issued[id]) {
      BackedGrows(base, s, s', s.issued[id]);
    }
    forall zone, h | EditsAnswer(zone, Some(h)) in s'.net ensures Known(base, s', zone, h) {
      KnownGrows(base, s, s', zone, h);
    }
  }

  lemma ZoneSoundGrows(base: uint32, s: System, s': System, zone: ZoneKey, z: ZoneHandover)
    requires Grows(base, s, s') && ZoneSound(base, s, zone, z)
    ensures ZoneSound(base, s', zone, z)
  {
  }

  lemma PutIsSound(read: Reader, base: uint32, s: System, zone: ZoneKey, z: ZoneHandover)
    requires Sound(read, base, s) && ZoneSound(base, s, zone, z)
    ensures Sound(read, base, s.(agent := Put(s.agent, zone, z)))
  {
    var s' := s.(agent := Put(s.agent, zone, z));
    SameLevels(base, s, s');
    NetSoundGrows(base, s, s');
    forall q | q in s'.agent.zones ensures ZoneSound(base, s', q, s'.agent.zones[q]) {
      ZoneSoundGrows(base, s, s', q, s'.agent.zones[q]);
    }
  }

  /** The agent changes one zone's entry, and hands over what is then due. */
  lemma ZoneMoveIsSound(read: Reader, base: uint32, s: System, zone: ZoneKey, z: ZoneHandover, again: bool, now: Time,
      id: DistId)
    requires Sound(read, base, s) && ZoneSound(base, s, zone, z) && id !in s.issued
    ensures var (z', send) := Due(z, again, now, id);
            Sound(read, base, Sends(s, (Put(s.agent, zone, z'), send)))
  {
    var (z', send) := Due(z, again, now, id);
    if send.None? {
      PutIsSound(read, base, s, zone, z);
    } else {
      var f := send.value;
      var s1 := s.(due := s.due[f.id := f.h], issued := s.issued[f.id := f.h]);
      IssueIsSound(read, base, s, f);
      ZoneSoundGrows(base, s, s1, zone, z);
      PutIsSound(read, base, s1, zone, z');
      assert Sends(s, (Put(s.agent, zone, z'), send)) == s1.(agent := Put(s1.agent, zone, z'));
    }
  }

  lemma EntryIsSound(base: uint32, s: System, zone: ZoneKey)
    requires AgentSound(base, s)
    ensures ZoneSound(base, s, zone, Zone(s.agent, zone))
  {
  }

  lemma HeldIsKnown(read: Reader, base: uint32, s: System, zone: ZoneKey)
    requires CombinerSound(read, base, s) && HeldFor(s.combiner, zone).Some?
    ensures Known(base, s, zone, HeldFor(s.combiner, zone).value)
  {
  }

  /** The combiner takes a hand-over that arrived, or refuses it. */
  lemma TakingIsSound(read: Reader, base: uint32, s: System, step: Step)
    requires Sound(read, base, s) && step.CombinerTakes? && Enabled(base, s, step)
    ensures Sound(read, base, Next(read, base, s, step))
  {
    var h := s.issued[step.id];
    var s' := Next(read, base, s, step);
    var (store, answer) := Take(read, s.combiner, h, step.agent, step.now, step.tableWorks);
    TakeTellsWhatItDid(read, s.combiner, h, step.agent, step.now, step.tableWorks);
    TakingKeepsTheCombiner(read, base, s, step);
    AgentSoundGrows(base, s, s');
    if answer.error.None? {
      HeldIsKnown(read, base, s', h.zone);
      var held := HeldFor(store, h.zone).value;
      LevelIsReflexive(base, held);
      assert BackedBy(base, store, held, h);
    }
    WhatIsTakenIsSaid(base, s, s', step.id);
  }

  lemma TakingKeepsTheCombiner(read: Reader, base: uint32, s: System, step: Step)
    requires Sound(read, base, s) && step.CombinerTakes? && Enabled(base, s, step)
    ensures CombinerSound(read, base, Next(read, base, s, step)) && Grows(base, s, Next(read, base, s, step))
  {
    var h := s.issued[step.id];
    TakeIsDurable(read, s.combiner, h, step.agent, step.now, step.tableWorks);
    TakeKeepsTheLevel(read, base, s.combiner, h, step.agent, step.now, step.tableWorks);
    WhatIsHeldWasTaken(read, s.combiner, h, step.agent, step.now, step.tableWorks);
    TakenIsWritten(read, base, s, Next(read, base, s, step), h);
  }

  /** A take puts what it was given in its zone, but for the mark, or changes nothing. */
  lemma WhatIsHeldWasTaken(read: Reader, s: Store, h: ActingHandover, agent: string, now: Time, works: bool)
    ensures var s' := Take(read, s, h, agent, now, works).0;
      forall zone :: zone in s'.zones ==>
        || (zone in s.zones && s'.zones[zone].handover == s.zones[zone].handover)
        || (zone == h.zone && s'.zones[zone].handover == h.(refresh := false))
  {
  }

  lemma TakenIsWritten(read: Reader, base: uint32, s: System, s': System, h: ActingHandover)
    requires CombinerSound(read, base, s) && h in s.issued.Values
    requires s' == s.(combiner := s'.combiner, net := s'.net, took := s'.took)
    requires s'.took == if h.zone in s'.combiner.zones then s.took + {s'.combiner.zones[h.zone].handover} else s.took
    requires Durable(read, s'.combiner) && HoldsInWindow(base, s'.combiner)
    requires forall zone :: NotBelow(base, HeldFor(s'.combiner, zone), HeldFor(s.combiner, zone))
    requires forall zone :: zone in s'.combiner.zones ==>
      || (zone in s.combiner.zones && s'.combiner.zones[zone].handover == s.combiner.zones[zone].handover)
      || (zone == h.zone && s'.combiner.zones[zone].handover == h.(refresh := false))
    ensures CombinerSound(read, base, s') && Grows(base, s, s')
  {
  }

  lemma WhatIsTakenIsSaid(base: uint32, s: System, s': System, id: DistId)
    requires NetSound(base, s) && Grows(base, s, s') && s'.due == s.due && s'.issued == s.issued && id in s.issued
    requires s.net <= s'.net <= s.net + {TakenWord(id)}
    requires TakenWord(id) in s'.net ==> TakenWord(id) in s.net || Backed(base, s', s.issued[id])
    ensures NetSound(base, s')
  {
  }

  lemma RestartingIsSound(read: Reader, base: uint32, s: System)
    requires Sound(read, base, s)
    ensures Sound(read, base, Next(read, base, s, CombinerRestarts))
  {
    var s' := Next(read, base, s, CombinerRestarts);
    EventKeepsTheLevel(read, base, s.combiner, Restart);
    assert Grows(base, s, s');
    forall zone | zone in s'.combiner.zones
      ensures s'.combiner.zones[zone].handover.zone == zone && s'.combiner.zones[zone].handover in s'.took
    {
      RestartKeepsWhatIsHeld(read, s.combiner, zone);
      assert HeldFor(s'.combiner, zone) == HeldFor(s.combiner, zone);
    }
    AgentSoundGrows(base, s, s');
    NetSoundGrows(base, s, s');
  }

  /** The agent forgets all it knew; what it put on the network may still arrive. */
  lemma AgentRestartingIsSound(read: Reader, base: uint32, s: System)
    requires Sound(read, base, s)
    ensures Sound(read, base, Next(read, base, s, AgentRestarts))
  {
    var forgetting := s.(agent := Tracker(map[], map[]));
    SameLevels(base, s, forgetting);
    NetSoundGrows(base, s, forgetting);
    var s' := Next(read, base, s, AgentRestarts);
    assert s' == forgetting.(due := map[]);
    forall id | TakenWord(id) in s'.net ensures id in s'.issued && Backed(base, s', s'.issued[id]) {
      BackedGrows(base, s, s', s.issued[id]);
    }
    forall z, h | EditsAnswer(z, Some(h)) in s'.net ensures Known(base, s', z, h) { KnownGrows(base, s, s', z, h); }
  }

  /** What is put on the network, and what is taken off the way to the queue. */
  lemma NetMoveIsSound(read: Reader, base: uint32, s: System, step: Step)
    requires Sound(read, base, s) && Enabled(base, s, step)
    requires step.Queued? || step.NotQueued? || step.CombinerAnswers?
    ensures Sound(read, base, Next(read, base, s, step))
  {
    var s' := Next(read, base, s, step);
    SameLevels(base, s, s');
    if step.NotQueued? {
      var zone := s.due[step.id].zone;
      EntryIsSound(base, s, zone);
      PutIsSound(read, base, s, zone, Undelivered(s.agent, zone, step.id).zones[zone]);
      assert Undelivered(s.agent, zone, step.id) == Put(s.agent, zone, Undelivered(s.agent, zone, step.id).zones[zone]);
      var put := s.(agent := s'.agent);
      SameLevels(base, put, s');
      AgentSoundGrows(base, put, s');
      var all := s'.(due := put.due);
      NetSoundGrows(base, put, all);
      assert NetSound(base, s') by {
        forall id | TakenWord(id) in s'.net
          ensures id in s'.issued && Backed(base, s', s'.issued[id])
        {
          BackedGrows(base, put, s', s.issued[id]);
        }
        forall z, h | EditsAnswer(z, Some(h)) in s'.net
          ensures Known(base, s', z, h)
        {
          KnownGrows(base, put, s', z, h);
        }
      }
    } else {
      AgentSoundGrows(base, s, s');
      forall id | TakenWord(id) in s'.net ensures id in s'.issued && Backed(base, s', s'.issued[id]) {
        BackedGrows(base, s, s', s.issued[id]);
      }
      forall z, h | EditsAnswer(z, Some(h)) in s'.net ensures Known(base, s', z, h) {
        if EditsAnswer(z, Some(h)) in s.net { KnownGrows(base, s, s', z, h); } else { HeldIsKnown(read, base, s', z); }
      }
    }
  }

  /** What arrives at the agent about the hand-over. */
  lemma ArrivalIsSound(read: Reader, base: uint32, s: System, step: Step)
    requires Sound(read, base, s) && Enabled(base, s, step)
    requires step.WordArrives? || step.AnswerArrives? || step.StartArrives?
    ensures Sound(read, base, Next(read, base, s, step))
  {
    match step
    case WordArrives(zone, id, status, now, newId) =>
      var z := s.agent.zones[zone];
      assert ZoneSound(base, s, zone, z);
      if status != Success {
        PutIsSound(read, base, s, zone, z.(flight := None, held := None));
      } else {
        var h := z.flight.value.h;
        assert s.issued[id] == h;
        assert ZoneSound(base, s, zone, z.(flight := None, held := Some(h), reset := z.reset && !h.reset));
        ZoneMoveIsSound(read, base, s, zone, z.(flight := None, held := Some(h), reset := z.reset && !h.reset), false,
            now, newId);
      }
    case AnswerArrives(zone, held, now, newId) =>
      EntryIsSound(base, s, zone);
      var z := Zone(s.agent, zone);
      PutIsSound(read, base, s, zone, z);
      ZoneMoveIsSound(read, base, s, zone, z.(held := held), false, now, newId);
    case StartArrives(zone, now, newId) =>
      EntryIsSound(base, s, zone);
      ZoneMoveIsSound(read, base, s, zone, Zone(s.agent, zone).(held := None), true, now, newId);
  }

  lemma HoldingLastIsSound(read: Reader, base: uint32, s: System, zone: ZoneKey, now: Time, newId: DistId)
    requires Sound(read, base, s) && Enabled(base, s, HeldLast(zone, now, newId))
    ensures Sound(read, base, Next(read, base, s, HeldLast(zone, now, newId)))
  {
    if HoldsAnew(s.agent, zone) {
      var z := Zone(s.agent, zone);
      WhatItHasFits(base, s, zone);
      HoldingIsSound(read, base, s, zone, if z.held.Some? then z.held.value else z.want.value, now, newId);
    } else {
      EntryIsSound(base, s, zone);
      PutIsSound(read, base, s, zone, Zone(s.agent, zone));
    }
    HoldingAnewOrNot(s, zone, now, newId);
  }

  /** There are instructions held or wanted, and with the hold they are not what is wanted. */
  predicate HoldsAnew(t: Tracker, zone: ZoneKey) {
    var z := Zone(t, zone);
    var from := if z.held.Some? then z.held else z.want;
    from.Some? && |from.value.records| > 0
    && !(z.want.Some? && from.value.(sets := from.value.sets.(hold := true)).SameAs(z.want.value))
  }

  lemma HoldingAnewOrNot(s: System, zone: ZoneKey, now: Time, id: DistId)
    ensures var z := Zone(s.agent, zone);
      Sends(s, HoldLast(s.agent, zone, now, id)) ==
        if !HoldsAnew(s.agent, zone) then s.(agent := Put(s.agent, zone, z))
        else
          var from := if z.held.Some? then z.held.value else z.want.value;
          var (z', send) := Due(z.(want := Some(from.(sets := from.sets.(hold := true)))), false, now, id);
          Sends(s, (Put(s.agent, zone, z'), send))
  {
  }

  lemma WhatItHasFits(base: uint32, s: System, zone: ZoneKey)
    requires AgentSound(base, s)
    ensures var z := Zone(s.agent, zone);
      && (z.held.Some? ==> Fits(base, z.held.value) && z.held.value.zone == zone)
      && (z.want.Some? ==> Fits(base, z.want.value) && z.want.value.zone == zone)
  {
    EntryIsSound(base, s, zone);
  }

  lemma HoldingIsSound(read: Reader, base: uint32, s: System, zone: ZoneKey, from: ActingHandover, now: Time,
      newId: DistId)
    requires Sound(read, base, s) && newId !in s.issued && Fits(base, from) && from.zone == zone
    ensures var h := from.(sets := from.sets.(hold := true));
      var (z, send) := Due(Zone(s.agent, zone).(want := Some(h)), false, now, newId);
      Sound(read, base, Sends(s, (Put(s.agent, zone, z), send)))
  {
    EntryIsSound(base, s, zone);
    var h := from.(sets := from.sets.(hold := true));
    ZoneMoveIsSound(read, base, s, zone, Zone(s.agent, zone).(want := Some(h)), false, now, newId);
  }

  /** What the agent does about the hand-over by itself. */
  lemma AgentMoveIsSound(read: Reader, base: uint32, s: System, step: Step)
    requires Sound(read, base, s) && Enabled(base, s, step)
    requires step.HandsOver? || step.HoldLetGo? || step.HeldLast? || step.Ticks?
    ensures Sound(read, base, Next(read, base, s, step))
  {
    match step
    case HandsOver(h, now, id) =>
      EntryIsSound(base, s, h.zone);
      ZoneMoveIsSound(read, base, s, h.zone, Zone(s.agent, h.zone).(want := Some(h)), false, now, id);
    case HoldLetGo(zone, now, newId) =>
      EntryIsSound(base, s, zone);
      var z := Zone(s.agent, zone);
      if z.want.Some? && z.want.value.sets.hold {
        var h := z.want.value.(sets := z.want.value.sets.(hold := false));
        ZoneMoveIsSound(read, base, s, zone, z.(want := Some(h)), false, now, newId);
      }
    case HeldLast(zone, now, newId) => HoldingLastIsSound(read, base, s, zone, now, newId);
    case Ticks(zone, now, newId) =>
      var z := s.agent.zones[zone];
      PutIsSound(read, base, s, zone, z);
      ZoneMoveIsSound(read, base, s, zone, z, true, now, newId);
  }

  /** The two trackers hold the same hand-overs, and every update that `after`
      has noted as sent was so noted before or goes under what its zone holds. */
  ghost predicate OnlyUpdatesMoved(before: Tracker, after: Tracker) {
    && (forall zone :: zone in after.zones ==>
          var z, was := after.zones[zone], Zone(before, zone);
          z.want == was.want && z.held == was.held && z.flight == was.flight && z.reset == was.reset)
    && (forall id :: id in after.sent ==>
          || (id in before.sent && after.sent[id].under == before.sent[id].under)
          || (exists zone :: zone in before.zones && before.zones[zone].held == Some(after.sent[id].under)))
  }

  lemma UpdatesMovedIsSound(read: Reader, base: uint32, s: System, agent: Tracker)
    requires Sound(read, base, s) && OnlyUpdatesMoved(s.agent, agent)
    ensures Sound(read, base, s.(agent := agent))
  {
    var s' := s.(agent := agent);
    SameLevels(base, s, s');
    assert Grows(base, s, s');
    forall zone | zone in agent.zones ensures ZoneSound(base, s', zone, agent.zones[zone]) {
      EntryIsSound(base, s, zone);
      ZoneSoundGrows(base, s, s', zone, Zone(s.agent, zone));
    }
    forall id | id in agent.sent ensures Backed(base, s', agent.sent[id].under) {
      if id !in s.agent.sent || agent.sent[id].under != s.agent.sent[id].under {
        var zone :| zone in s.agent.zones && s.agent.zones[zone].held == Some(agent.sent[id].under);
        assert ZoneSound(base, s, zone, s.agent.zones[zone]);
      }
      BackedGrows(base, s, s', agent.sent[id].under);
    }
    NetSoundGrows(base, s, s');
  }

  lemma UpdateMovesUpdates(read: Reader, base: uint32, s: System, step: Step)
    requires Enabled(base, s, step)
    requires step.AgesOut? || step.PassesGate? || step.StartsDrain? || step.EndsDrain? || step.QueueRefused?
        || step.UpdateWordArrives? || step.WaitsAgain?
    ensures var s' := Next(read, base, s, step); s' == s.(agent := s'.agent) && OnlyUpdatesMoved(s.agent, s'.agent)
  {
    match step
    case PassesGate(zone, update, id, now) => GateMovesUpdates(s.agent, zone, update, id, now);
    case StartsDrain(zone, now) => DrainMovesUpdates(s.agent, zone, now);
    case _ =>
  }

  lemma GateMovesUpdates(t: Tracker, zone: ZoneKey, update: ZoneUpdate, id: DistId, now: Time)
    ensures OnlyUpdatesMoved(t, Gate(t, zone, update, id, now).0)
  {
  }

  lemma DrainMovesUpdates(t: Tracker, zone: ZoneKey, now: Time)
    ensures OnlyUpdatesMoved(t, DrainTake(t, zone, now).0)
  {
  }

  /** What happens to updates. */
  lemma UpdateMoveIsSound(read: Reader, base: uint32, s: System, step: Step)
    requires Sound(read, base, s) && Enabled(base, s, step)
    requires step.AgesOut? || step.PassesGate? || step.StartsDrain? || step.EndsDrain? || step.QueueRefused?
        || step.UpdateWordArrives? || step.WaitsAgain?
    ensures Sound(read, base, Next(read, base, s, step))
  {
    UpdateMovesUpdates(read, base, s, step);
    UpdatesMovedIsSound(read, base, s, Next(read, base, s, step).agent);
  }

  lemma StepIsSound(read: Reader, base: uint32, s: System, step: Step)
    requires Sound(read, base, s) && Enabled(base, s, step)
    ensures Sound(read, base, Next(read, base, s, step))
  {
    match step
    case HandsOver(_, _, _) => AgentMoveIsSound(read, base, s, step);
    case HoldLetGo(_, _, _) => AgentMoveIsSound(read, base, s, step);
    case HeldLast(_, _, _) => AgentMoveIsSound(read, base, s, step);
    case Ticks(_, _, _) => AgentMoveIsSound(read, base, s, step);
    case Queued(_) => NetMoveIsSound(read, base, s, step);
    case NotQueued(_) => NetMoveIsSound(read, base, s, step);
    case CombinerAnswers(_) => NetMoveIsSound(read, base, s, step);
    case CombinerTakes(_, _, _, _, _) => TakingIsSound(read, base, s, step);
    case CombinerRestarts => RestartingIsSound(read, base, s);
    case AgentRestarts => AgentRestartingIsSound(read, base, s);
    case WordArrives(_, _, _, _, _) => ArrivalIsSound(read, base, s, step);
    case AnswerArrives(_, _, _, _) => ArrivalIsSound(read, base, s, step);
    case StartArrives(_, _, _) => ArrivalIsSound(read, base, s, step);
    case _ => UpdateMoveIsSound(read, base, s, step);
  }

  lemma StartIsSound(read: Reader, base: uint32, s: System)
    requires Starts(read, base, s)
    ensures Sound(read, base, s)
  {
  }

  lemma {:induction false} EveryRunIsSound(read: Reader, base: uint32, s: System, steps: seq<Step>)
    requires Sound(read, base, s) && CanHappen(read, base, s, steps)
    ensures Sound(read, base, After(read, base, s, steps))
    decreases |steps|
  {
    if steps != [] {
      StepIsSound(read, base, s, steps[0]);
      EveryRunIsSound(read, base, Next(read, base, s, steps[0]), steps[1..]);
    }
  }

  // ---- What the protocol is for -------------------------------------------------

  /** The combiner held what h hands, and what it holds now is not below h by the
      serial, the newest, the phase and the step. */
  ghost predicate TakenAndKept(base: uint32, s: System, h: ActingHandover) {
    && (exists t :: t in s.took && t.zone == h.zone && t.SameAs(h))
    && HeldFor(s.combiner, h.zone).Some?
    && !AboveByKey(base, h, HeldFor(s.combiner, h.zone).value)
  }

  lemma BackedIsTakenAndKept(read: Reader, base: uint32, s: System, h: ActingHandover)
    requires CombinerSound(read, base, s) && Backed(base, s, h) && h.InWindow(base)
    ensures TakenAndKept(base, s, h)
  {
  }

  lemma WhatItWentUnderIsTakenAndKept(read: Reader, base: uint32, s: System, under: ActingHandover)
    requires CombinerSound(read, base, s) && Backed(base, s, under)
    ensures TakenAndKept(base, s, under)
  {
    var t :| t in s.took && BackedBy(base, s.combiner, t, under);
    assert Fits(base, t);
    assert under.InWindow(base);
    BackedIsTakenAndKept(read, base, s, under);
  }

  /** In every run, in every state: what the agent believes its combiner holds,
      and what every update it let out went under, the combiner took before, and
      holds nothing of a lower key since. */
  lemma WhatTheAgentBelievesWasTaken(read: Reader, base: uint32, s: System, steps: seq<Step>)
    requires Starts(read, base, s) && CanHappen(read, base, s, steps)
    ensures var s' := After(read, base, s, steps);
      && (forall zone :: zone in s'.agent.zones && s'.agent.zones[zone].held.Some? ==>
            TakenAndKept(base, s', s'.agent.zones[zone].held.value))
      && (forall id :: id in s'.agent.sent ==> TakenAndKept(base, s', s'.agent.sent[id].under))
  {
    StartIsSound(read, base, s);
    EveryRunIsSound(read, base, s, steps);
    WhatASoundAgentBelieves(read, base, After(read, base, s, steps));
  }

  lemma WhatASoundAgentBelieves(read: Reader, base: uint32, s: System)
    requires Sound(read, base, s)
    ensures forall zone :: zone in s.agent.zones && s.agent.zones[zone].held.Some? ==>
        TakenAndKept(base, s, s.agent.zones[zone].held.value)
    ensures forall id :: id in s.agent.sent ==> TakenAndKept(base, s, s.agent.sent[id].under)
  {
    forall zone | zone in s.agent.zones && s.agent.zones[zone].held.Some?
      ensures TakenAndKept(base, s, s.agent.zones[zone].held.value)
    {
      assert ZoneSound(base, s, zone, s.agent.zones[zone]);
      BackedIsTakenAndKept(read, base, s, s.agent.zones[zone].held.value);
    }
    forall id | id in s.agent.sent ensures TakenAndKept(base, s, s.agent.sent[id].under) {
      WhatItWentUnderIsTakenAndKept(read, base, s, s.agent.sent[id].under);
    }
  }

  /** What the step lets out goes under what is held, which is what is wanted. */
  lemma LetOutUnderWhatIsHeld(read: Reader, base: uint32, s: System, step: Step, zone: ZoneKey, id: DistId)
    requires (step.PassesGate? && step.zone == zone && step.id == id)
      || (step.StartsDrain? && step.zone == zone && CanDrain(s.agent, zone) && s.agent.zones[zone].waiting[0].id == id)
    requires zone in s.agent.zones && s.agent.zones[zone].want.Some? && id !in s.agent.sent
    ensures var after := Next(read, base, s, step);
      id in after.agent.sent ==>
        s.agent.zones[zone].Holds() && s.agent.zones[zone].held == Some(after.agent.sent[id].under)
  {
  }

  /** An update that goes out, past the gate or out of the wait, goes out under
      what the agent wants, which the combiner has taken. */
  lemma NothingGoesOutUntaken(read: Reader, base: uint32, s: System, steps: seq<Step>, step: Step, zone: ZoneKey,
      id: DistId)
    requires Starts(read, base, s) && CanHappen(read, base, s, steps)
    requires (step.PassesGate? && step.zone == zone && step.id == id)
      || (step.StartsDrain? && step.zone == zone && CanDrain(After(read, base, s, steps).agent, zone)
          && After(read, base, s, steps).agent.zones[zone].waiting[0].id == id)
    requires var before := After(read, base, s, steps).agent;
      zone in before.zones && before.zones[zone].want.Some? && id !in before.sent
    ensures var before := After(read, base, s, steps);
      var after := Next(read, base, before, step);
      id in after.agent.sent ==>
        && before.agent.zones[zone].want.value.SameAs(after.agent.sent[id].under)
        && TakenAndKept(base, before, after.agent.sent[id].under)
  {
    WhatTheAgentBelievesWasTaken(read, base, s, steps);
    LetOutUnderWhatIsHeld(read, base, After(read, base, s, steps), step, zone, id);
  }

  // ---- How close what the combiner holds is --------------------------------------

  /** The agent handed the same twice, and something else of the key in between. */
  ghost predicate HandedAgain(all: set<ActingHandover>, a: ActingHandover, b: ActingHandover, c: ActingHandover) {
    && a in all && b in all && c in all
    && a.zone == b.zone == c.zone
    && a.SameAs(c) && b.SameKey(c) && !b.SameAs(c)
    && a.made <= b.made < c.made
  }

  /** In every state of every run: what the combiner holds is older than what the
      agent believes it holds only when it is something else of the same key,
      handed between two hand-overs of what the agent believes. So while the agent
      hands nothing again after something else of its key, the combiner is never
      behind what the agent believes, the time made included. */
  lemma BehindOnlyWhenHandedAgain(read: Reader, base: uint32, s: System, steps: seq<Step>, zone: ZoneKey)
    requires Starts(read, base, s) && CanHappen(read, base, s, steps)
    requires var s' := After(read, base, s, steps); zone in s'.agent.zones && s'.agent.zones[zone].held.Some?
    ensures var s' := After(read, base, s, steps);
      var h, now := s'.agent.zones[zone].held.value, HeldFor(s'.combiner, zone);
      now.Some? && (now.value.OlderThan(h) <==> exists a :: HandedAgain(s'.took + s'.issued.Values, a, now.value, h))
  {
    StartIsSound(read, base, s);
    EveryRunIsSound(read, base, s, steps);
    var s' := After(read, base, s, steps);
    var h := s'.agent.zones[zone].held.value;
    assert ZoneSound(base, s', zone, s'.agent.zones[zone]);
    BackedIsTakenAndKept(read, base, s', h);
    var now := HeldFor(s'.combiner, zone).value;
    assert Fits(base, now);
    OlderThanIsBelow(base, now, h);
    if now.OlderThan(h) {
      var t :| t in s'.took && BackedBy(base, s'.combiner, t, h);
      OlderThanIsBelow(base, now, t);
      assert t.SameKey(h) && now.made >= t.made;
      assert HandedAgain(s'.took + s'.issued.Values, t, now, h);
    }
  }

  /** So in a run in which the agent hands nothing again after something else of its
      key, what the combiner holds is never older than what the agent believes. */
  lemma NeverBehindWhenNothingIsHandedAgain(read: Reader, base: uint32, s: System, steps: seq<Step>)
    requires Starts(read, base, s) && CanHappen(read, base, s, steps)
    requires var s' := After(read, base, s, steps); !exists a, b, c :: HandedAgain(s'.took + s'.issued.Values, a, b, c)
    ensures var s' := After(read, base, s, steps);
      forall zone :: zone in s'.agent.zones && s'.agent.zones[zone].held.Some? ==>
        HeldFor(s'.combiner, zone).Some? && !HeldFor(s'.combiner, zone).value.OlderThan(s'.agent.zones[zone].held.value)
  {
    var s' := After(read, base, s, steps);
    forall zone | zone in s'.agent.zones && s'.agent.zones[zone].held.Some?
      ensures HeldFor(s'.combiner, zone).Some?
          && !HeldFor(s'.combiner, zone).value.OlderThan(s'.agent.zones[zone].held.value)
    {
      BehindOnlyWhenHandedAgain(read, base, s, steps, zone);
    }
  }

  lemma {:induction false} Then(read: Reader, base: uint32, s: System, steps: seq<Step>, step: Step)
    requires CanHappen(read, base, s, steps) && Enabled(base, After(read, base, s, steps), step)
    ensures CanHappen(read, base, s, steps + [step])
    ensures After(read, base, s, steps + [step]) == Next(read, base, After(read, base, s, steps), step)
    decreases |steps|
  {
    if steps == [] {
      assert steps + [step] == [step];
    } else {
      assert (steps + [step])[1..] == steps[1..] + [step];
      Then(read, base, Next(read, base, s, steps[0]), steps[1..], step);
    }
  }

  // ---- The run that leaves the combiner behind ------------------------------------

  ghost const FRESH := System(Tracker(map[], map[]), Store(map[], Some(map[])), {}, map[], map[], {})

  /** a is handed and taken; no word of it has arrived. */
  lemma HandedAndTaken(read: Reader, base: uint32, a: ActingHandover) returns (steps: seq<Step>)
    requires Fits(base, a) && ReadHandover(read, a).Instructions?
    ensures CanHappen(read, base, FRESH, steps)
    ensures var s, a1 := After(read, base, FRESH, steps), a.(made := 1, refresh := false);
      && s.agent == Tracker(map[a.zone := ZoneHandover(Some(a), None, Some(Flight(1, a1, 1)), [], false, false)], map[])
      && HeldFor(s.combiner, a.zone) == Some(a1) && s.combiner.table.Some?
      && s.net == {HandoverMsg(1, a1), TakenWord(1)} && s.issued == map[1 := a1] && s.due == map[]
  {
    steps := [];
    Then(read, base, FRESH, steps, HandsOver(a, 1, 1));
    steps := steps + [HandsOver(a, 1, 1)];
    assert After(read, base, FRESH, steps).due == map[1 := a.(made := 1, refresh := false)];
    Then(read, base, FRESH, steps, Queued(1));
    steps := steps + [Queued(1)];
    Then(read, base, FRESH, steps, CombinerTakes(1, "agent", 1, true, true));
    steps := steps + [CombinerTakes(1, "agent", 1, true, true)];
  }

  /** a is handed and taken; b, of its key, is handed and on the network. */
  lemma HandedTwice(read: Reader, base: uint32, a: ActingHandover, b: ActingHandover) returns (steps: seq<Step>)
    requires Fits(base, a) && Fits(base, b) && a.zone == b.zone && a.SameKey(b) && !a.SameAs(b)
    requires ReadHandover(read, a).Instructions?
    ensures CanHappen(read, base, FRESH, steps)
    ensures var s, a1, b2 := After(read, base, FRESH, steps), a.(made := 1, refresh := false),
        b.(made := 2, refresh := false);
      && s.agent == Tracker(map[a.zone := ZoneHandover(Some(b), None, Some(Flight(2, b2, 2)), [], false, false)], map[])
      && HeldFor(s.combiner, a.zone) == Some(a1) && s.combiner.table.Some?
      && s.net == {HandoverMsg(1, a1), TakenWord(1), HandoverMsg(2, b2)}
      && s.issued == map[1 := a1, 2 := b2] && s.due == map[]
  {
    var a1, b2 := a.(made := 1, refresh := false), b.(made := 2, refresh := false);
    assert !b.SameAs(a1);
    steps := HandedAndTaken(read, base, a);
    Then(read, base, FRESH, steps, HandsOver(b, 2, 2));
    steps := steps + [HandsOver(b, 2, 2)];
    assert After(read, base, FRESH, steps).due == map[2 := b2];
    Then(read, base, FRESH, steps, Queued(2));
    steps := steps + [Queued(2)];
  }

  /** And a again is handed and on the network. No word has arrived yet. */
  lemma HandedThrice(read: Reader, base: uint32, a: ActingHandover, b: ActingHandover) returns (steps: seq<Step>)
    requires Fits(base, a) && Fits(base, b) && a.zone == b.zone && a.SameKey(b) && !a.SameAs(b)
    requires ReadHandover(read, a).Instructions?
    ensures CanHappen(read, base, FRESH, steps)
    ensures var s := After(read, base, FRESH, steps);
      var a1, b2, a3 := a.(made := 1, refresh := false), b.(made := 2, refresh := false),
          a.(made := 3, refresh := false);
      && s.agent == Tracker(map[a.zone := ZoneHandover(Some(a), None, Some(Flight(3, a3, 3)), [], false, false)], map[])
      && HeldFor(s.combiner, a.zone) == Some(a1) && s.combiner.table.Some?
      && s.net == {HandoverMsg(1, a1), TakenWord(1), HandoverMsg(2, b2), HandoverMsg(3, a3)}
      && s.issued == map[1 := a1, 2 := b2, 3 := a3]
  {
    var a3 := a.(made := 3, refresh := false);
    assert !a.SameAs(b.(made := 2, refresh := false));
    steps := HandedTwice(read, base, a, b);
    Then(read, base, FRESH, steps, HandsOver(a, 3, 3));
    steps := steps + [HandsOver(a, 3, 3)];
    assert After(read, base, FRESH, steps).due == map[3 := a3];
    Then(read, base, FRESH, steps, Queued(3));
    steps := steps + [Queued(3)];
  }

  /** The repeat of a is answered; its word arrives, and an update goes out. */
  lemma TheRepeatIsBelieved(read: Reader, base: uint32, a: ActingHandover, b: ActingHandover, update: ZoneUpdate)
    returns (steps: seq<Step>)
    requires Fits(base, a) && Fits(base, b) && a.zone == b.zone && a.SameKey(b) && !a.SameAs(b)
    requires ReadHandover(read, a).Instructions? && update.acting.None?
    ensures CanHappen(read, base, FRESH, steps)
    ensures var s := After(read, base, FRESH, steps);
      var a1, b2, a3 := a.(made := 1, refresh := false), b.(made := 2, refresh := false),
          a.(made := 3, refresh := false);
      && s.agent == Tracker(map[a.zone := ZoneHandover(Some(a), Some(a3), None, [], false, false)],
                            map[10 := SentUpdate(a.zone, update, a3, 4, [])])
      && HeldFor(s.combiner, a.zone) == Some(a1) && s.combiner.table.Some?
      && HandoverMsg(2, b2) in s.net && 2 in s.issued && s.issued[2] == b2
  {
    steps := TheRepeatIsHeld(read, base, a, b);
    Then(read, base, FRESH, steps, PassesGate(a.zone, update, 10, 4));
    steps := steps + [PassesGate(a.zone, update, 10, 4)];
  }

  lemma TheRepeatIsHeld(read: Reader, base: uint32, a: ActingHandover, b: ActingHandover) returns (steps: seq<Step>)
    requires Fits(base, a) && Fits(base, b) && a.zone == b.zone && a.SameKey(b) && !a.SameAs(b)
    requires ReadHandover(read, a).Instructions?
    ensures CanHappen(read, base, FRESH, steps)
    ensures var s := After(read, base, FRESH, steps);
      var a1, b2, a3 := a.(made := 1, refresh := false), b.(made := 2, refresh := false),
          a.(made := 3, refresh := false);
      && s.agent == Tracker(map[a.zone := ZoneHandover(Some(a), Some(a3), None, [], false, false)], map[])
      && HeldFor(s.combiner, a.zone) == Some(a1) && s.combiner.table.Some?
      && HandoverMsg(2, b2) in s.net && 2 in s.issued && s.issued[2] == b2
  {
    steps := TheRepeatIsTaken(read, base, a, b);
    Then(read, base, FRESH, steps, WordArrives(a.zone, 3, Success, 4, 4));
    steps := steps + [WordArrives(a.zone, 3, Success, 4, 4)];
  }

  lemma TheRepeatIsTaken(read: Reader, base: uint32, a: ActingHandover, b: ActingHandover) returns (steps: seq<Step>)
    requires Fits(base, a) && Fits(base, b) && a.zone == b.zone && a.SameKey(b) && !a.SameAs(b)
    requires ReadHandover(read, a).Instructions?
    ensures CanHappen(read, base, FRESH, steps)
    ensures var s := After(read, base, FRESH, steps);
      var a1, b2, a3 := a.(made := 1, refresh := false), b.(made := 2, refresh := false),
          a.(made := 3, refresh := false);
      && s.agent == Tracker(map[a.zone := ZoneHandover(Some(a), None, Some(Flight(3, a3, 3)), [], false, false)], map[])
      && HeldFor(s.combiner, a.zone) == Some(a1) && s.combiner.table.Some?
      && HandoverMsg(2, b2) in s.net && TakenWord(3) in s.net && s.issued == map[1 := a1, 2 := b2, 3 := a3]
  {
    steps := HandedThrice(read, base, a, b);
    Then(read, base, FRESH, steps, CombinerTakes(3, "agent", 3, true, true));
    steps := steps + [CombinerTakes(3, "agent", 3, true, true)];
  }

  /** For every a and b of one key that hand different things, a run ends with the
      combiner acting by b while the agent wants a, believes it held, and lets
      updates out under it; the combiner's own answer that it holds b is not taken
      for true, and the ticker hands nothing more. The repeat of a was answered
      without being kept (ActingStore.AYesRefusesTheOlder). */
  lemma TheCombinerIsLeftBehind(read: Reader, base: uint32, a: ActingHandover, b: ActingHandover, update: ZoneUpdate)
    returns (steps: seq<Step>)
    requires Fits(base, a) && Fits(base, b) && a.zone == b.zone && a.SameKey(b) && !a.SameAs(b)
    requires ReadHandover(read, a).Instructions? && ReadHandover(read, b).Instructions?
    requires update.acting.None?
    ensures Starts(read, base, FRESH) && CanHappen(read, base, FRESH, steps)
    ensures var s := After(read, base, FRESH, steps);
      && a.zone in s.agent.zones && s.agent.zones[a.zone].Holds()
      && s.agent.zones[a.zone].want.value.SameAs(a)
      && HeldFor(s.combiner, a.zone).Some? && HeldFor(s.combiner, a.zone).value.SameAs(b)
      && HeldFor(s.combiner, a.zone).value.OlderThan(s.agent.zones[a.zone].held.value)
      && 10 in s.agent.sent && s.agent.sent[10].under.SameAs(a)
      && (forall now, id :: Learned(s.agent, a.zone, HeldFor(s.combiner, a.zone), now, id) == (s.agent, None))
      && (forall now, id :: TickZone(s.agent.zones[a.zone], now, id) == (s.agent.zones[a.zone], None))
  {
    var b2, a3 := b.(made := 2, refresh := false), a.(made := 3, refresh := false);
    steps := TheRepeatIsBelieved(read, base, a, b, update);
    Then(read, base, FRESH, steps, CombinerTakes(2, "agent", 5, true, true));
    steps := steps + [CombinerTakes(2, "agent", 5, true, true)];
    var s := After(read, base, FRESH, steps);
    assert HeldFor(s.combiner, a.zone) == Some(b2);
    assert !b2.SameAs(a3) && b2.OlderThan(a3);
    NothingRepairsIt(s.agent, a.zone, b2);
  }

  /** The answer is older than what is known, and what is wanted is held. */
  lemma NothingRepairsIt(t: Tracker, zone: ZoneKey, answer: ActingHandover)
    requires zone in t.zones && t.zones[zone].Holds() && t.zones[zone].flight.None? && !t.zones[zone].reset
    requires answer.OlderThan(t.zones[zone].held.value)
    ensures forall now, id :: Learned(t, zone, Some(answer), now, id) == (t, None)
    ensures forall now, id :: TickZone(t.zones[zone], now, id) == (t.zones[zone], None)
  {
    assert Put(t, zone, t.zones[zone]) == t;
  }
}
