/** What becomes of one zone's hand-over at the agent: what each thing that may
    happen to it changes and sends, said by the fields; that nothing wanted is
    left unsent; and that a forget is told until the combiner has confirmed it,
    with the one case in which it is not. */
module HandoverLife {
  import opened Wrappers
  import opened Handover
  import opened HandoverSteps

  const FIVE_MINUTES: Time := 300_000_000_000
  const A_DAY: Time := 86_400_000_000_000

  /** The lock-held steps that concern the zone's hand-over, and any that moves
      its updates alone. */
  datatype Event =
    | Wanted(h: ActingHandover, now: Time, id: DistId)
    | NotQueued(id: DistId)
    | Learnt(held: Option<ActingHandover>, now: Time, id: DistId)
    | StartedOver(now: Time, id: DistId)
    | HoldLetGo(now: Time, id: DistId)
    | HeldLast(now: Time, id: DistId)
    | Forgotten
    | Ticked(now: Time, id: DistId)
    | Answered(status: ConfirmStatus, now: Time, id: DistId)
    | UpdatesMoved(t: Tracker)

  /** Nothing of the hand-over differs. */
  predicate SameHandover(z: ZoneHandover, z': ZoneHandover) {
    z' == z.(waiting := z'.waiting, draining := z'.draining)
  }

  predicate Possible(t: Tracker, zone: ZoneKey, e: Event) {
    match e
    case Wanted(h, _, _) => h.zone == zone
    case Answered(status, _, _) => Zone(t, zone).flight.Some? && status != Pending
    case UpdatesMoved(t') => SameHandover(Zone(t, zone), Zone(t', zone))
    case _ => true
  }

  function Move(t: Tracker, zone: ZoneKey, e: Event): (Tracker, Option<Flight>)
    requires Possible(t, zone, e)
  {
    match e
    case Wanted(h, now, id) => HandOver(t, h, now, id)
    case NotQueued(id) => (Undelivered(t, zone, id), None)
    case Learnt(held, now, id) => Learned(t, zone, held, now, id)
    case StartedOver(now, id) => Again(t, zone, now, id)
    case HoldLetGo(now, id) => LetHoldGo(t, zone, now, id)
    case HeldLast(now, id) => HoldLast(t, zone, now, id)
    case Forgotten => (Forgot(t, zone), None)
    case Ticked(now, id) =>
      var (z, send) := TickZone(Zone(t, zone), now, id);
      (Put(t, zone, z), send)
    case Answered(status, now, id) => HandoverWord(t, zone, status, now, id)
    case UpdatesMoved(t') => (t', None)
  }

  // ---- What each changes, and sends ---------------------------------------------

  /** What goes out is what is wanted, made now, telling of a forget when there
      is one to tell, and it is in flight from then on. */
  lemma WhatIsSentSays(t: Tracker, zone: ZoneKey, e: Event)
    requires Possible(t, zone, e) && Move(t, zone, e).1.Some?
    ensures var (t', send) := Move(t, zone, e);
      var z' := Zone(t', zone);
      && z'.flight == send && z'.want.Some?
      && send.value.h == z'.want.value.(made := send.value.at, reset := z'.reset, refresh := false)
      && (send.value.id, send.value.at) == (e.id, e.now)
  {
  }

  /** When something goes out: what is wanted is not what is known to be held,
      and, but at a start or a tick, not what is in flight already. */
  lemma NothingIsSentTwice(t: Tracker, zone: ZoneKey, e: Event)
    requires Possible(t, zone, e) && Move(t, zone, e).1.Some?
    ensures var (z, z') := (Zone(t, zone), Zone(Move(t, zone, e).0, zone));
      && !(z'.held.Some? && z'.want.value.SameAs(z'.held.value))
      && (z.flight.Some? && z'.want.value.SameAs(z.flight.value.h) ==>
            e.StartedOver? || (e.Ticked? && e.now - z.flight.value.at > FIVE_MINUTES))
  {
  }

  lemma WhatWantingChanges(t: Tracker, zone: ZoneKey, h: ActingHandover, now: Time, id: DistId)
    requires h.zone == zone
    ensures var (z, z') := (Zone(t, zone), Zone(HandOver(t, h, now, id).0, zone));
      SameHandover(z.(want := Some(h), flight := z'.flight), z')
  {
  }

  /** A hand-over the queue refused is in flight no more; another one is. */
  lemma WhatNotQueuingChanges(t: Tracker, zone: ZoneKey, id: DistId)
    ensures var (z, z') := (Zone(t, zone), Zone(Undelivered(t, zone, id), zone));
      && (z.flight.Some? && z.flight.value.id == id ==> z' == z.(flight := None))
      && (z.flight.None? || z.flight.value.id != id ==> z' == z)
  {
  }

  /** An answer of nothing, or of something older than what is known to be held,
      is kept out; any other is believed. */
  lemma WhatLearningChanges(t: Tracker, zone: ZoneKey, held: Option<ActingHandover>, now: Time, id: DistId)
    ensures var (z, z') := (Zone(t, zone), Zone(Learned(t, zone, held, now, id).0, zone));
      && (z.held.Some? && held.None? ==> z' == z)
      && (z.held.Some? && held.Some? && held.value.OlderThan(z.held.value) ==> z' == z)
      && (z.held.None? || (held.Some? && !held.value.OlderThan(z.held.value)) ==>
            z' == z.(held := held, flight := z'.flight))
  {
  }

  /** At the combiner's start, and when it holds nothing for the zone, what was
      held is known no more, and what is wanted goes out, in flight or not. */
  lemma WhatStartingOverChanges(t: Tracker, zone: ZoneKey, now: Time, id: DistId)
    ensures var (z, z') := (Zone(t, zone), Zone(Again(t, zone, now, id).0, zone));
      && z' == z.(held := None, flight := z'.flight)
      && (z.want.None? ==> z'.flight == z.flight)
      && (z.want.Some? ==>
            z'.flight == Some(Flight(id, z.want.value.(made := now, reset := z.reset, refresh := false), now)))
  {
  }

  /** A start does that to every zone, and to nothing else. */
  lemma AStartIsForEveryZone(t: Tracker, now: Time, ids: ZoneKey -> DistId)
    ensures var t' := CombinerStarted(t, now, ids);
      && t'.zones.Keys == t.zones.Keys && t'.sent == t.sent
      && (forall zone :: zone in t.zones ==> t'.zones[zone] == Zone(Again(t, zone, now, ids(zone)).0, zone))
  {
  }

  /** The gate, the drain and the words on updates move no hand-over. */
  lemma UpdatesMoveNoHandover(t: Tracker, zone: ZoneKey, update: ZoneUpdate, id: DistId, now: Time, q: ZoneKey)
    ensures SameHandover(Zone(t, q), Zone(Gate(t, zone, update, id, now).0, q))
    ensures SameHandover(Zone(t, q), Zone(DrainTake(t, zone, now).0, q))
    ensures SameHandover(Zone(t, q), Zone(Requeue(t, WaitingUpdate(zone, update, id, [])), q))
    ensures forall w, queued :: zone in t.zones && |t.zones[zone].waiting| > 0 ==>
      SameHandover(Zone(t, q), Zone(DrainDone(t, zone, w, queued), q))
    ensures forall status, acting, removed ::
      SameHandover(Zone(t, q), Zone(WordOnUpdate(t, id, status, acting, removed).0, q))
  {
  }

  /** A freeze that ended: what is wanted goes on without its hold, where it has
      one. */
  lemma WhatLettingGoChanges(t: Tracker, zone: ZoneKey, now: Time, id: DistId)
    ensures var (z, z') := (Zone(t, zone), Zone(LetHoldGo(t, zone, now, id).0, zone));
      && z' == z.(want := z'.want, flight := z'.flight)
      && (z'.want.Some? <==> z.want.Some?)
      && (z.want.Some? ==>
            && !z'.want.value.sets.hold
            && z'.want.value == z.want.value.(sets := z'.want.value.sets)
            && z'.want.value.sets == z.want.value.sets.(hold := false))
      && (z.want.None? || !z.want.value.sets.hold ==> z' == z)
  {
  }

  /** No active serial is known: what is wanted is what is held, or what was
      wanted last where nothing is, with the hold and its sets as they are;
      nothing changes where neither has instructions. */
  lemma WhatHoldingLastChanges(t: Tracker, zone: ZoneKey, now: Time, id: DistId)
    ensures var (z, z') := (Zone(t, zone), Zone(HoldLast(t, zone, now, id).0, zone));
      var last := if z.held.Some? then z.held else z.want;
      && z' == z.(want := z'.want, flight := z'.flight)
      && (last.None? || last.value.records == [] ==> z' == z)
      && (last.Some? && last.value.records != [] ==>
            && z'.want.Some? && z'.want.value.sets == last.value.sets.(hold := true)
            && z'.want.value.SameAs(last.value.(sets := z'.want.value.sets)))
  {
    var z := Zone(t, zone);
    var last := if z.held.Some? then z.held else z.want;
    if last.Some? && last.value.records != [] {
      var h := last.value.(sets := last.value.sets.(hold := true));
      if z.want.Some? && h.SameAs(z.want.value) {
        assert Zone(HoldLast(t, zone, now, id).0, zone) == z;
      } else {
        assert Zone(HoldLast(t, zone, now, id).0, zone) == Due(z.(want := Some(h)), false, now, id).0;
      }
    }
  }

  /** After a forget nothing is known to be held, and it is to be told. */
  lemma WhatForgettingChanges(t: Tracker, zone: ZoneKey)
    ensures var (z, z') := (Zone(t, zone), Zone(Forgot(t, zone), zone));
      && z'.reset && z'.held.None? && z'.want == z.want && z'.flight == z.flight
      && z'.waiting == z.waiting && z'.draining == z.draining
  {
  }

  /** A success means that what was in flight is held, and the forget it tells is
      told; anything else that nothing is known to be held. */
  lemma WhatAWordChanges(t: Tracker, zone: ZoneKey, status: ConfirmStatus, now: Time, id: DistId)
    requires Zone(t, zone).flight.Some?
    ensures var (z, z') := (Zone(t, zone), Zone(HandoverWord(t, zone, status, now, id).0, zone));
      var h := z.flight.value.h;
      && (status == Success ==>
            && SameHandover(z.(held := Some(h), reset := z'.reset, flight := z'.flight), z')
            && (z'.reset <==> z.reset && !h.reset))
      && (status != Success ==> z' == z.(held := None, flight := None))
  {
  }

  // ---- What lets an update out, and what its word makes of it -------------------

  /** An update waits, behind all that waits, exactly while the combiner is not
      known to hold what is wanted, or another waits or is on its way from the
      wait; it is refused when ten thousand wait. What is let out is noted with
      what the combiner holds. A zone handed nothing holds nothing up, and nothing
      holds up a hand-over. */
  lemma WhoWaitsAtTheGate(t: Tracker, zone: ZoneKey, update: ZoneUpdate, id: DistId, now: Time)
    ensures var z := Zone(t, zone);
      var (t', answer) := Gate(t, zone, update, id, now);
      var known := z.want.Some? && z.held.Some? && z.want.value.SameAs(z.held.value);
      && (answer.Passes? <==> update.acting.Some? || z.want.None? || (known && !z.draining && z.waiting == []))
      && (answer.TooMany? <==> !answer.Passes? && |z.waiting| >= 10000)
      && (answer.Waits? ==>
            && t'.sent == t.sent
            && Zone(t', zone).waiting == z.waiting + [WaitingUpdate(zone, update, id, [])])
      && (answer.TooMany? || update.acting.Some? || z.want.None? ==> t' == t)
      && (answer.Passes? && update.acting.None? && z.want.Some? ==>
            t' == t.(sent := t.sent[id := SentUpdate(zone, update, z.held.value, now, [])]))
  {
  }

  /** The first that waits is let out exactly when the combiner is known to hold
      what is wanted and none is on its way from the wait; it goes with all that
      was removed, under what the combiner holds, and leaves the wait once the
      queue has it. */
  lemma WhoLeavesTheWait(t: Tracker, zone: ZoneKey, now: Time)
    ensures var z := Zone(t, zone);
      var (t', w) := DrainTake(t, zone, now);
      var known := z.want.Some? && z.held.Some? && z.want.value.SameAs(z.held.value);
      && (w.Some? <==> known && !z.draining && z.waiting != [])
      && (w.None? ==> t' == t)
      && (w.Some? ==>
            && w.value == z.waiting[0]
            && t'.sent == t.sent[w.value.id :=
                 SentUpdate(w.value.zone, w.value.update, z.held.value, now, w.value.removed)]
            && Zone(t', zone) == z.(draining := true)
            && Zone(DrainDone(t', zone, w.value, true), zone) == z.(waiting := z.waiting[1..])
            && Zone(DrainDone(t', zone, w.value, false), zone) == z
            && w.value.id !in DrainDone(t', zone, w.value, false).sent)
  {
  }

  /** A word on an update let out sends it again exactly when it is a refusal, and
      either what is wanted is not what the update went under, or the combiner
      says that it acts by something else than that. Every other word is final,
      and goes on with what was removed before. */
  lemma WhatAWordOnAnUpdateDoes(t: Tracker, id: DistId, status: ConfirmStatus, acting: Option<ActingStamp>,
      removed: seq<string>)
    requires id in t.sent
    ensures var s := t.sent[id];
      var want := Zone(t, s.zone).want;
      var (t', word) := WordOnUpdate(t, id, status, acting, removed);
      && t' == t.(sent := t.sent - {id})
      && (word == SendAgain(WaitingUpdate(s.zone, s.update, id, s.removed + removed)) <==>
            && (status == Failed || status == Rejected || status == Ignored || status == Partial)
            && want.Some?
            && (|| !want.value.SameAs(s.under)
                || (acting.Some? && acting.value.serial != s.under.serial)
                || (acting.Some? && acting.value.digest != s.under.digest)
                || (acting.Some? && acting.value.step != s.under.step)))
      && (word == Final(s.removed) <==> !word.SendAgain?)
      && !word.NotOurs?
  {
  }

  /** The ticker forgets what was sent more than a day ago, and nothing else of it; what
      it does to the zones it does to each. */
  lemma WhatATickForgets(t: Tracker, now: Time, ids: ZoneKey -> DistId)
    ensures var t' := Tick(t, now, ids);
      && (forall id :: id in t'.sent <==> id in t.sent && now <= t.sent[id].at + A_DAY)
      && (forall id :: id in t'.sent ==> t'.sent[id] == t.sent[id])
      && t'.zones.Keys == t.zones.Keys
      && (forall zone :: zone in t.zones ==> t'.zones[zone] == TickZone(t.zones[zone], now, ids(zone)).0)
  {
  }

  // ---- Nothing wanted is left unsent ----------------------------------------------

  /** What is wanted is known to be held, or is on its way. */
  predicate SeenTo(z: ZoneHandover) {
    || z.want.None?
    || (z.held.Some? && z.want.value.SameAs(z.held.value))
    || (z.flight.Some? && z.want.value.SameAs(z.flight.value.h))
  }

  /** What may leave it neither: the queue or the combiner refuses it, or the zone
      is forgotten. */
  predicate Fails(e: Event) {
    e.NotQueued? || e.Forgotten? || (e.Answered? && e.status != Success)
  }

  lemma OneEventSeesToIt(t: Tracker, zone: ZoneKey, e: Event)
    requires Possible(t, zone, e) && !Fails(e) && SeenTo(Zone(t, zone))
    ensures SeenTo(Zone(Move(t, zone, e).0, zone))
  {
    var z, z' := Zone(t, zone), Zone(Move(t, zone, e).0, zone);
    match e
    case Wanted(h, now, id) => DueSeesToIt(z.(want := Some(h)), false, now, id);
    case StartedOver(now, id) => DueSeesToIt(z.(held := None), true, now, id);
    case HoldLetGo(_, _) => HoldsSeeToIt(t, zone, e);
    case HeldLast(_, _) => HoldsSeeToIt(t, zone, e);
    case UpdatesMoved(t') => assert SameHandover(z, Zone(t', zone));
    case _ =>
  }

  lemma DueSeesToIt(z: ZoneHandover, again: bool, now: Time, id: DistId)
    ensures SeenTo(Due(z, again, now, id).0)
  {
  }

  lemma HoldsSeeToIt(t: Tracker, zone: ZoneKey, e: Event)
    requires (e.HoldLetGo? || e.HeldLast?) && SeenTo(Zone(t, zone))
    ensures SeenTo(Zone(Move(t, zone, e).0, zone))
  {
  }

  /** A tick sees to it again, unless something went out within the last five
      minutes and is unanswered. */
  lemma ATickSeesToIt(t: Tracker, zone: ZoneKey, now: Time, id: DistId)
    ensures var z := Zone(t, zone);
      var z' := Zone(Move(t, zone, Ticked(now, id)).0, zone);
      && (z.flight.None? || now > z.flight.value.at + FIVE_MINUTES ==> SeenTo(z'))
      && (z.flight.Some? && now <= z.flight.value.at + FIVE_MINUTES ==> z' == z)
  {
  }

  ghost predicate CanHappen(t: Tracker, zone: ZoneKey, es: seq<Event>)
    decreases |es|
  {
    es == [] || (Possible(t, zone, es[0]) && CanHappen(Move(t, zone, es[0]).0, zone, es[1..]))
  }

  ghost function AfterAll(t: Tracker, zone: ZoneKey, es: seq<Event>): Tracker
    requires CanHappen(t, zone, es)
    decreases |es|
  {
    if es == [] then t else AfterAll(Move(t, zone, es[0]).0, zone, es[1..])
  }

  /** From a tick that saw to it on, until something fails, what is wanted is held
      or on its way, whatever is wanted, learnt, held or let go. */
  lemma {:induction false} NothingWantedIsLeftUnsent(t: Tracker, zone: ZoneKey, es: seq<Event>)
    requires CanHappen(t, zone, es) && SeenTo(Zone(t, zone))
    requires forall i :: 0 <= i < |es| ==> !Fails(es[i])
    ensures SeenTo(Zone(AfterAll(t, zone, es), zone))
    decreases |es|
  {
    if es != [] {
      OneEventSeesToIt(t, zone, es[0]);
      NothingWantedIsLeftUnsent(Move(t, zone, es[0]).0, zone, es[1..]);
    }
  }

  // ---- A forget is told until it is confirmed ---------------------------------------

  /** `untold`: the zone was forgotten, and no hand-over made since that tells it
      has been confirmed. `since`: what is in flight was made after the last
      forget. */
  datatype Life = Life(t: Tracker, untold: bool, since: bool)

  const START := Life(Tracker(map[], map[]), false, true)

  function Next(l: Life, zone: ZoneKey, e: Event): Life
    requires Possible(l.t, zone, e)
  {
    var (t, send) := Move(l.t, zone, e);
    var told := e.Answered? && e.status == Success && l.since && Zone(l.t, zone).flight.value.h.reset;
    Life(t, e.Forgotten? || (l.untold && !told), send.Some? || (l.since && !e.Forgotten?))
  }

  ghost predicate CanLive(l: Life, zone: ZoneKey, es: seq<Event>)
    decreases |es|
  {
    es == [] || (Possible(l.t, zone, es[0]) && CanLive(Next(l, zone, es[0]), zone, es[1..]))
  }

  ghost function After(l: Life, zone: ZoneKey, es: seq<Event>): Life
    requires CanLive(l, zone, es)
    decreases |es|
  {
    if es == [] then l else After(Next(l, zone, es[0]), zone, es[1..])
  }

  /** The agent means to tell exactly the forgets that are untold. */
  predicate MeansToTell(l: Life, zone: ZoneKey) {
    Zone(l.t, zone).reset <==> l.untold
  }

  /** The confirmation of a hand-over that tells of a forget, when the zone was
      forgotten again since that was made. */
  predicate TellsAnEarlierOne(l: Life, zone: ZoneKey, e: Event)
    requires Possible(l.t, zone, e)
  {
    e.Answered? && e.status == Success && Zone(l.t, zone).flight.value.h.reset && !l.since
  }

  ghost predicate AlwaysMeansToTell(l: Life, zone: ZoneKey, es: seq<Event>)
    requires CanLive(l, zone, es)
    decreases |es|
  {
    MeansToTell(l, zone) && (es != [] ==> AlwaysMeansToTell(Next(l, zone, es[0]), zone, es[1..]))
  }

  ghost predicate NeverTellsAnEarlierOne(l: Life, zone: ZoneKey, es: seq<Event>)
    requires CanLive(l, zone, es)
    decreases |es|
  {
    es != [] ==>
      !TellsAnEarlierOne(l, zone, es[0]) && NeverTellsAnEarlierOne(Next(l, zone, es[0]), zone, es[1..])
  }

  /** What is in flight tells what there was to tell when it was made. */
  predicate Sound(l: Life, zone: ZoneKey) {
    var z := Zone(l.t, zone);
    && (z.reset ==> l.untold)
    && (!l.since ==> l.untold)
    && (l.since && z.flight.Some? ==> z.flight.value.h.reset == z.reset)
  }

  /** The flag is set by a forget, and cleared by a success on what tells one. */
  lemma WhatTheFlagDoes(t: Tracker, zone: ZoneKey, e: Event)
    requires Possible(t, zone, e)
    ensures var (z, z') := (Zone(t, zone), Zone(Move(t, zone, e).0, zone));
      && (z'.reset <==> e.Forgotten? || (z.reset && !(e.Answered? && e.status == Success && z.flight.value.h.reset)))
      && (Move(t, zone, e).1.None? ==> z'.flight.None? || z'.flight == z.flight)
      && (e.Answered? && Move(t, zone, e).1.None? ==> z'.flight.None?)
  {
    if e.Answered? { WhatAWordChanges(t, zone, e.status, e.now, e.id); }
  }

  lemma OneEventTells(l: Life, zone: ZoneKey, e: Event)
    requires Sound(l, zone) && Possible(l.t, zone, e)
    ensures Sound(Next(l, zone, e), zone)
    ensures MeansToTell(l, zone) ==>
      (MeansToTell(Next(l, zone, e), zone) <==> !TellsAnEarlierOne(l, zone, e))
  {
    var (t', send) := Move(l.t, zone, e);
    WhatTheFlagDoes(l.t, zone, e);
    if send.Some? { WhatIsSentSays(l.t, zone, e); }
    TellsByTheFlag(l, Next(l, zone, e), zone, e, send);
  }

  lemma TellsByTheFlag(l: Life, l': Life, zone: ZoneKey, e: Event, send: Option<Flight>)
    requires Sound(l, zone) && Possible(l.t, zone, e)
    requires var (z, z') := (Zone(l.t, zone), Zone(l'.t, zone));
      var told := e.Answered? && e.status == Success && z.flight.value.h.reset;
      && (z'.reset <==> e.Forgotten? || (z.reset && !told))
      && (send.None? ==> z'.flight.None? || z'.flight == z.flight)
      && (e.Answered? && send.None? ==> z'.flight.None?)
      && (send.Some? ==> z'.flight == send && send.value.h.reset == z'.reset && !e.Forgotten?)
      && (l'.untold <==> e.Forgotten? || (l.untold && !(told && l.since)))
      && (l'.since <==> send.Some? || (l.since && !e.Forgotten?))
    ensures Sound(l', zone)
    ensures MeansToTell(l, zone) ==> (MeansToTell(l', zone) <==> !TellsAnEarlierOne(l, zone, e))
  {
  }

  /** In every state of a run the agent means to tell exactly the forgets no
      hand-over made since has told, exactly when no hand-over that tells an
      earlier forget is confirmed after a later one: one confirmation then counts
      for both. */
  lemma {:induction false} ForgetsAreToldExactlyWhen(l: Life, zone: ZoneKey, es: seq<Event>)
    requires Sound(l, zone) && MeansToTell(l, zone) && CanLive(l, zone, es)
    ensures AlwaysMeansToTell(l, zone, es) <==> NeverTellsAnEarlierOne(l, zone, es)
    decreases |es|
  {
    if es != [] {
      var next := Next(l, zone, es[0]);
      OneEventTells(l, zone, es[0]);
      if MeansToTell(next, zone) {
        ForgetsAreToldExactlyWhen(next, zone, es[1..]);
      } else {
        assert !AlwaysMeansToTell(next, zone, es[1..]);
      }
    }
  }

  lemma {:induction false} RunsAreSound(l: Life, zone: ZoneKey, es: seq<Event>)
    requires Sound(l, zone) && CanLive(l, zone, es)
    ensures Sound(After(l, zone, es), zone)
    decreases |es|
  {
    if es != [] {
      OneEventTells(l, zone, es[0]);
      RunsAreSound(Next(l, zone, es[0]), zone, es[1..]);
    }
  }

  lemma {:induction false} TheLastMeansToTell(l: Life, zone: ZoneKey, es: seq<Event>)
    requires CanLive(l, zone, es) && AlwaysMeansToTell(l, zone, es)
    ensures MeansToTell(After(l, zone, es), zone)
    decreases |es|
  {
    if es != [] {
      TheLastMeansToTell(Next(l, zone, es[0]), zone, es[1..]);
    }
  }

  /** So after such a run from the agent's start, whatever is sent next tells a
      forget exactly when there is one no confirmed hand-over has told; and in any
      run at all what is sent tells of none that has been told. */
  lemma WhatIsSentTellsTheForget(zone: ZoneKey, es: seq<Event>, e: Event)
    requires CanLive(START, zone, es) && Possible(After(START, zone, es).t, zone, e)
    requires Move(After(START, zone, es).t, zone, e).1.Some?
    ensures var l := After(START, zone, es);
      var h := Move(l.t, zone, e).1.value.h;
      && (h.reset ==> Next(l, zone, e).untold)
      && (NeverTellsAnEarlierOne(START, zone, es) && !TellsAnEarlierOne(l, zone, e) ==>
            (h.reset <==> Next(l, zone, e).untold))
  {
    var l := After(START, zone, es);
    RunsAreSound(START, zone, es);
    OneEventTells(l, zone, e);
    WhatIsSentSays(l.t, zone, e);
    if NeverTellsAnEarlierOne(START, zone, es) {
      ForgetsAreToldExactlyWhen(START, zone, es);
      TheLastMeansToTell(START, zone, es);
    }
  }

  /** The case is real: forgotten again while the hand-over that tells the first
      forget is in flight, the zone is handed over next without a word of the
      second. */
  lemma ASecondForgetIsNotTold(zone: ZoneKey, h1: ActingHandover, h2: ActingHandover) returns (es: seq<Event>)
    requires h1.zone == zone && h2.zone == zone && !h2.SameAs(h1)
    ensures CanLive(START, zone, es)
    ensures var l := After(START, zone, es);
      && l.untold
      && Zone(l.t, zone).flight.Some?
      && Zone(l.t, zone).flight.value.h == h2.(made := 2, reset := false, refresh := false)
  {
    es := [Forgotten, Wanted(h1, 1, 1), Forgotten, Answered(Success, 1, 2), Wanted(h2, 2, 3)];
    var l1 := Next(START, zone, es[0]);
    assert Zone(l1.t, zone) == NEW_ZONE.(reset := true);
    var l2 := Next(l1, zone, es[1]);
    var f := Flight(1, h1.(made := 1, reset := true, refresh := false), 1);
    assert Zone(l2.t, zone) == NEW_ZONE.(reset := true, want := Some(h1), flight := Some(f));
    var l3 := Next(l2, zone, es[2]);
    assert Zone(l3.t, zone).flight == Some(f) && !l3.since;
    var l4 := Next(l3, zone, es[3]);
    assert h1.SameAs(f.h);
    assert Zone(l4.t, zone).reset == false && l4.untold && Zone(l4.t, zone).held == Some(f.h);
    var l5 := Next(l4, zone, es[4]);
    assert !h2.SameAs(f.h);
    RunOfFive(START, zone, es, l1, l2, l3, l4, l5);
  }

  /** The combiner, which holds the first then, judges what comes next by its
      serial, and refuses one that is not newer; told, it would take any. */
  lemma UntoldTheSerialsDecide(first: ActingHandover, next: ActingHandover)
    requires next.Ordered() && next.made > first.made && next.serial != first.serial
    ensures next.OlderThan(first) <==> (first.serial - next.serial) % 0x1_0000_0000 <= 0x8000_0000
    ensures !next.(reset := true).OlderThan(first)
  {
    OlderByTheSerials(next, first);
  }

  lemma RunOfFive(l: Life, zone: ZoneKey, es: seq<Event>, l1: Life, l2: Life, l3: Life, l4: Life, l5: Life)
    requires |es| == 5
    requires Possible(l.t, zone, es[0]) && l1 == Next(l, zone, es[0])
    requires Possible(l1.t, zone, es[1]) && l2 == Next(l1, zone, es[1])
    requires Possible(l2.t, zone, es[2]) && l3 == Next(l2, zone, es[2])
    requires Possible(l3.t, zone, es[3]) && l4 == Next(l3, zone, es[3])
    requires Possible(l4.t, zone, es[4]) && l5 == Next(l4, zone, es[4])
    ensures CanLive(l, zone, es) && After(l, zone, es) == l5
  {
    var r1, r2, r3, r4, r5 := es[1..], es[2..], es[3..], es[4..], es[5..];
    assert r1[1..] == r2 && r2[1..] == r3 && r3[1..] == r4 && r4[1..] == r5 && r5 == [];
    assert CanLive(l5, zone, r5) && After(l5, zone, r5) == l5;
    assert CanLive(l4, zone, r4) && After(l4, zone, r4) == l5;
    assert CanLive(l3, zone, r3) && After(l3, zone, r3) == l5;
    assert CanLive(l2, zone, r2) && After(l2, zone, r2) == l5;
    assert CanLive(l1, zone, r1) && After(l1, zone, r1) == l5;
  }
}
