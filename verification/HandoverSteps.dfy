/** The agent's side of the hand-over: per zone what it wants its combiner to act
    by, what the combiner is known to hold, the hand-over in flight and the
    updates that wait; and the updates let through, until their final word.

    The functions are the lock-held regions of the tracker's methods, one region
    one step; HandoverTracker.dfy has the tracker itself. */
module HandoverSteps {
  import opened Wrappers
  import opened Handover

  type DistId = nat   // a distribution's id

  const HANDOVER_MAX_WAITING := 10000
  const HANDOVER_RESEND: Time := 300_000_000_000         // 5 minutes
  const NOTE_MAX_AGE: Time := 86_400_000_000_000         // a day

  datatype ZoneUpdate = ZoneUpdate(operations: seq<string>, acting: Option<ActingHandover>)

  datatype Flight = Flight(id: DistId, h: ActingHandover, at: Time)

  datatype WaitingUpdate = WaitingUpdate(zone: ZoneKey, update: ZoneUpdate, id: DistId, removed: seq<string>)

  /** `under` is what the combiner was known to hold when the update was let out. */
  datatype SentUpdate = SentUpdate(zone: ZoneKey, update: ZoneUpdate, under: ActingHandover, at: Time,
      removed: seq<string>)

  datatype ZoneHandover = ZoneHandover(
    want: Option<ActingHandover>, held: Option<ActingHandover>, flight: Option<Flight>,
    waiting: seq<WaitingUpdate>, draining: bool, reset: bool)
  {
    /** The combiner is known to hold what this agent wants. */
    predicate Holds() {
      want.Some? && held.Some? && want.value.SameAs(held.value)
    }
  }

  const NEW_ZONE := ZoneHandover(None, None, None, [], false, false)

  datatype Tracker = Tracker(zones: map<ZoneKey, ZoneHandover>, sent: map<DistId, SentUpdate>)

  datatype ConfirmStatus = Pending | Success | Partial | Failed | Rejected | Ignored

  /** The serial a combiner's confirmation says it acts by. */
  datatype ActingStamp = ActingStamp(serial: nat, digest: string, step: int) {
    predicate Names(h: ActingHandover) {
      serial == h.serial && digest == h.digest && step == h.step
    }
  }

  function Zone(t: Tracker, zone: ZoneKey): ZoneHandover {
    if zone in t.zones then t.zones[zone] else NEW_ZONE
  }

  function Put(t: Tracker, zone: ZoneKey, z: ZoneHandover): Tracker {
    t.(zones := t.zones[zone := z])
  }

  // ---- Handing over -----------------------------------------------------------

  /** The hand-over to send for z now, and z with it in flight. */
  function Due(z: ZoneHandover, again: bool, now: Time, id: DistId): (ZoneHandover, Option<Flight>) {
    if z.want.None? || z.Holds() then (z, None)
    else if !again && z.flight.Some? && z.want.value.SameAs(z.flight.value.h) then (z, None)
    else
      var f := Flight(id, z.want.value.(made := now, reset := z.reset, refresh := false), now);
      (z.(flight := Some(f)), Some(f))
  }

  function HandOver(t: Tracker, h: ActingHandover, now: Time, id: DistId): (Tracker, Option<Flight>) {
    var (z, send) := Due(Zone(t, h.zone).(want := Some(h)), false, now, id);
    (Put(t, h.zone, z), send)
  }

  /** The hand-over could not be queued: it is in flight no more. */
  function Undelivered(t: Tracker, zone: ZoneKey, id: DistId): Tracker {
    var z := Zone(t, zone);
    Put(t, zone, if z.flight.Some? && z.flight.value.id == id then z.(flight := None) else z)
  }

  function Learned(t: Tracker, zone: ZoneKey, held: Option<ActingHandover>, now: Time,
      id: DistId): (Tracker, Option<Flight>)
  {
    var z := Zone(t, zone);
    if z.held.Some? && (held.None? || held.value.OlderThan(z.held.value)) then (Put(t, zone, z), None)
    else
      var (z', send) := Due(z.(held := held), false, now, id);
      (Put(t, zone, z'), send)
  }

  function Again(t: Tracker, zone: ZoneKey, now: Time, id: DistId): (Tracker, Option<Flight>) {
    var (z, send) := Due(Zone(t, zone).(held := None), true, now, id);
    (Put(t, zone, z), send)
  }

  function CombinerStarted(t: Tracker, now: Time, ids: ZoneKey -> DistId): Tracker {
    t.(zones := map zone | zone in t.zones :: Due(t.zones[zone].(held := None), true, now, ids(zone)).0)
  }

  function LetHoldGo(t: Tracker, zone: ZoneKey, now: Time, id: DistId): (Tracker, Option<Flight>) {
    var z := Zone(t, zone);
    if z.want.None? || !z.want.value.sets.hold then (t, None)
    else
      var h := z.want.value;
      var (z', send) := Due(z.(want := Some(h.(sets := h.sets.(hold := false)))), false, now, id);
      (Put(t, zone, z'), send)
  }

  function HoldLast(t: Tracker, zone: ZoneKey, now: Time, id: DistId): (Tracker, Option<Flight>) {
    var z := Zone(t, zone);
    var base := if z.held.Some? then z.held else z.want;
    if base.None? || |base.value.records| == 0 then (Put(t, zone, z), None)
    else
      var h := base.value.(sets := base.value.sets.(hold := true));
      if z.want.Some? && h.SameAs(z.want.value) then (Put(t, zone, z), None)
      else
        var (z', send) := Due(z.(want := Some(h)), false, now, id);
        (Put(t, zone, z'), send)
  }

  function Forgot(t: Tracker, zone: ZoneKey): Tracker {
    Put(t, zone, Zone(t, zone).(reset := true, held := None))
  }

  predicate ResendDue(z: ZoneHandover, now: Time) {
    z.flight.None? || now - z.flight.value.at > HANDOVER_RESEND
  }

  function TickZone(z: ZoneHandover, now: Time, id: DistId): (ZoneHandover, Option<Flight>) {
    if ResendDue(z, now) then Due(z, true, now, id) else (z, None)
  }

  /** What the ticker does under the lock: hand over again, forget old sends. */
  function Tick(t: Tracker, now: Time, ids: ZoneKey -> DistId): Tracker {
    Tracker(
      map zone | zone in t.zones :: TickZone(t.zones[zone], now, ids(zone)).0,
      map id | id in t.sent && now - t.sent[id].at <= NOTE_MAX_AGE :: t.sent[id])
  }

  // ---- The gate and what waits at it ------------------------------------------

  datatype GateAnswer = Passes | Waits | TooMany

  function Gate(t: Tracker, zone: ZoneKey, update: ZoneUpdate, id: DistId, now: Time): (Tracker, GateAnswer) {
    if update.acting.Some? || zone !in t.zones || t.zones[zone].want.None? then (t, Passes)
    else
      var z := t.zones[zone];
      if !z.Holds() || z.draining || |z.waiting| > 0 then
        if |z.waiting| >= HANDOVER_MAX_WAITING then (t, TooMany)
        else (Put(t, zone, z.(waiting := z.waiting + [WaitingUpdate(zone, update, id, [])])), Waits)
      else
        (t.(sent := t.sent[id := SentUpdate(zone, update, z.held.value, now, [])]), Passes)
  }

  function Unsent(t: Tracker, id: DistId): Tracker {
    t.(sent := t.sent - {id})
  }

  predicate CanDrain(t: Tracker, zone: ZoneKey) {
    zone in t.zones && !t.zones[zone].draining && |t.zones[zone].waiting| > 0 && t.zones[zone].Holds()
  }

  /** The first half of a round of drain: the first that waits is noted as sent. */
  function DrainTake(t: Tracker, zone: ZoneKey, now: Time): (Tracker, Option<WaitingUpdate>) {
    if !CanDrain(t, zone) then (t, None)
    else
      var z := t.zones[zone];
      var w := z.waiting[0];
      (Tracker(t.zones[zone := z.(draining := true)],
               t.sent[w.id := SentUpdate(w.zone, w.update, z.held.value, now, w.removed)]),
       Some(w))
  }

  /** The second half, once the queue has answered for w. */
  function DrainDone(t: Tracker, zone: ZoneKey, w: WaitingUpdate, queued: bool): Tracker
    requires zone in t.zones && |t.zones[zone].waiting| > 0
  {
    var z := t.zones[zone].(draining := false);
    if queued then Put(t, zone, z.(waiting := z.waiting[1..]))
    else Tracker(t.zones[zone := z], t.sent - {w.id})
  }

  /** drain with nothing in between: the rounds, each with the queue's answer. */
  function Drain(t: Tracker, zone: ZoneKey, now: Time, answers: seq<bool>): (Tracker, seq<WaitingUpdate>)
    decreases |answers|
  {
    if answers == [] || !CanDrain(t, zone) then (t, [])
    else
      var (mid, w) := DrainTake(t, zone, now);
      var done := DrainDone(mid, zone, w.value, answers[0]);
      if !answers[0] then (done, [])
      else
        var (t', rest) := Drain(done, zone, now, answers[1..]);
        (t', [w.value] + rest)
  }

  // ---- The combiner's words ---------------------------------------------------

  predicate InFlight(t: Tracker, zone: ZoneKey, id: DistId) {
    zone in t.zones && t.zones[zone].flight.Some? && t.zones[zone].flight.value.id == id
  }

  predicate IsHandover(t: Tracker, id: DistId) {
    exists zone :: zone in t.zones && InFlight(t, zone, id)
  }

  /** No two zones have a hand-over in flight under one distribution. */
  ghost predicate DistinctFlights(t: Tracker) {
    forall a, b, id :: InFlight(t, a, id) && InFlight(t, b, id) ==> a == b
  }

  /** The word on a hand-over in flight: a success means the combiner holds it. */
  function HandoverWord(t: Tracker, zone: ZoneKey, status: ConfirmStatus, now: Time,
      newId: DistId): (Tracker, Option<Flight>)
    requires zone in t.zones && t.zones[zone].flight.Some?
  {
    var h := t.zones[zone].flight.value.h;
    var z := t.zones[zone].(flight := None);
    if status != Success then (Put(t, zone, z.(held := None)), None)
    else
      var (z', send) := Due(z.(held := Some(h), reset := z.reset && !h.reset), false, now, newId);
      (Put(t, zone, z'), send)
  }

  /** The combiner judged the update by something else than this agent wants. */
  predicate Stale(t: Tracker, s: SentUpdate, acting: Option<ActingStamp>) {
    && s.zone in t.zones && t.zones[s.zone].want.Some?
    && (!t.zones[s.zone].want.value.SameAs(s.under) || (acting.Some? && !acting.value.Names(s.under)))
  }

  predicate Refuses(status: ConfirmStatus) {
    status.Failed? || status.Rejected? || status.Ignored? || status.Partial?
  }

  /** What becomes of an update at a word: the word is final, and goes on with
      the records removed on the words before it; or the update waits again. */
  datatype UpdateWord = NotOurs | Final(carried: seq<string>) | SendAgain(w: WaitingUpdate)

  function WordOnUpdate(t: Tracker, id: DistId, status: ConfirmStatus, acting: Option<ActingStamp>,
      removed: seq<string>): (Tracker, UpdateWord)
  {
    if id !in t.sent then (t, NotOurs)
    else
      var s := t.sent[id];
      (Unsent(t, id),
       if Refuses(status) && Stale(t, s, acting)
           then SendAgain(WaitingUpdate(s.zone, s.update, id, s.removed + removed))
       else Final(s.removed))
  }

  function Requeue(t: Tracker, w: WaitingUpdate): Tracker {
    var z := Zone(t, w.zone);
    Put(t, w.zone, z.(waiting := z.waiting + [w]))
  }
}
