/** What becomes of the updates an agent sends its combiner: the tracker, with the
    callers between its lock-held regions, the queue, and a history of what was
    accepted, let out and answered.

    The queue answers each update put on it at most once, after it was put there. */
module GatedUpdates {
  import opened Wrappers
  import opened Handover
  import HandoverLife
  import opened HandoverSteps

  datatype Item = Item(update: ZoneUpdate, id: DistId)

  datatype Accepted = Accepted(zone: ZoneKey, update: ZoneUpdate)

  /** A drain between its two locks: what it took, and the queue's answer. */
  datatype Draining = Draining(w: WaitingUpdate, answer: Option<bool>)

  datatype Flow = Flow(
    t: Tracker,
    passing: set<DistId>,                  // let out by the gate, on the way to the queue
    drains: map<ZoneKey, Draining>,
    inHand: map<DistId, WaitingUpdate>,    // to wait again, between the two locks of its word
    queue: set<DistId>,                    // on the queue, not answered
    // the history
    accepted: map<DistId, Accepted>,
    arrivals: map<ZoneKey, seq<Item>>,     // accepted, and accepted again, in order
    out: map<ZoneKey, seq<Item>>,          // let out, in order
    reported: map<DistId, seq<string>>,    // removed in the words that were not final
    finals: map<DistId, seq<string>>,      // finally answered, with the records carried
    refused: set<DistId>,                  // the queue refused it after the gate let it out
    aged: set<DistId>)                     // forgotten after a day

  const START := Flow(Tracker(map[], map[]), {}, map[], map[], {}, map[], map[], map[], map[], map[], {}, {})

  function Log(log: map<ZoneKey, seq<Item>>, zone: ZoneKey): seq<Item> {
    if zone in log then log[zone] else []
  }

  function Write(log: map<ZoneKey, seq<Item>>, zone: ZoneKey, item: Item): map<ZoneKey, seq<Item>> {
    log[zone := Log(log, zone) + [item]]
  }

  function Removals(f: Flow, id: DistId): seq<string> {
    if id in f.reported then f.reported[id] else []
  }

  /** The tracker's hand-overs move, and nothing else: no update does, and a zone
      once handed something stays so. */
  ghost predicate HandoversMoved(t: Tracker, t': Tracker) {
    && t'.sent == t.sent
    && (forall zone ::
          Zone(t', zone).waiting == Zone(t, zone).waiting && Zone(t', zone).draining == Zone(t, zone).draining)
    && (forall zone :: Zone(t, zone).want.Some? ==> Zone(t', zone).want.Some?)
  }

  datatype Step =
    | Arrives(zone: ZoneKey, update: ZoneUpdate, id: DistId, now: Time)
    | PassedReaches(id: DistId, queued: bool)
    | DrainStarts(zone: ZoneKey, now: Time)
    | DrainReaches(zone: ZoneKey, queued: bool)
    | DrainEnds(zone: ZoneKey)
    | Word(id: DistId, status: ConfirmStatus, acting: Option<ActingStamp>, removed: seq<string>)
    | WaitsAgain(id: DistId)
    | AgesOut(now: Time)
    | HandoverMoves(t: Tracker)

  ghost predicate Enabled(f: Flow, s: Step) {
    match s
    case Arrives(zone, update, id, _) => id !in f.accepted && update.acting.None? && Zone(f.t, zone).want.Some?
    case PassedReaches(id, _) => id in f.passing
    case DrainStarts(zone, _) => CanDrain(f.t, zone)
    case DrainReaches(zone, _) => zone in f.drains && f.drains[zone].answer.None?
    case DrainEnds(zone) => zone in f.drains && f.drains[zone].answer.Some? && zone in f.t.zones
        && |f.t.zones[zone].waiting| > 0
    case Word(id, status, _, _) => id in f.queue && status != Pending
    case WaitsAgain(id) => id in f.inHand
    case AgesOut(_) => true
    case HandoverMoves(t) => HandoversMoved(f.t, t)
  }

  /** The head a drain took and the queue has not yet taken. */
  predicate BeingQueued(f: Flow, id: DistId) {
    && id in f.accepted && f.accepted[id].zone in f.drains
    && f.drains[f.accepted[id].zone].w.id == id && f.drains[f.accepted[id].zone].answer != Some(true)
  }

  function Arrive(f: Flow, zone: ZoneKey, update: ZoneUpdate, id: DistId, now: Time): Flow {
    var (t, answer) := Gate(f.t, zone, update, id, now);
    if answer.TooMany? then f
    else
      var g := f.(t := t, accepted := f.accepted[id := Accepted(zone, update)],
                  arrivals := Write(f.arrivals, zone, Item(update, id)));
      if answer.Waits? then g
      else g.(out := Write(f.out, zone, Item(update, id)), passing := f.passing + {id})
  }

  function PassedReach(f: Flow, id: DistId, queued: bool): Flow {
    if queued then f.(passing := f.passing - {id}, queue := f.queue + {id})
    else f.(passing := f.passing - {id}, t := Unsent(f.t, id), refused := f.refused + {id}, aged := f.aged - {id})
  }

  function DrainStart(f: Flow, zone: ZoneKey, now: Time): Flow
    requires CanDrain(f.t, zone)
  {
    var (t, w) := DrainTake(f.t, zone, now);
    f.(t := t, drains := f.drains[zone := Draining(w.value, None)])
  }

  function DrainReach(f: Flow, zone: ZoneKey, queued: bool): Flow
    requires zone in f.drains
  {
    var w := f.drains[zone].w;
    var g := f.(drains := f.drains[zone := Draining(w, Some(queued))]);
    if !queued then g
    else g.(queue := f.queue + {w.id}, aged := if w.id in f.t.sent then f.aged else f.aged + {w.id})
  }

  function DrainEnd(f: Flow, zone: ZoneKey): Flow
    requires zone in f.drains && f.drains[zone].answer.Some? && zone in f.t.zones && |f.t.zones[zone].waiting| > 0
  {
    var d := f.drains[zone];
    var g := f.(t := DrainDone(f.t, zone, d.w, d.answer.value), drains := f.drains - {zone});
    if d.answer.value then g.(out := Write(f.out, zone, Item(d.w.update, d.w.id))) else g
  }

  function WordArrive(f: Flow, id: DistId, status: ConfirmStatus, acting: Option<ActingStamp>,
      removed: seq<string>): Flow
  {
    Answered(f, id, WordOnUpdate(f.t, id, status, acting, removed).1, removed)
  }

  /** The tracker forgets the update it had sent; what the word was goes down. */
  function Answered(f: Flow, id: DistId, word: UpdateWord, removed: seq<string>): Flow {
    var g := f.(t := Unsent(f.t, id), queue := f.queue - {id});
    match word
    case NotOurs => g
    case Final(carried) => g.(finals := f.finals[id := carried])
    case SendAgain(w) => g.(inHand := f.inHand[id := w], reported := f.reported[id := Removals(f, id) + removed])
  }

  function WaitAgain(f: Flow, id: DistId): Flow
    requires id in f.inHand
  {
    var w := f.inHand[id];
    f.(t := Requeue(f.t, w), inHand := f.inHand - {id}, arrivals := Write(f.arrivals, w.zone, Item(w.update, id)))
  }

  function AgeOut(f: Flow, now: Time): Flow {
    f.(t := f.t.(sent := map id | id in f.t.sent && now - f.t.sent[id].at <= NOTE_MAX_AGE :: f.t.sent[id]),
       aged := f.aged + set id | id in f.t.sent && now - f.t.sent[id].at > NOTE_MAX_AGE && !BeingQueued(f, id))
  }

  ghost function Next(f: Flow, s: Step): Flow
    requires Enabled(f, s)
  {
    match s
    case Arrives(zone, update, id, now) => Arrive(f, zone, update, id, now)
    case PassedReaches(id, queued) => PassedReach(f, id, queued)
    case DrainStarts(zone, now) => DrainStart(f, zone, now)
    case DrainReaches(zone, queued) => DrainReach(f, zone, queued)
    case DrainEnds(zone) => DrainEnd(f, zone)
    case Word(id, status, acting, removed) => WordArrive(f, id, status, acting, removed)
    case WaitsAgain(id) => WaitAgain(f, id)
    case AgesOut(now) => AgeOut(f, now)
    case HandoverMoves(t) => f.(t := t)
  }

  ghost predicate CanHappen(f: Flow, steps: seq<Step>)
    decreases |steps|
  {
    steps == [] || (Enabled(f, steps[0]) && CanHappen(Next(f, steps[0]), steps[1..]))
  }

  ghost function After(f: Flow, steps: seq<Step>): Flow
    requires CanHappen(f, steps)
    decreases |steps|
  {
    if steps == [] then f else After(Next(f, steps[0]), steps[1..])
  }

  // ---- What every step keeps ----------------------------------------------------

  function Waiting(f: Flow, zone: ZoneKey): seq<WaitingUpdate> {
    Zone(f.t, zone).waiting
  }

  function Items(ws: seq<WaitingUpdate>): seq<Item> {
    seq(|ws|, i requires 0 <= i < |ws| => Item(ws[i].update, ws[i].id))
  }

  /** What waits and has not gone out: a head the queue has taken no longer does. */
  function StillWaiting(f: Flow, zone: ZoneKey): seq<WaitingUpdate> {
    var ws := Waiting(f, zone);
    if zone in f.drains && f.drains[zone].answer == Some(true) && |ws| > 0 then ws[1..] else ws
  }

  predicate Among(ws: seq<WaitingUpdate>, id: DistId) {
    exists i :: 0 <= i < |ws| && ws[i].id == id
  }

  predicate Waits(f: Flow, id: DistId) {
    id in f.accepted && Among(StillWaiting(f, f.accepted[id].zone), id)
  }

  /** Let out, and its final word awaited. */
  predicate Sent(f: Flow, id: DistId) {
    id in f.t.sent && !BeingQueued(f, id)
  }

  function Count(b: bool): nat { if b then 1 else 0 }

  /** In how many places an update is. */
  function Places(f: Flow, id: DistId): nat {
    Count(Waits(f, id)) + Count(Sent(f, id)) + Count(id in f.inHand) + Count(id in f.finals)
    + Count(id in f.refused) + Count(id in f.aged)
  }

  ghost predicate InOrder(f: Flow, zone: ZoneKey) {
    Log(f.arrivals, zone) == Log(f.out, zone) + Items(Waiting(f, zone))
  }

  ghost predicate WaitsWell(f: Flow, zone: ZoneKey) {
    && (Zone(f.t, zone).draining <==> zone in f.drains)
    && (zone in f.drains ==> |Waiting(f, zone)| > 0 && Waiting(f, zone)[0] == f.drains[zone].w)
    && (zone in f.drains ==> f.drains[zone].w.id in f.accepted
                             && f.accepted[f.drains[zone].w.id] == Accepted(zone, f.drains[zone].w.update))
    && AllCarry(f, zone, StillWaiting(f, zone)) && AllDiffer(StillWaiting(f, zone))
  }

  ghost predicate AllCarry(f: Flow, zone: ZoneKey, ws: seq<WaitingUpdate>) {
    forall i :: 0 <= i < |ws| ==> Carries(f, zone, ws[i])
  }

  predicate AllDiffer(ws: seq<WaitingUpdate>) {
    forall i, j :: 0 <= i < j < |ws| ==> ws[i].id != ws[j].id
  }

  /** It is the update accepted under its id, with all that was removed so far. */
  ghost predicate Carries(f: Flow, zone: ZoneKey, w: WaitingUpdate) {
    && w.zone == zone && w.id in f.accepted && f.accepted[w.id] == Accepted(zone, w.update)
    && w.removed == Removals(f, w.id)
  }

  ghost predicate SentCarries(f: Flow, id: DistId, u: SentUpdate) {
    id in f.accepted && f.accepted[id] == Accepted(u.zone, u.update) && u.removed == Removals(f, id)
  }

  ghost predicate SentWell(f: Flow, id: DistId) {
    && (id in f.t.sent ==> SentCarries(f, id, f.t.sent[id]))
    && (id in f.inHand ==> f.inHand[id].id == id && Carries(f, f.inHand[id].zone, f.inHand[id]))
    && (id in f.finals ==> id in f.accepted && f.finals[id] == Removals(f, id))
    && (id in f.refused || id in f.aged || id in f.reported ==> id in f.accepted)
    && (id in f.queue || id in f.passing ==> Sent(f, id) || id in f.aged)
    && (Sent(f, id) ==> (id in f.queue) != (id in f.passing))
    && !(id in f.queue && id in f.passing)
  }

  ghost predicate Sound(f: Flow) {
    && (forall zone :: InOrder(f, zone) && WaitsWell(f, zone))
    && (forall id :: SentWell(f, id))
    && (forall id :: id in f.accepted ==> Places(f, id) == 1)
  }

  lemma StartIsSound()
    ensures Sound(START)
  {
  }

  /** The head of a drain not yet on the queue is still among what waits. */
  lemma HeadWaits(f: Flow, zone: ZoneKey)
    requires WaitsWell(f, zone) && zone in f.drains && f.drains[zone].answer != Some(true)
    ensures BeingQueued(f, f.drains[zone].w.id) && Waits(f, f.drains[zone].w.id)
    ensures f.accepted[f.drains[zone].w.id].zone == zone
  {
  }

  lemma BeingQueuedWaits(f: Flow, id: DistId)
    requires (forall zone :: WaitsWell(f, zone)) && BeingQueued(f, id)
    ensures Waits(f, id)
  {
    HeadWaits(f, f.accepted[id].zone);
  }

  /** A step that concerns one zone leaves the others alone. */
  ghost predicate OnlyZone(f: Flow, f': Flow, z: ZoneKey) {
    forall zone :: zone != z ==>
      && Waiting(f', zone) == Waiting(f, zone) && Zone(f'.t, zone).draining == Zone(f.t, zone).draining
      && (zone in f'.drains <==> zone in f.drains) && (zone in f.drains ==> f'.drains[zone] == f.drains[zone])
      && Log(f'.arrivals, zone) == Log(f.arrivals, zone) && Log(f'.out, zone) == Log(f.out, zone)
  }

  /** A step that concerns one update leaves the others where they are. */
  ghost predicate OnlyUpdate(f: Flow, f': Flow, u: DistId) {
    forall id :: id != u ==>
      && (id in f'.t.sent <==> id in f.t.sent) && (id in f.t.sent ==> f'.t.sent[id] == f.t.sent[id])
      && (id in f'.inHand <==> id in f.inHand) && (id in f.inHand ==> f'.inHand[id] == f.inHand[id])
      && (id in f'.finals <==> id in f.finals) && (id in f.finals ==> f'.finals[id] == f.finals[id])
      && (id in f'.refused <==> id in f.refused) && (id in f'.aged <==> id in f.aged)
      && (id in f'.queue <==> id in f.queue) && (id in f'.passing <==> id in f.passing)
      && (id in f'.reported <==> id in f.reported) && (id in f.reported ==> f'.reported[id] == f.reported[id])
      && (id in f'.accepted <==> id in f.accepted) && (id in f.accepted ==> f'.accepted[id] == f.accepted[id])
  }

  /** In zone z nothing moves but u. */
  ghost predicate OnlyMoves(f: Flow, f': Flow, z: ZoneKey, u: DistId) {
    && (forall id :: id != u ==> Among(StillWaiting(f', z), id) == Among(StillWaiting(f, z), id))
    && (z in f.drains && !(z in f'.drains && f'.drains[z] == f.drains[z]) ==> f.drains[z].w.id == u)
    && (z in f'.drains && !(z in f.drains && f'.drains[z] == f.drains[z]) ==> f'.drains[z].w.id == u)
    && (u in f.accepted ==> f.accepted[u].zone == z)
    && (u in f'.accepted ==> f'.accepted[u].zone == z)
  }

  lemma OtherZonesWait(f: Flow, f': Flow, z: ZoneKey, u: DistId, zone: ZoneKey)
    requires OnlyZone(f, f', z) && OnlyUpdate(f, f', u) && OnlyMoves(f, f', z, u) && zone != z
    requires InOrder(f, zone) && WaitsWell(f, zone)
    ensures InOrder(f', zone) && WaitsWell(f', zone) && StillWaiting(f', zone) == StillWaiting(f, zone)
  {
  }

  lemma OtherUpdatesWait(f: Flow, f': Flow, z: ZoneKey, u: DistId, id: DistId)
    requires OnlyZone(f, f', z) && OnlyUpdate(f, f', u) && OnlyMoves(f, f', z, u) && id != u
    ensures BeingQueued(f', id) == BeingQueued(f, id) && Waits(f', id) == Waits(f, id)
  {
  }

  lemma OtherUpdatesStay(f: Flow, f': Flow, z: ZoneKey, u: DistId, id: DistId)
    requires OnlyUpdate(f, f', u) && id != u
    requires BeingQueued(f', id) == BeingQueued(f, id) && Waits(f', id) == Waits(f, id)
    requires SentWell(f, id) && (id in f.accepted ==> Places(f, id) == 1)
    ensures SentWell(f', id) && (id in f'.accepted ==> Places(f', id) == 1)
  {
  }

  /** What is kept, as far as zone z and update u go. */
  ghost predicate SoundAt(f: Flow, z: ZoneKey, u: DistId) {
    && InOrder(f, z) && WaitsWell(f, z)
    && SentWell(f, u) && (u in f.accepted ==> Places(f, u) == 1)
  }

  ghost predicate Moves(f: Flow, f': Flow, z: ZoneKey, u: DistId) {
    OnlyZone(f, f', z) && OnlyUpdate(f, f', u) && OnlyMoves(f, f', z, u)
  }

  /** A step on one update in one zone is judged there alone. */
  lemma JudgedThere(f: Flow, f': Flow, z: ZoneKey, u: DistId)
    requires Sound(f) && Moves(f, f', z, u) && SoundAt(f', z, u)
    ensures Sound(f')
  {
    forall zone ensures InOrder(f', zone) && WaitsWell(f', zone) {
      if zone != z { OtherZonesWait(f, f', z, u, zone); }
    }
    forall id ensures SentWell(f', id) && (id in f'.accepted ==> Places(f', id) == 1) {
      if id != u {
        OtherUpdatesWait(f, f', z, u, id);
        OtherUpdatesStay(f, f', z, u, id);
      }
    }
  }

  lemma ItemsAppend(ws: seq<WaitingUpdate>, w: WaitingUpdate)
    ensures Items(ws + [w]) == Items(ws) + [Item(w.update, w.id)]
  {
  }

  lemma ItemsTail(ws: seq<WaitingUpdate>)
    requires ws != []
    ensures Items(ws) == [Item(ws[0].update, ws[0].id)] + Items(ws[1..])
  {
  }

  lemma AmongAppend(ws: seq<WaitingUpdate>, w: WaitingUpdate)
    ensures forall id :: Among(ws + [w], id) <==> Among(ws, id) || w.id == id
  {
    var all := ws + [w];
    assert all[|ws|] == w;
    forall id ensures Among(all, id) <==> Among(ws, id) || w.id == id {
      if Among(ws, id) {
        var i :| 0 <= i < |ws| && ws[i].id == id;
        assert all[i].id == id;
      }
    }
  }

  lemma AmongTail(ws: seq<WaitingUpdate>)
    requires ws != [] && AllDiffer(ws)
    ensures !Among(ws[1..], ws[0].id)
    ensures forall id :: id != ws[0].id ==> (Among(ws[1..], id) <==> Among(ws, id))
  {
  }

  /** What waits in a zone still carries what it should. */
  lemma StillCarries(f: Flow, f': Flow, zone: ZoneKey, ws: seq<WaitingUpdate>)
    requires AllCarry(f, zone, ws)
    requires forall i :: 0 <= i < |ws| && ws[i].id in f.accepted ==>
      && ws[i].id in f'.accepted && f'.accepted[ws[i].id] == f.accepted[ws[i].id]
      && Removals(f', ws[i].id) == Removals(f, ws[i].id)
    ensures AllCarry(f', zone, ws)
  {
  }

  lemma EachIsAmong(ws: seq<WaitingUpdate>)
    ensures forall i :: 0 <= i < |ws| ==> Among(ws, ws[i].id)
  {
  }

  /** An id not accepted is nowhere. */
  lemma NewIsNowhere(f: Flow, zone: ZoneKey, id: DistId)
    requires SoundAt(f, zone, id) && id !in f.accepted
    ensures id !in f.t.sent && id !in f.inHand && id !in f.finals && id !in f.refused && id !in f.aged
    ensures id !in f.queue && id !in f.passing && id !in f.reported
    ensures !Among(StillWaiting(f, zone), id)
    ensures zone in f.drains ==> f.drains[zone].w.id != id
  {
  }

  /** One more waits at the end: it is there, and the others still are. */
  lemma OneMoreWaits(f: Flow, f': Flow, zone: ZoneKey, w: WaitingUpdate)
    requires InOrder(f, zone) && WaitsWell(f, zone) && !Among(StillWaiting(f, zone), w.id)
    requires Waiting(f', zone) == Waiting(f, zone) + [w] && Zone(f'.t, zone).draining == Zone(f.t, zone).draining
    requires f'.drains == f.drains && Log(f'.out, zone) == Log(f.out, zone)
    requires Log(f'.arrivals, zone) == Log(f.arrivals, zone) + [Item(w.update, w.id)]
    requires AllCarry(f', zone, StillWaiting(f, zone)) && Carries(f', zone, w)
    requires forall id :: id in f.accepted ==> id in f'.accepted && f'.accepted[id] == f.accepted[id]
    ensures InOrder(f', zone) && WaitsWell(f', zone)
    ensures StillWaiting(f', zone) == StillWaiting(f, zone) + [w]
    ensures forall id :: Among(StillWaiting(f', zone), id) <==> Among(StillWaiting(f, zone), id) || w.id == id
  {
    var ws := StillWaiting(f, zone);
    ItemsAppend(Waiting(f, zone), w);
    StillWaitingAppends(f, f', zone, w);
    AmongAppend(ws, w);
    OneMoreDiffers(ws, w);
    assert AllCarry(f', zone, ws + [w]);
  }

  lemma StillWaitingAppends(f: Flow, f': Flow, zone: ZoneKey, w: WaitingUpdate)
    requires WaitsWell(f, zone) && Waiting(f', zone) == Waiting(f, zone) + [w] && f'.drains == f.drains
    ensures StillWaiting(f', zone) == StillWaiting(f, zone) + [w]
  {
  }

  lemma OneMoreDiffers(ws: seq<WaitingUpdate>, w: WaitingUpdate)
    requires AllDiffer(ws) && !Among(ws, w.id)
    ensures AllDiffer(ws + [w])
  {
    EachIsAmong(ws);
  }

  lemma ArriveAndWait(f: Flow, zone: ZoneKey, update: ZoneUpdate, id: DistId, now: Time)
    requires SoundAt(f, zone, id) && id !in f.accepted && Gate(f.t, zone, update, id, now).1.Waits?
    ensures Moves(f, Arrive(f, zone, update, id, now), zone, id)
    ensures SoundAt(Arrive(f, zone, update, id, now), zone, id)
  {
    NewIsNowhere(f, zone, id);
    AnArrivalThatWaits(f, zone, update, id, now);
    WaitingIsSound(f, Arrive(f, zone, update, id, now), zone, update, id);
  }

  lemma WaitingIsSound(f: Flow, f': Flow, zone: ZoneKey, update: ZoneUpdate, id: DistId)
    requires SoundAt(f, zone, id) && id !in f.accepted && ArrivedAndWaits(f, f', zone, update, id)
    requires id !in f.t.sent && id !in f.inHand && id !in f.finals && id !in f.refused && id !in f.aged
    requires id !in f.queue && id !in f.passing && id !in f.reported && !Among(StillWaiting(f, zone), id)
    requires zone in f.drains ==> f.drains[zone].w.id != id
    ensures Moves(f, f', zone, id) && SoundAt(f', zone, id)
  {
    StillCarries(f, f', zone, StillWaiting(f, zone));
    OneMoreWaits(f, f', zone, WaitingUpdate(zone, update, id, []));
  }

  ghost predicate ArrivedAndWaits(f: Flow, f': Flow, zone: ZoneKey, update: ZoneUpdate, id: DistId) {
    && f'.t.sent == f.t.sent && f' == f.(t := f'.t, accepted := f'.accepted, arrivals := f'.arrivals)
    && f'.accepted == f.accepted[id := Accepted(zone, update)]
    && Waiting(f', zone) == Waiting(f, zone) + [WaitingUpdate(zone, update, id, [])]
    && Zone(f'.t, zone).draining == Zone(f.t, zone).draining
    && (forall z :: z != zone ==> Zone(f'.t, z) == Zone(f.t, z) && Log(f'.arrivals, z) == Log(f.arrivals, z))
    && Log(f'.arrivals, zone) == Log(f.arrivals, zone) + [Item(update, id)]
  }

  /** What an arrival that waits changes. */
  lemma AnArrivalThatWaits(f: Flow, zone: ZoneKey, update: ZoneUpdate, id: DistId, now: Time)
    requires Gate(f.t, zone, update, id, now).1.Waits?
    ensures ArrivedAndWaits(f, Arrive(f, zone, update, id, now), zone, update, id)
  {
  }

  lemma ArriveAndPass(f: Flow, zone: ZoneKey, update: ZoneUpdate, id: DistId, now: Time)
    requires SoundAt(f, zone, id) && id !in f.accepted && update.acting.None? && Zone(f.t, zone).want.Some?
    requires Gate(f.t, zone, update, id, now).1.Passes?
    ensures Moves(f, Arrive(f, zone, update, id, now), zone, id)
    ensures SoundAt(Arrive(f, zone, update, id, now), zone, id)
  {
    var f' := Arrive(f, zone, update, id, now);
    NewIsNowhere(f, zone, id);
    assert StillWaiting(f', zone) == StillWaiting(f, zone) == Waiting(f, zone) == Waiting(f', zone) == [];
    assert Items([]) == [];
    assert InOrder(f', zone);
  }

  lemma PassedReachMoves(f: Flow, zone: ZoneKey, id: DistId, queued: bool)
    requires SoundAt(f, zone, id) && id in f.passing && id in f.accepted && f.accepted[id].zone == zone
    ensures Moves(f, PassedReach(f, id, queued), zone, id)
    ensures SoundAt(PassedReach(f, id, queued), zone, id)
  {
    var f' := PassedReach(f, id, queued);
    StillCarries(f, f', zone, StillWaiting(f, zone));
    assert StillWaiting(f', zone) == StillWaiting(f, zone);
    if BeingQueued(f, id) { HeadWaits(f, zone); }
    PassedReachIsSound(f, zone, id, queued);
  }

  lemma PassedReachIsSound(f: Flow, zone: ZoneKey, id: DistId, queued: bool)
    requires SoundAt(f, zone, id) && id in f.passing && id in f.accepted && f.accepted[id].zone == zone
    requires BeingQueued(f, id) ==> Waits(f, id)
    requires AllCarry(PassedReach(f, id, queued), zone, StillWaiting(f, zone))
    ensures SoundAt(PassedReach(f, id, queued), zone, id)
  {
  }

  lemma DrainStartMoves(f: Flow, zone: ZoneKey, now: Time)
    requires CanDrain(f.t, zone) && SoundAt(f, zone, f.t.zones[zone].waiting[0].id)
    ensures Moves(f, DrainStart(f, zone, now), zone, f.t.zones[zone].waiting[0].id)
    ensures SoundAt(DrainStart(f, zone, now), zone, f.t.zones[zone].waiting[0].id)
  {
    DrainStartMovesIt(f, zone, now);
    DrainStartIsSound(f, zone, now);
  }

  lemma DrainStartMovesIt(f: Flow, zone: ZoneKey, now: Time)
    requires CanDrain(f.t, zone) && SoundAt(f, zone, f.t.zones[zone].waiting[0].id)
    ensures Moves(f, DrainStart(f, zone, now), zone, f.t.zones[zone].waiting[0].id)
  {
  }

  lemma DrainStartIsSound(f: Flow, zone: ZoneKey, now: Time)
    requires CanDrain(f.t, zone) && SoundAt(f, zone, f.t.zones[zone].waiting[0].id)
    ensures SoundAt(DrainStart(f, zone, now), zone, f.t.zones[zone].waiting[0].id)
  {
  }

  lemma DrainReachMoves(f: Flow, zone: ZoneKey, queued: bool)
    requires zone in f.drains && f.drains[zone].answer.None? && SoundAt(f, zone, f.drains[zone].w.id)
    ensures Moves(f, DrainReach(f, zone, queued), zone, f.drains[zone].w.id)
    ensures SoundAt(DrainReach(f, zone, queued), zone, f.drains[zone].w.id)
  {
    HeadWaits(f, zone);
    DrainReachWaits(f, zone, queued);
    DrainReachMovesIt(f, zone, queued);
    DrainReachIsSound(f, zone, queued);
  }

  /** The head waits no more once the queue has it; the others wait as they did. */
  lemma DrainReachWaits(f: Flow, zone: ZoneKey, queued: bool)
    requires zone in f.drains && f.drains[zone].answer.None? && WaitsWell(f, zone)
    ensures var ws, f' := StillWaiting(f, zone), DrainReach(f, zone, queued);
      && |ws| > 0 && ws[0] == f.drains[zone].w
      && StillWaiting(f', zone) == (if queued then ws[1..] else ws)
      && AllCarry(f', zone, StillWaiting(f', zone)) && AllDiffer(StillWaiting(f', zone))
      && (Among(StillWaiting(f', zone), ws[0].id) <==> !queued)
      && (forall id :: id != ws[0].id ==> Among(StillWaiting(f', zone), id) == Among(ws, id))
  {
    var ws, f' := StillWaiting(f, zone), DrainReach(f, zone, queued);
    StillCarries(f, f', zone, ws);
    AmongTail(ws);
  }

  lemma DrainReachMovesIt(f: Flow, zone: ZoneKey, queued: bool)
    requires zone in f.drains && f.drains[zone].answer.None? && SoundAt(f, zone, f.drains[zone].w.id)
    requires forall id :: id != f.drains[zone].w.id ==>
      Among(StillWaiting(DrainReach(f, zone, queued), zone), id) == Among(StillWaiting(f, zone), id)
    ensures Moves(f, DrainReach(f, zone, queued), zone, f.drains[zone].w.id)
  {
  }

  lemma DrainReachIsSound(f: Flow, zone: ZoneKey, queued: bool)
    requires zone in f.drains && f.drains[zone].answer.None? && SoundAt(f, zone, f.drains[zone].w.id)
    requires BeingQueued(f, f.drains[zone].w.id) && Waits(f, f.drains[zone].w.id)
    requires var f' := DrainReach(f, zone, queued);
      && AllCarry(f', zone, StillWaiting(f', zone)) && AllDiffer(StillWaiting(f', zone))
      && (Among(StillWaiting(f', zone), f.drains[zone].w.id) <==> !queued)
    ensures SoundAt(DrainReach(f, zone, queued), zone, f.drains[zone].w.id)
  {
  }

  lemma DrainEndMoves(f: Flow, zone: ZoneKey)
    requires zone in f.drains && f.drains[zone].answer.Some? && zone in f.t.zones && |f.t.zones[zone].waiting| > 0
    requires SoundAt(f, zone, f.drains[zone].w.id)
    ensures Moves(f, DrainEnd(f, zone), zone, f.drains[zone].w.id)
    ensures SoundAt(DrainEnd(f, zone), zone, f.drains[zone].w.id)
  {
    if f.drains[zone].answer.value { DrainEndsOut(f, zone); } else { DrainEndsRefused(f, zone); }
  }

  lemma DrainEndsOut(f: Flow, zone: ZoneKey)
    requires zone in f.drains && f.drains[zone].answer == Some(true) && zone in f.t.zones
        && |f.t.zones[zone].waiting| > 0
    requires SoundAt(f, zone, f.drains[zone].w.id)
    ensures Moves(f, DrainEnd(f, zone), zone, f.drains[zone].w.id)
    ensures SoundAt(DrainEnd(f, zone), zone, f.drains[zone].w.id)
  {
    WaitsAfterIt(f, zone);
    DrainEndMovesIt(f, zone);
    DrainEndIsSound(f, zone);
  }

  lemma WaitsAfterIt(f: Flow, zone: ZoneKey)
    requires zone in f.drains && f.drains[zone].answer == Some(true) && zone in f.t.zones
        && |f.t.zones[zone].waiting| > 0
    requires WaitsWell(f, zone) && InOrder(f, zone)
    ensures var ws, f' := StillWaiting(f, zone), DrainEnd(f, zone);
      Waiting(f', zone) == ws && StillWaiting(f', zone) == ws && AllCarry(f', zone, ws) && InOrder(f', zone)
  {
    var ws, f' := StillWaiting(f, zone), DrainEnd(f, zone);
    ItemsTail(Waiting(f, zone));
    StillCarries(f, f', zone, ws);
  }

  lemma DrainEndMovesIt(f: Flow, zone: ZoneKey)
    requires zone in f.drains && f.drains[zone].answer == Some(true) && zone in f.t.zones
        && |f.t.zones[zone].waiting| > 0
    requires SoundAt(f, zone, f.drains[zone].w.id) && StillWaiting(DrainEnd(f, zone), zone) == StillWaiting(f, zone)
    ensures Moves(f, DrainEnd(f, zone), zone, f.drains[zone].w.id)
  {
  }

  lemma DrainEndIsSound(f: Flow, zone: ZoneKey)
    requires zone in f.drains && f.drains[zone].answer == Some(true) && zone in f.t.zones
        && |f.t.zones[zone].waiting| > 0
    requires SoundAt(f, zone, f.drains[zone].w.id)
    requires var ws, f' := StillWaiting(f, zone), DrainEnd(f, zone);
      StillWaiting(f', zone) == ws && AllCarry(f', zone, ws) && InOrder(f', zone)
    ensures SoundAt(DrainEnd(f, zone), zone, f.drains[zone].w.id)
  {
  }

  lemma DrainEndsRefused(f: Flow, zone: ZoneKey)
    requires zone in f.drains && f.drains[zone].answer == Some(false) && zone in f.t.zones
        && |f.t.zones[zone].waiting| > 0
    requires SoundAt(f, zone, f.drains[zone].w.id)
    ensures Moves(f, DrainEnd(f, zone), zone, f.drains[zone].w.id)
    ensures SoundAt(DrainEnd(f, zone), zone, f.drains[zone].w.id)
  {
    RefusedItWaits(f, zone);
  }

  lemma RefusedItWaits(f: Flow, zone: ZoneKey)
    requires zone in f.drains && f.drains[zone].answer == Some(false) && zone in f.t.zones
        && |f.t.zones[zone].waiting| > 0
    requires SoundAt(f, zone, f.drains[zone].w.id)
    ensures SoundAt(DrainEnd(f, zone), zone, f.drains[zone].w.id)
        && StillWaiting(DrainEnd(f, zone), zone) == StillWaiting(f, zone)
  {
  }

  /** What waits in the update's zone does not change at its word. */
  lemma WordLeavesTheWait(f: Flow, f': Flow, zone: ZoneKey, id: DistId)
    requires InOrder(f, zone) && WaitsWell(f, zone) && !Among(StillWaiting(f, zone), id)
    requires f'.t.zones == f.t.zones && f'.drains == f.drains && f'.out == f.out && f'.arrivals == f.arrivals
    requires f'.accepted == f.accepted
    requires forall i :: i != id ==> Removals(f', i) == Removals(f, i)
    ensures InOrder(f', zone) && WaitsWell(f', zone) && StillWaiting(f', zone) == StillWaiting(f, zone)
  {
  }

  lemma WordMoves(f: Flow, zone: ZoneKey, id: DistId, status: ConfirmStatus, acting: Option<ActingStamp>,
      removed: seq<string>)
    requires SoundAt(f, zone, id) && id in f.queue && id in f.accepted && f.accepted[id].zone == zone
    ensures Moves(f, WordArrive(f, id, status, acting, removed), zone, id)
    ensures SoundAt(WordArrive(f, id, status, acting, removed), zone, id)
  {
    var f' := WordArrive(f, id, status, acting, removed);
    if BeingQueued(f, id) { HeadWaits(f, zone); }
    assert !Waits(f, id) && !BeingQueued(f, id);
    WordTouchesOne(f, zone, id, WordOnUpdate(f.t, id, status, acting, removed).1, removed);
    WordLeavesTheWait(f, f', zone, id);
    assert !Waits(f', id) && !BeingQueued(f', id);
    var word := WordOnUpdate(f.t, id, status, acting, removed).1;
    assert FitsWord(f, id, word, removed);
    WordPlaces(f, id, word, removed);
  }

  lemma WordTouchesOne(f: Flow, zone: ZoneKey, id: DistId, word: UpdateWord, removed: seq<string>)
    requires id in f.accepted && f.accepted[id].zone == zone
    ensures var f' := Answered(f, id, word, removed);
      && f'.t.zones == f.t.zones && f'.drains == f.drains && f'.out == f.out && f'.arrivals == f.arrivals
          && f'.accepted == f.accepted
      && (forall i :: i != id ==> Removals(f', i) == Removals(f, i))
      && Moves(f, f', zone, id)
  {
    ZonesAlone(f, Answered(f, id, word, removed), zone, id);
  }

  lemma ZonesAlone(f: Flow, f': Flow, zone: ZoneKey, id: DistId)
    requires f'.t.zones == f.t.zones && f'.drains == f.drains && f'.out == f.out && f'.arrivals == f.arrivals
        && f'.accepted == f.accepted
    requires id in f.accepted && f.accepted[id].zone == zone
    ensures OnlyZone(f, f', zone) && OnlyMoves(f, f', zone, id)
  {
  }

  /** A word that is ours names what was removed before it. */
  ghost predicate FitsWord(f: Flow, id: DistId, word: UpdateWord, removed: seq<string>) {
    match word
    case NotOurs => id !in f.t.sent
    case Final(carried) => id in f.t.sent && carried == f.t.sent[id].removed
    case SendAgain(w) =>
      id in f.t.sent && w == WaitingUpdate(f.t.sent[id].zone, f.t.sent[id].update, id, f.t.sent[id].removed + removed)
  }

  lemma WordPlaces(f: Flow, id: DistId, word: UpdateWord, removed: seq<string>)
    requires SentWell(f, id) && id in f.accepted && Places(f, id) == 1 && id in f.queue && !BeingQueued(f, id)
        && !Waits(f, id)
    requires !Waits(Answered(f, id, word, removed), id) && !BeingQueued(Answered(f, id, word, removed), id)
    requires FitsWord(f, id, word, removed)
    ensures SentWell(Answered(f, id, word, removed), id)
    ensures Places(Answered(f, id, word, removed), id) == 1
  {
  }

  lemma WaitAgainMoves(f: Flow, zone: ZoneKey, id: DistId)
    requires SoundAt(f, zone, id) && id in f.inHand && f.inHand[id].zone == zone
    ensures Moves(f, WaitAgain(f, id), zone, id)
    ensures SoundAt(WaitAgain(f, id), zone, id)
  {
    var f' := WaitAgain(f, id);
    var w := f.inHand[id];
    assert Carries(f, zone, w) && !Waits(f, id);
    WaitAgainTouchesOne(f, zone, id);
    StillCarries(f, f', zone, StillWaiting(f, zone));
    assert Carries(f', zone, w);
    OneMoreWaits(f, f', zone, w);
    assert BeingQueued(f', id) == BeingQueued(f, id);
    if BeingQueued(f, id) { HeadWaits(f, zone); }
    WaitAgainPlaces(f, id);
  }

  lemma WaitAgainTouchesOne(f: Flow, zone: ZoneKey, id: DistId)
    requires id in f.inHand && f.inHand[id].zone == zone && id in f.accepted && f.accepted[id].zone == zone
        && f.inHand[id].id == id
    ensures var f' := WaitAgain(f, id);
      && OnlyZone(f, f', zone) && OnlyUpdate(f, f', id)
      && f'.drains == f.drains && f'.out == f.out && f'.accepted == f.accepted && f'.reported == f.reported
      && Waiting(f', zone) == Waiting(f, zone) + [f.inHand[id]] && Zone(f'.t, zone).draining == Zone(f.t, zone).draining
      && Log(f'.arrivals, zone) == Log(f.arrivals, zone) + [Item(f.inHand[id].update, id)]
  {
  }

  lemma WaitAgainPlaces(f: Flow, id: DistId)
    requires id in f.inHand && SentWell(f, id) && Places(f, id) == 1 && !BeingQueued(f, id)
    requires Waits(WaitAgain(f, id), id) && !BeingQueued(WaitAgain(f, id), id)
    ensures SentWell(WaitAgain(f, id), id) && Places(WaitAgain(f, id), id) == 1
  {
  }

  lemma AgeOutIsSound(f: Flow, now: Time)
    requires Sound(f)
    ensures Sound(AgeOut(f, now))
  {
    var f' := AgeOut(f, now);
    forall zone ensures InOrder(f', zone) && WaitsWell(f', zone) {
      ZoneStays(f, f', zone);
    }
    forall id ensures SentWell(f', id) && (id in f'.accepted ==> Places(f', id) == 1) {
      assert SentWell(f, id) && (id in f.accepted ==> Places(f, id) == 1);
      if BeingQueued(f, id) { BeingQueuedWaits(f, id); }
      AgedOrStays(f, id, now);
    }
  }

  lemma ZoneStays(f: Flow, f': Flow, zone: ZoneKey)
    requires InOrder(f, zone) && WaitsWell(f, zone)
    requires Waiting(f', zone) == Waiting(f, zone) && Zone(f'.t, zone).draining == Zone(f.t, zone).draining
    requires f'.drains == f.drains && f'.out == f.out && f'.arrivals == f.arrivals
    requires f'.accepted == f.accepted && f'.reported == f.reported
    ensures InOrder(f', zone) && WaitsWell(f', zone)
  {
  }

  lemma AgedOrStays(f: Flow, id: DistId, now: Time)
    requires SentWell(f, id) && (id in f.accepted ==> Places(f, id) == 1)
    requires BeingQueued(f, id) ==> Waits(f, id)
    ensures var f' := AgeOut(f, now); SentWell(f', id) && (id in f'.accepted ==> Places(f', id) == 1)
  {
  }

  lemma HandoverMoveIsSound(f: Flow, t: Tracker)
    requires Sound(f) && HandoversMoved(f.t, t)
    ensures Sound(f.(t := t))
  {
    var f' := f.(t := t);
    forall zone ensures InOrder(f', zone) && WaitsWell(f', zone) {
      ZoneStays(f, f', zone);
    }
    forall id ensures SentWell(f', id) && (id in f'.accepted ==> Places(f', id) == 1) {
      assert SentWell(f, id) && (id in f.accepted ==> Places(f, id) == 1);
      SentStays(f, t, id);
    }
  }

  lemma SentStays(f: Flow, t: Tracker, id: DistId)
    requires SentWell(f, id) && (id in f.accepted ==> Places(f, id) == 1) && HandoversMoved(f.t, t)
    ensures SentWell(f.(t := t), id) && (id in f.accepted ==> Places(f.(t := t), id) == 1)
  {
  }

  lemma At(f: Flow, zone: ZoneKey, id: DistId)
    requires Sound(f)
    ensures SoundAt(f, zone, id)
  {
  }

  lemma StepIsSound(f: Flow, s: Step)
    requires Sound(f) && Enabled(f, s)
    ensures Sound(Next(f, s))
  {
    match s
    case Arrives(zone, update, id, now) =>
      At(f, zone, id);
      if Gate(f.t, zone, update, id, now).1.Waits? {
        ArriveAndWait(f, zone, update, id, now);
        JudgedThere(f, Next(f, s), zone, id);
      } else if Gate(f.t, zone, update, id, now).1.Passes? {
        ArriveAndPass(f, zone, update, id, now);
        JudgedThere(f, Next(f, s), zone, id);
      }
    case PassedReaches(id, queued) =>
      At(f, "", id);
      var zone := f.accepted[id].zone;
      At(f, zone, id);
      PassedReachMoves(f, zone, id, queued);
      JudgedThere(f, Next(f, s), zone, id);
    case DrainStarts(zone, now) =>
      At(f, zone, f.t.zones[zone].waiting[0].id);
      DrainStartMoves(f, zone, now);
      JudgedThere(f, Next(f, s), zone, f.t.zones[zone].waiting[0].id);
    case DrainReaches(zone, queued) =>
      At(f, zone, f.drains[zone].w.id);
      DrainReachMoves(f, zone, queued);
      JudgedThere(f, Next(f, s), zone, f.drains[zone].w.id);
    case DrainEnds(zone) =>
      At(f, zone, f.drains[zone].w.id);
      DrainEndMoves(f, zone);
      JudgedThere(f, Next(f, s), zone, f.drains[zone].w.id);
    case Word(id, status, acting, removed) =>
      At(f, "", id);
      var zone := f.accepted[id].zone;
      At(f, zone, id);
      WordMoves(f, zone, id, status, acting, removed);
      JudgedThere(f, Next(f, s), zone, id);
    case WaitsAgain(id) =>
      var zone := f.inHand[id].zone;
      At(f, zone, id);
      WaitAgainMoves(f, zone, id);
      JudgedThere(f, Next(f, s), zone, id);
    case AgesOut(now) => AgeOutIsSound(f, now);
    case HandoverMoves(t) => HandoverMoveIsSound(f, t);
  }

  lemma {:induction false} EveryRunIsSound(f: Flow, steps: seq<Step>)
    requires Sound(f) && CanHappen(f, steps)
    ensures Sound(After(f, steps))
    decreases |steps|
  {
    if steps != [] {
      StepIsSound(f, steps[0]);
      EveryRunIsSound(Next(f, steps[0]), steps[1..]);
    }
  }

  // ---- What the hand-overs leave alone --------------------------------------------

  ghost predicate EntryMoved(before: ZoneHandover, after: ZoneHandover) {
    after.waiting == before.waiting && after.draining == before.draining && (before.want.Some? ==> after.want.Some?)
  }

  lemma PuttingMovesNoUpdate(t: Tracker, zone: ZoneKey, z: ZoneHandover)
    requires EntryMoved(Zone(t, zone), z)
    ensures HandoversMoved(t, Put(t, zone, z))
  {
  }

  lemma DueMovesNoUpdate(z: ZoneHandover, again: bool, now: Time, id: DistId)
    ensures EntryMoved(z, Due(z, again, now, id).0)
  {
  }

  /** Every step of the hand-over itself moves no update: what the agent does, */
  lemma AgentStepsMoveNoUpdate(t: Tracker, zone: ZoneKey, h: ActingHandover, now: Time, id: DistId)
    ensures HandoversMoved(t, HandOver(t, h, now, id).0)
    ensures HandoversMoved(t, Undelivered(t, zone, id))
    ensures HandoversMoved(t, LetHoldGo(t, zone, now, id).0)
    ensures HandoversMoved(t, Forgot(t, zone))
  {
    var z := Zone(t, zone);
    DueMovesNoUpdate(Zone(t, h.zone).(want := Some(h)), false, now, id);
    PuttingMovesNoUpdate(t, h.zone, Due(Zone(t, h.zone).(want := Some(h)), false, now, id).0);
    PuttingMovesNoUpdate(t, zone, z.(flight := None));
    PuttingMovesNoUpdate(t, zone, z);
    if z.want.Some? {
      var h' := z.want.value.(sets := z.want.value.sets.(hold := false));
      DueMovesNoUpdate(z.(want := Some(h')), false, now, id);
      PuttingMovesNoUpdate(t, zone, Due(z.(want := Some(h')), false, now, id).0);
    }
    PuttingMovesNoUpdate(t, zone, z.(reset := true, held := None));
  }

  /** what arrives from the combiner, */
  lemma ArrivalsMoveNoUpdate(t: Tracker, zone: ZoneKey, held: Option<ActingHandover>, now: Time, id: DistId)
    ensures HandoversMoved(t, Learned(t, zone, held, now, id).0)
    ensures HandoversMoved(t, Again(t, zone, now, id).0)
  {
  }

  lemma WordOnHandoverMovesNoUpdate(t: Tracker, zone: ZoneKey, status: ConfirmStatus, now: Time, id: DistId)
    requires zone in t.zones && t.zones[zone].flight.Some?
    ensures HandoversMoved(t, HandoverWord(t, zone, status, now, id).0)
  {
  }

  lemma HoldingLastMovesNoUpdate(t: Tracker, zone: ZoneKey, now: Time, id: DistId)
    ensures HandoversMoved(t, HoldLast(t, zone, now, id).0)
  {
  }

  /** and the passes over all zones. */
  lemma PassesMoveNoUpdate(t: Tracker, now: Time, ids: ZoneKey -> DistId)
    ensures HandoversMoved(t, CombinerStarted(t, now, ids))
    ensures HandoversMoved(t, Tick(t, now, ids).(sent := t.sent))
  {
  }

  // ---- What the gate is for ---------------------------------------------------------

  /** In every run, for every zone: what was accepted, in order, is what was let
      out, in order, followed by what waits; and every update accepted is in
      exactly one place. */
  lemma NothingOvertakesNothingVanishes(steps: seq<Step>)
    requires CanHappen(START, steps)
    ensures var f := After(START, steps);
      && (forall zone :: Log(f.arrivals, zone) == Log(f.out, zone) + Items(Waiting(f, zone)))
      && (forall id :: id in f.accepted ==> Places(f, id) == 1)
  {
    StartIsSound();
    EveryRunIsSound(START, steps);
    var f := After(START, steps);
    forall zone ensures Log(f.arrivals, zone) == Log(f.out, zone) + Items(Waiting(f, zone)) {
      assert InOrder(f, zone);
    }
  }

  /** What the combiner said it removed for an update in the words of a run that
      were not final, one after the other. */
  ghost function Said(f: Flow, steps: seq<Step>, id: DistId): seq<string>
    requires CanHappen(f, steps)
    decreases |steps|
  {
    if steps == [] then [] else SaidBy(f, steps[0], id) + Said(Next(f, steps[0]), steps[1..], id)
  }

  /** What a step says was removed with a word on the update that is not final. */
  function SaidBy(f: Flow, s: Step, id: DistId): seq<string> {
    if s.Word? && s.id == id && WordOnUpdate(f.t, id, s.status, s.acting, s.removed).1.SendAgain? then s.removed else []
  }

  lemma {:induction false} RemovalsAreWhatWasSaid(f: Flow, steps: seq<Step>, id: DistId)
    requires CanHappen(f, steps)
    ensures Removals(After(f, steps), id) == Removals(f, id) + Said(f, steps, id)
    decreases |steps|
  {
    if steps != [] {
      var next, said, rest := Next(f, steps[0]), SaidBy(f, steps[0], id), Said(Next(f, steps[0]), steps[1..], id);
      OneStepSays(f, steps[0], id);
      RemovalsAreWhatWasSaid(next, steps[1..], id);
      OneAfterAnother(Removals(f, id), said, rest);
    }
  }

  lemma OneAfterAnother(a: seq<string>, b: seq<string>, c: seq<string>)
    ensures (a + b) + c == a + (b + c)
  {
  }

  lemma OneStepSays(f: Flow, s: Step, id: DistId)
    requires Enabled(f, s)
    ensures Removals(Next(f, s), id) == Removals(f, id) + SaidBy(f, s, id)
  {
    match s
    case Word(i, status, acting, removed) =>
        OneWordSays(f, i, WordOnUpdate(f.t, i, status, acting, removed).1, removed, id);
    case _ => OnlyWordsSay(f, s);
  }

  lemma OnlyWordsSay(f: Flow, s: Step)
    requires Enabled(f, s) && !s.Word?
    ensures Next(f, s).reported == f.reported && Next(f, s).finals == f.finals
  {
    if s.DrainStarts? || s.DrainReaches? { DrainingSaysNothing(f, s); }
    else if s.DrainEnds? { DrainEndSaysNothing(f, s.zone); }
    else { PassingSaysNothing(f, s); }
  }

  lemma DrainingSaysNothing(f: Flow, s: Step)
    requires Enabled(f, s) && (s.DrainStarts? || s.DrainReaches?)
    ensures Next(f, s).reported == f.reported && Next(f, s).finals == f.finals
  {
    if s.DrainStarts? { DrainStartSaysNothing(f, s.zone, s.now); } else { DrainReachSaysNothing(f, s.zone, s.queued); }
  }

  lemma DrainStartSaysNothing(f: Flow, zone: ZoneKey, now: Time)
    requires CanDrain(f.t, zone)
    ensures DrainStart(f, zone, now).reported == f.reported && DrainStart(f, zone, now).finals == f.finals
  {
  }

  lemma DrainReachSaysNothing(f: Flow, zone: ZoneKey, queued: bool)
    requires zone in f.drains
    ensures DrainReach(f, zone, queued).reported == f.reported && DrainReach(f, zone, queued).finals == f.finals
  {
  }

  lemma DrainEndSaysNothing(f: Flow, zone: ZoneKey)
    requires zone in f.drains && f.drains[zone].answer.Some? && zone in f.t.zones && |f.t.zones[zone].waiting| > 0
    ensures DrainEnd(f, zone).reported == f.reported && DrainEnd(f, zone).finals == f.finals
  {
  }

  lemma PassingSaysNothing(f: Flow, s: Step)
    requires Enabled(f, s) && (s.Arrives? || s.PassedReaches? || s.WaitsAgain? || s.AgesOut? || s.HandoverMoves?)
    ensures Next(f, s).reported == f.reported && Next(f, s).finals == f.finals
  {
    match s
    case Arrives(zone, update, id, now) => ArrivingSaysNothing(f, zone, update, id, now);
    case PassedReaches(id, queued) => PassedReachSaysNothing(f, id, queued);
    case WaitsAgain(id) => WaitingAgainSaysNothing(f, id);
    case AgesOut(now) => AgingSaysNothing(f, now);
    case HandoverMoves(t) => assert Next(f, s) == f.(t := t);
  }

  lemma PassedReachSaysNothing(f: Flow, id: DistId, queued: bool)
    ensures PassedReach(f, id, queued).reported == f.reported && PassedReach(f, id, queued).finals == f.finals
  {
  }

  lemma WaitingAgainSaysNothing(f: Flow, id: DistId)
    requires id in f.inHand
    ensures WaitAgain(f, id).reported == f.reported && WaitAgain(f, id).finals == f.finals
  {
  }

  lemma AgingSaysNothing(f: Flow, now: Time)
    ensures AgeOut(f, now).reported == f.reported && AgeOut(f, now).finals == f.finals
  {
  }

  lemma ArrivingSaysNothing(f: Flow, zone: ZoneKey, update: ZoneUpdate, id: DistId, now: Time)
    ensures Arrive(f, zone, update, id, now).reported == f.reported
    ensures Arrive(f, zone, update, id, now).finals == f.finals
  {
  }

  lemma OneWordSays(f: Flow, i: DistId, word: UpdateWord, removed: seq<string>, id: DistId)
    ensures Removals(Answered(f, i, word, removed), id) == Removals(f, id) + if i == id && word.SendAgain?
        then removed else []
  {
  }

  /** In every run: the records handed on with an update's final word are, in
      order, all those the combiner said it removed in the words before it that
      were not final, over any number of times the update waited again. */
  lemma RemovedRecordsReachTheFinalWord(steps: seq<Step>, id: DistId)
    requires CanHappen(START, steps) && id in After(START, steps).finals
    ensures After(START, steps).finals[id] == Said(START, steps, id)
  {
    StartIsSound();
    EveryRunIsSound(START, steps);
    RemovalsAreWhatWasSaid(START, steps, id);
    assert SentWell(After(START, steps), id);
  }

  /** The word ends the update: it is a success, or it refuses what was let out
      under what the zone wants then (or the zone wants nothing), and the serial,
      digest and step the combiner says it acts by, if it says them, are those. */
  ghost predicate Ends(f: Flow, s: Step, id: DistId) {
    s.Word? && s.id == id && id in f.t.sent &&
    var u, want := f.t.sent[id], Zone(f.t, f.t.sent[id].zone).want;
    || s.status == Success
    || want.None?
    || (want.value.SameAs(u.under)
        && (s.acting.Some? ==>
              s.acting.value.serial == u.under.serial && s.acting.value.digest == u.under.digest
              && s.acting.value.step == u.under.step))
  }

  ghost predicate EndedIn(f: Flow, steps: seq<Step>, id: DistId)
    requires CanHappen(f, steps)
    decreases |steps|
  {
    steps != [] && (Ends(f, steps[0], id) || EndedIn(Next(f, steps[0]), steps[1..], id))
  }

  lemma OneStepEnds(f: Flow, s: Step, id: DistId)
    requires Enabled(f, s)
    ensures id in Next(f, s).finals <==> id in f.finals || Ends(f, s, id)
  {
    match s
    case Word(i, status, acting, removed) =>
      OneWordEnds(f, i, WordOnUpdate(f.t, i, status, acting, removed).1, removed, id);
      if i == id && id in f.t.sent { HandoverLife.WhatAWordOnAnUpdateDoes(f.t, id, status, acting, removed); }
    case _ => OnlyWordsSay(f, s);
  }

  lemma OneWordEnds(f: Flow, i: DistId, word: UpdateWord, removed: seq<string>, id: DistId)
    ensures id in Answered(f, i, word, removed).finals <==> id in f.finals || (i == id && word.Final?)
  {
  }

  /** In every run: an update has had its final word exactly when a word on it,
      while it was out, was a success, or refused it by what the zone then wanted.
      No refusal by anything else is final, and no such refusal sends it again. */
  lemma {:induction false} FinalExactlyWhenJudgedByWhatIsWanted(f: Flow, steps: seq<Step>, id: DistId)
    requires CanHappen(f, steps)
    ensures id in After(f, steps).finals <==> id in f.finals || EndedIn(f, steps, id)
    decreases |steps|
  {
    if steps != [] {
      OneStepEnds(f, steps[0], id);
      FinalExactlyWhenJudgedByWhatIsWanted(Next(f, steps[0]), steps[1..], id);
    }
  }

  /** A drain that nothing disturbs, of a zone whose combiner holds what is wanted,
      lets everything out that waits, in order, under what the combiner holds. */
  lemma {:induction false} DrainLetsEverythingOut(t: Tracker, zone: ZoneKey, now: Time, answers: seq<bool>)
    requires zone in t.zones && t.zones[zone].Holds() && !t.zones[zone].draining
    requires |answers| >= |t.zones[zone].waiting| && forall i :: 0 <= i < |answers| ==> answers[i]
    ensures var (t', out) := Drain(t, zone, now, answers);
      && out == t.zones[zone].waiting
      && t'.zones == t.zones[zone := t.zones[zone].(waiting := [])]
      && (forall w :: w in out ==> w.id in t'.sent && t'.sent[w.id].under == t.zones[zone].held.value)
    decreases |answers|
  {
    var ws := t.zones[zone].waiting;
    if ws == [] {
      assert t.zones == t.zones[zone := t.zones[zone].(waiting := [])];
    } else {
      var done := DrainDone(DrainTake(t, zone, now).0, zone, ws[0], true);
      DrainLetsTheHeadOut(t, zone, now);
      DrainLetsEverythingOut(done, zone, now, answers[1..]);
      DrainKeepsSent(done, zone, now, answers[1..], ws[0].id);
      HeadAndRest(t, done, zone, Drain(done, zone, now, answers[1..]).0);
    }
  }

  lemma HeadAndRest(t: Tracker, done: Tracker, zone: ZoneKey, t': Tracker)
    requires zone in t.zones && t.zones[zone].waiting != [] && t.zones[zone].held.Some?
    requires var ws := t.zones[zone].waiting;
      && done.zones == t.zones[zone := t.zones[zone].(waiting := ws[1..])]
      && t'.zones == done.zones[zone := done.zones[zone].(waiting := [])]
      && (forall w :: w in ws[1..] || w == ws[0] ==> w.id in t'.sent && t'.sent[w.id].under == t.zones[zone].held.value)
    ensures var ws := t.zones[zone].waiting;
      && [ws[0]] + ws[1..] == ws
      && t'.zones == t.zones[zone := t.zones[zone].(waiting := [])]
      && (forall w :: w in ws ==> w.id in t'.sent && t'.sent[w.id].under == t.zones[zone].held.value)
  {
  }

  lemma DrainLetsTheHeadOut(t: Tracker, zone: ZoneKey, now: Time)
    requires zone in t.zones && t.zones[zone].Holds() && !t.zones[zone].draining && t.zones[zone].waiting != []
    ensures var ws := t.zones[zone].waiting;
      var (mid, w) := DrainTake(t, zone, now);
      var done := DrainDone(mid, zone, ws[0], true);
      && CanDrain(t, zone) && w == Some(ws[0])
      && done.zones == t.zones[zone := t.zones[zone].(waiting := ws[1..])]
      && ws[0].id in done.sent && done.sent[ws[0].id].under == t.zones[zone].held.value
  {
  }

  lemma {:induction false} DrainKeepsSent(t: Tracker, zone: ZoneKey, now: Time, answers: seq<bool>, id: DistId)
    requires zone in t.zones && t.zones[zone].Holds() && id in t.sent && t.sent[id].under == t.zones[zone].held.value
    requires forall i :: 0 <= i < |answers| ==> answers[i]
    ensures id in Drain(t, zone, now, answers).0.sent
    ensures Drain(t, zone, now, answers).0.sent[id].under == t.zones[zone].held.value
    decreases |answers|
  {
    if answers != [] && CanDrain(t, zone) {
      var (mid, w) := DrainTake(t, zone, now);
      DrainKeepsSent(DrainDone(mid, zone, w.value, true), zone, now, answers[1..], id);
    }
  }

  // ---- What the gate does not promise -------------------------------------------------

  lemma {:induction false} Then(f: Flow, steps: seq<Step>, s: Step)
    requires CanHappen(f, steps) && Enabled(After(f, steps), s)
    ensures CanHappen(f, steps + [s]) && After(f, steps + [s]) == Next(After(f, steps), s)
    decreases |steps|
  {
    if steps == [] {
      assert steps + [s] == [s];
    } else {
      assert (steps + [s])[1..] == steps[1..] + [s];
      Then(Next(f, steps[0]), steps[1..], s);
    }
  }

  lemma LetOutAndThenWaiting(zone: ZoneKey, h1: ActingHandover, h2: ActingHandover, u1: ZoneUpdate, u2: ZoneUpdate)
    returns (steps: seq<Step>)
    requires !h2.SameAs(h1) && u1.acting.None? && u2.acting.None?
    ensures CanHappen(START, steps)
    ensures var f := After(START, steps);
      && Zone(f.t, zone) == ZoneHandover(Some(h2), Some(h2), None, [WaitingUpdate(zone, u2, 2, [])], false, false)
      && f.passing == {1} && f.queue == {} && zone !in f.drains
      && Log(f.arrivals, zone) == [Item(u1, 1), Item(u2, 2)]
  {
    steps := LetOutAndWanted(zone, h1, h2, u1);
    var f := After(START, steps);
    Then(START, steps, Arrives(zone, u2, 2, 0));
    steps := steps + [Arrives(zone, u2, 2, 0)];
    var g := After(START, steps);
    assert Zone(g.t, zone) == ZoneHandover(Some(h2), Some(h1), None, [WaitingUpdate(zone, u2, 2, [])], false, false);
    var t3 := Tracker(map[zone := Zone(g.t, zone).(held := Some(h2))], g.t.sent);
    assert HandoversMoved(g.t, t3);
    Then(START, steps, HandoverMoves(t3));
    steps := steps + [HandoverMoves(t3)];
  }

  /** u1 is let out under h1; then h2 is wanted. */
  lemma LetOutAndWanted(zone: ZoneKey, h1: ActingHandover, h2: ActingHandover, u1: ZoneUpdate)
    returns (steps: seq<Step>)
    requires !h2.SameAs(h1) && u1.acting.None?
    ensures CanHappen(START, steps)
    ensures var f := After(START, steps);
      && f.t.zones == map[zone := ZoneHandover(Some(h2), Some(h1), None, [], false, false)]
      && f.passing == {1} && f.queue == {} && f.drains == map[] && f.accepted.Keys == {1}
      && Log(f.arrivals, zone) == [Item(u1, 1)]
  {
    var z := ZoneHandover(Some(h1), Some(h1), None, [], false, false);
    var t1 := Tracker(map[zone := z], map[]);
    assert HandoversMoved(START.t, t1);
    steps := [];
    Then(START, steps, HandoverMoves(t1));
    steps := steps + [HandoverMoves(t1)];
    Then(START, steps, Arrives(zone, u1, 1, 0));
    steps := steps + [Arrives(zone, u1, 1, 0)];
    var f := After(START, steps);
    assert f.t.zones[zone] == z && f.t.zones.Keys == {zone};
    var t2 := Tracker(map[zone := z.(want := Some(h2))], f.t.sent);
    assert HandoversMoved(f.t, t2);
    Then(START, steps, HandoverMoves(t2));
    steps := steps + [HandoverMoves(t2)];
  }

  /** The order kept is the one updates are let out in. Between the gate and the
      queue no lock is held: an update let out by the gate and not yet on the queue
      is overtaken there by one that arrived after it, waited, and was drained. */
  lemma OvertakenOnTheWayToTheQueue(zone: ZoneKey, h1: ActingHandover, h2: ActingHandover, u1: ZoneUpdate,
      u2: ZoneUpdate) returns (steps: seq<Step>)
    requires !h2.SameAs(h1) && u1.acting.None? && u2.acting.None?
    ensures CanHappen(START, steps)
    ensures var f := After(START, steps);
      && Log(f.arrivals, zone) == [Item(u1, 1), Item(u2, 2)]
      && 1 in f.passing && 1 !in f.queue && 2 in f.queue
  {
    steps := LetOutAndThenWaiting(zone, h1, h2, u1, u2);
    assert h2.SameAs(h2);
    Then(START, steps, DrainStarts(zone, 0));
    steps := steps + [DrainStarts(zone, 0)];
    Then(START, steps, DrainReaches(zone, true));
    steps := steps + [DrainReaches(zone, true)];
  }
}
