/** The catch-up tracker: per zone and peer one request for the zone's state, named
    anew each time it is made, asked again until the answer is complete.

    The functions are the lock-held regions of the tracker's methods, one region one
    step; CatchUpTracker.dfy has the tracker itself. */
module CatchUp {
  import opened Collections
  import opened Wrappers
  import opened Names

  type Zone = string
  type Peer = string
  type Time = nat   // nanoseconds; 0: never

  const SECOND: Time := 1_000_000_000
  const ANSWER_WAIT: Time := 30 * SECOND
  const RETRY_EVERY: Time := 300 * SECOND
  const RECENT: Time := 60 * SECOND
  const IN_FLIGHT := 8

  function RetryDelay(attempt: nat): Time {
    if attempt <= 1 then 5 * SECOND
    else if attempt == 2 then 15 * SECOND
    else if attempt == 3 then 30 * SECOND
    else if attempt == 4 then 60 * SECOND
    else RETRY_EVERY
  }

  datatype Key = Key(zone: Zone, peer: Peer)

  /** A request's name; no two namings give the same. */
  datatype Name = Unnamed | Name(count: nat, key: Key)

  datatype Reason = Start | Join | Role | PeerRole | PeerStart | Outage | Manual

  datatype EntryState = Idle | Noted | Due | Sent | Retry | Paused

  datatype Entry = Entry(
    state: EntryState, request: Name, reason: Reason, startRequest: string,
    asked: Time, answered: Time, complete: bool,
    attempt: nat, acked: bool, arrived: bool, deadline: Time)
  {
    predicate Outstanding() { state != Idle }

    /** Sent, and its answer has not come. */
    predicate InFlight() { state == Sent && !arrived }

    /** The wait for its answer runs. */
    predicate Waits(unknown: bool) { state == Sent && acked && !arrived && !unknown }

    predicate Runs(unknown: bool) { state == Retry || Waits(unknown) }
  }

  const NEW_ENTRY := Entry(Idle, Unnamed, Start, "", 0, 0, false, 0, false, false, 0)

  /** `names` counts the namings made. */
  datatype Tracker = Tracker(entries: map<Key, Entry>, names: nat)

  datatype AskResult = Recorded | NotedAsk | OutstandingAsk | RecentAsk

  function At(t: Tracker, k: Key): Entry { if k in t.entries then t.entries[k] else NEW_ENTRY }

  // ---- The steps -------------------------------------------------------------------

  function Ask(t: Tracker, k: Key, reason: Reason, startRequest: string, operational: bool,
      now: Time): (Tracker, AskResult)
  {
    var e := At(t, k);
    var toldAgain := startRequest != "" && e.startRequest == startRequest;
    if e.Outstanding() && (reason != PeerStart || (e.reason == PeerStart && (e.state != Sent || toldAgain))) then
      (t, OutstandingAsk)
    else if reason != Manual && reason != PeerStart && e.complete && now < e.answered + RECENT then (t, RecentAsk)
    else
      var state := if operational then Due else Noted;
      var e' := Entry(state, Name(t.names, k), reason, startRequest, 0, e.answered, false, 0, false, false, 0);
      (Tracker(t.entries[k := e'], t.names + 1), if operational then Recorded else NotedAsk)
  }

  function Woken(e: Entry, k: Key, names: nat): Entry {
    if e.state == Noted then e.(state := Due)
    else if e.state == Paused then e.(state := Due, request := Name(names, k))
    else e
  }

  function PeerOperational(t: Tracker, peer: Peer): Tracker {
    Tracker(map k | k in t.entries ::
        if k.peer == peer then Woken(t.entries[k], k, t.names) else t.entries[k], t.names + 1)
  }

  /** failLocked */
  function Failed(e: Entry, now: Time): Entry {
    e.(state := Retry, attempt := e.attempt + 1, deadline := now + RetryDelay(e.attempt + 1), acked := false,
        arrived := false)
  }

  predicate Outgoing(t: Tracker, k: Key, request: Name) {
    k in t.entries && t.entries[k].state == Sent && t.entries[k].request == request
  }

  function Answered(t: Tracker, k: Key, request: Name, complete: bool, now: Time): Tracker {
    if !Outgoing(t, k, request) then t
    else
      var e := t.entries[k].(answered := now);
      t.(entries := t.entries[k := if complete then e.(state := Idle, complete := true, attempt := 0)
          else Failed(e, now)])
  }

  function Arrived(t: Tracker, k: Key, request: Name): Tracker {
    if !Outgoing(t, k, request) then t else t.(entries := t.entries[k := t.entries[k].(arrived := true)])
  }

  function AnswerTime(beat: Time): Time { if 2 * beat > ANSWER_WAIT then 2 * beat else ANSWER_WAIT }

  function Max(a: Time, b: Time): Time { if a < b then b else a }

  function Restarted(e: Entry, until: Time): Entry {
    if e.state == Sent && (e.acked || e.arrived)
        then e.(arrived := false, acked := true, deadline := Max(e.deadline, until)) else e
  }

  function ActiveChanged(t: Tracker, zone: Zone, beat: Time, now: Time): Tracker {
    t.(entries := map k | k in t.entries ::
      if k.zone == zone then Restarted(t.entries[k], now + AnswerTime(beat)) else t.entries[k])
  }

  function Forget(t: Tracker, peer: Peer): Tracker {
    t.(entries := map k | k in t.entries && k.peer != peer :: t.entries[k])
  }

  /** `apply`: the zone is held, this agent votes in it, and these peers do. */
  function Prune(t: Tracker, zone: Zone, apply: set<Peer>): Tracker {
    t.(entries := map k | k in t.entries && (k.zone != zone || k.peer in apply) :: t.entries[k])
  }

  /** What a peer's sender finds: whether the peer is operational, the zones whose
      active serial is not known, and those in which its entries apply. */
  datatype Look = Look(now: Time, operational: bool, unknown: set<Zone>, apply: set<Zone>)

  predicate Silent(e: Entry, zone: Zone, look: Look) {
    e.Waits(zone in look.unknown) && look.now >= e.deadline
  }

  predicate RetryDue(e: Entry, look: Look) { e.state == Retry && look.now >= e.deadline }

  function Passed(e: Entry, k: Key, look: Look, names: nat): Entry {
    if Silent(e, k.zone, look) then Failed(e, look.now)
    else if RetryDue(e, look) then
      if !look.operational then e.(state := Paused) else e.(state := Due, request := Name(names, k), acked := false)
    else if e.state == Due && !look.operational then e.(state := Noted)
    else e
  }

  predicate Dropped(e: Entry, zone: Zone, look: Look) {
    !Silent(e, zone, look) && RetryDue(e, look) && zone !in look.apply
  }

  /** The first loop of step: what is due for the peer. */
  function Pass(t: Tracker, peer: Peer, look: Look): Tracker {
    Tracker(map k | k in t.entries && !(k.peer == peer && Dropped(t.entries[k], k.zone, look)) ::
              if k.peer == peer then Passed(t.entries[k], k, look, t.names) else t.entries[k],
            t.names + 1)
  }

  function InFlightTo(t: Tracker, peer: Peer): set<Zone> {
    set k | k in t.entries && k.peer == peer && t.entries[k].InFlight() :: k.zone
  }

  function DueTo(t: Tracker, peer: Peer): set<Zone> {
    set k | k in t.entries && k.peer == peer && t.entries[k].state == Due :: k.zone
  }

  /** The request picked goes out. */
  function Send(t: Tracker, k: Key, now: Time): Tracker
    requires k in t.entries
  {
    t.(entries := t.entries[k := t.entries[k].(state := Sent, asked := now, acked := false, deadline := 0)])
  }

  function SendEnded(t: Tracker, k: Key, request: Name, ok: bool, now: Time): Tracker {
    if !Outgoing(t, k, request) then t
    else
      var e := t.entries[k];
      t.(entries := t.entries[k := if ok then e.(acked := true, deadline := Max(e.deadline, now + ANSWER_WAIT))
          else Failed(e, now)])
  }

  // ---- Runs -------------------------------------------------------------------------

  datatype Event =
    | Asking(key: Key, reason: Reason, startRequest: string, operational: bool, now: Time)
    | Beat(peer: Peer)
    | Answer(key: Key, request: Name, complete: bool, now: Time)
    | Kept(key: Key, request: Name)
    | Activation(zone: Zone, beat: Time, now: Time)
    | Forgetting(peer: Peer)
    | Pruning(zone: Zone, apply: set<Peer>)
    | Stepping(peer: Peer, look: Look, picked: Option<Zone>)
    | SendEnding(key: Key, request: Name, ok: bool, now: Time)

  /** What step may pick: a request due after its first loop, the first by zone, with
      fewer than eight waiting; nothing only when there is none or no room. */
  predicate MayPick(t: Tracker, peer: Peer, picked: Option<Zone>) {
    if picked.Some? then
      && |InFlightTo(t, peer)| < IN_FLIGHT && picked.value in DueTo(t, peer)
      && forall z :: z in DueTo(t, peer) ==> !Before(z, picked.value)
    else DueTo(t, peer) == {} || |InFlightTo(t, peer)| >= IN_FLIGHT
  }

  predicate May(t: Tracker, ev: Event) {
    ev.Stepping? ==> MayPick(Pass(t, ev.peer, ev.look), ev.peer, ev.picked)
  }

  function Take(t: Tracker, ev: Event): Tracker
    requires May(t, ev)
  {
    match ev
    case Asking(k, reason, startRequest, operational, now) => Ask(t, k, reason, startRequest, operational, now).0
    case Beat(peer) => PeerOperational(t, peer)
    case Answer(k, request, complete, now) => Answered(t, k, request, complete, now)
    case Kept(k, request) => Arrived(t, k, request)
    case Activation(zone, beat, now) => ActiveChanged(t, zone, beat, now)
    case Forgetting(peer) => Forget(t, peer)
    case Pruning(zone, apply) => Prune(t, zone, apply)
    case Stepping(peer, look, picked) =>
      var t1 := Pass(t, peer, look);
      if picked.Some? then Send(t1, Key(picked.value, peer), look.now) else t1
    case SendEnding(k, request, ok, now) => SendEnded(t, k, request, ok, now)
  }

  predicate Runs(t: Tracker, run: seq<Event>)
    decreases |run|
  {
    run == [] || (May(t, run[0]) && Runs(Take(t, run[0]), run[1..]))
  }

  function TakeAll(t: Tracker, run: seq<Event>): Tracker
    requires Runs(t, run)
    decreases |run|
  {
    if run == [] then t else TakeAll(Take(t, run[0]), run[1..])
  }

  /** The entry of one key in t. */
  function EntryOf(t: Tracker, k: Key): Option<Entry> { if k in t.entries then Some(t.entries[k]) else None }

  /** What a step makes of one entry. */
  function Moved(e: Option<Entry>, names: nat, ev: Event, k: Key): Option<Entry> {
    match ev
    case Asking(_, reason, startRequest, operational, now) =>
      if ev.key == k then EntryOf(Ask(Tracker(if e.Some? then map[k := e.value] else map[], names), k, reason,
          startRequest, operational, now).0, k) else e
    case Beat(peer) => if e.Some? && k.peer == peer then Some(Woken(e.value, k, names)) else e
    case Answer(_, request, complete, now) =>
      if ev.key != k || e.None? || e.value.state != Sent || e.value.request != request then e
      else if complete then Some(e.value.(answered := now, state := Idle, complete := true, attempt := 0))
      else Some(Failed(e.value.(answered := now), now))
    case Kept(_, request) =>
      if ev.key != k || e.None? || e.value.state != Sent || e.value.request != request then e
          else Some(e.value.(arrived := true))
    case Activation(zone, beat, now) =>
        if e.Some? && k.zone == zone then Some(Restarted(e.value, now + AnswerTime(beat))) else e
    case Forgetting(peer) => if k.peer == peer then None else e
    case Pruning(zone, apply) => if k.zone == zone && k.peer !in apply then None else e
    case Stepping(peer, look, picked) =>
      if e.None? || k.peer != peer then e
      else if Dropped(e.value, k.zone, look) then None
      else if picked == Some(k.zone)
          then Some(Passed(e.value, k, look, names).(state := Sent, asked := look.now, acked := false, deadline := 0))
      else Some(Passed(e.value, k, look, names))
    case SendEnding(_, request, ok, now) =>
      if ev.key != k || e.None? || e.value.state != Sent || e.value.request != request then e
      else if ok then Some(e.value.(acked := true, deadline := Max(e.value.deadline, now + ANSWER_WAIT)))
      else Some(Failed(e.value, now))
  }

  lemma TakeMoves(t: Tracker, ev: Event, k: Key)
    requires May(t, ev)
    ensures EntryOf(Take(t, ev), k) == Moved(EntryOf(t, k), t.names, ev, k)
    ensures t.names <= Take(t, ev).names
  {
  }

  /** Only a request due after the first loop goes out. */
  lemma PickedWasDue(t: Tracker, ev: Event)
    requires May(t, ev) && ev.Stepping? && ev.picked.Some?
    ensures var k := Key(ev.picked.value, ev.peer);
      k in t.entries && !Dropped(t.entries[k], k.zone, ev.look)
          && Passed(t.entries[k], k, ev.look, t.names).state == Due
  {
  }

  // ---- The life of a name ------------------------------------------------------------

  /** What an entry may become in one step, by its name. */
  ghost predicate EntrySound(t: Tracker, k: Key) {
    k in t.entries ==>
      var e := t.entries[k];
      && (e.complete <==> e.state == Idle)
      && e.request.Name? && e.request.count < t.names && e.request.key == k
  }

  ghost predicate Sound(t: Tracker) { forall k :: EntrySound(t, k) }

  lemma TakeIsSoundAt(t: Tracker, ev: Event, k: Key)
    requires May(t, ev) && EntrySound(t, k)
    ensures EntrySound(Take(t, ev), k)
  {
    match ev
    case Asking(_, _, _, _, _) => AskingIsSoundAt(t, ev, k);
    case Stepping(_, _, _) => SteppingIsSoundAt(t, ev, k);
    case _ => TellingIsSoundAt(t, ev, k);
  }

  lemma AskingIsSoundAt(t: Tracker, ev: Event, k: Key)
    requires May(t, ev) && EntrySound(t, k) && ev.Asking?
    ensures EntrySound(Take(t, ev), k)
  {
  }

  lemma SteppingIsSoundAt(t: Tracker, ev: Event, k: Key)
    requires May(t, ev) && EntrySound(t, k) && ev.Stepping?
    ensures EntrySound(Take(t, ev), k)
  {
    TakeMoves(t, ev, k);
    if ev.picked.Some? { PickedWasDue(t, ev); }
  }

  lemma TellingIsSoundAt(t: Tracker, ev: Event, k: Key)
    requires May(t, ev) && EntrySound(t, k) && !ev.Asking? && !ev.Stepping?
    ensures EntrySound(Take(t, ev), k)
  {
    TakeMoves(t, ev, k);
  }

  /** In every run from a new tracker, an entry is complete exactly when it is idle. */
  lemma {:induction false} EveryRunIsSound(t: Tracker, run: seq<Event>)
    requires Runs(t, run) && Sound(t)
    ensures Sound(TakeAll(t, run))
    decreases |run|
  {
    if run != [] {
      forall k ensures EntrySound(Take(t, run[0]), k) { TakeIsSoundAt(t, run[0], k); }
      EveryRunIsSound(Take(t, run[0]), run[1..]);
    }
  }

  /** The request of this name is on its way out, or out. */
  predicate Alive(t: Tracker, k: Key, name: Name) {
    k in t.entries && t.entries[k].request == name && t.entries[k].state in {Noted, Due, Sent}
  }

  /** Given once, and superseded, answered, failed or dropped since. */
  predicate Dead(t: Tracker, k: Key, name: Name) {
    name.Name? && name.key == k && name.count < t.names && !Alive(t, k, name)
  }

  /** A dead name stays dead, */
  lemma DeadStaysDead(t: Tracker, ev: Event, k: Key, name: Name)
    requires May(t, ev) && Dead(t, k, name)
    ensures Dead(Take(t, ev), k, name)
  {
    if ev.Stepping? { SteppingRevivesNone(t, ev, k, name); }
    else { TakeMoves(t, ev, k); }
  }

  lemma SteppingRevivesNone(t: Tracker, ev: Event, k: Key, name: Name)
    requires May(t, ev) && Dead(t, k, name) && ev.Stepping?
    ensures Dead(Take(t, ev), k, name)
  {
    TakeMoves(t, ev, k);
    if ev.picked.Some? { PickedWasDue(t, ev); }
  }

  lemma {:induction false} DeadForGood(t: Tracker, run: seq<Event>, k: Key, name: Name)
    requires Runs(t, run) && Dead(t, k, name)
    ensures Dead(TakeAll(t, run), k, name)
    decreases |run|
  {
    if run != [] {
      DeadStaysDead(t, run[0], k, name);
      DeadForGood(Take(t, run[0]), run[1..], k, name);
    }
  }

  predicate SpeaksOf(ev: Event, k: Key, name: Name) {
    (ev.Answer? || ev.Kept? || ev.SendEnding?) && ev.key == k && ev.request == name
  }

  /** and an answer to it, or the outcome of its send, changes nothing, ever after:
      one superseded, timed out, or made before the peer's start among them. */
  lemma TheDeadChangeNothing(t: Tracker, run: seq<Event>, k: Key, name: Name, ev: Event)
    requires Runs(t, run) && Dead(t, k, name) && SpeaksOf(ev, k, name)
    ensures Take(TakeAll(t, run), ev) == TakeAll(t, run)
  {
    DeadForGood(t, run, k, name);
  }

  /** Every end of a request's wait is the end of its name: a time-out, a failed send,
      an answer, the entry dropped, or the request made anew. */
  lemma LeavingSentIsDeath(t: Tracker, ev: Event, k: Key)
    requires May(t, ev) && EntrySound(t, k) && k in t.entries && t.entries[k].state == Sent
    requires !Outgoing(Take(t, ev), k, t.entries[k].request)
    ensures Dead(Take(t, ev), k, t.entries[k].request)
  {
  }

  /** A request made anew has a new name, and whatever the peer's earlier process still
      answers to the name before counts for nothing; a peer's start makes it anew though
      one is out, but for the same start told again. */
  lemma AskingAnewEndsTheNameBefore(t: Tracker, k: Key, reason: Reason, startRequest: string,
      operational: bool, now: Time)
    requires EntrySound(t, k)
    ensures var (t', did) := Ask(t, k, reason, startRequest, operational, now);
      var e := At(t, k);
      && (did.OutstandingAsk? || did.RecentAsk? ==> t' == t)
      && (did.Recorded? || did.NotedAsk? ==>
            Alive(t', k, Name(t.names, k)) && !t'.entries[k].complete && (k in t.entries ==> Dead(t', k, e.request)))
      && (did.RecentAsk? ==> e.complete && reason != Manual && reason != PeerStart)
      && (reason == PeerStart && e.state == Sent && did.OutstandingAsk? ==>
          e.reason == PeerStart && e.startRequest == startRequest != "")
  {
  }

  /** After a beat nothing waits for the peer to be operational, and of what was sent to
      it nothing changed. */
  lemma NothingWaitsAfterABeat(t: Tracker, peer: Peer, k: Key)
    requires k.peer == peer && k in t.entries
    ensures k in PeerOperational(t, peer).entries && PeerOperational(t, peer).entries[k].state !in {Noted, Paused}
    ensures t.entries[k].state !in {Noted, Paused} ==> PeerOperational(t, peer).entries[k] == t.entries[k]
    ensures EntrySound(t, k) && t.entries[k].state == Paused ==> Dead(PeerOperational(t, peer), k, t.entries[k].request)
  {
  }

  // ---- What completes an entry ---------------------------------------------------------

  /** The name that goes out in a step. */
  function GoesOut(t: Tracker, ev: Event): set<Name>
    requires May(t, ev)
  {
    if ev.Stepping? && ev.picked.Some?
        then {At(Pass(t, ev.peer, ev.look), Key(ev.picked.value, ev.peer)).request} else {}
  }

  /** The names out after a run; `out` were before it. */
  function Out(t: Tracker, run: seq<Event>, out: set<Name>): set<Name>
    requires Runs(t, run)
    decreases |run|
  {
    if run == [] then out else Out(Take(t, run[0]), run[1..], out + GoesOut(t, run[0]))
  }

  /** The names that in a run were answered complete after they went out. */
  function AnsweredAfterOut(t: Tracker, run: seq<Event>, out: set<Name>, done: set<Name>): set<Name>
    requires Runs(t, run)
    decreases |run|
  {
    if run == [] then done
    else
      var ev := run[0];
      AnsweredAfterOut(Take(t, ev), run[1..], out + GoesOut(t, ev),
                       done + if ev.Answer? && ev.complete && ev.request in out then {ev.request} else {})
  }

  ghost predicate OutAt(t: Tracker, k: Key, out: set<Name>, done: set<Name>) {
    k in t.entries ==>
      && (t.entries[k].state == Sent ==> t.entries[k].request in out)
      && (t.entries[k].complete ==> t.entries[k].request in done)
  }

  lemma TakeKeepsOut(t: Tracker, ev: Event, k: Key, out: set<Name>, done: set<Name>)
    requires May(t, ev) && EntrySound(t, k) && OutAt(t, k, out, done)
    ensures OutAt(Take(t, ev), k, out + GoesOut(t, ev), done + if ev.Answer? && ev.complete && ev.request in out
        then {ev.request} else {})
  {
    if ev.Stepping? { SteppingKeepsOut(t, ev, k, out, done); }
    else { TakeMoves(t, ev, k); }
  }

  lemma SteppingKeepsOut(t: Tracker, ev: Event, k: Key, out: set<Name>, done: set<Name>)
    requires May(t, ev) && EntrySound(t, k) && OutAt(t, k, out, done) && ev.Stepping?
    ensures OutAt(Take(t, ev), k, out + GoesOut(t, ev), done)
  {
    TakeMoves(t, ev, k);
    if ev.picked.Some? { PickedWasDue(t, ev); }
  }

  lemma {:induction false} CompleteWasAnswered(t: Tracker, run: seq<Event>, out: set<Name>, done: set<Name>)
    requires Runs(t, run) && Sound(t) && forall k :: OutAt(t, k, out, done)
    ensures forall k :: OutAt(TakeAll(t, run), k, Out(t, run, out), AnsweredAfterOut(t, run, out, done))
    decreases |run|
  {
    if run != [] {
      var ev := run[0];
      forall k ensures EntrySound(Take(t, ev), k) { TakeIsSoundAt(t, ev, k); }
      var out1, done1 := out + GoesOut(t, ev), done + if ev.Answer? && ev.complete && ev.request in out
          then {ev.request} else {};
      forall k ensures OutAt(Take(t, ev), k, out1, done1) { TakeKeepsOut(t, ev, k, out, done); }
      CompleteWasAnswered(Take(t, ev), run[1..], out1, done1);
    }
  }

  /** In every run from a new tracker: an entry that is complete is idle, and the peer
      answered complete, naming the entry's last request after that went out. */
  lemma CompleteMeansAnswered(run: seq<Event>, k: Key)
    requires Runs(Tracker(map[], 0), run)
    requires k in TakeAll(Tracker(map[], 0), run).entries
    ensures var e := TakeAll(Tracker(map[], 0), run).entries[k];
      && (e.complete <==> e.state == Idle)
      && (e.complete ==> e.request in AnsweredAfterOut(Tracker(map[], 0), run, {}, {}))
  {
    var t := Tracker(map[], 0);
    EveryRunIsSound(t, run);
    CompleteWasAnswered(t, run, {}, {});
    assert EntrySound(TakeAll(t, run), k)
        && OutAt(TakeAll(t, run), k, Out(t, run, {}), AnsweredAfterOut(t, run, {}, {}));
  }

  // ---- The answer time --------------------------------------------------------------------

  /** The step fails the entry for its peer's silence. */
  predicate FailsForSilence(t: Tracker, ev: Event, k: Key) {
    ev.Stepping? && ev.peer == k.peer && k in t.entries && Silent(t.entries[k], k.zone, ev.look)
  }

  /** Of what is sent, a step of a peer's sender fails just what it fails for silence. */
  lemma SteppingFailsOnlySilence(t: Tracker, ev: Event, k: Key)
    requires May(t, ev) && EntrySound(t, k) && ev.Stepping? && k in t.entries && t.entries[k].state == Sent
    ensures FailsForSilence(t, ev, k) <==> !Outgoing(Take(t, ev), k, t.entries[k].request)
    ensures FailsForSilence(t, ev, k) ==> EntryOf(Take(t, ev), k) == Some(Failed(t.entries[k], ev.look.now))
  {
  }

  /** While a request is out, its deadline is never set back. */
  lemma DeadlinesOnlyGrow(t: Tracker, ev: Event, k: Key, name: Name)
    requires May(t, ev) && EntrySound(t, k) && Outgoing(t, k, name) && Outgoing(Take(t, ev), k, name)
    ensures t.entries[k].deadline <= Take(t, ev).entries[k].deadline
  {
  }

  lemma {:induction false} DeadlinesHold(t: Tracker, run: seq<Event>, k: Key, name: Name)
    requires Runs(t, run) && Sound(t) && Outgoing(t, k, name) && Outgoing(TakeAll(t, run), k, name)
    ensures t.entries[k].deadline <= TakeAll(t, run).entries[k].deadline
    decreases |run|
  {
    if run != [] {
      var t1 := Take(t, run[0]);
      forall j ensures EntrySound(t1, j) { TakeIsSoundAt(t, run[0], j); }
      if !Outgoing(t1, k, name) {
        LeavingSentIsDeath(t, run[0], k);
        DeadForGood(t1, run[1..], k, name);
        assert false;
      }
      DeadlinesOnlyGrow(t, run[0], k, name);
      DeadlinesHold(t1, run[1..], k, name);
    }
  }

  /** When the wait of a request that is out is extended: at its acknowledgement by 30
      seconds, and when the zone's active serial becomes known or changes, once it is
      acknowledged or its answer is kept, by the answer time. */
  function ExtendedTo(t: Tracker, ev: Event, k: Key): Time
    requires k in t.entries
  {
    if ev.SendEnding? && ev.key == k && ev.request == t.entries[k].request && ev.ok then ev.now + ANSWER_WAIT
    else if ev.Activation? && ev.zone == k.zone && (t.entries[k].acked || t.entries[k].arrived)
        then ev.now + AnswerTime(ev.beat)
    else 0
  }

  lemma ExtendingSetsTheDeadline(t: Tracker, ev: Event, k: Key)
    requires ev.SendEnding? || ev.Activation?
    requires May(t, ev) && k in t.entries && t.entries[k].state == Sent && k in Take(t, ev).entries
    ensures ExtendedTo(t, ev, k) <= Take(t, ev).entries[k].deadline
  {
  }

  /** A request fails for silence only when every extension its wait was given since it
      went out is over, its answer is not kept and the zone's active serial is known;
      in whatever order acknowledgement, kept answer and activation come. */
  lemma TheAnswerTimeIsHonoured(t: Tracker, first: Event, run: seq<Event>, last: Event, k: Key, name: Name)
    requires Sound(t) && Outgoing(t, k, name) && May(t, first) && (first.SendEnding? || first.Activation?)
    requires Runs(Take(t, first), run) && May(TakeAll(Take(t, first), run), last)
    requires Outgoing(TakeAll(Take(t, first), run), k, name) && FailsForSilence(TakeAll(Take(t, first), run), last, k)
    ensures ExtendedTo(t, first, k) <= last.look.now
    ensures k.zone !in last.look.unknown && !TakeAll(Take(t, first), run).entries[k].arrived
  {
    var t1 := Take(t, first);
    forall j ensures EntrySound(t1, j) { TakeIsSoundAt(t, first, j); }
    if !Outgoing(t1, k, name) {
      LeavingSentIsDeath(t, first, k);
      DeadForGood(t1, run, k, name);
      assert false;
    }
    ExtendingSetsTheDeadline(t, first, k);
    DeadlinesHold(t1, run, k, name);
  }

  // ---- Eight to a peer at once ---------------------------------------------------------------

  lemma NotInFlightBefore(t: Tracker, ev: Event, peer: Peer, z: Zone)
    requires May(t, ev) && !ev.Activation?
    requires z in InFlightTo(Take(t, ev), peer)
    ensures z in InFlightTo(t, peer) || (ev.Stepping? && ev.peer == peer && ev.picked == Some(z))
  {
  }

  /** No step takes the requests waiting at a peer above eight, but for the one that
      makes a kept answer's request wait again. */
  lemma NeverMoreThanEight(t: Tracker, ev: Event, peer: Peer)
    requires May(t, ev) && !ev.Activation?
    ensures |InFlightTo(Take(t, ev), peer)| <= if |InFlightTo(t, peer)| <= 8 then 8
        else |InFlightTo(t, peer)|
  {
    if ev.Stepping? && ev.peer == peer && ev.picked.Some? {
      OneMoreIsOut(t, peer, ev.look, ev.picked.value);
      SubsetHasNoMore(InFlightTo(Take(t, ev), peer), InFlightTo(Pass(t, peer, ev.look), peer) + {ev.picked.value});
    } else {
      forall z | z in InFlightTo(Take(t, ev), peer)
        ensures z in InFlightTo(t, peer)
      {
        NotInFlightBefore(t, ev, peer, z);
      }
      SubsetHasNoMore(InFlightTo(Take(t, ev), peer), InFlightTo(t, peer));
    }
  }

  lemma OneMoreIsOut(t: Tracker, peer: Peer, look: Look, z: Zone)
    requires MayPick(Pass(t, peer, look), peer, Some(z))
    ensures InFlightTo(Take(t, Stepping(peer, look, Some(z))), peer) <= InFlightTo(Pass(t, peer, look), peer) + {z}
  {
  }

  function KeptBy(t: Tracker, peer: Peer, zone: Zone): set<Zone> {
    set k | k in t.entries && k == Key(zone, peer) && t.entries[k].state == Sent && t.entries[k].arrived :: k.zone
  }

  /** That one adds exactly the kept answer of its zone. */
  lemma AnActivationAddsTheKept(t: Tracker, peer: Peer, zone: Zone, beat: Time, now: Time)
    ensures InFlightTo(ActiveChanged(t, zone, beat, now), peer) == InFlightTo(t, peer) + KeptBy(t, peer, zone)
    ensures InFlightTo(t, peer) !! KeptBy(t, peer, zone)
  {
  }

  lemma {:induction false} EightAtOnce(t: Tracker, run: seq<Event>, peer: Peer)
    requires Runs(t, run) && |InFlightTo(t, peer)| <= 8
    requires forall i :: 0 <= i < |run| ==> !run[i].Activation?
    ensures |InFlightTo(TakeAll(t, run), peer)| <= 8
    decreases |run|
  {
    if run != [] {
      NeverMoreThanEight(t, run[0], peer);
      EightAtOnce(Take(t, run[0]), run[1..], peer);
    }
  }

  /** So it keeps them at eight exactly when there is room for the kept one. */
  lemma AnActivationKeepsEightWhenThereIsRoom(t: Tracker, peer: Peer, zone: Zone, beat: Time, now: Time)
    ensures |InFlightTo(ActiveChanged(t, zone, beat, now), peer)| <= 8 <==>
      |InFlightTo(t, peer)| + |KeptBy(t, peer, zone)| <= 8
  {
    AnActivationAddsTheKept(t, peer, zone, beat, now);
    assert |InFlightTo(t, peer) + KeptBy(t, peer, zone)| == |InFlightTo(t, peer)| + |KeptBy(t, peer, zone)|;
  }

  // ---- Nine at once -----------------------------------------------------------------------

  const NEW := Tracker(map[], 0)

  lemma {:induction false} RunsOn(t: Tracker, run: seq<Event>, more: seq<Event>)
    requires Runs(t, run) && Runs(TakeAll(t, run), more)
    ensures Runs(t, run + more) && TakeAll(t, run + more) == TakeAll(TakeAll(t, run), more)
    decreases |run|
  {
    if run == [] { assert run + more == more; }
    else {
      RunsOn(Take(t, run[0]), run[1..], more);
      assert (run + more)[1..] == run[1..] + more;
    }
  }

  /** All requests are to one peer and out; of those kept the answer has come. */
  ghost predicate AllOut(t: Tracker, peer: Peer, out: set<Zone>, kept: set<Zone>) {
    && out !! kept
    && (forall k :: k in t.entries <==> k.peer == peer && k.zone in out + kept)
    && (forall k :: k in t.entries ==>
        t.entries[k].state == Sent && !t.entries[k].acked && (t.entries[k].arrived <==> k.zone in kept))
  }

  lemma OutAreInFlight(t: Tracker, peer: Peer, out: set<Zone>, kept: set<Zone>)
    requires AllOut(t, peer, out, kept)
    ensures InFlightTo(t, peer) == out && DueTo(t, peer) == {}
    ensures forall z :: KeptBy(t, peer, z) == if z in kept then {z} else {}
  {
    forall z | z in out ensures z in InFlightTo(t, peer) { assert Key(z, peer) in t.entries; }
    forall z | z in kept ensures KeptBy(t, peer, z) == {z} { assert Key(z, peer) in t.entries; }
  }

  const LOOK_ON := Look(1, true, {}, {})

  lemma PassLeavesTheOut(t: Tracker, peer: Peer, out: set<Zone>, kept: set<Zone>, k: Key, e: Entry)
    requires AllOut(t, peer, out, kept) && e.state == Due
    ensures var t1 := Tracker(t.entries[k := e], t.names + 1); Pass(t1, peer, LOOK_ON).entries == t1.entries
  {
  }

  lemma OneGoesOut(t: Tracker, peer: Peer, out: set<Zone>, kept: set<Zone>, k: Key, e: Entry, p: Tracker)
    requires AllOut(t, peer, out, kept) && k.peer == peer && k.zone !in out + kept && |out| < IN_FLIGHT
    requires e.state == Due && !e.acked && !e.arrived && p.entries == t.entries[k := e]
    ensures MayPick(p, peer, Some(k.zone))
  {
    assert InFlightTo(p, peer) == out by {
      forall y ensures y in InFlightTo(p, peer) <==> y in out {
        assert y in InFlightTo(p, peer) <==> Key(y, peer) in p.entries && p.entries[Key(y, peer)].InFlight();
        assert Key(y, peer) in t.entries <==> y in out + kept;
      }
    }
    assert DueTo(p, peer) == {k.zone} by {
      assert k in p.entries && p.entries[k].state == Due;
    }
    if Before(k.zone, k.zone) { BeforeIsAsymmetric(k.zone, k.zone); }
  }

  lemma GoneOut(t: Tracker, peer: Peer, out: set<Zone>, kept: set<Zone>, k: Key, e: Entry, p: Tracker)
    requires AllOut(t, peer, out, kept) && k.peer == peer && k.zone !in out + kept
    requires !e.acked && !e.arrived && p.entries == t.entries[k := e]
    ensures AllOut(Send(p, k, 1), peer, out + {k.zone}, kept)
  {
  }

  /** A request is asked for and goes out, while there is room. */
  lemma OneMoreOut(t: Tracker, peer: Peer, out: set<Zone>, kept: set<Zone>, z: Zone) returns (run: seq<Event>)
    requires AllOut(t, peer, out, kept) && z !in out + kept && |out| < IN_FLIGHT
    ensures Runs(t, run) && AllOut(TakeAll(t, run), peer, out + {z}, kept)
    ensures forall i :: 0 <= i < |run| ==> !run[i].Activation?
  {
    var k := Key(z, peer);
    var e := Entry(Due, Name(t.names, k), Start, "", 0, 0, false, 0, false, false, 0);
    assert k !in t.entries;
    var asking, stepping := Asking(k, Start, "", true, 1), Stepping(peer, LOOK_ON, Some(z));
    var t1 := Tracker(t.entries[k := e], t.names + 1);
    assert Take(t, asking) == t1;
    PassLeavesTheOut(t, peer, out, kept, k, e);
    var p := Pass(t1, peer, LOOK_ON);
    OneGoesOut(t, peer, out, kept, k, e, p);
    GoneOut(t, peer, out, kept, k, e, p);
    run := [asking, stepping];
    TwoEvents(t, asking, stepping, t1, Send(p, k, 1));
  }

  lemma TwoEvents(t: Tracker, a: Event, b: Event, t1: Tracker, t2: Tracker)
    requires May(t, a) && Take(t, a) == t1 && May(t1, b) && Take(t1, b) == t2
    ensures Runs(t, [a, b]) && TakeAll(t, [a, b]) == t2
  {
    assert [a, b][1..] == [b] && [b][1..] == [];
    assert Runs(t1, [b]) && TakeAll(t1, [b]) == t2;
  }

  lemma OneEvent(t: Tracker, a: Event)
    requires May(t, a)
    ensures Runs(t, [a]) && TakeAll(t, [a]) == Take(t, a)
  {
    assert [a][1..] == [];
  }

  lemma SomeMoreOut(peer: Peer, run: seq<Event>, out: set<Zone>, z: Zone) returns (longer: seq<Event>)
    requires Runs(NEW, run) && AllOut(TakeAll(NEW, run), peer, out, {}) && z !in out && |out| < IN_FLIGHT
    requires forall i :: 0 <= i < |run| ==> !run[i].Activation?
    ensures Runs(NEW, longer) && AllOut(TakeAll(NEW, longer), peer, out + {z}, {})
    ensures forall i :: 0 <= i < |longer| ==> !longer[i].Activation?
  {
    var more := OneMoreOut(TakeAll(NEW, run), peer, out, {}, z);
    RunsOn(NEW, run, more);
    longer := run + more;
  }

  lemma {:induction false} SomeOut(peer: Peer, zones: seq<Zone>) returns (run: seq<Event>)
    requires Distinct(zones) && |zones| <= IN_FLIGHT
    ensures Runs(NEW, run) && AllOut(TakeAll(NEW, run), peer, Elements(zones), {})
    ensures forall i :: 0 <= i < |run| ==> !run[i].Activation?
  {
    if zones == [] { run := []; }
    else {
      var init, z := zones[..|zones| - 1], zones[|zones| - 1];
      run := SomeOut(peer, init);
      assert zones == init + [z] && Elements(zones) == Elements(init) + {z};
      ElementsNoMore(init);
      run := SomeMoreOut(peer, run, Elements(init), z);
    }
  }

  /** Eight requests are out; the answer to one is kept, so a ninth goes out; and the
      active serial of the kept one's zone becomes known. For any nine zones, nine wait
      at the peer. */
  lemma NineAtOnce(peer: Peer, zones: seq<Zone>, beat: Time, now: Time) returns (run: seq<Event>)
    requires Distinct(zones) && |zones| == 9
    ensures Runs(NEW, run) && |InFlightTo(TakeAll(NEW, run), peer)| == 9
  {
    var first, ninth := zones[..IN_FLIGHT], zones[IN_FLIGHT];
    run := SomeOut(peer, first);
    AsManyAsThereAre(first);
    assert zones[0] == first[0] && zones[0] in Elements(first);
    var t, out := TakeAll(NEW, run), Elements(first) - {zones[0]};
    var more := OneKeptAndNineOut(t, peer, Elements(first), zones[0], ninth, beat, now);
    RunsOn(NEW, run, more);
    run := run + more;
  }

  lemma OneIsKept(t: Tracker, peer: Peer, out: set<Zone>, z: Zone)
    requires AllOut(t, peer, out, {}) && z in out
    ensures Key(z, peer) in t.entries
    ensures AllOut(Arrived(t, Key(z, peer), t.entries[Key(z, peer)].request), peer, out - {z}, {z})
  {
  }

  lemma OneKeptAndNineOut(t: Tracker, peer: Peer, out: set<Zone>, z: Zone, ninth: Zone, beat: Time, now: Time)
    returns (run: seq<Event>)
    requires AllOut(t, peer, out, {}) && |out| == IN_FLIGHT && z in out && ninth !in out
    ensures Runs(t, run) && |InFlightTo(TakeAll(t, run), peer)| == IN_FLIGHT + 1
  {
    OneIsKept(t, peer, out, z);
    var keeping := Kept(Key(z, peer), t.entries[Key(z, peer)].request);
    var t1 := Take(t, keeping);
    var more := OneMoreOut(t1, peer, out - {z}, {z}, ninth);
    OneEvent(t, keeping);
    RunsOn(t, [keeping], more);
    run := AndActivated(t, peer, [keeping] + more, out - {z} + {ninth}, z, beat, now);
  }

  lemma AndActivated(t: Tracker, peer: Peer, run: seq<Event>, out: set<Zone>, z: Zone, beat: Time, now: Time)
    returns (longer: seq<Event>)
    requires Runs(t, run) && AllOut(TakeAll(t, run), peer, out, {z})
    ensures Runs(t, longer) && |InFlightTo(TakeAll(t, longer), peer)| == |out| + 1
  {
    var t1, activation := TakeAll(t, run), Activation(z, beat, now);
    OneTooMany(t1, peer, out, z, beat, now);
    OneEvent(t1, activation);
    RunsOn(t, run, [activation]);
    longer := run + [activation];
  }

  lemma OneTooMany(t: Tracker, peer: Peer, out: set<Zone>, z: Zone, beat: Time, now: Time)
    requires AllOut(t, peer, out, {z})
    ensures |InFlightTo(ActiveChanged(t, z, beat, now), peer)| == |out| + 1
  {
    OutAreInFlight(t, peer, out, {z});
    AnActivationAddsTheKept(t, peer, z, beat, now);
    assert |out + {z}| == |out| + 1;
  }
}
