/** The life of one entry of the catch-up, said by its fields: what each thing that
    may happen makes of it, that a request that failed is asked again until its
    answer is complete, and when an entry may go. */
module CatchUpEntries {
  import opened Collections
  import opened Names
  import opened Wrappers
  import opened CatchUp

  const MINUTE: Time := 60_000_000_000

  // ---- What a step of a peer's sender makes of an entry ---------------------------

  /** A retry whose time has come is dropped exactly when its zone applies no more;
      it is paused, under its name, when the peer is not operational; and else it is
      due, or out, under a new name. Before its time nothing happens to it. */
  lemma WhatAStepDoesToARetry(t: Tracker, peer: Peer, look: Look, picked: Option<Zone>, k: Key)
    requires May(t, Stepping(peer, look, picked)) && k in t.entries && k.peer == peer && t.entries[k].state == Retry
    ensures var (t', e) := (Take(t, Stepping(peer, look, picked)), t.entries[k]);
      && (look.now < e.deadline ==> EntryOf(t', k) == Some(e))
      && (look.now >= e.deadline && k.zone !in look.apply ==> k !in t'.entries)
      && (look.now >= e.deadline && k.zone in look.apply && !look.operational ==>
            EntryOf(t', k) == Some(e.(state := Paused)))
      && (look.now >= e.deadline && k.zone in look.apply && look.operational ==>
            && k in t'.entries && t'.entries[k].request == Name(t.names, k)
            && t'.entries[k].state == (if picked == Some(k.zone) then Sent else Due)
            && (t'.entries[k].reason, t'.entries[k].startRequest, t'.entries[k].attempt)
                 == (e.reason, e.startRequest, e.attempt))
  {
    TakeMoves(t, Stepping(peer, look, picked), k);
    if picked.Some? { PickedWasDue(t, Stepping(peer, look, picked)); }
  }

  /** What is out fails once its time is over: acknowledged, its answer not kept, and
      the zone's serial known; else nothing happens to it. */
  lemma WhatAStepDoesToWhatIsOut(t: Tracker, peer: Peer, look: Look, picked: Option<Zone>, k: Key)
    requires May(t, Stepping(peer, look, picked)) && k in t.entries && k.peer == peer && t.entries[k].state == Sent
    ensures var (t', e) := (Take(t, Stepping(peer, look, picked)), t.entries[k]);
      var over := e.acked && !e.arrived && k.zone !in look.unknown && look.now >= e.deadline;
      && k in t'.entries && t'.entries[k].request == e.request
      && (!over ==> t'.entries[k] == e)
      && (over ==>
            && t'.entries[k].deadline > look.now
            && t'.entries[k] == e.(state := Retry, attempt := e.attempt + 1, deadline := t'.entries[k].deadline,
                 acked := false, arrived := false))
  {
    TakeMoves(t, Stepping(peer, look, picked), k);
    if picked.Some? { PickedWasDue(t, Stepping(peer, look, picked)); }
  }

  /** What is due goes out, when it is picked, at the time of the step; to a peer that
      is not operational nothing does, and what was due waits to be. Nothing happens
      to the rest, nor to any other peer's. */
  lemma WhatAStepDoesToTheRest(t: Tracker, peer: Peer, look: Look, picked: Option<Zone>, k: Key)
    requires May(t, Stepping(peer, look, picked)) && k in t.entries
    ensures var (t', e) := (Take(t, Stepping(peer, look, picked)), t.entries[k]);
      && (!look.operational ==> picked.None?)
      && (k.peer == peer && e.state == Due && !look.operational ==> EntryOf(t', k) == Some(e.(state := Noted)))
      && (k.peer == peer && e.state == Due && look.operational && picked != Some(k.zone) ==>
            EntryOf(t', k) == Some(e))
      && (k.peer == peer && e.state == Due && picked == Some(k.zone) ==>
            EntryOf(t', k) == Some(e.(state := Sent, asked := look.now, acked := false, deadline := 0)))
      && (k.peer != peer || e.state in {Idle, Noted, Paused} ==> EntryOf(t', k) == Some(e))
  {
    TakeMoves(t, Stepping(peer, look, picked), k);
    if picked.Some? { PickedWasDue(t, Stepping(peer, look, picked)); }
  }

  /** Of what is due the first zone's goes out, byte by byte, while fewer than eight wait;
      when nothing does, nothing is due or eight wait. */
  lemma WhatGoesOut(t: Tracker, peer: Peer, look: Look, picked: Option<Zone>)
    requires May(t, Stepping(peer, look, picked))
    ensures var t' := Take(t, Stepping(peer, look, picked));
      && (picked.Some? ==>
            && Outgoing(t', Key(picked.value, peer), t'.entries[Key(picked.value, peer)].request)
            && |InFlightTo(t', peer)| <= 8
            && forall y :: y in DueTo(t', peer) ==> y != picked.value && !FirstByTheBytes(y, picked.value))
      && (picked.None? ==> |InFlightTo(t', peer)| >= 8 || DueTo(t', peer) == {})
  {
    var ev := Stepping(peer, look, picked);
    if picked.Some? {
      var z := picked.value;
      var t1, t' := Pass(t, peer, look), Take(t, ev);
      PickedWasDue(t, ev);
      OneMoreIsOut(t, peer, look, z);
      SubsetHasNoMore(InFlightTo(t', peer), InFlightTo(t1, peer) + {z});
      forall y | y in DueTo(t', peer) ensures y != z && !FirstByTheBytes(y, z) {
        assert t'.entries[Key(z, peer)].state == Sent;
        assert y in DueTo(t1, peer);
        BeforeByTheBytes(y, z);
      }
    }
  }

  ghost predicate FirstByTheBytes(y: Zone, z: Zone) {
    y < z || exists i: nat :: SmallerAt(y, z, i)
  }

  // ---- What the others make of it ---------------------------------------------------

  /** A failure: it is asked again after 5, 15, 30 and 60 seconds, then every five
      minutes, for the same reason. */
  lemma WhatAFailureDoes(e: Entry, now: Time)
    ensures var wait: Time :=
        if e.attempt == 0 then 5_000_000_000
        else if e.attempt == 1 then 15_000_000_000
        else if e.attempt == 2 then 30_000_000_000
        else if e.attempt == 3 then MINUTE
        else 5 * MINUTE;
      Failed(e, now) == e.(state := Retry, attempt := e.attempt + 1, deadline := now + wait, acked := false,
          arrived := false)
  {
  }

  /** Asking: a request outstanding stands, but for a peer's start, which has it made
      anew unless it was made for a start and has not gone out, or for this same one;
      an answer complete within the last minute stands, but for a start or an
      operator's wish; all else makes a request anew, due at once where the peer is
      operational. */
  lemma WhatAskingDoes(t: Tracker, k: Key, reason: Reason, startRequest: string, operational: bool, now: Time)
    ensures var (e, (t', did)) := (At(t, k), Ask(t, k, reason, startRequest, operational, now));
      && (reason != PeerStart ==> (did.OutstandingAsk? <==> e.state != Idle))
      && (reason == PeerStart && e.reason != PeerStart ==> !did.OutstandingAsk?)
      && (reason == PeerStart && e.reason == PeerStart ==>
            (did.OutstandingAsk? <==>
               e.state in {Noted, Due, Retry, Paused}
               || (e.state == Sent && startRequest != "" && startRequest == e.startRequest)))
      && (did.RecentAsk? <==>
            reason !in {Manual, PeerStart} && e.state == Idle && e.complete && now < e.answered + MINUTE)
      && (did.OutstandingAsk? || did.RecentAsk? ==> t' == t)
      && (did.Recorded? || did.NotedAsk? ==>
            && (did.Recorded? <==> operational)
            && t' == Tracker(t.entries[k := Entry(if operational then Due else Noted, Name(t.names, k), reason,
                 startRequest, 0, e.answered, false, 0, false, false, 0)], t.names + 1))
  {
  }

  /** A beat wakes what was noted, under its name, and what was paused, under a new one. */
  lemma WhatABeatDoes(t: Tracker, peer: Peer, k: Key)
    requires k in t.entries && k.peer == peer
    ensures var (t', e) := (PeerOperational(t, peer), t.entries[k]);
      && (e.state == Noted ==> EntryOf(t', k) == Some(e.(state := Due)))
      && (e.state == Paused ==> EntryOf(t', k) == Some(e.(state := Due, request := Name(t.names, k))))
  {
  }

  /** An answer to the request that is out ends it when it is complete, and fails it
      when it is not. */
  lemma WhatAnAnswerDoes(t: Tracker, k: Key, request: Name, complete: bool, now: Time)
    requires k in t.entries
    ensures var (t', e) := (Answered(t, k, request, complete, now), t.entries[k]);
      && (e.state != Sent || e.request != request ==> t' == t)
      && (e.state == Sent && e.request == request && complete ==>
            EntryOf(t', k) == Some(e.(state := Idle, complete := true, attempt := 0, answered := now)))
      && (e.state == Sent && e.request == request && !complete ==>
            && k in t'.entries && t'.entries[k].state == Retry && t'.entries[k].answered == now
            && t'.entries[k].attempt == e.attempt + 1 && t'.entries[k].deadline > now)
  {
  }

  /** Its send's acknowledgement starts the wait for the answer, of 30 seconds at least;
      an error fails it. */
  lemma WhatTheSendsEndDoes(t: Tracker, k: Key, request: Name, ok: bool, now: Time)
    requires k in t.entries && t.entries[k].state == Sent && t.entries[k].request == request
    ensures var (t', e) := (SendEnded(t, k, request, ok, now), t.entries[k]);
      && k in t'.entries
      && (ok ==> t'.entries[k] == e.(acked := true, deadline := t'.entries[k].deadline))
      && (ok ==> t'.entries[k].deadline == if e.deadline > now + MINUTE / 2 then e.deadline else now + MINUTE / 2)
      && (!ok ==> t'.entries[k].state == Retry && t'.entries[k].attempt == e.attempt + 1)
  {
  }

  /** The zone's serial became known: of what is out and acknowledged, or has its answer
      kept, the wait runs again, for 30 seconds or two beats, the longer. */
  lemma WhatAnActivationDoes(t: Tracker, zone: Zone, beat: Time, now: Time, k: Key)
    requires k in t.entries
    ensures var (t', e) := (ActiveChanged(t, zone, beat, now), t.entries[k]);
      var until := now + if 2 * beat >= MINUTE / 2 then 2 * beat else MINUTE / 2;
      && t'.entries.Keys == t.entries.Keys
      && (k.zone == zone && e.state == Sent && (e.acked || e.arrived) ==>
            t'.entries[k] == e.(acked := true, arrived := false,
              deadline := if e.deadline < until then until else e.deadline))
      && (k.zone != zone || e.state != Sent || (!e.acked && !e.arrived) ==> t'.entries[k] == e)
  {
  }

  // ---- When an entry may go -----------------------------------------------------------

  /** Its peer is forgotten; or its peer, or the zone, is pruned; or it is to be asked
      again, its time has come, and its zone applies no more. */
  predicate MayGo(e: Entry, ev: Event, k: Key) {
    || (ev.Forgetting? && ev.peer == k.peer)
    || (ev.Pruning? && ev.zone == k.zone && k.peer !in ev.apply)
    || (ev.Stepping? && ev.peer == k.peer && e.state == Retry && e.deadline <= ev.look.now
          && k.zone !in ev.look.apply)
  }

  lemma GoesExactlyWhenItMay(t: Tracker, ev: Event, k: Key)
    requires May(t, ev)
    ensures k in t.entries ==> (k !in Take(t, ev).entries <==> MayGo(t.entries[k], ev, k))
    ensures k !in t.entries ==> (k in Take(t, ev).entries <==> ev.Asking? && ev.key == k)
    ensures (ev.Forgetting? || ev.Pruning?) && k in Take(t, ev).entries ==> EntryOf(Take(t, ev), k) == EntryOf(t, k)
  {
    TakeMoves(t, ev, k);
    if ev.Stepping? && ev.picked.Some? { PickedWasDue(t, ev); }
  }

  /** Asked for, and not gone since. */
  predicate AskedSinceGone(t: Tracker, run: seq<Event>, k: Key, there: bool)
    requires Runs(t, run)
    decreases |run|
  {
    if run == [] then there
    else
      var ev := run[0];
      AskedSinceGone(Take(t, ev), run[1..], k,
        if there then k in t.entries && !MayGo(t.entries[k], ev, k) else ev.Asking? && ev.key == k)
  }

  /** In every run there is an entry exactly when it was asked for and has not gone
      since: no answer, failure, beat or activation takes one away. */
  lemma {:induction false} ThereUntilItGoes(t: Tracker, run: seq<Event>, k: Key)
    requires Runs(t, run)
    ensures k in TakeAll(t, run).entries <==> AskedSinceGone(t, run, k, k in t.entries)
    decreases |run|
  {
    if run != [] {
      GoesExactlyWhenItMay(t, run[0], k);
      ThereUntilItGoes(Take(t, run[0]), run[1..], k);
    }
  }

  // ---- A failed request is asked again ---------------------------------------------------

  /** Nothing takes it away, asks it anew, or steps its peer after its time. */
  predicate LeavesTheRetry(e: Entry, ev: Event, k: Key) {
    && !MayGo(e, ev, k)
    && !(ev.Asking? && ev.key == k && ev.reason == PeerStart)
    && !(ev.Stepping? && ev.peer == k.peer && ev.look.now >= e.deadline)
  }

  lemma {:induction false} ARetryStands(t: Tracker, run: seq<Event>, k: Key, e: Entry)
    requires Runs(t, run) && EntryOf(t, k) == Some(e) && e.state == Retry
    requires forall i :: 0 <= i < |run| ==> LeavesTheRetry(e, run[i], k)
    ensures EntryOf(TakeAll(t, run), k) == Some(e)
    decreases |run|
  {
    if run != [] {
      OneEventLeavesTheRetry(t, run[0], k, e);
      ARetryStands(Take(t, run[0]), run[1..], k, e);
    }
  }

  lemma OneEventLeavesTheRetry(t: Tracker, ev: Event, k: Key, e: Entry)
    requires May(t, ev) && EntryOf(t, k) == Some(e) && e.state == Retry && LeavesTheRetry(e, ev, k)
    ensures EntryOf(Take(t, ev), k) == Some(e)
  {
    TakeMoves(t, ev, k);
    match ev
    case Stepping(peer, look, picked) =>
      if peer == k.peer { WhatAStepDoesToARetry(t, peer, look, picked, k); }
    case Asking(key, reason, startRequest, operational, now) =>
      if key == k { WhatAskingDoes(t, k, reason, startRequest, operational, now); }
    case _ =>
  }

  /** Whatever happened in between, the first step of its peer's sender after the delay
      asks a failed request again under a new name, the peer operational and the zone
      one of those that apply; nothing else is made of it, and it is not dropped. */
  lemma AFailedRequestIsAskedAgain(t: Tracker, run: seq<Event>, look: Look, picked: Option<Zone>, k: Key)
    requires Runs(t, run) && k in t.entries && t.entries[k].state == Retry
    requires forall i :: 0 <= i < |run| ==> LeavesTheRetry(t.entries[k], run[i], k)
    requires look.now >= t.entries[k].deadline && look.operational && k.zone in look.apply
    requires May(TakeAll(t, run), Stepping(k.peer, look, picked))
    ensures var (was, t') := (TakeAll(t, run), Take(TakeAll(t, run), Stepping(k.peer, look, picked)));
      && k in t'.entries && t'.entries[k].state in {Due, Sent}
      && t'.entries[k].request == Name(was.names, k)
      && t'.entries[k].reason == t.entries[k].reason
  {
    ARetryStands(t, run, k, t.entries[k]);
    WhatAStepDoesToARetry(TakeAll(t, run), k.peer, look, picked, k);
  }
}
