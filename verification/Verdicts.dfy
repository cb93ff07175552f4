/** The cache of verdicts: what passed, and when, pruned as it is used. */
module Verdicts {
  type Key = string
  type Time = nat

  /** When each key was last noted; nothing is ever forgotten. */
  type Log = map<Key, Time>

  predicate HeldBy(log: Log, key: Key, now: Time, hold: nat) { key in log && now < log[key] + hold }

  /** What is left of the notes at `now`. */
  function Pruned(at: Log, now: Time, hold: nat): Log { map k | k in at && now < at[k] + hold :: at[k] }

  function Noted(at: Log, key: Key, now: Time, hold: nat): Log { Pruned(at, now, hold)[key := now] }

  class VerdictCache {
    const hold: nat
    var at: Log

    constructor (hold: nat)
      ensures this.hold == hold && at == map[]
    {
      this.hold, at := hold, map[];
    }

    method HoldsKey(key: Key, now: Time) returns (held: bool)
      ensures held <==> HeldBy(at, key, now, hold)
    {
      held := key in at && now < at[key] + hold;
    }

    /** takeKey: the check and the note in one. */
    method TakeKey(key: Key, now: Time) returns (took: bool)
      modifies this`at
      ensures took <==> !HeldBy(old(at), key, now, hold)
      ensures at == if took then Noted(old(at), key, now, hold) else old(at)
    {
      if key in at && now < at[key] + hold { return false; }
      PassLocked(key, now);
      return true;
    }

    /** passLocked: what is too old to hold is forgotten, and the key noted. */
    method PassLocked(key: Key, now: Time)
      modifies this`at
      ensures at == Noted(old(at), key, now, hold)
    {
      var todo := at.Keys;
      while todo != {}
        invariant todo <= old(at).Keys
        invariant at == map k | k in old(at) && (k in todo || now < old(at)[k] + hold) :: old(at)[k]
      {
        var k :| k in todo;
        if now >= at[k] + hold { at := at - {k}; }
        todo := todo - {k};
      }
      at := at[key := now];
    }
  }

  // ---- Runs -----------------------------------------------------------------------------

  datatype Call = Holds(key: Key, now: Time) | Take(key: Key, now: Time) | Pass(key: Key, now: Time)

  predicate Answer(at: Log, c: Call, hold: nat) { HeldBy(at, c.key, c.now, hold) }

  function Kept(at: Log, c: Call, hold: nat): Log {
    if c.Pass? || (c.Take? && !Answer(at, c, hold)) then Noted(at, c.key, c.now, hold) else at
  }

  function Logged(log: Log, c: Call, hold: nat): Log {
    if c.Pass? || (c.Take? && !Answer(log, c, hold)) then log[c.key := c.now] else log
  }

  function KeptAll(calls: seq<Call>, hold: nat): Log {
    if calls == [] then map[] else Kept(KeptAll(calls[..|calls| - 1], hold), calls[|calls| - 1], hold)
  }

  function LoggedAll(calls: seq<Call>, hold: nat): Log {
    if calls == [] then map[] else Logged(LoggedAll(calls[..|calls| - 1], hold), calls[|calls| - 1], hold)
  }

  /** The clock readings never go back in the order the lock is taken. */
  predicate Ordered(calls: seq<Call>) { forall i, j :: 0 <= i <= j < |calls| ==> calls[i].now <= calls[j].now }

  /** What is kept is of the log, and what is not kept is too old by `latest`. */
  predicate Sound(at: Log, log: Log, latest: Time, hold: nat) {
    && (forall k :: k in at ==> k in log && at[k] == log[k])
    && (forall k :: k in log && k !in at ==> log[k] + hold <= latest)
  }

  lemma {:induction false} KeptIsSound(calls: seq<Call>, hold: nat)
    requires Ordered(calls)
    ensures Sound(KeptAll(calls, hold), LoggedAll(calls, hold), if calls == [] then 0 else calls[|calls| - 1].now, hold)
    decreases |calls|
  {
    if calls != [] {
      var init := calls[..|calls| - 1];
      KeptIsSound(init, hold);
      assert init != [] ==> init[|init| - 1] == calls[|calls| - 2] && calls[|calls| - 2].now <= calls[|calls| - 1].now;
    }
  }

  /** With such a clock every call answers as the full log would, whatever has been
      forgotten. */
  lemma AnswersAsTheLog(calls: seq<Call>, c: Call, hold: nat)
    requires Ordered(calls + [c])
    ensures Answer(KeptAll(calls, hold), c, hold) <==> Answer(LoggedAll(calls, hold), c, hold)
  {
    assert forall i :: 0 <= i < |calls| ==> calls[i] == (calls + [c])[i];
    assert (calls + [c])[|calls|] == c;
    KeptIsSound(calls, hold);
  }

  predicate Wins(calls: seq<Call>, i: nat, hold: nat)
    requires i < |calls|
  {
    calls[i].Take? && !Answer(KeptAll(calls[..i], hold), calls[i], hold)
  }

  // ---- Readings in any order ---------------------------------------------------------------

  /** The call notes its key. */
  predicate Notes(calls: seq<Call>, i: nat, hold: nat)
    requires i < |calls|
  {
    calls[i].Pass? || Wins(calls, i, hold)
  }

  /** Call i is the last before n to note its key. */
  predicate LastNote(calls: seq<Call>, i: nat, n: nat, hold: nat)
    requires i < n <= |calls|
  {
    Notes(calls, i, hold) && forall m :: i < m < n && calls[m].key == calls[i].key ==> !Notes(calls, m, hold)
  }

  /** A call between the two notes some key, and reads the clock when i's note is too old
      to hold. */
  predicate ForgottenBetween(calls: seq<Call>, i: nat, n: nat, hold: nat)
    requires i < n <= |calls|
  {
    exists m :: i < m < n && Notes(calls, m, hold) && calls[m].now >= calls[i].now + hold
  }

  lemma {:induction false} KeptUntilForgotten(calls: seq<Call>, i: nat, n: nat, hold: nat)
    requires i < n <= |calls| && LastNote(calls, i, n, hold)
    ensures var at := KeptAll(calls[..n], hold);
      if ForgottenBetween(calls, i, n, hold) then calls[i].key !in at
          else calls[i].key in at && at[calls[i].key] == calls[i].now
    decreases n
  {
    assert calls[..n][..n - 1] == calls[..n - 1] && calls[..n][n - 1] == calls[n - 1];
    if n - 1 > i {
      KeptUntilForgotten(calls, i, n - 1, hold);
      assert ForgottenBetween(calls, i, n, hold) <==>
        ForgottenBetween(calls, i, n - 1, hold)
            || (Notes(calls, n - 1, hold) && calls[n - 1].now >= calls[i].now + hold);
    }
  }

  /** Whatever the readings: after the last note of its key a call finds the key held
      exactly when the note would hold by its reading and no call between the two, of any
      key, has made the cache forget it. So a taker wins within the hold exactly when a
      note between the two was made by a reading past the hold. */
  lemma HeldUntilForgotten(calls: seq<Call>, i: nat, j: nat, hold: nat)
    requires i < j < |calls| && calls[j].key == calls[i].key && LastNote(calls, i, j, hold)
    ensures Answer(KeptAll(calls[..j], hold), calls[j], hold) <==>
      calls[j].now < calls[i].now + hold && !ForgottenBetween(calls, i, j, hold)
    ensures calls[j].Take? && calls[j].now < calls[i].now + hold ==>
        (Wins(calls, j, hold) <==> ForgottenBetween(calls, i, j, hold))
  {
    KeptUntilForgotten(calls, i, j, hold);
  }

  lemma {:induction false} TheLastNote(calls: seq<Call>, i: nat, j: nat, hold: nat) returns (l: nat)
    requires i < j <= |calls| && Notes(calls, i, hold)
    ensures i <= l < j && calls[l].key == calls[i].key && LastNote(calls, l, j, hold)
    decreases j - i
  {
    if m :| i < m < j && calls[m].key == calls[i].key && Notes(calls, m, hold) { l := TheLastNote(calls, m, j, hold); }
    else { l := i; }
  }

  /** With readings that never go back, of the callers for one key two that win are at
      least `hold` apart. */
  lemma TwoWinsAreApart(calls: seq<Call>, i: nat, j: nat, hold: nat)
    requires Ordered(calls) && i < j < |calls| && calls[i].key == calls[j].key
    requires Wins(calls, i, hold) && Wins(calls, j, hold)
    ensures calls[j].now >= calls[i].now + hold
  {
    var l := TheLastNote(calls, i, j, hold);
    HeldUntilForgotten(calls, l, j, hold);
  }

  /** The clock is read before the lock is taken. A reading that comes late to the lock
      wins a key a second time within the hold: for any two keys and any hold. */
  lemma ALateReadingWinsAgain(key: Key, other: Key, t: Time, hold: nat)
    requires hold > 0 && key != other
    ensures var calls := [Take(key, t), Pass(other, t + hold), Take(key, t)];
      Wins(calls, 0, hold) && Wins(calls, 2, hold)
  {
    var calls := [Take(key, t), Pass(other, t + hold), Take(key, t)];
    assert Notes(calls, 1, hold);
    HeldUntilForgotten(calls, 0, 2, hold);
  }
}
