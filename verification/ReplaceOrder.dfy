/** The newest-wins guard of REPLACE: a remote REPLACE is its sender's whole set as
    of when it was sent, the queues deliver them in any order and more than once,
    and the set kept must be that of the newest. */
module ReplaceOrder {
  import opened Collections
  import opened Wrappers
  import opened Names

  type RR = string        // a record in its canonical form
  type Time = nat         // 0: none given

  /** Where a REPLACE came from: its originating time and distribution id. */
  datatype Origin = Origin(time: Time, distId: string)

  datatype Key = Key(zone: string, agent: string, rrtype: nat)

  predicate Older(a: Origin, b: Origin) {
    a.time < b.time || (a.time == b.time && Before(a.distId, b.distId))
  }

  /** The earlier is older; of one time, the one with the lower distribution id, byte by
      byte. */
  lemma OlderByTimeThenId(a: Origin, b: Origin)
    ensures a.time < b.time ==> Older(a, b)
    ensures a.time > b.time ==> !Older(a, b)
    ensures a.time == b.time ==>
      (Older(a, b) <==> a.distId < b.distId || exists i: nat :: SmallerAt(a.distId, b.distId, i))
  {
    BeforeByTheBytes(a.distId, b.distId);
  }

  lemma OlderIsATotalOrder(a: Origin, b: Origin, c: Origin)
    ensures !Older(a, a)
    ensures a == b || Older(a, b) || Older(b, a)
    ensures Older(a, b) ==> !Older(b, a)
    ensures Older(a, b) && Older(b, c) ==> Older(a, c)
  {
    BeforeIsTotal(a.distId, b.distId);
    if Before(a.distId, b.distId) { BeforeIsAsymmetric(a.distId, b.distId); }
    if Before(a.distId, b.distId) && Before(b.distId, c.distId) { BeforeIsTransitive(a.distId, b.distId, c.distId); }
    if Before(a.distId, a.distId) { BeforeIsAsymmetric(a.distId, a.distId); }
  }

  function Stored(rrset: Option<seq<RR>>): set<RR> {
    if rrset.Some? then Elements(rrset.value) else {}
  }

  // ---- The guard, as the agent keeps it ---------------------------------------------

  function Note(last: map<Key, Origin>, key: Key, o: Origin): (map<Key, Origin>, Option<Origin>) {
    if key in last && Older(o, last[key]) then (last, Some(last[key])) else (last[key := o], None)
  }

  class ReplaceGuard {
    var lastReplace: map<Key, Origin>
    var table: map<Key, Origin>

    /** attachHsyncDB: the rows already there, read one by one. */
    constructor Attach(rows: map<Key, Origin>)
      ensures lastReplace == rows && table == rows
    {
      lastReplace, table := map[], rows;
      new;
      var todo := rows.Keys;
      while todo != {}
        invariant todo <= rows.Keys && table == rows
        invariant lastReplace == map key | key in rows && key !in todo :: rows[key]
      {
        var key :| key in todo;
        todo := todo - {key};
        lastReplace := lastReplace[key := rows[key]];
      }
    }

    /** noteReplaceOrigin: the newest is kept in memory, and in the table when the
        save works; `newer` is the one it is older than. */
    method NoteReplaceOrigin(key: Key, o: Origin, saveWorks: bool) returns (newer: Option<Origin>)
      modifies this
      ensures (lastReplace, newer) == Note(old(lastReplace), key, o)
      ensures table == if newer.None? && saveWorks then old(table)[key := o] else old(table)
    {
      if key in lastReplace {
        var cur := lastReplace[key];
        if cur.time > o.time || (cur.time == o.time && Before(o.distId, cur.distId)) { return Some(cur); }
      }
      lastReplace := lastReplace[key := o];
      if saveWorks { table := table[key := o]; }
      return None;
    }
  }

  /** The combiner's: in memory only. */
  class CombinerGuard {
    var origins: map<Key, Origin>

    constructor ()
      ensures origins == map[]
    {
      origins := map[];
    }

    /** staleCombinerReplace: a request without a time is never stale. */
    method StaleCombinerReplace(key: Key, o: Origin) returns (newer: Option<Origin>)
      modifies this
      ensures (origins, newer) == if o.time == 0 then (old(origins), None) else Note(old(origins), key, o)
    {
      if o.time == 0 { return None; }
      if key in origins {
        var cur := origins[key];
        if cur.time > o.time || (cur.time == o.time && Before(o.distId, cur.distId)) { return Some(cur); }
      }
      origins := origins[key := o];
      return None;
    }
  }

  function For(last: map<Key, Origin>, key: Key): Option<Origin> { if key in last then Some(last[key]) else None }

  // ---- The replacement, at the agent and at the combiner ------------------------------

  /** The agent's test for a change: another length, or a record gone. */
  predicate AgentSeesAChange(held: Option<seq<RR>>, rrs: seq<RR>, rejected: set<RR>) {
    || held.None?
    || |held.value| != |rrs|
    || (exists rr :: rr in held.value && rr !in rrs)
    || (exists rr :: rr in rrs && rr in rejected)
  }

  function AgentReplaces(held: Option<seq<RR>>, rrs: seq<RR>, rejected: set<RR>): Option<seq<RR>> {
    if rrs == [] then (if held.Some? && held.value == [] then held else None)
    else if AgentSeesAChange(held, rrs, rejected) then Some(rrs) else held
  }

  /** processReplaceOp, past the guard: `rejected` are the records this agent's
      combiner has rejected. */
  method ProcessReplace(held: Option<seq<RR>>, rrs: seq<RR>, rejected: set<RR>)
    returns (stored: Option<seq<RR>>, changed: bool)
    ensures stored == AgentReplaces(held, rrs, rejected)
    ensures changed <==> if rrs == [] then held.Some? && held.value != [] else AgentSeesAChange(held, rrs, rejected)
  {
    changed := false;
    if rrs == [] {
      if held.Some? && |held.value| > 0 { return None, true; }
      return held, false;
    }
    if held.Some? {
      if |held.value| != |rrs| {
        changed := true;
      } else {
        var i := 0;
        while i < |held.value| && !changed
          invariant 0 <= i <= |held.value|
          invariant !changed ==> forall k :: 0 <= k < i ==> held.value[k] in rrs
          invariant changed ==> exists rr :: rr in held.value && rr !in rrs
        {
          if held.value[i] !in rrs { changed := true; }
          i := i + 1;
        }
      }
    } else {
      changed := true;
    }
    var j := 0;
    ghost var seen := changed;
    while j < |rrs| && !changed
      invariant 0 <= j <= |rrs|
      invariant seen ==> changed
      invariant changed && !seen ==> exists rr :: rr in rrs && rr in rejected
      invariant !changed ==> forall k :: 0 <= k < j ==> rrs[k] !in rejected
    {
      if rrs[j] in rejected { changed := true; }
      j := j + 1;
    }
    stored := if changed then Some(rrs) else held;
  }

  /** The agent then holds the set sent, but for one case: the set held had a record
      twice, so that it is as long as a set that has more records than it. */
  lemma TheAgentHoldsWhatWasSent(held: Option<seq<RR>>, rrs: seq<RR>, rejected: set<RR>)
    ensures Stored(AgentReplaces(held, rrs, rejected)) == Elements(rrs) <==>
      !(rrs != [] && held.Some? && |held.value| == |rrs| && Elements(held.value) < Elements(rrs)
          && rejected !! Elements(rrs))
  {
    if rrs == [] || held.None? || |held.value| != |rrs| {
      assert Elements<RR>([]) == {};
    } else if !AgentSeesAChange(held, rrs, rejected) {
      assert Elements(held.value) <= Elements(rrs);
      assert rejected !! Elements(rrs);
    } else if rr :| rr in held.value && rr !in rrs {
      assert rr in Elements(held.value) && rr !in Elements(rrs);
    } else {
      var rr :| rr in rrs && rr in rejected;
      assert rr in Elements(rrs) && rr in rejected * Elements(rrs);
    }
  }

  lemma WithoutDuplicatesItHoldsWhatWasSent(held: Option<seq<RR>>, rrs: seq<RR>, rejected: set<RR>)
    requires held.Some? ==> Distinct(held.value)
    ensures Stored(AgentReplaces(held, rrs, rejected)) == Elements(rrs)
  {
    TheAgentHoldsWhatWasSent(held, rrs, rejected);
    if held.Some? && |held.value| == |rrs| && Elements(held.value) < Elements(rrs) {
      AsManyAsThereAre(held.value);
      ElementsNoMore(rrs);
      FewerInAStrictSubset(Elements(held.value), Elements(rrs));
    }
  }

  /** The combiner's test (ReplaceCombinerDataByRRtype): records gone, or new ones. */
  function CombinerReplaces(held: Option<seq<RR>>, rrs: seq<RR>): Option<seq<RR>> {
    if rrs == [] then (if held.Some? && held.value == [] then held else None)
    else if held.None? || (exists rr :: rr in held.value && rr !in rrs)
        || (exists rr :: rr in rrs && rr !in held.value) then Some(rrs)
    else held
  }

  /** The combiner holds the set sent in every case. */
  lemma TheCombinerHoldsWhatWasSent(held: Option<seq<RR>>, rrs: seq<RR>)
    ensures Stored(CombinerReplaces(held, rrs)) == Elements(rrs)
  {
  }

  // ---- Deliveries ------------------------------------------------------------------

  datatype Side = Agent | Combiner

  /** One (zone, agent, type) at one side: the newest origin, in memory and as the
      table has it, and the set stored. The combiner keeps no table. */
  datatype Replica = Replica(last: Option<Origin>, table: Option<Origin>, stored: Option<seq<RR>>)

  /** A restart loses what is in memory. The agent reads its table back, and its set
      of records is what the others' answers give it; the combiner's set is kept. */
  datatype Event =
    | Delivered(origin: Origin, records: seq<RR>, rejected: set<RR>, saveWorks: bool)
    | Restart(hydrated: Option<seq<RR>>)

  function Happens(side: Side, r: Replica, e: Event): Replica {
    match e
    case Restart(hydrated) => if side.Agent? then Replica(r.table, r.table, hydrated) else r.(last := None)
    case Delivered(o, records, rejected, saveWorks) =>
      if o.time == 0 then r.(stored := Replaced(side, r, records, rejected))
      else if r.last.Some? && Older(o, r.last.value) then r
      else Replica(Some(o), if side.Agent? && saveWorks then Some(o) else r.table, Replaced(side, r, records, rejected))
  }

  /** Either guard, looked at one (zone, agent, type) at a time, does this. */
  lemma TheGuardIsPerKey(side: Side, last: map<Key, Origin>, key: Key, other: Key, r: Replica, e: Event)
    requires e.Delivered? && e.origin.time > 0 && r.last == For(last, key)
    ensures var (now, newer) := Note(last, key, e.origin);
      && Happens(side, r, e).last == For(now, key)
      && (newer.Some? ==> Happens(side, r, e) == r && Older(e.origin, newer.value))
      && (newer.None? ==> Happens(side, r, e).stored == Replaced(side, r, e.records, e.rejected))
      && (other != key ==> For(now, other) == For(last, other))
  {
  }

  /** A REPLACE without a time is taken whatever was noted, and is not noted itself. */
  lemma WithoutATimeItIsTaken(side: Side, r: Replica, e: Event)
    requires e.Delivered? && e.origin.time == 0
    ensures var r' := Happens(side, r, e);
      && r'.last == r.last && r'.table == r.table
      && (side.Combiner? ==> Stored(r'.stored) == Elements(e.records))
      && (side.Agent? && (r.stored.Some? ==> Distinct(r.stored.value)) ==> Stored(r'.stored) == Elements(e.records))
  {
    if side.Combiner? { TheCombinerHoldsWhatWasSent(r.stored, e.records); }
    else if r.stored.Some? ==> Distinct(r.stored.value) {
      WithoutDuplicatesItHoldsWhatWasSent(r.stored, e.records, e.rejected);
    }
  }

  function Replaced(side: Side, r: Replica, records: seq<RR>, rejected: set<RR>): Option<seq<RR>> {
    if side.Agent? then AgentReplaces(r.stored, records, rejected) else CombinerReplaces(r.stored, records)
  }

  function AllHappen(side: Side, r: Replica, es: seq<Event>): Replica {
    if es == [] then r else Happens(side, AllHappen(side, r, es[..|es| - 1]), es[|es| - 1])
  }

  /** The messages of a run: each with its time, no record twice in one, one set under
      one origin, and what the agent needs to outlive a restart. */
  predicate Proper(side: Side, es: seq<Event>) {
    && (forall i :: 0 <= i < |es| && es[i].Delivered? ==>
          es[i].origin.time > 0 && Distinct(es[i].records) && (side.Agent? ==> es[i].saveWorks))
    && (forall i :: 0 <= i < |es| && es[i].Restart? && es[i].hydrated.Some? ==> Distinct(es[i].hydrated.value))
    && (forall i, j ::
          0 <= i < |es| && 0 <= j < |es| && es[i].Delivered? && es[j].Delivered? && es[i].origin == es[j].origin ==>
          Elements(es[i].records) == Elements(es[j].records))
  }

  predicate DeliveredIn(es: seq<Event>, o: Origin, records: set<RR>) {
    exists i :: 0 <= i < |es| && es[i].Delivered? && es[i].origin == o && Elements(es[i].records) == records
  }

  /** Nothing delivered is newer than o. */
  predicate NewestIn(es: seq<Event>, o: Origin) {
    forall i :: 0 <= i < |es| && es[i].Delivered? ==> !Older(o, es[i].origin)
  }

  /** The part of a run after its last restart. */
  function Since(es: seq<Event>): seq<Event> {
    if es == [] then [] else if es[|es| - 1].Restart? then [] else Since(es[..|es| - 1]) + [es[|es| - 1]]
  }

  /** What the last restart of a run hydrated. */
  function LastHydrated(es: seq<Event>): Option<seq<RR>> {
    if es == [] then None else if es[|es| - 1].Restart? then es[|es| - 1].hydrated else LastHydrated(es[..|es| - 1])
  }

  /** The part of a run a side's guard remembers: the agent's table outlives a restart. */
  function Remembered(side: Side, es: seq<Event>): seq<Event> {
    if side.Agent? then es else Since(es)
  }

  lemma {:induction false} SinceIsAPart(es: seq<Event>)
    ensures forall e :: e in Since(es) ==> e in es
    decreases |es|
  {
    if es != [] { SinceIsAPart(es[..|es| - 1]); }
  }

  /** The guard holds the newest origin it remembers; the set is that origin's if it
      was delivered since the last restart, and what was hydrated if not. */
  ghost predicate HoldsTheNewest(side: Side, r: Replica, es: seq<Event>) {
    && (r.stored.Some? ==> Distinct(r.stored.value))
    && (side.Agent? ==> r.table == r.last)
    && (r.last.None? ==> forall i :: 0 <= i < |Remembered(side, es)| ==> Remembered(side, es)[i].Restart?)
    && (r.last.Some? ==>
          && NewestIn(Remembered(side, es), r.last.value)
          && (exists records :: DeliveredIn(Remembered(side, es), r.last.value, records))
          && (if exists records :: DeliveredIn(Since(es), r.last.value, records)
              then DeliveredIn(Since(es), r.last.value, Stored(r.stored))
              else r.stored == LastHydrated(es)))
  }

  lemma {:induction false} EveryRunHoldsTheNewest(side: Side, r: Replica, es: seq<Event>)
    requires r.last.None? && r.table.None? && (r.stored.Some? ==> Distinct(r.stored.value))
    requires Proper(side, es)
    ensures HoldsTheNewest(side, AllHappen(side, r, es), es)
    decreases |es|
  {
    if es != [] {
      var init, e := es[..|es| - 1], es[|es| - 1];
      assert es == init + [e];
      EveryRunHoldsTheNewest(side, r, init);
      OneMoreHoldsTheNewest(side, AllHappen(side, r, init), init, e);
    }
  }

  lemma OneMoreHoldsTheNewest(side: Side, r: Replica, es: seq<Event>, e: Event)
    requires HoldsTheNewest(side, r, es) && Proper(side, es + [e])
    ensures HoldsTheNewest(side, Happens(side, r, e), es + [e])
  {
    if e.Restart? { ARestartHoldsTheNewest(side, r, es, e); }
    else { ADeliveryHoldsTheNewest(side, r, es, e); }
  }

  lemma ARestartHoldsTheNewest(side: Side, r: Replica, es: seq<Event>, e: Event)
    requires HoldsTheNewest(side, r, es) && e.Restart? && Proper(side, es + [e])
    ensures HoldsTheNewest(side, Happens(side, r, e), es + [e])
  {
    var all := es + [e];
    assert all[|es|] == e && all[..|es|] == es;
    assert Since(all) == [] && LastHydrated(all) == e.hydrated;
    assert forall i :: 0 <= i < |es| ==> all[i] == es[i];
    if side.Agent? && r.last.None? {
      forall i | 0 <= i < |all| ensures Remembered(side, all)[i].Restart? {
        if i < |es| { assert Remembered(side, es)[i].Restart?; }
      }
    } else if side.Agent? {
      OneMoreInAll(es, r.last.value, e);
      var sent :| DeliveredIn(es, r.last.value, sent);
      assert DeliveredIn(all, r.last.value, sent);
    }
  }

  lemma ADeliveryHoldsTheNewest(side: Side, r: Replica, es: seq<Event>, e: Event)
    requires HoldsTheNewest(side, r, es) && e.Delivered? && Proper(side, es + [e])
    ensures HoldsTheNewest(side, Happens(side, r, e), es + [e])
  {
    var all := es + [e];
    assert all[|es|] == e && all[..|es|] == es;
    var before, r' := Remembered(side, es), Happens(side, r, e);
    assert Since(all) == Since(es) + [e] && Remembered(side, all) == before + [e]
        && LastHydrated(all) == LastHydrated(es);
    TheNewestOfOneMore(before, r.last, e);
    if r.last.Some? && Older(e.origin, r.last.value) { ARefusalHoldsTheNewest(before, Since(es), r.last.value, e); }
    else {
      if side.Agent? { WithoutDuplicatesItHoldsWhatWasSent(r.stored, e.records, e.rejected); }
      else { TheCombinerHoldsWhatWasSent(r.stored, e.records); }
      AnAcceptanceHoldsTheNewest(side, r', es, e);
    }
  }

  lemma AnAcceptanceHoldsTheNewest(side: Side, r: Replica, es: seq<Event>, e: Event)
    requires e.Delivered? && r.last == Some(e.origin) && Stored(r.stored) == Elements(e.records)
    requires (r.stored.Some? ==> Distinct(r.stored.value)) && (side.Agent? ==> r.table == r.last)
    requires NewestIn(Remembered(side, es + [e]), e.origin)
    ensures HoldsTheNewest(side, r, es + [e])
  {
    var all := es + [e];
    assert all[|es|] == e && all[..|es|] == es;
    assert Since(all) == Since(es) + [e];
    assert Since(all)[|Since(es)|] == e;
    assert DeliveredIn(all, e.origin, Elements(e.records)) && DeliveredIn(Since(all), e.origin, Elements(e.records));
  }

  lemma ARefusalHoldsTheNewest(before: seq<Event>, since: seq<Event>, newest: Origin, e: Event)
    requires e.Delivered? && Older(e.origin, newest)
    ensures forall records :: DeliveredIn(before + [e], newest, records) <==> DeliveredIn(before, newest, records)
    ensures forall records :: DeliveredIn(since + [e], newest, records) <==> DeliveredIn(since, newest, records)
  {
    OlderIsATotalOrder(e.origin, newest, e.origin);
    OneMoreInAll(before, newest, e);
    OneMoreInAll(since, newest, e);
  }

  lemma OneMoreInAll(es: seq<Event>, o: Origin, e: Event)
    ensures forall records :: DeliveredIn(es + [e], o, records) <==>
              DeliveredIn(es, o, records) || (e.Delivered? && e.origin == o && Elements(e.records) == records)
  {
    var all := es + [e];
    assert all[|es|] == e && forall i :: 0 <= i < |es| ==> all[i] == es[i];
  }

  lemma TheNewestOfOneMore(es: seq<Event>, last: Option<Origin>, e: Event)
    requires e.Delivered?
    requires if last.None? then forall i :: 0 <= i < |es| ==> es[i].Restart? else NewestIn(es, last.value)
    ensures NewestIn(es + [e], if last.Some? && Older(e.origin, last.value) then last.value else e.origin)
  {
    var all := es + [e];
    forall i | 0 <= i < |all| && all[i].Delivered?
      ensures !Older(if last.Some? && Older(e.origin, last.value) then last.value else e.origin, all[i].origin)
    {
      OlderIsATotalOrder(e.origin, all[i].origin, e.origin);
      if last.Some? {
        OlderIsATotalOrder(e.origin, all[i].origin, last.value);
        OlderIsATotalOrder(last.value, e.origin, all[i].origin);
        OlderIsATotalOrder(e.origin, last.value, e.origin);
      }
    }
  }

  /** In whatever order, how often, and with whatever restarts in between a side is
      delivered REPLACEs: of those its guard remembers, the newest one's set is the
      set stored in the end exactly when it was delivered since the last restart or
      that restart hydrated its set. At the combiner the first always holds. */
  lemma TheNewestWins(side: Side, r: Replica, es: seq<Event>, o: Origin, records: set<RR>)
    requires r.last.None? && r.table.None? && (r.stored.Some? ==> Distinct(r.stored.value))
    requires Proper(side, es)
    requires DeliveredIn(Remembered(side, es), o, records) && NewestIn(Remembered(side, es), o)
    ensures Stored(AllHappen(side, r, es).stored) == records <==>
            DeliveredIn(Since(es), o, records) || Stored(LastHydrated(es)) == records
  {
    EveryRunHoldsTheNewest(side, r, es);
    var r' := AllHappen(side, r, es);
    SinceIsAPart(es);
    var all := Remembered(side, es);
    var i :| 0 <= i < |all| && all[i].Delivered? && all[i].origin == o && Elements(all[i].records) == records;
    var held :| DeliveredIn(all, r'.last.value, held);
    var j :| 0 <= j < |all| && all[j].Delivered? && all[j].origin == r'.last.value && Elements(all[j].records) == held;
    OlderIsATotalOrder(o, all[j].origin, o);
    assert r'.last.value == o;
    forall x | DeliveredIn(Since(es), o, x) ensures x == records {
      var k :| 0 <= k < |Since(es)| && Since(es)[k].Delivered? && Since(es)[k].origin == o
          && Elements(Since(es)[k].records) == x;
      assert Since(es)[k] in es && all[i] in es;
    }
  }

  /** Two replicas, whichever their sides, whose guards remember the same messages:
      if one holds the newest set, they agree exactly when the other does, by what
      it was delivered and hydrated since it last started. */
  lemma ReplicasConverge(a: Side, b: Side, r: Replica, q: Replica, es: seq<Event>, fs: seq<Event>, o: Origin,
      records: set<RR>)
    requires r.last.None? && r.table.None? && (r.stored.Some? ==> Distinct(r.stored.value))
    requires q.last.None? && q.table.None? && (q.stored.Some? ==> Distinct(q.stored.value))
    requires Proper(a, es) && Proper(b, fs)
    requires forall o', sent :: DeliveredIn(Remembered(a, es), o', sent) <==> DeliveredIn(Remembered(b, fs), o', sent)
    requires DeliveredIn(Remembered(a, es), o, records) && NewestIn(Remembered(a, es), o)
    requires DeliveredIn(Since(es), o, records) || Stored(LastHydrated(es)) == records
    ensures Stored(AllHappen(a, r, es).stored) == Stored(AllHappen(b, q, fs).stored) <==>
            DeliveredIn(Since(fs), o, records) || Stored(LastHydrated(fs)) == records
  {
    var there, here := Remembered(b, fs), Remembered(a, es);
    forall i | 0 <= i < |there| && there[i].Delivered? ensures !Older(o, there[i].origin) {
      assert DeliveredIn(there, there[i].origin, Elements(there[i].records));
      assert DeliveredIn(here, there[i].origin, Elements(there[i].records));
    }
    TheNewestWins(a, r, es, o, records);
    TheNewestWins(b, q, fs, o, records);
  }

  // ---- Where it ends -----------------------------------------------------------------

  /** After a restart every REPLACE with a time that is older than the newest is still
      refused exactly when the table has the newest: when its save worked. */
  lemma ARestartStillRefuses(r: Replica, hydrated: Option<seq<RR>>)
    requires r.last.Some? && r.last.value.time > 1
    requires r.table.Some? ==> r.table.value.time > 0 && !Older(r.last.value, r.table.value)
    ensures (forall o: Origin, records, rejected, saves :: o.time > 0 && Older(o, r.last.value) ==>
              Happens(Agent, Happens(Agent, r, Restart(hydrated)), Delivered(o, records, rejected, saves)) ==
                  Happens(Agent, r, Restart(hydrated)))
            <==> r.table == r.last
  {
    var n := r.last.value;
    var restarted := Happens(Agent, r, Restart(hydrated));
    if r.table != r.last {
      var o := if r.table.Some? then r.table.value else Origin(n.time - 1, "");
      OlderIsATotalOrder(o, n, o);
      assert Older(o, n);
      var rr := if restarted.stored.Some? && |restarted.stored.value| == 1 then ["a", "b"] else ["a"];
      assert Happens(Agent, restarted, Delivered(o, rr, {}, true)).stored == Some(rr);
      assert Happens(Agent, restarted, Delivered(o, rr, {}, true)) != restarted;
    }
  }

  /** The newest set is lost at the agent: it was delivered before a restart, what was
      hydrated is all there is, and an older set that comes after it is refused. */
  lemma ARestartLosesTheNewest(o: Origin, records: seq<RR>, older: Origin, past: seq<RR>, hydrated: Option<seq<RR>>)
    requires older.time > 0 && Older(older, o) && Distinct(records) && Distinct(past)
    requires hydrated.Some? ==> Distinct(hydrated.value)
    ensures var es := [Delivered(o, records, {}, true), Restart(hydrated), Delivered(older, past, {}, true)];
      && Proper(Agent, es) && DeliveredIn(es, o, Elements(records)) && NewestIn(es, o)
      && AllHappen(Agent, Replica(None, None, None), es).stored == hydrated
  {
    OlderIsATotalOrder(o, o, older);
    OlderIsATotalOrder(older, o, older);
    var start := Replica(None, None, None);
    var es := [Delivered(o, records, {}, true), Restart(hydrated), Delivered(older, past, {}, true)];
    assert es[..2] == [es[0], es[1]] && es[..2][..1] == [es[0]] && [es[0]][..0] == [];
    assert es[0].Delivered? && es[0].origin == o;
    var one := AllHappen(Agent, start, [es[0]]);
    assert one == Happens(Agent, AllHappen(Agent, start, []), es[0]);
    assert AllHappen(Agent, start, es[..2]) == Happens(Agent, one, es[1]);
    assert AllHappen(Agent, start, es) == Happens(Agent, Happens(Agent, one, es[1]), es[2]);
  }

  /** A record twice in one REPLACE, and the newest need not win: for any two
      records, the newer set of both is taken for the older set of one. */
  lemma ARecordTwiceHidesTheNewest(a: RR, b: RR, older: Origin, newer: Origin)
    requires a != b && Older(older, newer) && older.time > 0
    ensures Stored(AllHappen(Agent, Replica(None, None, None),
        [Delivered(older, [a, a], {}, true), Delivered(newer, [a, b], {}, true)]).stored) == {a}
  {
    OlderIsATotalOrder(older, newer, older);
    var d1, d2 := Delivered(older, [a, a], {}, true), Delivered(newer, [a, b], {}, true);
    var start := Replica(None, None, None);
    assert [d1, d2][..1] == [d1] && [d1][..0] == [];
    assert AllHappen(Agent, start, [d1]) == Happens(Agent, AllHappen(Agent, start, []), d1);
    var one := AllHappen(Agent, start, [d1]);
    assert one.stored == Some([a, a]);
    assert [a, a][0] == a && [a, a][1] == a && [a, b][0] == a;
    assert AllHappen(Agent, start, [d1, d2]) == Happens(Agent, one, d2);
  }
}
