/** The zone a combiner serves is a projection of what its agents contribute, kept
    up by edits and a list of what may need cleaning up. It must be what computing
    the zone anew, from the upstream's copy and the contributions, would give. */
module Projection {
  import opened Wrappers
  import opened Handover
  import opened Contributions

  /** The types a combiner manages at the apex, and keeps the upstream's records of. */
  const APEX_COMBINER: set<nat> := {DNSKEY, CDS, CSYNC, NS, KEY}

  datatype EditPolicy = EditPolicy(zoneSigned: bool, weAreSigner: bool, nsByAgent: bool, parentByAgent: bool) {
    predicate CanApply(rrtype: nat) {
      if !zoneSigned then
        if rrtype == NS then nsByAgent
        else if rrtype == KEY then parentByAgent
        else rrtype != DNSKEY && rrtype != CDS && rrtype != CSYNC
      else if !weAreSigner then false
      else if rrtype == NS then nsByAgent
      else if rrtype == CDS || rrtype == CSYNC || rrtype == KEY then parentByAgent
      else true
    }

    /** combinerShouldApplyEdits */
    predicate ShouldApply() { !zoneSigned || weAreSigner }
  }

  /** What a combine projects: combineInput's copy of the state. */
  datatype Input = Input(zone: string, contributions: RRsets, policy: EditPolicy, upstream: Option<map<nat, set<RR>>>,
      cleanups: set<Slot>)

  /** A combine between its copy and its batch; `taken` says it has the cleanups. */
  datatype Flight = Flight(input: Input, taken: bool)

  /** One zone at its combiner. `loaded` is the upstream's copy as it last came; the
      program keeps only `upstream` of it. At most one combine is in flight
      (combineMu), and it holds no lock that a change of contributions takes. */
  datatype State = State(
    zone: string, self: string,
    contributions: Contribs, merged: RRsets, picked: Picks, pending: set<Slot>, rows: set<Row>,
    handed: Option<Roles>, policy: EditPolicy,
    upstream: Option<map<nat, set<RR>>>, served: RRsets, loaded: RRsets,
    inFlight: Option<Flight>)
  {
    function Apex(rrtype: nat): Slot { Slot(zone, rrtype) }
  }

  function UpAt(up: map<nat, set<RR>>, rrtype: nat): set<RR> { if rrtype in up then up[rrtype] else {} }

  /** snapshotUpstreamData */
  function Snapshot(zone: string, content: RRsets): map<nat, set<RR>> {
    map t | t in APEX_COMBINER && Slot(zone, t) in content :: content[Slot(zone, t)]
  }

  /** What combineInput has of it: nothing for a copy without an apex. */
  function UpstreamOf(zone: string, content: RRsets): Option<map<nat, set<RR>>> {
    if exists slot :: slot in content && slot.owner == zone then Some(Snapshot(zone, content)) else None
  }

  // ---- Changing the contributions -------------------------------------------------------

  /** RebuildCombinerData; `pick` are the CSYNCs its listings of the maps lead to. */
  function Rebuilt(s: State, pick: Picks): State {
    s.(merged := Merged(s.contributions, s.handed, pick), picked := pick,
        pending := s.pending + Filtered(s.contributions, s.handed))
  }

  /** The new contribution of one sender, merged; saved when the save works. */
  function Put(s: State, sender: Sender, m: RRsets, saves: bool, pick: Picks): State {
    var s1 := Rebuilt(s.(contributions := s.contributions[sender := m]), pick);
    if saves then s1.(rows := Save(s1.rows, sender, m)) else s1
  }

  function Name(sender: Sender): Sender { if sender == "" then "local" else sender }

  function Touched(s: State, sender: Sender): State {
    s.(contributions := s.contributions[sender := Of(s.contributions, sender)])
  }

  function Add(s: State, sender: Sender, data: seq<RRset>, saves: bool, pick: Picks): State {
    var had := Of(s.contributions, Name(sender));
    if Added(had, data) == had then Touched(s, Name(sender)) else Put(s, Name(sender), Added(had, data), saves, pick)
  }

  /** RemoveCombinerDataNG. The cleanups are noted only when the save worked. */
  function Remove(s: State, sender: Sender, data: seq<RRset>, saves: bool, pick: Picks): State {
    var had := Of(s.contributions, Name(sender));
    if Name(sender) !in s.contributions || Without(had, data) == had then s
    else
      var s1 := Put(s, Name(sender), Without(had, data), saves, pick);
      if saves then s1.(pending := s1.pending + NamedSlots(data)) else s1
  }

  /** RemoveCombinerDataByRRtype; likewise. */
  function RemoveType(s: State, sender: Sender, slot: Slot, saves: bool, pick: Picks): State {
    var had := Of(s.contributions, Name(sender));
    if slot !in had then s
    else
      var s1 := Put(s, Name(sender), had - {slot}, saves, pick);
      if saves then s1.(pending := s1.pending + {slot}) else s1
  }

  /** replaceCombinerDataByRRtypeLocked. The cleanup is noted whether the save worked
      or not. */
  function Replace(s: State, sender: Sender, slot: Slot, rrs: set<RR>, saves: bool, pick: Picks): State {
    var had := Of(s.contributions, Name(sender));
    if At(had, slot) == rrs then Touched(s, Name(sender))
    else
      var s1 := Put(s, Name(sender), if rrs == {} then had - {slot} else had[slot := rrs], saves, pick);
      s1.(pending := s1.pending + {slot})
  }

  /** PurgeContributionsForOrigin; the cleanups as at a removal. */
  function Purge(s: State, origin: Sender, saves: bool, pick: Picks): State {
    if origin == "" || origin !in s.contributions then s
    else
      var s1 := Rebuilt(s.(contributions := s.contributions - {origin}), pick);
      if saves then s1.(rows := Save(s1.rows, origin, map[]),
          pending := s1.pending + s.contributions[origin].Keys) else s1
  }

  // ---- The projection --------------------------------------------------------------------

  /** What the zone serves at a slot after a combine of i. */
  function Next(i: Input, served: RRsets, slot: Slot): set<RR> {
    var cur := At(served, slot);
    if slot.owner != i.zone then
      if slot !in i.contributions && slot in i.cleanups then {} else cur
    else if slot in i.contributions && i.policy.CanApply(slot.rrtype) then Applied(i, slot)
    else if slot !in i.contributions && slot !in i.cleanups then cur
    else if i.upstream.None? then cur
    else if slot.rrtype in i.upstream.value then i.upstream.value[slot.rrtype]
    else if slot.rrtype == NS then cur
    else {}
  }

  /** A contribution as it is served: an NS on top of the upstream's. */
  function Applied(i: Input, slot: Slot): set<RR>
    requires slot in i.contributions
  {
    if slot.rrtype == NS && i.upstream.Some? then UpAt(i.upstream.value, NS) + i.contributions[slot]
        else i.contributions[slot]
  }

  function Projected(i: Input, served: RRsets): RRsets {
    map slot | slot in served.Keys + i.contributions.Keys + ApexOf(i) && Next(i, served, slot) != {} ::
        Next(i, served, slot)
  }

  function ApexOf(i: Input): set<Slot> {
    if i.upstream.None? then {} else set t | t in i.upstream.value :: Slot(i.zone, t)
  }

  /** The cleanups put off: at the apex, what nobody contributes, until the upstream's
      apex is known. */
  function Deferred(i: Input): set<Slot> {
    if i.upstream.Some? then {} else set slot | slot in i.cleanups && slot !in i.contributions && slot.owner == i.zone
  }

  /** combineInput's copies, read with no lock of the contributions': of a merge that is
      being built again `seen` is the part it finds. */
  function Copy(s: State, seen: set<Slot>): State {
    var found := map slot | slot in s.merged && slot in seen :: s.merged[slot];
    s.(inFlight := Some(Flight(Input(s.zone, found, s.policy, s.upstream, {}), false)))
  }

  /** The copy goes on, RRset by RRset, over what the merge has become. */
  function CopyOn(s: State, seen: set<Slot>): State
    requires s.inFlight.Some?
  {
    var i := s.inFlight.value.input;
    var found := map slot | slot in s.merged && slot in seen :: s.merged[slot];
    s.(inFlight := Some(Flight(i.(contributions := i.contributions + found), s.inFlight.value.taken)))
  }

  /** takeCleanups, after the copies and under its own lock. */
  function TakeCleanups(s: State): State
    requires s.inFlight.Some?
  {
    s.(inFlight := Some(Flight(s.inFlight.value.input.(cleanups := s.pending), true)), pending := {})
  }

  /** The batch, under the zone's lock; one that fails gives its cleanups back. */
  function Stage(s: State, works: bool): State
    requires s.inFlight.Some?
  {
    var i := s.inFlight.value.input;
    if works then s.(served := Projected(i, s.served), pending := s.pending + Deferred(i), inFlight := None)
    else s.(pending := s.pending + i.cleanups, inFlight := None)
  }

  /** A combine made while the edits are not to be applied. */
  function Skip(s: State): State { s.(pending := {}) }

  function InputOf(s: State): Input { Input(s.zone, s.merged, s.policy, s.upstream, s.pending) }

  /** combineAndPublish, with nothing in between its parts; `works` is the batch's. */
  function Combine(s: State, works: bool): State {
    if !s.policy.ShouldApply() then Skip(s)
    else if !works then s
    else s.(served := Projected(InputOf(s), s.served), pending := Deferred(InputOf(s)))
  }

  lemma CombineIsItsParts(s: State, works: bool)
    requires s.inFlight.None? && s.policy.ShouldApply()
    ensures Combine(s, works) == Stage(TakeCleanups(Copy(s, s.merged.Keys)), works)
  {
    assert (map slot | slot in s.merged && slot in s.merged.Keys :: s.merged[slot]) == s.merged;
  }

  // ---- Runs ------------------------------------------------------------------------------

  datatype Step =
    | Adding(sender: Sender, data: seq<RRset>, saves: bool, pick: Picks)
    | Removing(sender: Sender, data: seq<RRset>, saves: bool, pick: Picks)
    | RemovingType(sender: Sender, slot: Slot, saves: bool, pick: Picks)
    | Replacing(sender: Sender, slot: Slot, rrs: set<RR>, saves: bool, pick: Picks)
    | Purging(origin: Sender, saves: bool, pick: Picks)
    | RolesHanded(handed: Option<Roles>)      // the store took a hand-over
    | Rebuilding(pick: Picks)                 // and the contributions are merged by it
    | PolicyChanged(policy: EditPolicy)
    | Refreshed(content: RRsets)              // the upstream's copy in place of the zone
    | Restarted(pick: Picks)
    | Copying(seen: set<Slot>)                // a combine, in its three parts
    | CopyingOn(seen: set<Slot>)
    | TakingCleanups
    | Staging(works: bool)
    | Skipping                                // a combine while the edits are not to be applied

  /** What may happen. A merge has CSYNCs that its listings may lead to. */
  ghost predicate Enabled(s: State, step: Step) {
    match step
    case Adding(sender, data, saves, pick) => Picked(Add(s, sender, data, saves, pick).contributions, s.self, pick)
    case Removing(sender, data, saves, pick) => Picked(Remove(s, sender, data, saves, pick).contributions, s.self, pick)
    case RemovingType(sender, slot, saves, pick) =>
        Picked(RemoveType(s, sender, slot, saves, pick).contributions, s.self, pick)
    case Replacing(sender, slot, rrs, saves, pick) =>
        Picked(Replace(s, sender, slot, rrs, saves, pick).contributions, s.self, pick)
    case Purging(origin, saves, pick) => Picked(Purge(s, origin, saves, pick).contributions, s.self, pick)
    case Rebuilding(pick) => Picked(s.contributions, s.self, pick)
    case Restarted(pick) => Picked(Load(s.rows), s.self, pick)
    case Copying(_) => s.inFlight.None?
    case CopyingOn(_) => s.inFlight.Some? && !s.inFlight.value.taken
    case TakingCleanups => s.inFlight.Some? && !s.inFlight.value.taken
    case Staging(_) => s.inFlight.Some? && s.inFlight.value.taken
    case Skipping => !s.policy.ShouldApply()
    case Refreshed(content) => s.inFlight.None? && NoEmpty(content)
    case _ => true
  }

  function Take(s: State, step: Step): State
    requires Enabled(s, step)
  {
    match step
    case Adding(sender, data, saves, pick) => Add(s, sender, data, saves, pick)
    case Removing(sender, data, saves, pick) => Remove(s, sender, data, saves, pick)
    case RemovingType(sender, slot, saves, pick) => RemoveType(s, sender, slot, saves, pick)
    case Replacing(sender, slot, rrs, saves, pick) => Replace(s, sender, slot, rrs, saves, pick)
    case Purging(origin, saves, pick) => Purge(s, origin, saves, pick)
    case RolesHanded(handed) => s.(handed := handed)
    case Rebuilding(pick) => Rebuilt(s, pick)
    case PolicyChanged(policy) => s.(policy := policy)
    case Refreshed(content) => Refresh(s, content)
    case Restarted(pick) => Restart(s, pick)
    case Copying(seen) => Copy(s, seen)
    case CopyingOn(seen) => CopyOn(s, seen)
    case TakingCleanups => TakeCleanups(s)
    case Staging(works) => Stage(s, works)
    case Skipping => Skip(s)
  }

  function Refresh(s: State, content: RRsets): State {
    s.(served := content, upstream := UpstreamOf(s.zone, content), loaded := content)
  }

  function Restart(s: State, pick: Picks): State {
    var c := Load(s.rows);
    s.(contributions := c, merged := Merged(c, s.handed, pick), picked := pick, pending := Filtered(c, s.handed),
       upstream := None, served := map[], loaded := map[], inFlight := None)
  }

  ghost predicate CanHappen(s: State, steps: seq<Step>)
    decreases |steps|
  {
    steps == [] || (Enabled(s, steps[0]) && CanHappen(Take(s, steps[0]), steps[1..]))
  }

  ghost function TakeAll(s: State, steps: seq<Step>): State
    requires CanHappen(s, steps)
    decreases |steps|
  {
    if steps == [] then s else TakeAll(Take(s, steps[0]), steps[1..])
  }

  // ---- The invariant ---------------------------------------------------------------------

  /** What the zone serves where nothing is applied: what the upstream has; an NS that
      the upstream lacks is kept. */
  function Base(s: State, t: nat): set<RR>
    requires s.upstream.Some?
  {
    if t in s.upstream.value then s.upstream.value[t] else if t == NS then At(s.served, s.Apex(t)) else {}
  }

  predicate InCopy(s: State, slot: Slot) { s.inFlight.Some? && slot in s.inFlight.value.input.contributions }

  predicate InHand(s: State, slot: Slot) {
    s.inFlight.Some? && s.inFlight.value.taken && slot in s.inFlight.value.input.cleanups
  }

  /** A type the combiner manages at an apex whose upstream it knows. */
  predicate Managed(s: State, slot: Slot) { slot.owner == s.zone && slot.rrtype in APEX_COMBINER && s.upstream.Some? }

  predicate AsUpstream(s: State, slot: Slot) {
    Managed(s, slot) ==> At(s.served, slot) == Base(s, slot.rrtype)
  }

  /** What nothing is noted of may be as the upstream has it, and in no copy; or the
      combine in flight has its cleanup in hand. */
  predicate Spared(s: State, slot: Slot) {
    InHand(s, slot) || (!InCopy(s, slot) && AsUpstream(s, slot))
  }

  predicate Accounted(s: State, slot: Slot) {
    slot in s.merged || slot in s.pending || Spared(s, slot)
  }

  ghost predicate WellMade(s: State) {
    && WellFormed(s.contributions)
    && NoEmpty(s.merged) && NoEmpty(s.served) && NoEmpty(s.loaded)
    && (forall slot :: slot in s.merged ==> Contributed(s.contributions, slot))
    && (s.upstream.Some? ==> s.upstream == UpstreamOf(s.zone, s.loaded))
    && (s.inFlight.Some? ==> WellCopied(s, s.inFlight.value))
  }

  ghost predicate WellCopied(s: State, f: Flight) {
    f.input.zone == s.zone && f.input.upstream == s.upstream && NoEmpty(f.input.contributions)
        && (!f.taken ==> f.input.cleanups == {})
  }

  /** The zone differs from the upstream only where something is merged, a cleanup is
      pending, or one is in the hand of the combine in flight; and that combine's copy
      has nothing of which this is not so. */
  ghost predicate Kept(s: State) {
    WellMade(s) && forall slot :: Accounted(s, slot)
  }

  // ---- What a change of contributions loses -----------------------------------------------

  /** s with other contributions, merged, or with other policies to judge them by. */
  ghost predicate Changed(s: State, s': State) {
    && s' == s.(contributions := s'.contributions, merged := s'.merged, picked := s'.picked, pending := s'.pending,
        rows := s'.rows, handed := s'.handed, policy := s'.policy)
    && s.pending <= s'.pending
    && WellFormed(s'.contributions) && NoEmpty(s'.merged)
    && (forall slot :: slot in s'.merged ==> Contributed(s'.contributions, slot))
  }

  /** What leaves the merge is pending then, but for a CSYNC that is left out of it. */
  ghost predicate NotedAll(s: State, s': State) {
    forall slot :: slot in s.merged && slot !in s'.merged ==>
        slot in s'.pending || LeftOut(s'.contributions, s'.picked, slot)
  }

  /** Or there is nothing to clean up. */
  ghost predicate NothingLost(s: State, s': State) {
    forall slot :: slot in s.merged && slot !in s'.merged ==> slot in s'.pending || Spared(s, slot)
  }

  /** A change keeps the zone accounted for exactly when every RRset that it empties in
      the merge is pending then, or was spared. */
  lemma ChangingKeeps(s: State, s': State)
    requires Kept(s) && Changed(s, s')
    ensures Kept(s') <==> NothingLost(s, s')
  {
    forall slot ensures Spared(s', slot) <==> Spared(s, slot) { }
    if Kept(s') {
      forall slot | slot in s.merged && slot !in s'.merged
        ensures slot in s'.pending || Spared(s, slot)
      {
        assert Accounted(s', slot);
      }
    }
    if NothingLost(s, s') {
      forall slot ensures Accounted(s', slot) { assert Accounted(s, slot); }
    }
  }

  /** The contributions c in place of those of s, merged; with every slot that nobody
      contributes any more noted. */
  ghost predicate Recontributed(s: State, s': State) {
    && s' == s.(contributions := s'.contributions, merged := Merged(s'.contributions, s.handed, s'.picked),
        picked := s'.picked, pending := s'.pending, rows := s'.rows)
    && s.pending + Filtered(s'.contributions, s.handed) <= s'.pending
    && WellFormed(s'.contributions)
  }

  lemma RecontributingChanges(s: State, s': State)
    requires Recontributed(s, s')
    ensures Changed(s, s')
  {
    TheMergeIsContributed(s'.contributions, s.handed, s'.picked);
  }

  lemma NotingWhatNobodyContributes(s: State, s': State)
    requires WellMade(s) && Recontributed(s, s')
    requires forall slot :: Contributed(s.contributions, slot) ==>
        Contributed(s'.contributions, slot) || slot in s'.pending
    ensures NotedAll(s, s')
  {
    forall slot | slot in s.merged && slot !in s'.merged
      ensures slot in s'.pending || LeftOut(s'.contributions, s'.picked, slot)
    {
      assert Contributed(s.contributions, slot);
      if Contributed(s'.contributions, slot) { ContributedOrNoted(s, s', slot); }
    }
  }

  lemma ContributedOrNoted(s: State, s': State, slot: Slot)
    requires Recontributed(s, s') && Contributed(s'.contributions, slot)
    ensures slot in s'.merged || slot in s'.pending || LeftOut(s'.contributions, s'.picked, slot)
  {
    MergedOrFiltered(s'.contributions, s.handed, s'.picked, slot);
  }

  /** Only this sender's contribution changes; what it leaves is noted. */
  lemma PuttingNotes(s: State, sender: Sender, m: RRsets, saves: bool, pick: Picks, noted: set<Slot>)
    requires WellMade(s) && NoEmpty(m)
    ensures var s1 := Put(s, sender, m, saves, pick); Recontributed(s, s1.(pending := s1.pending + noted))
    ensures var s1 := Put(s, sender, m, saves, pick);
      Of(s.contributions, sender).Keys - m.Keys <= noted ==> NotedAll(s, s1.(pending := s1.pending + noted))
  {
    var s1 := Put(s, sender, m, saves, pick);
    var s' := s1.(pending := s1.pending + noted);
    if Of(s.contributions, sender).Keys - m.Keys <= noted {
      forall slot | Contributed(s.contributions, slot)
        ensures Contributed(s'.contributions, slot) || slot in s'.pending
      {
        var x :| Contributes(s.contributions, x, slot);
        assert Contributes(s'.contributions, x, slot) || slot in noted;
      }
      NotingWhatNobodyContributes(s, s');
    }
  }

  lemma AddingNotes(s: State, sender: Sender, data: seq<RRset>, saves: bool, pick: Picks)
    requires WellMade(s)
    ensures Changed(s, Add(s, sender, data, saves, pick)) && NotedAll(s, Add(s, sender, data, saves, pick))
  {
    var had := Of(s.contributions, Name(sender));
    AddedIsWellFormed(had, data);
    if Added(had, data) == had { TouchingNotes(s, Name(sender)); }
    else {
      var s1 := Put(s, Name(sender), Added(had, data), saves, pick);
      PuttingNotes(s, Name(sender), Added(had, data), saves, pick, {});
      assert s1.(pending := s1.pending + {}) == s1;
      RecontributingChanges(s, s1);
    }
  }

  lemma TouchingNotes(s: State, sender: Sender)
    requires WellMade(s)
    ensures Changed(s, Touched(s, sender)) && NotedAll(s, Touched(s, sender))
  {
    var s' := Touched(s, sender);
    forall slot | Contributed(s.contributions, slot) ensures Contributed(s'.contributions, slot) {
      var x :| Contributes(s.contributions, x, slot);
      assert Contributes(s'.contributions, x, slot);
    }
  }

  lemma RemovingNotes(s: State, sender: Sender, data: seq<RRset>, saves: bool, pick: Picks)
    requires WellMade(s)
    ensures Changed(s, Remove(s, sender, data, saves, pick))
        && (saves ==> NotedAll(s, Remove(s, sender, data, saves, pick)))
  {
    var had := Of(s.contributions, Name(sender));
    if Name(sender) in s.contributions && Without(had, data) != had {
      forall slot | slot in had && slot !in Without(had, data) ensures slot in NamedSlots(data) {
        var rr :| rr in had[slot];
        assert rr !in had[slot] - Carried(data, slot);
        assert rr in Carried(data, slot);
        var i :| 0 <= i < |data| && data[i].slot == slot && rr in data[i].rrs;
      }
      var noted := if saves then NamedSlots(data) else {};
      var s1 := Put(s, Name(sender), Without(had, data), saves, pick);
      PuttingNotes(s, Name(sender), Without(had, data), saves, pick, noted);
      assert s1.(pending := s1.pending + noted) == Remove(s, sender, data, saves, pick);
      RecontributingChanges(s, Remove(s, sender, data, saves, pick));
    }
  }

  lemma RemovingTypeNotes(s: State, sender: Sender, slot: Slot, saves: bool, pick: Picks)
    requires WellMade(s)
    ensures Changed(s, RemoveType(s, sender, slot, saves, pick))
        && (saves ==> NotedAll(s, RemoveType(s, sender, slot, saves, pick)))
  {
    var had := Of(s.contributions, Name(sender));
    if slot in had {
      var noted := if saves then {slot} else {};
      var s1 := Put(s, Name(sender), had - {slot}, saves, pick);
      PuttingNotes(s, Name(sender), had - {slot}, saves, pick, noted);
      assert s1.(pending := s1.pending + noted) == RemoveType(s, sender, slot, saves, pick);
      RecontributingChanges(s, RemoveType(s, sender, slot, saves, pick));
    }
  }

  lemma ReplacingNotes(s: State, sender: Sender, slot: Slot, rrs: set<RR>, saves: bool, pick: Picks)
    requires WellMade(s)
    ensures Changed(s, Replace(s, sender, slot, rrs, saves, pick))
        && NotedAll(s, Replace(s, sender, slot, rrs, saves, pick))
  {
    var had := Of(s.contributions, Name(sender));
    if At(had, slot) == rrs { TouchingNotes(s, Name(sender)); }
    else {
      PuttingNotes(s, Name(sender), if rrs == {} then had - {slot} else had[slot := rrs], saves, pick, {slot});
      RecontributingChanges(s, Replace(s, sender, slot, rrs, saves, pick));
    }
  }

  lemma PurgingNotes(s: State, origin: Sender, saves: bool, pick: Picks)
    requires WellMade(s)
    ensures Changed(s, Purge(s, origin, saves, pick)) && (saves ==> NotedAll(s, Purge(s, origin, saves, pick)))
  {
    if origin != "" && origin in s.contributions {
      var s' := Purge(s, origin, saves, pick);
      RecontributingChanges(s, s');
      if saves {
        forall slot | Contributed(s.contributions, slot)
          ensures Contributed(s'.contributions, slot) || slot in s'.pending
        {
          var x :| Contributes(s.contributions, x, slot);
          assert x == origin || Contributes(s'.contributions, x, slot);
        }
        NotingWhatNobodyContributes(s, s');
      }
    }
  }

  lemma RebuildingNotes(s: State, pick: Picks)
    requires WellMade(s)
    ensures Changed(s, Rebuilt(s, pick)) && NotedAll(s, Rebuilt(s, pick))
  {
    RecontributingChanges(s, Rebuilt(s, pick));
    NotingWhatNobodyContributes(s, Rebuilt(s, pick));
  }

  predicate ChangesContributions(step: Step) {
    step.Adding? || step.Removing? || step.RemovingType? || step.Replacing? || step.Purging? || step.RolesHanded?
        || step.Rebuilding? || step.PolicyChanged?
  }

  /** The changes that note what they leave: all but a removal that is not saved. */
  predicate Notes(step: Step) {
    ChangesContributions(step) && (step.Removing? || step.RemovingType? || step.Purging? ==> step.saves)
  }

  lemma ChangesAreNoted(s: State, step: Step)
    requires WellMade(s) && ChangesContributions(step) && Enabled(s, step)
    ensures Changed(s, Take(s, step)) && (Notes(step) ==> NotedAll(s, Take(s, step)))
  {
    match step
    case Adding(sender, data, saves, pick) => AddingNotes(s, sender, data, saves, pick);
    case Removing(sender, data, saves, pick) => RemovingNotes(s, sender, data, saves, pick);
    case RemovingType(sender, slot, saves, pick) => RemovingTypeNotes(s, sender, slot, saves, pick);
    case Replacing(sender, slot, rrs, saves, pick) => ReplacingNotes(s, sender, slot, rrs, saves, pick);
    case Purging(origin, saves, pick) => PurgingNotes(s, origin, saves, pick);
    case Rebuilding(pick) => RebuildingNotes(s, pick);
    case RolesHanded(_) =>
    case PolicyChanged(_) =>
  }

  // ---- What a combine loses ------------------------------------------------------------------

  lemma ProjectedAt(i: Input, served: RRsets, slot: Slot)
    ensures At(Projected(i, served), slot) == Next(i, served, slot)
  {
  }

  /** Whose edits a combiner applies, type by type: of a signed zone only a signer does; the
      NS where the agents manage it, the KEY where they keep up the parent; the DNSKEYs of a
      signed zone alone, its CDS and CSYNC where they keep up the parent too. */
  lemma WhoseEditsApply(p: EditPolicy, t: nat)
    ensures p.ShouldApply() <==> !(p.zoneSigned && !p.weAreSigner)
    ensures p.CanApply(t) <==>
      && (p.zoneSigned ==> p.weAreSigner)
      && (t == NS ==> p.nsByAgent)
      && (t == KEY ==> p.parentByAgent)
      && (t == DNSKEY ==> p.zoneSigned)
      && (t in {CDS, CSYNC} ==> p.zoneSigned && p.parentByAgent)
  {
  }

  /** What a combine serves at the apex, whose upstream is known. An edit that applies: the
      merge, and for the NS the upstream's on top. Anything merged that does not apply, or
      pending and merged no more: what the upstream has, but for an NS it lacks, which stays.
      Anything else stays. Nothing is pending afterwards. */
  lemma WhatACombineServes(s: State, t: nat)
    requires s.policy.ShouldApply() && s.upstream.Some?
    ensures var (s', slot) := (Combine(s, true), s.Apex(t));
      var (up, was, now) := (UpAt(s.upstream.value, t), At(s.served, slot), At(s'.served, slot));
      var applies := slot in s.merged && s.policy.CanApply(t);
      && (applies && t != NS ==> now == s.merged[slot])
      && (applies && t == NS ==> now == up + s.merged[slot])
      && (!applies && (slot in s.merged || slot in s.pending) ==>
            now == if t == NS && NS !in s.upstream.value then was else up)
      && (slot !in s.merged && slot !in s.pending ==> now == was)
      && s'.pending == {}
  {
    ProjectedAt(InputOf(s), s.served, s.Apex(t));
  }

  /** And below the apex, where no edit applies: what is pending and merged no more goes. */
  lemma WhatACombineServesBelow(s: State, slot: Slot)
    requires s.policy.ShouldApply() && slot.owner != s.zone
    ensures At(Combine(s, true).served, slot) ==
      if slot in s.pending && slot !in s.merged then {} else At(s.served, slot)
  {
    ProjectedAt(InputOf(s), s.served, slot);
  }

  /** Before the upstream's apex is known an edit that applies is served, and nothing else
      changes there; what is to be cleaned up there waits. */
  lemma WhatACombinePutsOff(s: State, t: nat)
    requires s.policy.ShouldApply() && s.upstream.None?
    ensures var (s', slot) := (Combine(s, true), s.Apex(t));
      && At(s'.served, slot) ==
           (if slot in s.merged && s.policy.CanApply(t) then s.merged[slot] else At(s.served, slot))
      && (slot in s'.pending <==> slot in s.pending && slot !in s.merged)
  {
    ProjectedAt(InputOf(s), s.served, s.Apex(t));
  }

  /** What a refresh keeps of the upstream: its DNSKEY, CDS, CSYNC, NS and KEY RRsets at the
      apex, as they came; nothing of a copy that has no apex. */
  lemma WhatIsKeptOfTheUpstream(s: State, content: RRsets, t: nat)
    ensures var (s', slot) := (Refresh(s, content), s.Apex(t));
      && s'.served == content
      && (s'.upstream.Some? <==> exists q :: q in content && q.owner == s.zone)
      && (s'.upstream.Some? ==>
            && (t in s'.upstream.value <==> slot in content && (t in {48, 59, 62, 2, 25}))
            && (t in s'.upstream.value ==> s'.upstream.value[t] == content[slot]))
  {
  }

  /** The combine in flight is about to serve a contribution that has left the merge,
      and no cleanup of it is pending any more. */
  predicate Overtaken(s: State, slot: Slot)
    requires s.inFlight.Some?
  {
    var i := s.inFlight.value.input;
    && slot in i.contributions && slot !in s.merged && slot !in s.pending
    && slot.owner == i.zone && slot.rrtype in APEX_COMBINER && i.upstream.Some? && i.policy.CanApply(slot.rrtype)
    && (slot.rrtype == NS ==> NS in i.upstream.value) && Applied(i, slot) != UpAt(i.upstream.value, slot.rrtype)
  }

  /** Its cleanup was noted after the copy was read and before the cleanups were taken:
      it is among those taken, and the copy has it still. */
  lemma TheOvertakenIsInHand(s: State, slot: Slot)
    requires Kept(s) && s.inFlight.Some? && Overtaken(s, slot)
    ensures InHand(s, slot)
  {
    assert Accounted(s, slot);
  }

  lemma StagedAt(s: State, slot: Slot)
    requires Kept(s) && Enabled(s, Staging(true))
    ensures Accounted(Stage(s, true), slot) <==> !Overtaken(s, slot)
  {
    assert Accounted(s, slot);
    ProjectedAt(s.inFlight.value.input, s.served, slot);
  }

  /** A combine keeps the zone accounted for exactly when nothing is overtaken. */
  lemma StagingKeeps(s: State)
    requires Kept(s) && Enabled(s, Staging(true))
    ensures Kept(Stage(s, true)) <==> forall slot :: !Overtaken(s, slot)
  {
    forall slot ensures Accounted(Stage(s, true), slot) <==> !Overtaken(s, slot) { StagedAt(s, slot); }
  }

  lemma AFailedBatchKeeps(s: State)
    requires Kept(s) && Enabled(s, Staging(false))
    ensures Kept(Stage(s, false))
  {
    forall slot ensures Accounted(Stage(s, false), slot) { assert Accounted(s, slot); }
  }

  lemma CopyingKeeps(s: State, seen: set<Slot>)
    requires Kept(s) && Enabled(s, Copying(seen))
    ensures Kept(Copy(s, seen))
  {
    forall slot ensures Accounted(Copy(s, seen), slot) { assert Accounted(s, slot); }
  }

  lemma CopyingOnKeeps(s: State, seen: set<Slot>)
    requires Kept(s) && Enabled(s, CopyingOn(seen))
    ensures Kept(CopyOn(s, seen))
  {
    forall slot ensures Accounted(CopyOn(s, seen), slot) { assert Accounted(s, slot); }
  }

  lemma TakingCleanupsKeeps(s: State)
    requires Kept(s) && Enabled(s, TakingCleanups)
    ensures Kept(TakeCleanups(s))
  {
    forall slot ensures Accounted(TakeCleanups(s), slot) { assert Accounted(s, slot); }
  }

  /** A combine that throws the cleanups away keeps it exactly when there is nothing to
      clean up. */
  lemma SkippingKeeps(s: State)
    requires Kept(s)
    ensures Kept(Skip(s)) <==> forall slot :: slot in s.pending && slot !in s.merged ==> Spared(s, slot)
  {
    forall slot
      ensures Accounted(Skip(s), slot) <==> (slot in s.pending && slot !in s.merged ==> Spared(s, slot))
    {
      assert Accounted(s, slot);
    }
  }

  // ---- Every run -----------------------------------------------------------------------------

  lemma RestartingKeeps(s: State, pick: Picks)
    ensures Kept(Restart(s, pick))
  {
    LoadIsWellFormed(s.rows);
    NotYetLoadedIsKept(Restart(s, pick));
  }

  lemma NotYetLoadedIsKept(s: State)
    requires WellFormed(s.contributions) && Current(s)
    requires s.upstream.None? && s.served == map[] && s.loaded == map[] && s.inFlight.None?
    ensures Kept(s)
  {
    TheMergeIsContributed(s.contributions, s.handed, s.picked);
  }

  lemma LoadIsWellFormed(rows: set<Row>)
    ensures WellFormed(Load(rows))
  {
    forall x | x in Load(rows) ensures NoEmpty(Load(rows)[x]) { LoadedIsWellFormed(rows, x); }
  }

  lemma LoadedIsWellFormed(rows: set<Row>, x: Sender)
    ensures NoEmpty(LoadOf(rows, x))
  {
    var l := LoadOf(rows, x);
    forall slot | slot in l ensures l[slot] != {} {
      var r :| r in rows && r.sender == x && r.slot == slot;
      assert r.rr in l[slot];
    }
  }

  lemma RefreshingKeeps(s: State, content: RRsets)
    requires Kept(s) && Enabled(s, Refreshed(content))
    ensures Kept(Refresh(s, content))
  {
  }

  /** Nothing is lost in this step: what it empties in the merge is noted or spared, and
      so is what it throws away; what it serves is not overtaken. */
  ghost predicate LosesNothing(s: State, step: Step)
    requires Enabled(s, step)
  {
    if ChangesContributions(step) then NothingLost(s, Take(s, step))
    else if step.Skipping? then forall slot :: slot in s.pending && slot !in s.merged ==> Spared(s, slot)
    else if step == Staging(true) then forall slot :: !Overtaken(s, slot)
    else true
  }

  /** A step keeps the zone accounted for exactly when it loses nothing. */
  lemma AStepKeepsWhenItLosesNothing(s: State, step: Step)
    requires Kept(s) && Enabled(s, step)
    ensures Kept(Take(s, step)) <==> LosesNothing(s, step)
  {
    if ChangesContributions(step) {
      ChangesAreNoted(s, step);
      ChangingKeeps(s, Take(s, step));
    } else {
      match step
      case Refreshed(content) => RefreshingKeeps(s, content);
      case Restarted(pick) => RestartingKeeps(s, pick);
      case Copying(seen) => CopyingKeeps(s, seen);
      case CopyingOn(seen) => CopyingOnKeeps(s, seen);
      case TakingCleanups => TakingCleanupsKeeps(s);
      case Staging(works) => if works { StagingKeeps(s); } else { AFailedBatchKeeps(s); }
      case Skipping => SkippingKeeps(s);
    }
  }

  /** The step leaves a CSYNC out of the merge that was there, and is contributed still. */
  ghost predicate LeavesOut(s: State, step: Step, slot: Slot)
    requires Enabled(s, step)
  {
    var s' := Take(s, step);
    slot in s.merged && slot !in s'.merged && LeftOut(s'.contributions, s'.picked, slot)
  }

  /** A change that notes what it leaves loses nothing, exactly unless it leaves a CSYNC
      out that is not pending and has something to clean up. */
  lemma NotedChangesLoseOnlyACsync(s: State, step: Step)
    requires WellMade(s) && Notes(step) && Enabled(s, step)
    ensures LosesNothing(s, step) <==>
      forall slot :: LeavesOut(s, step, slot) ==> slot in Take(s, step).pending || Spared(s, slot)
  {
    ChangesAreNoted(s, step);
  }

  /** Where one CSYNC displaces the others a change leaves none out. */
  lemma OneCsyncIsNotLeftOut(s: State, step: Step, slot: Slot)
    requires WellMade(s) && ChangesContributions(step) && Enabled(s, step)
        && OneCsync(Take(s, step).contributions, s.self)
    ensures !LeavesOut(s, step, slot)
  {
    var s' := Take(s, step);
    if s'.merged != s.merged {
      ChangesArePicked(s, step);
      NoneIsLeftOut(s'.contributions, s.self, s'.picked, slot);
    }
  }

  lemma ChangesArePicked(s: State, step: Step)
    requires ChangesContributions(step) && Enabled(s, step)
    ensures Take(s, step).merged == s.merged || Picked(Take(s, step).contributions, s.self, Take(s, step).picked)
  {
    match step
    case Adding(sender, data, saves, pick) => AddingPicks(s, sender, data, saves, pick);
    case Removing(sender, data, saves, pick) => RemovingPicks(s, sender, data, saves, pick);
    case RemovingType(sender, slot, saves, pick) =>
    case Replacing(sender, slot, rrs, saves, pick) => ReplacingPicks(s, sender, slot, rrs, saves, pick);
    case Purging(origin, saves, pick) =>
    case Rebuilding(pick) =>
    case RolesHanded(_) =>
    case PolicyChanged(_) =>
  }

  lemma AddingPicks(s: State, sender: Sender, data: seq<RRset>, saves: bool, pick: Picks)
    ensures Add(s, sender, data, saves, pick).merged == s.merged || Add(s, sender, data, saves, pick).picked == pick
  {
  }

  lemma RemovingPicks(s: State, sender: Sender, data: seq<RRset>, saves: bool, pick: Picks)
    ensures Remove(s, sender, data, saves, pick).merged == s.merged
        || Remove(s, sender, data, saves, pick).picked == pick
  {
  }

  lemma ReplacingPicks(s: State, sender: Sender, slot: Slot, rrs: set<RR>, saves: bool, pick: Picks)
    ensures Replace(s, sender, slot, rrs, saves, pick).merged == s.merged
        || Replace(s, sender, slot, rrs, saves, pick).picked == pick
  {
  }

  ghost predicate NothingLostIn(s: State, steps: seq<Step>)
    requires CanHappen(s, steps)
    decreases |steps|
  {
    steps == [] || (LosesNothing(s, steps[0]) && NothingLostIn(Take(s, steps[0]), steps[1..]))
  }

  ghost predicate KeptThroughout(s: State, steps: seq<Step>)
    requires CanHappen(s, steps)
    decreases |steps|
  {
    Kept(s) && (steps == [] || KeptThroughout(Take(s, steps[0]), steps[1..]))
  }

  /** Every state of a run is accounted for exactly when no step of it loses anything. */
  lemma {:induction false} ARunKeepsWhenNothingIsLost(s: State, steps: seq<Step>)
    requires Kept(s) && CanHappen(s, steps)
    ensures KeptThroughout(s, steps) <==> NothingLostIn(s, steps)
    ensures NothingLostIn(s, steps) ==> Kept(TakeAll(s, steps))
    decreases |steps|
  {
    if steps != [] {
      AStepKeepsWhenItLosesNothing(s, steps[0]);
      if Kept(Take(s, steps[0])) { ARunKeepsWhenNothingIsLost(Take(s, steps[0]), steps[1..]); }
    }
  }

  // ---- The zone computed anew --------------------------------------------------------------

  /** The RRset of a type at the apex as the upstream's copy and the contributions give
      it. An NS that neither gives is the one served. */
  function Target(s: State, t: nat): set<RR> {
    Given(s, t, At(Merged(s.contributions, s.handed, s.picked), s.Apex(t)), At(s.served, s.Apex(NS)))
  }

  function Given(s: State, t: nat, contributed: set<RR>, ns: set<RR>): set<RR> {
    var upstream := At(s.loaded, s.Apex(t));
    if contributed != {} && s.policy.CanApply(t) then (if t == NS then upstream + contributed else contributed)
    else if upstream == {} && t == NS then ns
    else upstream
  }

  /** No hand-over has been taken that the contributions are not yet merged by. */
  ghost predicate Current(s: State) { s.merged == Merged(s.contributions, s.handed, s.picked) }

  /** One combine makes the apex what computing it anew gives, and another changes
      nothing. */
  lemma CombiningIsComputingAnew(s: State, works: bool)
    requires Kept(s) && s.inFlight.None? && Current(s) && s.upstream.Some? && s.policy.ShouldApply()
    ensures var s' := Combine(s, true);
      && (forall t :: t in APEX_COMBINER ==> At(s'.served, s.Apex(t)) == Target(s, t) == Target(s', t))
      && Combine(s', works) == s'
  {
    var s' := Combine(s, true);
    forall t | t in APEX_COMBINER
      ensures At(s'.served, s.Apex(t)) == Target(s, t) == Target(s', t)
    {
      CombinedAt(s, t);
    }
    CombiningTwice(s);
  }

  lemma CombinedAt(s: State, t: nat)
    requires Kept(s) && s.inFlight.None? && Current(s) && s.upstream.Some? && s.policy.ShouldApply()
        && t in APEX_COMBINER
    ensures At(Combine(s, true).served, s.Apex(t)) == Target(s, t) == Target(Combine(s, true), t)
  {
    NextIsTheTarget(s, t, At(s.merged, s.Apex(t)));
    ProjectedAt(InputOf(s), s.served, s.Apex(t));
    ServingTheTarget(s, Combine(s, true), t);
  }

  lemma ServingTheTarget(s: State, s': State, t: nat)
    requires s' == s.(served := s'.served, pending := s'.pending)
    requires At(s'.served, s.Apex(t)) == Target(s, t)
    ensures Target(s', t) == Target(s, t)
  {
  }

  lemma NextIsTheTarget(s: State, t: nat, contributed: set<RR>)
    requires Kept(s) && s.inFlight.None? && s.upstream.Some? && t in APEX_COMBINER
        && contributed == At(s.merged, s.Apex(t))
    ensures Next(InputOf(s), s.served, s.Apex(t)) == Given(s, t, contributed, At(s.served, s.Apex(NS)))
  {
    assert Accounted(s, s.Apex(t));
  }

  lemma CombiningTwice(s: State)
    requires NoEmpty(s.served) && s.policy.ShouldApply()
    ensures Combine(Combine(s, true), true) == Combine(s, true)
  {
    var s' := Combine(s, true);
    var i, i' := InputOf(s), InputOf(s');
    forall slot ensures Next(i', s'.served, slot) == Next(i, s.served, slot) { ProjectedAt(i, s.served, slot); }
    forall slot ensures At(Projected(i', s'.served), slot) == At(Projected(i, s.served), slot) {
      ProjectedAt(i, s.served, slot);
      ProjectedAt(i', s'.served, slot);
    }
    SameRRsets(Projected(i', s'.served), Projected(i, s.served));
  }

  lemma RemovingKeepsCurrent(s: State, sender: Sender, data: seq<RRset>, saves: bool, pick: Picks)
    requires Current(s)
    ensures Current(Remove(s, sender, data, saves, pick))
  {
  }

  lemma RemovingTypeKeepsCurrent(s: State, sender: Sender, slot: Slot, saves: bool, pick: Picks)
    requires Current(s)
    ensures Current(RemoveType(s, sender, slot, saves, pick))
  {
  }

  lemma AddingKeepsCurrent(s: State, sender: Sender, data: seq<RRset>, saves: bool, pick: Picks)
    requires Current(s)
    ensures Current(Add(s, sender, data, saves, pick))
  {
    TouchingChangesNoMerge(s, Name(sender));
  }

  lemma PurgingKeepsCurrent(s: State, origin: Sender, saves: bool, pick: Picks)
    requires Current(s)
    ensures Current(Purge(s, origin, saves, pick))
  {
  }

  lemma ReplacingKeepsCurrent(s: State, sender: Sender, slot: Slot, rrs: set<RR>, saves: bool, pick: Picks)
    requires Current(s)
    ensures Current(Replace(s, sender, slot, rrs, saves, pick))
  {
    TouchingChangesNoMerge(s, Name(sender));
  }

  /** The merge is of what is contributed after every step but taking a hand-over. */
  lemma StepsKeepCurrent(s: State, step: Step)
    requires Current(s) && !step.RolesHanded? && Enabled(s, step)
    ensures Current(Take(s, step))
  {
    match step
    case Adding(sender, data, saves, pick) => AddingKeepsCurrent(s, sender, data, saves, pick);
    case Removing(sender, data, saves, pick) => RemovingKeepsCurrent(s, sender, data, saves, pick);
    case RemovingType(sender, slot, saves, pick) => RemovingTypeKeepsCurrent(s, sender, slot, saves, pick);
    case Replacing(sender, slot, rrs, saves, pick) => ReplacingKeepsCurrent(s, sender, slot, rrs, saves, pick);
    case Purging(origin, saves, pick) => PurgingKeepsCurrent(s, origin, saves, pick);
    case Restarted(pick) => RestartingIsCurrent(s, pick);
    case Rebuilding(_) =>
    case PolicyChanged(_) =>
    case Refreshed(content) => OthersKeepCurrent(s, Refresh(s, content));
    case Copying(seen) => OthersKeepCurrent(s, Copy(s, seen));
    case CopyingOn(seen) => OthersKeepCurrent(s, CopyOn(s, seen));
    case TakingCleanups => OthersKeepCurrent(s, TakeCleanups(s));
    case Staging(works) => OthersKeepCurrent(s, Stage(s, works));
    case Skipping => OthersKeepCurrent(s, Skip(s));
  }

  lemma RestartingIsCurrent(s: State, pick: Picks)
    ensures Current(Restart(s, pick))
  {
  }

  lemma OthersKeepCurrent(s: State, s': State)
    requires Current(s) && s'.contributions == s.contributions && s'.merged == s.merged && s'.handed == s.handed
        && s'.picked == s.picked
    ensures Current(s')
  {
  }

  lemma TouchingChangesNoMerge(s: State, sender: Sender)
    ensures Merged(Touched(s, sender).contributions, s.handed, s.picked) == Merged(s.contributions, s.handed, s.picked)
  {
    var c, d := s.contributions, Touched(s, sender).contributions;
    assert Pairs(c) == Pairs(d);
    MergesAlike(c, d, s.handed, s.picked);
  }

  /** After any run that loses nothing, of changes, hand-overs, refreshes, restarts and
      combines among one another, a combine makes the apex what computing it anew
      gives, and a second changes nothing. */
  lemma AfterAnyRunACombineIsComputingAnew(s: State, steps: seq<Step>, s1: State)
    requires Kept(s) && CanHappen(s, steps) && NothingLostIn(s, steps)
    requires s1 == TakeAll(s, steps) && s1.inFlight.None? && Current(s1) && s1.upstream.Some? && s1.policy.ShouldApply()
    ensures forall t :: t in APEX_COMBINER ==> At(Combine(s1, true).served, s1.Apex(t)) == Target(s1, t)
    ensures Combine(Combine(s1, true), true) == Combine(s1, true)
  {
    ARunKeepsWhenNothingIsLost(s, steps);
    CombiningIsComputingAnew(s1, true);
  }

  // ---- Runs that lose nothing by their steps -----------------------------------------------

  /** No change of the run leaves out a CSYNC: so where one displaces the others at every
      step (OneCsyncIsNotLeftOut). */
  ghost predicate NoCsyncLeftOutIn(s: State, steps: seq<Step>)
    requires CanHappen(s, steps)
    decreases |steps|
  {
    steps == [] || (
      && (ChangesContributions(steps[0]) ==> forall slot :: !LeavesOut(s, steps[0], slot))
      && NoCsyncLeftOutIn(Take(s, steps[0]), steps[1..]))
  }

  /** No cleanups are thrown away, every change notes what it leaves, and none falls
      between a combine's copy and its taking of the cleanups. */
  predicate Undisturbed(steps: seq<Step>, copying: bool)
    decreases |steps|
  {
    steps == [] ||
    match steps[0]
    case Copying(_) => Undisturbed(steps[1..], true)
    case CopyingOn(_) => Undisturbed(steps[1..], copying)
    case Refreshed(_) => Undisturbed(steps[1..], copying)
    case TakingCleanups => Undisturbed(steps[1..], false)
    case Staging(_) => Undisturbed(steps[1..], false)
    case Restarted(_) => Undisturbed(steps[1..], false)
    case Skipping => false
    case _ => Notes(steps[0]) && !copying && Undisturbed(steps[1..], false)
  }

  /** What the combine in flight has copied is merged, or, once it has taken the cleanups,
      its cleanup is still to come. */
  ghost predicate CopyStands(s: State, copying: bool) {
    s.inFlight.Some? ==>
      if s.inFlight.value.taken then forall slot :: InCopy(s, slot) ==> slot in s.merged || slot in s.pending
      else copying && forall slot :: InCopy(s, slot) ==> slot in s.merged
  }

  lemma ANotedChangeLetsItStand(s: State, step: Step)
    requires Kept(s) && Notes(step) && Enabled(s, step) && CopyStands(s, false)
    requires forall slot :: !LeavesOut(s, step, slot)
    ensures LosesNothing(s, step) && Take(s, step).inFlight == s.inFlight && CopyStands(Take(s, step), false)
  {
    ChangesAreNoted(s, step);
    var s' := Take(s, step);
    forall slot | slot in s.merged && slot !in s'.merged
      ensures slot in s'.pending
    {
      assert !LeavesOut(s, step, slot);
    }
    NotingLetsItStand(s, s');
  }

  lemma NotingLetsItStand(s: State, s': State)
    requires Changed(s, s') && CopyStands(s, false)
    requires forall slot :: slot in s.merged && slot !in s'.merged ==> slot in s'.pending
    ensures NothingLost(s, s') && s'.inFlight == s.inFlight && CopyStands(s', false)
  {
  }

  lemma APartOfACombineLetsItStand(s: State, step: Step, rest: seq<Step>, copying: bool)
    requires Kept(s) && !ChangesContributions(step) && Enabled(s, step) && CopyStands(s, copying)
        && Undisturbed([step] + rest, copying)
    ensures LosesNothing(s, step)
    ensures exists next :: Undisturbed(rest, next) && CopyStands(Take(s, step), next)
  {
    assert ([step] + rest)[0] == step && ([step] + rest)[1..] == rest;
    var next := step.Copying? || ((step.CopyingOn? || step.Refreshed?) && copying);
    assert Undisturbed(rest, next) && CopyStands(Take(s, step), next);
  }

  /** Such a run loses nothing, from a state that is accounted for and whose combine in
      flight, if any, still stands. */
  lemma {:induction false} AnUndisturbedRunLosesNothing(s: State, steps: seq<Step>, copying: bool)
    requires Kept(s) && CanHappen(s, steps) && CopyStands(s, copying) && Undisturbed(steps, copying)
        && NoCsyncLeftOutIn(s, steps)
    ensures NothingLostIn(s, steps) && KeptThroughout(s, steps)
    decreases |steps|
  {
    if steps != [] {
      var step, rest := steps[0], steps[1..];
      assert [step] + rest == steps;
      var next := false;
      if ChangesContributions(step) { ANotedChangeLetsItStand(s, step); }
      else {
        APartOfACombineLetsItStand(s, step, rest, copying);
        next :| Undisturbed(rest, next) && CopyStands(Take(s, step), next);
      }
      AStepKeepsWhenItLosesNothing(s, step);
      AnUndisturbedRunLosesNothing(Take(s, step), rest, next);
    }
  }

  /** So in every run that throws no cleanups away, saves its removals, leaves no CSYNC
      out and has no change between a combine's copy and its taking of the cleanups, the
      zone is accounted for in every state. */
  lemma UndisturbedRunsKeep(s: State, steps: seq<Step>)
    requires Kept(s) && s.inFlight.None? && CanHappen(s, steps) && Undisturbed(steps, false)
        && NoCsyncLeftOutIn(s, steps)
    ensures NothingLostIn(s, steps) && KeptThroughout(s, steps)
  {
    AnUndisturbedRunLosesNothing(s, steps, false);
  }

  lemma {:induction false} NotedChangesLetItStand(s: State, steps: seq<Step>)
    requires Kept(s) && CanHappen(s, steps) && NoCsyncLeftOutIn(s, steps) && CopyStands(s, false)
    requires forall i :: 0 <= i < |steps| ==> Notes(steps[i])
    ensures CopyStands(TakeAll(s, steps), false) && TakeAll(s, steps).inFlight == s.inFlight && Kept(TakeAll(s, steps))
    decreases |steps|
  {
    if steps != [] {
      ANotedChangeLetsItStand(s, steps[0]);
      AStepKeepsWhenItLosesNothing(s, steps[0]);
      NotedChangesLetItStand(Take(s, steps[0]), steps[1..]);
    }
  }

  /** Were the copy read and the cleanups taken under one lock that the changes take,
      none that falls between them and the batch could overtake it: whatever is changed
      and noted then, the combine loses nothing. */
  lemma CopiedAndTakenTogetherNothingIsOvertaken(s: State, seen: set<Slot>, steps: seq<Step>)
    requires Kept(s) && s.inFlight.None?
    requires CanHappen(TakeCleanups(Copy(s, seen)), steps) && NoCsyncLeftOutIn(TakeCleanups(Copy(s, seen)), steps)
    requires forall i :: 0 <= i < |steps| ==> Notes(steps[i])
    ensures var s1 := TakeAll(TakeCleanups(Copy(s, seen)), steps);
      && s1.inFlight.Some? && (forall slot :: !Overtaken(s1, slot))
      && Kept(Stage(s1, true))
  {
    CopyingKeeps(s, seen);
    TakingCleanupsKeeps(Copy(s, seen));
    var s0 := TakeCleanups(Copy(s, seen));
    NotedChangesLetItStand(s0, steps);
    var s1 := TakeAll(s0, steps);
    forall slot ensures !Overtaken(s1, slot) { assert InCopy(s1, slot) ==> slot in s1.merged || slot in s1.pending; }
    StagingKeeps(s1);
  }
}
