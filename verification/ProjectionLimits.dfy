/** What is stored and what a restart gives back; and where the projection ends: the
    three paths on which what nobody contributes any more stays in the zone. */
module ProjectionLimits {
  import opened Wrappers
  import opened Handover
  import opened Csync
  import opened Contributions
  import opened Projection

  // ---- What is stored ----------------------------------------------------------------

  predicate IsBy(step: Step, x: Sender) {
    match step
    case Adding(sender, _, _, _) => Name(sender) == x
    case Removing(sender, _, _, _) => Name(sender) == x
    case RemovingType(sender, _, _, _) => Name(sender) == x
    case Replacing(sender, _, _, _, _) => Name(sender) == x
    case Purging(origin, _, _) => origin == x && origin != ""
    case _ => false
  }

  /** What a sender's contribution of a slot is after a step of its own. */
  function After(step: Step, had: set<RR>, slot: Slot): set<RR> {
    match step
    case Adding(_, data, _, _) => had + Carried(data, slot)
    case Removing(_, data, _, _) => had - Carried(data, slot)
    case RemovingType(_, gone, _, _) => if slot == gone then {} else had
    case Replacing(_, put, rrs, _, _) => if slot == put then rrs else had
    case Purging(_, _, _) => {}
    case _ => had
  }

  lemma AddingSays(s: State, sender: Sender, data: seq<RRset>, saves: bool, pick: Picks, x: Sender, slot: Slot)
    ensures At(Of(Add(s, sender, data, saves, pick).contributions, x), slot) ==
      if x == Name(sender) then At(Of(s.contributions, x), slot) + Carried(data, slot)
          else At(Of(s.contributions, x), slot)
  {
  }

  lemma RemovingSays(s: State, sender: Sender, data: seq<RRset>, saves: bool, pick: Picks, x: Sender, slot: Slot)
    ensures At(Of(Remove(s, sender, data, saves, pick).contributions, x), slot) ==
      if x == Name(sender) then At(Of(s.contributions, x), slot) - Carried(data, slot)
          else At(Of(s.contributions, x), slot)
  {
  }

  lemma RemovingTypeSays(s: State, sender: Sender, gone: Slot, saves: bool, pick: Picks, x: Sender, slot: Slot)
    ensures At(Of(RemoveType(s, sender, gone, saves, pick).contributions, x), slot) ==
      if x == Name(sender) && slot == gone then {} else At(Of(s.contributions, x), slot)
  {
  }

  lemma ReplacingSays(s: State, sender: Sender, put: Slot, rrs: set<RR>, saves: bool, pick: Picks, x: Sender,
      slot: Slot)
    ensures At(Of(Replace(s, sender, put, rrs, saves, pick).contributions, x), slot) ==
      if x == Name(sender) && slot == put then rrs else At(Of(s.contributions, x), slot)
  {
    var had, c := Of(s.contributions, Name(sender)), Replace(s, sender, put, rrs, saves, pick).contributions;
    assert c == s.contributions[Name(sender) := if At(had, put) == rrs then had else if rrs == {} then had - {put}
        else had[put := rrs]];
  }

  lemma PurgingSays(s: State, origin: Sender, saves: bool, pick: Picks, x: Sender, slot: Slot)
    ensures At(Of(Purge(s, origin, saves, pick).contributions, x), slot) ==
      if x == origin && origin != "" then {} else At(Of(s.contributions, x), slot)
  {
  }

  lemma OthersSayNothing(s: State, step: Step)
    requires !step.Restarted? && !step.Adding? && !step.Removing? && !step.RemovingType? && !step.Replacing?
        && !step.Purging?
    requires Enabled(s, step)
    ensures Take(s, step).contributions == s.contributions
  {
  }

  /** A step adds, removes or replaces what it says in its sender's contribution, and
      leaves every other sender's as it was. */
  lemma OnlyWhatIsSaidChanges(s: State, step: Step, x: Sender, slot: Slot)
    requires !step.Restarted? && Enabled(s, step)
    ensures At(Of(Take(s, step).contributions, x), slot) ==
      if IsBy(step, x) then After(step, At(Of(s.contributions, x), slot), slot) else At(Of(s.contributions, x), slot)
  {
    match step
    case Adding(sender, data, saves, pick) => AddingSays(s, sender, data, saves, pick, x, slot);
    case Removing(sender, data, saves, pick) => RemovingSays(s, sender, data, saves, pick, x, slot);
    case RemovingType(sender, gone, saves, pick) => RemovingTypeSays(s, sender, gone, saves, pick, x, slot);
    case Replacing(sender, put, rrs, saves, pick) => ReplacingSays(s, sender, put, rrs, saves, pick, x, slot);
    case Purging(origin, saves, pick) => PurgingSays(s, origin, saves, pick, x, slot);
    case _ => OthersSayNothing(s, step);
  }

  // ---- The snapshot through runs --------------------------------------------------------

  predicate Saves(step: Step) {
    step.Adding? || step.Removing? || step.RemovingType? || step.Replacing? || step.Purging? ==> step.saves
  }

  lemma PuttingIsSaved(s: State, sender: Sender, m: RRsets, pick: Picks)
    requires Saved(s.rows, s.contributions)
    ensures Saved(Put(s, sender, m, true, pick).rows, s.contributions[sender := m])
  {
  }

  lemma TouchingIsSaved(s: State, sender: Sender)
    requires Saved(s.rows, s.contributions)
    ensures Saved(s.rows, Touched(s, sender).contributions)
  {
  }

  lemma PurgingIsSaved(s: State, origin: Sender, pick: Picks)
    requires Saved(s.rows, s.contributions)
    ensures Saved(Purge(s, origin, true, pick).rows, Purge(s, origin, true, pick).contributions)
  {
  }

  lemma LoadingIsSaved(rows: set<Row>)
    ensures Saved(rows, Load(rows))
  {
  }

  lemma AddingIsSaved(s: State, sender: Sender, data: seq<RRset>, pick: Picks)
    requires Saved(s.rows, s.contributions)
    ensures Saved(Add(s, sender, data, true, pick).rows, Add(s, sender, data, true, pick).contributions)
  {
    TouchingIsSaved(s, Name(sender));
    PuttingIsSaved(s, Name(sender), Added(Of(s.contributions, Name(sender)), data), pick);
  }

  lemma RemovingIsSaved(s: State, sender: Sender, data: seq<RRset>, pick: Picks)
    requires Saved(s.rows, s.contributions)
    ensures Saved(Remove(s, sender, data, true, pick).rows, Remove(s, sender, data, true, pick).contributions)
  {
  }

  lemma RemovingTypeIsSaved(s: State, sender: Sender, slot: Slot, pick: Picks)
    requires Saved(s.rows, s.contributions)
    ensures Saved(RemoveType(s, sender, slot, true, pick).rows, RemoveType(s, sender, slot, true, pick).contributions)
  {
  }

  lemma ReplacingIsSaved(s: State, sender: Sender, slot: Slot, rrs: set<RR>, pick: Picks)
    requires Saved(s.rows, s.contributions)
    ensures Saved(Replace(s, sender, slot, rrs, true, pick).rows,
        Replace(s, sender, slot, rrs, true, pick).contributions)
  {
    var had := Of(s.contributions, Name(sender));
    TouchingIsSaved(s, Name(sender));
    PuttingIsSaved(s, Name(sender), if rrs == {} then had - {slot} else had[slot := rrs], pick);
  }

  lemma EveryStepIsSaved(s: State, step: Step)
    requires Saved(s.rows, s.contributions) && Saves(step) && Enabled(s, step)
    ensures Saved(Take(s, step).rows, Take(s, step).contributions)
  {
    match step
    case Adding(sender, data, _, pick) => AddingIsSaved(s, sender, data, pick);
    case Removing(sender, data, _, pick) => RemovingIsSaved(s, sender, data, pick);
    case RemovingType(sender, slot, _, pick) => RemovingTypeIsSaved(s, sender, slot, pick);
    case Replacing(sender, slot, rrs, _, pick) => ReplacingIsSaved(s, sender, slot, rrs, pick);
    case Purging(origin, _, pick) => PurgingIsSaved(s, origin, pick);
    case Restarted(_) => LoadingIsSaved(s.rows);
    case RolesHanded(_) =>
    case Rebuilding(_) =>
    case PolicyChanged(_) =>
    case Refreshed(_) =>
    case Copying(_) =>
    case CopyingOn(_) =>
    case TakingCleanups =>
    case Staging(_) =>
    case Skipping =>
  }

  lemma {:induction false} EveryRunIsSaved(s: State, steps: seq<Step>)
    requires CanHappen(s, steps) && Saved(s.rows, s.contributions) && forall i :: 0 <= i < |steps| ==> Saves(steps[i])
    ensures Saved(TakeAll(s, steps).rows, TakeAll(s, steps).contributions)
    decreases |steps|
  {
    if steps != [] {
      EveryStepIsSaved(s, steps[0]);
      EveryRunIsSaved(Take(s, steps[0]), steps[1..]);
    }
  }

  lemma RestartGivesItBack(s: State, pick: Picks)
    requires Saved(s.rows, s.contributions) && WellFormed(s.contributions)
    ensures Restart(s, pick).contributions == Contributing(s.contributions)
    ensures Restart(s, pick).merged == Merged(s.contributions, s.handed, pick)
  {
    TheSnapshotGivesItBack(s.rows, s.contributions);
    TheRestoredMergeIsTheSame(s.contributions, s.handed, pick);
  }

  /** A restart, the zone loaded again and a combine serve at the apex what a combine
      before the restart would have: of NS, where the upstream or a provider has one; of
      CSYNC, where one displaces the others. */
  lemma ARestartChangesNothingServed(s: State, t: nat, pick: Picks, s1: State)
    requires Kept(s) && s.inFlight.None? && Current(s) && s.upstream.Some? && s.policy.ShouldApply()
        && Saved(s.rows, s.contributions)
    requires Picked(s.contributions, s.self, s.picked) && Enabled(s, Restarted(pick))
    requires t in APEX_COMBINER && (t == NS ==> At(s.loaded, s.Apex(NS)) != {})
    requires t == CSYNC ==> exists w :: Served(HeldAt(s.contributions, s.zone), w, s.self)
    requires s1 == Refresh(Restart(s, pick), s.loaded)
    ensures At(Combine(s1, true).served, s.Apex(t)) == At(Combine(s, true).served, s.Apex(t))
  {
    TheRestartMergesTheSame(s, t, pick);
    RestartingKeeps(s, pick);
    RestartingIsCurrent(s, pick);
    LoadedKeeps(Restart(s, pick), s.loaded, s1);
    BothServeTheTarget(s, s1, t);
  }

  lemma TheRestartMergesTheSame(s: State, t: nat, pick: Picks)
    requires Saved(s.rows, s.contributions) && WellFormed(s.contributions)
    requires Picked(s.contributions, s.self, s.picked) && Picked(Load(s.rows), s.self, pick)
    requires t == CSYNC ==> exists w :: Served(HeldAt(s.contributions, s.zone), w, s.self)
    ensures At(Restart(s, pick).merged, s.Apex(t)) == At(Merged(s.contributions, s.handed, s.picked), s.Apex(t))
  {
    RestartGivesItBack(s, pick);
    if t == CSYNC { ARestartPicksTheSame(s, pick); }
    PickedElsewhere(s.contributions, s.handed, pick, s.picked, s.Apex(t));
  }

  lemma ARestartPicksTheSame(s: State, pick: Picks)
    requires Load(s.rows) == Contributing(s.contributions) && Picked(s.contributions, s.self, s.picked)
        && Picked(Load(s.rows), s.self, pick)
    requires exists w :: Served(HeldAt(s.contributions, s.zone), w, s.self)
    ensures PickOf(pick, s.zone) == PickOf(s.picked, s.zone)
  {
    var held := HeldAt(s.contributions, s.zone);
    HeldAlike(s.contributions, s.zone);
    var w :| Served(held, w, s.self);
    assert PickedAt(HeldAt(Load(s.rows), s.zone), PickOf(pick, s.zone), s.self);
    TheOneServedIsPicked(held, w, PickOf(pick, s.zone), s.self);
    TheOneServedIsPicked(held, w, PickOf(s.picked, s.zone), s.self);
  }

  lemma BothServeTheTarget(s: State, s1: State, t: nat)
    requires Kept(s) && s.inFlight.None? && Current(s) && s.upstream.Some? && s.policy.ShouldApply()
        && t in APEX_COMBINER
    requires Kept(s1) && s1.inFlight.None? && Current(s1) && s1.upstream.Some?
    requires s1.zone == s.zone && s1.loaded == s.loaded && s1.policy == s.policy
    requires At(Merged(s1.contributions, s1.handed, s1.picked), s.Apex(t)) ==
        At(Merged(s.contributions, s.handed, s.picked), s.Apex(t))
    requires t == NS ==> At(s.loaded, s.Apex(NS)) != {}
    ensures At(Combine(s1, true).served, s.Apex(t)) == At(Combine(s, true).served, s.Apex(t))
  {
    CombinedAt(s, t);
    CombinedAt(s1, t);
  }

  lemma LoadedKeeps(s: State, content: RRsets, s1: State)
    requires Kept(s) && s.inFlight.None? && Current(s) && NoEmpty(content) && s1 == Refresh(s, content)
    ensures Kept(s1) && Current(s1)
    ensures s1 == s.(served := content, upstream := s1.upstream, loaded := content)
  {
  }

  // ---- Where it ends: a removal that is not saved ----------------------------------------

  predicate IsRemoval(step: Step) { step.Removing? || step.RemovingType? || step.Purging? }

  predicate Empties(s: State, step: Step, slot: Slot)
    requires Enabled(s, step)
  {
    slot in s.merged && slot !in Take(s, step).merged
  }

  /** A removal that is not saved keeps the zone accounted for exactly when every RRset
      it empties in the merge is pending already, is noted as left out by the sets handed,
      or has nothing to clean up: its own cleanup is never noted. One that is saved does,
      but for a CSYNC that it leaves out. */
  lemma ARemovalMustBeSaved(s: State, step: Step)
    requires Kept(s) && IsRemoval(step) && Enabled(s, step)
    ensures !step.saves ==> (Kept(Take(s, step)) <==> forall slot :: Empties(s, step, slot) ==>
              slot in s.pending + Filtered(Take(s, step).contributions, s.handed) || Spared(s, slot))
    ensures step.saves ==> (Kept(Take(s, step)) <==> forall slot :: LeavesOut(s, step, slot) ==>
              slot in Take(s, step).pending || Spared(s, slot))
  {
    AStepKeepsWhenItLosesNothing(s, step);
    if step.saves { NotedChangesLoseOnlyACsync(s, step); }
    else { UnsavedRemovalsNoteNothing(s, step); }
  }

  lemma UnsavedRemovalsNoteNothing(s: State, step: Step)
    requires Kept(s) && IsRemoval(step) && !step.saves && Enabled(s, step)
    ensures Take(s, step) == s || Take(s, step).pending == s.pending + Filtered(Take(s, step).contributions, s.handed)
  {
  }

  /** A zone that serves one record contributed by one sender in place of the
      upstream's. */
  function Serving(zone: string, sender: Sender, t: nat, rr: RR, up: RR, policy: EditPolicy): State {
    var slot := Slot(zone, t);
    State(zone, "", map[sender := map[slot := {rr}]], map[slot := {rr}],
          if t == CSYNC && rr.CsyncRR? then map[zone := HeldCsync(sender, rr.csync)] else map[],
          {}, {Row(sender, slot, rr)}, None, policy,
          UpstreamOf(zone, map[slot := {up}]), map[slot := {rr}], map[slot := {up}], None)
  }

  lemma ServingIsKept(zone: string, sender: Sender, t: nat, rr: RR, up: RR, policy: EditPolicy)
    requires t in APEX_COMBINER
    ensures var s := Serving(zone, sender, t, rr, up, policy); Kept(s) && s.upstream == Some(map[t := {up}])
  {
    var s := Serving(zone, sender, t, rr, up, policy);
    OneOfTheUpstream(zone, t, up);
    assert Contributes(s.contributions, sender, Slot(zone, t));
    forall slot ensures Accounted(s, slot) { OnlyThatIsServed(s, slot, t, rr, up); }
  }

  lemma OneOfTheUpstream(zone: string, t: nat, up: RR)
    requires t in APEX_COMBINER
    ensures UpstreamOf(zone, map[Slot(zone, t) := {up}]) == Some(map[t := {up}])
  {
    var content: RRsets := map[Slot(zone, t) := {up}];
    assert Slot(zone, t) in content;
    assert Snapshot(zone, content) == map[t := {up}];
  }

  lemma OnlyThatIsServed(s: State, slot: Slot, t: nat, rr: RR, up: RR)
    requires s.merged == s.served == map[s.Apex(t) := {rr}] && s.upstream == Some(map[t := {up}]) && s.inFlight.None?
    ensures Accounted(s, slot)
  {
  }

  /** Nobody contributes anything; what was contributed is served, and nothing of it is
      pending. */
  predicate LeftServing(s: State, slot: Slot, rr: RR) {
    s.merged == map[] && slot !in s.pending && s.inFlight.None? && At(s.served, slot) == {rr}
  }

  lemma NobodyIsPicked(c: Contribs, self: string)
    requires Pairs(c) == {}
    ensures Picked(c, self, map[])
  {
    forall owner ensures PickedAt(HeldAt(c, owner), PickOf(map[], owner), self) {
      assert forall h :: h in HeldAt(c, owner) ==> (h.sender, Slot(owner, CSYNC)) in Pairs(c);
    }
  }

  lemma TheLastGone(c: Contribs, sender: Sender, slot: Slot, rr: RR)
    requires c == map[sender := map[slot := {rr}]]
    ensures c[sender] - {slot} == map[] && c[sender := map[]] == map[sender := map[]]
  {
  }

  lemma NothingToMergeOf(c: Contribs, handed: Option<Roles>, self: string)
    requires forall x :: x in c ==> c[x] == map[]
    ensures Merged(c, handed, map[]) == map[] && Filtered(c, handed) == {} && Picked(c, self, map[])
  {
    assert Pairs(c) == {};
    NobodyIsPicked(c, self);
  }

  lemma RemovingTheLast(s: State, sender: Sender, slot: Slot, rr: RR, saves: bool)
    requires sender != "" && s.contributions == map[sender := map[slot := {rr}]]
    ensures Enabled(s, RemovingType(sender, slot, saves, map[]))
    ensures var s' := RemoveType(s, sender, slot, saves, map[]);
      s' == s.(contributions := map[sender := map[]], merged := map[], picked := map[],
          pending := s.pending + (if saves then {slot} else {}), rows := s'.rows)
  {
    TheLastGone(s.contributions, sender, slot, rr);
    NothingToMergeOf(map[sender := map[]], s.handed, s.self);
  }

  lemma RemovingTheLastByName(s: State, sender: Sender, slot: Slot, rr: RR)
    requires sender != "" && s.contributions == map[sender := map[slot := {rr}]]
    ensures Enabled(s, Removing(sender, [RRset(slot, [rr])], false, map[]))
    ensures Remove(s, sender, [RRset(slot, [rr])], false, map[]) ==
        s.(contributions := map[sender := map[]], merged := map[], picked := map[])
  {
    var data := [RRset(slot, [rr])];
    assert data[0].slot == slot && rr in data[0].rrs;
    assert rr in Carried(data, slot);
    assert Without(map[slot := {rr}], data) == map[];
    TheLastGone(s.contributions, sender, slot, rr);
    NothingToMergeOf(map[sender := map[]], s.handed, s.self);
    assert s.pending + {} == s.pending;
  }

  lemma PurgingTheLast(s: State, sender: Sender, slot: Slot, rr: RR)
    requires sender != "" && s.contributions == map[sender := map[slot := {rr}]]
    ensures Enabled(s, Purging(sender, false, map[]))
    ensures Purge(s, sender, false, map[]) == s.(contributions := map[], merged := map[], picked := map[])
  {
    assert s.contributions - {sender} == map[];
    NothingToMergeOf(map[], s.handed, s.self);
  }

  /** The last contribution removed in any of the three ways and not saved, its record
      stays. */
  lemma UnsavedRemovalsLeaveTheLast(zone: string, sender: Sender, t: nat, rr: RR, up: RR, policy: EditPolicy,
      step: Step)
    requires t in APEX_COMBINER && rr != up && sender != ""
    requires || step == RemovingType(sender, Slot(zone, t), false, map[])
             || step == Removing(sender, [RRset(Slot(zone, t), [rr])], false, map[])
             || step == Purging(sender, false, map[])
    ensures var s := Serving(zone, sender, t, rr, up, policy);
      Kept(s) && Enabled(s, step) && !Kept(Take(s, step)) && LeftServing(Take(s, step), Slot(zone, t), rr)
  {
    var s, slot := Serving(zone, sender, t, rr, up, policy), Slot(zone, t);
    ServingIsKept(zone, sender, t, rr, up, policy);
    RemovingTheLast(s, sender, slot, rr, false);
    RemovingTheLastByName(s, sender, slot, rr);
    PurgingTheLast(s, sender, slot, rr);
    LeftByNobody(s, Take(s, step), slot, rr, up);
  }

  lemma LeftByNobody(s: State, s': State, slot: Slot, rr: RR, up: RR)
    requires s.served == map[slot := {rr}] && s.upstream == Some(map[slot.rrtype := {up}]) && rr != up
    requires slot.owner == s.zone && slot.rrtype in APEX_COMBINER && s.pending == {} && s.inFlight.None?
    requires s' == s.(contributions := s'.contributions, merged := map[], picked := map[], rows := s'.rows)
    ensures !Kept(s') && LeftServing(s', slot, rr)
  {
    assert rr in At(s'.served, slot);
    assert !Accounted(s', slot);
  }

  // ---- A combine while the edits are not to be applied -------------------------------------

  /** A combine keeps it exactly when the edits are to be applied, or there is nothing to
      clean up: else it throws the cleanups away, of what an earlier policy applied as
      well. */
  lemma ACombineMustApply(s: State, works: bool)
    requires Kept(s) && s.inFlight.None?
    ensures Kept(Combine(s, works)) <==>
      s.policy.ShouldApply() || forall slot :: slot in s.pending && slot !in s.merged ==> AsUpstream(s, slot)
  {
    if s.policy.ShouldApply() { CombiningKeeps(s, works); }
    else { SkippingKeeps(s); }
  }

  lemma CombiningKeeps(s: State, works: bool)
    requires Kept(s) && s.inFlight.None? && s.policy.ShouldApply()
    ensures Kept(Combine(s, works))
  {
    CombineIsItsParts(s, works);
    CopyingKeeps(s, s.merged.Keys);
    TakingCleanupsKeeps(Copy(s, s.merged.Keys));
    var s1 := TakeCleanups(Copy(s, s.merged.Keys));
    if works { StagingKeeps(s1); } else { AFailedBatchKeeps(s1); }
  }

  /** The last contribution removed and saved, and a combine made under a policy that
      does not apply the edits: its record stays. */
  lemma AnUnappliedCombineLeavesTheLast(zone: string, sender: Sender, t: nat, rr: RR, up: RR, policy: EditPolicy)
    requires t in APEX_COMBINER && rr != up && sender != "" && !policy.ShouldApply()
    ensures var s := RemoveType(Serving(zone, sender, t, rr, up, policy), sender, Slot(zone, t), true, map[]);
      Kept(s) && !Kept(Combine(s, true)) && LeftServing(Combine(s, true), Slot(zone, t), rr)
  {
    var s0, slot := Serving(zone, sender, t, rr, up, policy), Slot(zone, t);
    ServingIsKept(zone, sender, t, rr, up, policy);
    var s := RemoveType(s0, sender, slot, true, map[]);
    RemovingTheLast(s0, sender, slot, rr, true);
    assert slot in s.pending;
    ARemovalMustBeSaved(s0, RemovingType(sender, slot, true, map[]));
    assert !Accounted(Combine(s, true), slot);
  }

  // ---- A removal inside a combine -------------------------------------------------------------

  /** The combine has read the contributions; the last one is removed, saved and its
      cleanup noted; the combine takes that cleanup, and finds the type contributed in
      its copy. Every save worked, the edits apply, and its record stays. */
  lemma ARemovalInsideACombine(zone: string, sender: Sender, t: nat, rr: RR, up: RR, policy: EditPolicy,
      steps: seq<Step>)
    requires t in APEX_COMBINER && rr != up && sender != "" && policy.ShouldApply() && policy.CanApply(t)
    requires steps == [Copying({Slot(zone, t)}), RemovingType(sender, Slot(zone, t), true, map[]), TakingCleanups,
        Staging(true)]
    ensures var s := Serving(zone, sender, t, rr, up, policy);
      && Kept(s) && CanHappen(s, steps) && !Kept(TakeAll(s, steps)) && LeftOver(TakeAll(s, steps), Slot(zone, t), rr)
  {
    var s, slot := Serving(zone, sender, t, rr, up, policy), Slot(zone, t);
    ServingIsKept(zone, sender, t, rr, up, policy);
    RemovedInside(s, sender, slot, rr, up, steps);
  }

  /** rr is served, and neither merged nor pending, nor in the hand of a combine. */
  predicate LeftOver(s: State, slot: Slot, rr: RR) {
    s.merged == map[] && s.pending == {} && s.inFlight.None? && rr in At(s.served, slot)
  }

  lemma RemovedInside(s: State, sender: Sender, slot: Slot, rr: RR, up: RR, steps: seq<Step>)
    requires s.contributions == map[sender := map[slot := {rr}]] && s.merged == map[slot := {rr}] && s.pending == {}
        && s.inFlight.None?
    requires slot.owner == s.zone && slot.rrtype in APEX_COMBINER && s.policy.CanApply(slot.rrtype)
    requires s.upstream == Some(map[slot.rrtype := {up}]) && rr != up && sender != ""
    requires steps == [Copying({slot}), RemovingType(sender, slot, true, map[]), TakingCleanups, Staging(true)]
    ensures CanHappen(s, steps) && !Kept(TakeAll(s, steps)) && LeftOver(TakeAll(s, steps), slot, rr)
  {
    var i := Input(s.zone, map[slot := {rr}], s.policy, s.upstream, {});
    TheCopyHasIt(s, slot, rr);
    var s1 := Copy(s, {slot});
    TheRemovalComes(s1, i, sender, slot, rr);
    var s2 := RemoveType(s1, sender, slot, true, map[]);
    var s3 := TakeCleanups(s2);
    StagesTheCopy(s3, i, slot, rr, up);
    ItsRun(s, sender, slot, steps, s1, s2, s3);
  }

  lemma ItsRun(s: State, sender: Sender, slot: Slot, steps: seq<Step>, s1: State, s2: State, s3: State)
    requires steps == [Copying({slot}), RemovingType(sender, slot, true, map[]), TakingCleanups, Staging(true)]
    requires s.inFlight.None? && s1 == Copy(s, {slot})
    requires Enabled(s1, steps[1]) && s2 == Take(s1, steps[1])
    requires s2.inFlight.Some? && !s2.inFlight.value.taken && s3 == TakeCleanups(s2) && s3.inFlight.Some?
        && s3.inFlight.value.taken
    ensures CanHappen(s, steps) && TakeAll(s, steps) == Stage(s3, true)
  {
    OneThenTheRest(s3, steps[3], []);
    OneThenTheRest(s2, steps[2], steps[3..]);
    OneThenTheRest(s1, steps[1], steps[2..]);
    OneThenTheRest(s, steps[0], steps[1..]);
    assert steps == [steps[0]] + steps[1..] && steps[1..] == [steps[1]] + steps[2..]
        && steps[2..] == [steps[2]] + steps[3..];
    assert steps[3..] == [steps[3]] + [];
  }

  lemma TheCopyHasIt(s: State, slot: Slot, rr: RR)
    requires s.merged == map[slot := {rr}]
    ensures Copy(s, {slot}) == s.(inFlight := Some(Flight(Input(s.zone, map[slot := {rr}], s.policy, s.upstream,
        {}), false)))
  {
    assert Copy(s, {slot}).inFlight.value.input.contributions == s.merged;
  }

  /** The removal falls between the copy and the taking of the cleanups. */
  lemma TheRemovalComes(s: State, i: Input, sender: Sender, slot: Slot, rr: RR)
    requires sender != "" && s.contributions == map[sender := map[slot := {rr}]] && s.pending == {}
        && s.inFlight == Some(Flight(i, false))
    ensures var s' := RemoveType(s, sender, slot, true, map[]);
      && Enabled(s, RemovingType(sender, slot, true, map[])) && s'.inFlight == s.inFlight
      && TakeCleanups(s') == s'.(pending := {}, inFlight := Some(Flight(i.(cleanups := {slot}), true)))
      && s'.merged == map[] && s'.upstream == s.upstream && s'.zone == s.zone
  {
    RemovingTheLast(s, sender, slot, rr, true);
    assert s.pending + {slot} == {slot};
  }

  lemma StagesTheCopy(s: State, i: Input, slot: Slot, rr: RR, up: RR)
    requires i.contributions == map[slot := {rr}] && i.policy.CanApply(slot.rrtype) && i.zone == s.zone == slot.owner
        && slot.rrtype in APEX_COMBINER
    requires s.inFlight == Some(Flight(i.(cleanups := {slot}), true))
        && i.upstream == s.upstream == Some(map[slot.rrtype := {up}])
    requires rr != up && s.merged == map[] && s.pending == {}
    ensures var s' := Stage(s, true);
      LeftOver(s', slot, rr) && !Accounted(s', slot)
  {
    ProjectedAt(i.(cleanups := {slot}), s.served, slot);
    assert rr in At(Stage(s, true).served, slot);
  }

  lemma OneThenTheRest(s: State, step: Step, rest: seq<Step>)
    requires Enabled(s, step) && CanHappen(Take(s, step), rest)
    ensures CanHappen(s, [step] + rest) && TakeAll(s, [step] + rest) == TakeAll(Take(s, step), rest)
  {
    assert ([step] + rest)[0] == step && ([step] + rest)[1..] == rest;
  }

  // ---- A CSYNC left out of the merge -------------------------------------------------------

  /** A zone serves a CSYNC in place of the upstream's, nothing of it pending, and of each
      sender one is held: a merge built again keeps it accounted for, whatever its
      listings, exactly when one of those held displaces the others. Else every sender's
      turn may be answered with another's, none is merged, and no cleanup is noted. */
  lemma ARebuildKeepsTheCsync(s: State)
    requires Kept(s) && s.inFlight.None? && s.Apex(CSYNC) in s.merged && s.Apex(CSYNC) !in s.pending
        && !AsUpstream(s, s.Apex(CSYNC))
    requires var held := HeldAt(s.contributions, s.zone);
      held != {} && forall h, o :: h in held && o in held && h.sender == o.sender ==> h == o
    ensures (forall pick :: Enabled(s, Rebuilding(pick)) ==> Accounted(Rebuilt(s, pick), s.Apex(CSYNC))) <==>
            exists w :: Served(HeldAt(s.contributions, s.zone), w, s.self)
  {
    var slot, held := s.Apex(CSYNC), HeldAt(s.contributions, s.zone);
    NoneIsPickedWhenNoneDisplacesAll(held, s.self);
    if w :| Served(held, w, s.self) {
      forall pick | Enabled(s, Rebuilding(pick)) ensures Accounted(Rebuilt(s, pick), slot) {
        assert PickedAt(held, PickOf(pick, s.zone), s.self);
        TheOneServedIsPicked(held, w, PickOf(pick, s.zone), s.self);
        PickedIsContributed(s.contributions, s.self, pick, slot);
        TheMergeHasWhatIsContributed(s.contributions, s.handed, pick, slot, CsyncRR(w.rr));
      }
    } else {
      var pick := SomePicksBut(s.contributions, s.self, s.zone);
      ACsyncIsLeftOut(s, pick);
    }
  }

  lemma ACsyncIsLeftOut(s: State, pick: Picks)
    requires Kept(s) && s.inFlight.None? && s.Apex(CSYNC) in s.merged && s.Apex(CSYNC) !in s.pending
        && !AsUpstream(s, s.Apex(CSYNC))
    requires s.zone !in pick
    ensures !Accounted(Rebuilt(s, pick), s.Apex(CSYNC)) && LeftOut(s.contributions, pick, s.Apex(CSYNC))
  {
    var slot := s.Apex(CSYNC);
    assert Contributed(s.contributions, slot) && LeftOut(s.contributions, pick, slot);
    MergedOrFiltered(s.contributions, s.handed, pick, slot);
    NeitherMergedNorPending(s, Rebuilt(s, pick), slot);
  }

  lemma NeitherMergedNorPending(s: State, s': State, slot: Slot)
    requires s.inFlight.None? && slot.rrtype == CSYNC && slot !in s.pending && !AsUpstream(s, slot)
        && slot !in s'.merged
    requires s' == s.(merged := s'.merged, picked := s'.picked,
        pending := s.pending + Filtered(s.contributions, s.handed))
    ensures !Accounted(s', slot)
  {
    assert slot !in Filtered(s.contributions, s.handed);
  }

  lemma SomePicksBut(c: Contribs, self: string, zone: string) returns (pick: Picks)
    requires PickedAt(HeldAt(c, zone), None, self)
    ensures Picked(c, self, pick) && zone !in pick
  {
    pick := PicksOver(c, self, (set x, slot | x in c && slot in c[x] :: slot.owner) - {zone});
    forall owner ensures PickedAt(HeldAt(c, owner), PickOf(pick, owner), self) {
      assert forall h :: h in HeldAt(c, owner) ==> Slot(owner, CSYNC) in c[h.sender];
    }
  }

  lemma {:induction false} PicksOver(c: Contribs, self: string, owners: set<string>) returns (pick: Picks)
    ensures forall owner :: owner in pick ==> owner in owners && MayServe(HeldAt(c, owner), pick[owner], self)
    ensures forall owner :: owner in owners && owner !in pick ==> HeldAt(c, owner) == {}
    decreases owners
  {
    pick := map[];
    if owners != {} {
      var owner :| owner in owners;
      pick := PicksOver(c, self, owners - {owner});
      if HeldAt(c, owner) != {} {
        var h := OneMayBePicked(HeldAt(c, owner), self);
        pick := pick[owner := h];
      }
    }
  }

  /** And what is left in any of these ways does not come right: a combine leaves what is
      served where nothing is contributed and no cleanup is pending. */
  lemma WhatIsLeftStays(s: State, slot: Slot, works: bool)
    requires slot !in s.merged && slot !in s.pending
    ensures At(Combine(s, works).served, slot) == At(s.served, slot) && slot !in Combine(s, works).pending
  {
    ProjectedAt(InputOf(s), s.served, slot);
  }
}
