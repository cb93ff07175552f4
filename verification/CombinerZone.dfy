/** A zone at its combiner: the object the contribution calls and the combine work
    on, in its own loops, shown to be what Projection's functions say. */
module CombinerZone {
  import opened Collections
  import opened Wrappers
  import opened Handover
  import opened Csync
  import opened Contributions
  import opened Projection

  /** m with v served at a slot; nothing there when v is empty. */
  function Set(m: RRsets, slot: Slot, v: set<RR>): RRsets { if v == {} then m - {slot} else m[slot := v] }

  // ---- Adding, removing and loading, record by record ---------------------------------

  lemma AddedOneMore(had: RRsets, data: seq<RRset>, i: nat)
    requires i < |data|
    ensures var a := Added(had, data[..i]);
      Added(had, data[..i + 1]) == if data[i].rrs == [] then a
          else a[data[i].slot := At(a, data[i].slot) + Elements(data[i].rrs)]
  {
    NamedOneMore(data, i);
    var a, b := Added(had, data[..i]), Added(had, data[..i + 1]);
    var want := if data[i].rrs == [] then a else a[data[i].slot := At(a, data[i].slot) + Elements(data[i].rrs)];
    assert b.Keys == want.Keys;
    forall slot | slot in b ensures b[slot] == want[slot] { AddedOneMoreAt(had, data, i, slot); }
    SameMap(b, want);
  }

  lemma AddedOneMoreAt(had: RRsets, data: seq<RRset>, i: nat, slot: Slot)
    requires i < |data|
    ensures At(had, slot) + Carried(data[..i + 1], slot) ==
      At(Added(had, data[..i]), slot) + if data[i].slot == slot then Elements(data[i].rrs) else {}
  {
  }

  lemma NamedOneMore(data: seq<RRset>, i: nat)
    requires i < |data|
    ensures NamedSlots(data[..i + 1]) == NamedSlots(data[..i]) + if data[i].rrs == [] then {} else {data[i].slot}
  {
  }

  /** had without the records gone, and without the RRsets that leaves empty. */
  function Minus(had: RRsets, gone: set<(Slot, RR)>): RRsets {
    map slot | slot in had && (exists rr :: rr in had[slot] && (slot, rr) !in gone) ::
      set rr | rr in had[slot] && (slot, rr) !in gone
  }

  function GoneBy(data: seq<RRset>): set<(Slot, RR)> {
    set i, rr | 0 <= i < |data| && rr in data[i].rrs :: (data[i].slot, rr)
  }

  lemma MinusIsWithout(had: RRsets, data: seq<RRset>)
    ensures Minus(had, GoneBy(data)) == Without(had, data)
  {
    forall slot, rr ensures (slot, rr) in GoneBy(data) <==> rr in Carried(data, slot) { }
    var m, w := Minus(had, GoneBy(data)), Without(had, data);
    forall slot | slot in had ensures slot in m <==> slot in w {
      if slot in w { var rr :| rr in w[slot]; assert rr in had[slot] && (slot, rr) !in GoneBy(data); }
      if slot in m
    {
        var rr :| rr in had[slot] && (slot, rr) !in GoneBy(data);
        assert rr in had[slot] - Carried(data, slot);
      }
    }
    forall slot | slot in m ensures m[slot] == w[slot] { }
  }

  lemma MinusOneMore(had: RRsets, gone: set<(Slot, RR)>, slot: Slot, rr: RR)
    requires NoEmpty(had)
    ensures var m := Minus(had, gone);
      && NoEmpty(m)
      && Minus(had, gone + {(slot, rr)}) == if slot in m then Set(m, slot, m[slot] - {rr}) else m
  {
    var m, n := Minus(had, gone), Minus(had, gone + {(slot, rr)});
    forall s | s in m ensures m[s] != {} { var x :| x in had[s] && (s, x) !in gone; assert x in m[s]; }
    var want := if slot in m then Set(m, slot, m[slot] - {rr}) else m;
    forall s ensures s in n <==> s in want {
      if s in n {
        var x :| x in had[s] && (s, x) !in gone + {(slot, rr)};
        assert x in m[s];
        assert s == slot ==> x in m[slot] - {rr};
      }
      if s in want {
        if s == slot { var x :| x in m[slot] - {rr}; assert x in had[s] && (s, x) !in gone + {(slot, rr)}; }
        else { var x :| x in m[s]; assert x in had[s] && (s, x) !in gone + {(slot, rr)}; }
      }
    }
    forall s | s in n ensures n[s] == want[s] { }
  }

  lemma GoneOneMore(data: seq<RRset>, i: nat)
    requires i < |data|
    ensures GoneBy(data[..i + 1]) == GoneBy(data[..i]) + (set rr | rr in data[i].rrs :: (data[i].slot, rr))
  {
  }

  // ---- Merging, sender by sender -----------------------------------------------------

  lemma UnionOneMore(c: Contribs, handed: Option<Roles>, pick: Picks, done: set<(Sender, Slot)>, x: Sender,
      slot: Slot, q: Slot)
    requires AllContribute(c, done) && Contributes(c, x, slot)
    ensures Union(c, handed, pick, done + {(x, slot)}, q) ==
      Union(c, handed, pick, done, q) + if q == slot then Gives(c, handed, pick, x, slot) else {}
  {
  }

  lemma MergedOneMore(c: Contribs, handed: Option<Roles>, pick: Picks, done: set<(Sender, Slot)>, x: Sender, slot: Slot)
    requires AllContribute(c, done) && Contributes(c, x, slot)
    ensures var m := MergedOver(c, handed, pick, done);
      MergedOver(c, handed, pick, done + {(x, slot)}) == Set(m, slot, At(m, slot) + Gives(c, handed, pick, x, slot))
  {
    var m, n := MergedOver(c, handed, pick, done), MergedOver(c, handed, pick, done + {(x, slot)});
    var v := At(m, slot) + Gives(c, handed, pick, x, slot);
    MergedOverIsNotEmpty(c, handed, pick, done);
    MergedOverIsNotEmpty(c, handed, pick, done + {(x, slot)});
    SetAt(m, slot, v);
    forall q ensures At(n, q) == At(Set(m, slot, v), q) { MergedOneMoreAt(c, handed, pick, done, x, slot, q); }
    SameRRsets(n, Set(m, slot, v));
  }

  lemma MergedOneMoreAt(c: Contribs, handed: Option<Roles>, pick: Picks, done: set<(Sender, Slot)>, x: Sender,
      slot: Slot, q: Slot)
    requires AllContribute(c, done) && Contributes(c, x, slot)
    ensures At(MergedOver(c, handed, pick, done + {(x, slot)}), q) ==
            At(MergedOver(c, handed, pick, done), q) + if q == slot then Gives(c, handed, pick, x, slot) else {}
  {
    UnionOneMore(c, handed, pick, done, x, slot, q);
    MergedAt(c, handed, pick, done, q);
    MergedAt(c, handed, pick, done + {(x, slot)}, q);
  }

  lemma NothingToMerge(c: Contribs, handed: Option<Roles>, pick: Picks, done: set<(Sender, Slot)>, x: Sender,
      slot: Slot)
    requires AllContribute(c, done) && Contributes(c, x, slot) && Gives(c, handed, pick, x, slot) == {}
    ensures MergedOver(c, handed, pick, done + {(x, slot)}) == MergedOver(c, handed, pick, done)
  {
    MergedOneMore(c, handed, pick, done, x, slot);
    MergedOverIsNotEmpty(c, handed, pick, done);
    SettingTheSame(MergedOver(c, handed, pick, done), slot);
  }

  // ---- The CSYNC the merge takes -----------------------------------------------------------

  /** What the turns done so far have led to: what is picked was served at its sender's
      turn; where nothing is, each turn served another's. */
  ghost predicate PickedSoFar(c: Contribs, self: string, done: set<(Sender, Slot)>, pick: Picks) {
    && (forall owner :: owner in pick ==>
        (pick[owner].sender, Slot(owner, CSYNC)) in done && MayServe(HeldAt(c, owner), pick[owner], self))
    && (forall x, owner :: (x, Slot(owner, CSYNC)) in done && owner !in pick && HeldAt(c, owner) != {} ==>
        ServesAnother(HeldAt(c, owner), x, self))
  }

  lemma PickedInTheEnd(c: Contribs, self: string, pick: Picks)
    requires PickedSoFar(c, self, Pairs(c), pick)
    ensures Picked(c, self, pick)
  {
    forall owner ensures PickedAt(HeldAt(c, owner), PickOf(pick, owner), self) {
      assert forall o :: o in HeldAt(c, owner) ==> (o.sender, Slot(owner, CSYNC)) in Pairs(c);
    }
  }

  /** The CSYNC to serve is the sender's whose turn it is: it takes the place of what the
      merge had. */
  lemma PickedAtItsTurn(c: Contribs, handed: Option<Roles>, pick: Picks, done: set<(Sender, Slot)>, h: HeldCsync,
      slot: Slot)
    requires AllContribute(c, done) && Contributes(c, h.sender, slot) && slot.rrtype == CSYNC
    ensures MergedOver(c, handed, pick[slot.owner := h], done + {(h.sender, slot)}) ==
            MergedOver(c, handed, pick, done)[slot := {CsyncRR(h.rr)}]
  {
    var next, all := pick[slot.owner := h], done + {(h.sender, slot)};
    var m, n := MergedOver(c, handed, pick, done), MergedOver(c, handed, next, all);
    MergedOverIsNotEmpty(c, handed, pick, done);
    MergedOverIsNotEmpty(c, handed, next, all);
    forall q ensures At(n, q) == if q == slot then {CsyncRR(h.rr)} else At(m, q) {
      MergedAt(c, handed, pick, done, q);
      MergedAt(c, handed, next, all, q);
      if q == slot { OnlyThePicked(c, handed, next, all, h, slot); }
      else {
        UnionOneMore(c, handed, next, done, h.sender, slot, q);
        GivenAlike(c, handed, pick, next, done, q);
      }
    }
    SameRRsets(n, m[slot := {CsyncRR(h.rr)}]);
  }

  lemma OnlyThePicked(c: Contribs, handed: Option<Roles>, pick: Picks, pairs: set<(Sender, Slot)>, h: HeldCsync,
      slot: Slot)
    requires AllContribute(c, pairs) && (h.sender, slot) in pairs && slot.rrtype == CSYNC
    requires slot.owner in pick && pick[slot.owner] == h
    ensures Union(c, handed, pick, pairs, slot) == {CsyncRR(h.rr)}
  {
    assert CsyncRR(h.rr) in Gives(c, handed, pick, h.sender, slot);
  }

  lemma SettingTheSame(m: RRsets, slot: Slot)
    requires NoEmpty(m)
    ensures Set(m, slot, At(m, slot) + {}) == m
  {
    SameRRsets(Set(m, slot, At(m, slot) + {}), m);
  }

  // ---- What the loops of the class need ---------------------------------------------

  function RestoredTo(upstream: Option<map<nat, set<RR>>>, rrtype: nat, cur: set<RR>): set<RR> {
    if upstream.None? then cur
    else if rrtype in upstream.value then upstream.value[rrtype]
    else if rrtype == NS then cur
    else {}
  }

  lemma AddedNothing(had: RRsets)
    ensures Added(had, []) == had
  {
    forall slot | slot in had ensures Added(had, [])[slot] == had[slot] { assert Carried([], slot) == {}; }
    SameMap(Added(had, []), had);
  }

  lemma AddedGrows(had: RRsets, data: seq<RRset>, i: nat)
    requires i < |data| && NoEmpty(had)
    ensures Added(had, data[..i]) != had ==> Added(had, data[..i + 1]) != had
  {
    AddedOneMore(had, data, i);
    AddedIsWellFormed(had, data[..i]);
    var a, b := Added(had, data[..i]), Added(had, data[..i + 1]);
    if a != had {
      if b == had { assert forall slot :: At(had, slot) <= At(a, slot) <= At(b, slot); SameRRsets(a, had); }
    }
  }

  lemma MinusNothing(had: RRsets)
    requires NoEmpty(had)
    ensures Minus(had, {}) == had
  {
    forall slot | slot in had ensures slot in Minus(had, {}) && Minus(had, {})[slot] == had[slot] {
      var rr :| rr in had[slot];
      assert rr in had[slot] && (slot, rr) !in {};
    }
    SameMap(Minus(had, {}), had);
  }

  /** The records removed so far: those gone that were there. */
  ghost predicate RemovedBy(removed: seq<RR>, had: RRsets, gone: set<(Slot, RR)>) {
    forall rr :: rr in removed <==> exists slot :: (slot, rr) in gone && rr in At(had, slot)
  }

  lemma RemovedOneMore(removed: seq<RR>, had: RRsets, gone: set<(Slot, RR)>, slot: Slot, rr: RR)
    requires RemovedBy(removed, had, gone)
    ensures RemovedBy(if rr in At(Minus(had, gone), slot) then removed + [rr] else removed, had, gone + {(slot, rr)})
  {
    var now := if rr in At(Minus(had, gone), slot) then removed + [rr] else removed;
    forall x ensures x in now <==> exists q :: (q, x) in gone + {(slot, rr)} && x in At(had, q) {
      if x in removed { var q :| (q, x) in gone && x in At(had, q); assert (q, x) in gone + {(slot, rr)}; }
      if x == rr && rr in At(had, slot) {
        assert (slot, x) in gone + {(slot, rr)};
        if (slot, rr) in gone { assert x in removed; } else { assert rr in At(Minus(had, gone), slot); }
      }
      if q :| (q, x) in gone + {(slot, rr)} && x in At(had, q) {
        if (q, x) in gone { assert x in removed; }
      }
    }
  }

  lemma RemovedAll(removed: seq<RR>, had: RRsets, data: seq<RRset>)
    requires NoEmpty(had) && RemovedBy(removed, had, GoneBy(data))
    ensures forall rr :: rr in removed <==> exists slot :: rr in At(had, slot) && rr in Carried(data, slot)
    ensures removed == [] <==> Without(had, data) == had
  {
    forall slot, rr ensures (slot, rr) in GoneBy(data) <==> rr in Carried(data, slot) { }
    if removed == [] {
      forall slot, rr | slot in had && rr in had[slot] ensures rr !in Carried(data, slot) {
        assert rr in At(had, slot) && rr !in removed;
        assert (slot, rr) !in GoneBy(data);
      }
      forall slot | slot in had ensures had[slot] - Carried(data, slot) == had[slot] { }
      SameMap(Without(had, data), had);
    } else {
      var rr := removed[0];
      assert rr in removed;
      var slot :| rr in At(had, slot) && rr in Carried(data, slot);
      assert rr !in At(Without(had, data), slot);
    }
  }

  lemma SetAt(m: RRsets, slot: Slot, v: set<RR>)
    requires NoEmpty(m)
    ensures NoEmpty(Set(m, slot, v))
    ensures forall q :: At(Set(m, slot, v), q) == if q == slot then v else At(m, q)
  {
  }

  // ---- AddCombinerData's and RemoveCombinerDataNG's loops ------------------------------

  method AddRecords(there: set<RR>, rrs: seq<RR>) returns (existing: set<RR>, grew: bool)
    ensures existing == there + Elements(rrs) && (grew <==> existing != there)
  {
    existing, grew := there, false;
    for k := 0 to |rrs|
      invariant existing == there + Elements(rrs[..k]) && (grew <==> existing != there)
    {
      assert Elements(rrs[..k + 1]) == Elements(rrs[..k]) + {rrs[k]};
      if rrs[k] !in existing {
        existing := existing + {rrs[k]};
        grew := true;
      }
    }
    assert rrs[..|rrs|] == rrs;
  }

  method AddInto(had: RRsets, data: seq<RRset>) returns (next: RRsets, changed: bool)
    requires NoEmpty(had)
    ensures next == Added(had, data) && (changed <==> next != had)
  {
    next, changed := had, false;
    AddedNothing(had);
    assert data[..0] == [];
    for i := 0 to |data|
      invariant next == Added(had, data[..i]) && (changed <==> next != had)
    {
      var slot, rrs := data[i].slot, data[i].rrs;
      AddedOneMore(had, data, i);
      AddedGrows(had, data, i);
      if |rrs| == 0 { continue; }
      if slot !in next {
        assert At(next, slot) + Elements(rrs) == Elements(rrs);
        next := next[slot := Elements(rrs)];
        changed := true;
      } else {
        var existing, grew := AddRecords(next[slot], rrs);
        next := next[slot := existing];
        changed := changed || grew;
      }
    }
    assert data[..|data|] == data;
  }

  method RemoveRecords(had: RRsets, slot: Slot, rrs: seq<RR>, next0: RRsets, removed0: seq<RR>,
      ghost gone: set<(Slot, RR)>)
    returns (next: RRsets, removed: seq<RR>)
    requires NoEmpty(had) && next0 == Minus(had, gone) && RemovedBy(removed0, had, gone)
    ensures var all := gone + set rr | rr in rrs :: (slot, rr);
      next == Minus(had, all) && RemovedBy(removed, had, all)
  {
    next, removed := next0, removed0;
    ghost var now := gone;
    for k := 0 to |rrs|
      invariant now == gone + set rr | rr in rrs[..k] :: (slot, rr)
      invariant next == Minus(had, now) && RemovedBy(removed, had, now)
    {
      var rr := rrs[k];
      assert rrs[..k + 1] == rrs[..k] + [rr];
      MinusOneMore(had, now, slot, rr);
      RemovedOneMore(removed, had, now, slot, rr);
      if slot in next {
        var kept := next[slot] - {rr};
        if rr in next[slot] { removed := removed + [rr]; }
        next := if kept == {} then next - {slot} else next[slot := kept];
      }
      now := now + {(slot, rr)};
    }
    assert rrs[..|rrs|] == rrs;
  }

  method RemoveFrom(had: RRsets, data: seq<RRset>) returns (next: RRsets, removed: seq<RR>)
    requires NoEmpty(had)
    ensures next == Without(had, data) && RemovedBy(removed, had, GoneBy(data))
    ensures removed == [] <==> next == had
  {
    next, removed := had, [];
    MinusNothing(had);
    assert data[..0] == [] && GoneBy([]) == {};
    for i := 0 to |data|
      invariant next == Minus(had, GoneBy(data[..i])) && RemovedBy(removed, had, GoneBy(data[..i]))
    {
      GoneOneMore(data, i);
      next, removed := RemoveRecords(had, data[i].slot, data[i].rrs, next, removed, GoneBy(data[..i]));
    }
    assert data[..|data|] == data;
    MinusIsWithout(had, data);
    RemovedAll(removed, had, data);
  }

  // ---- The batch: combineInto and cleanupInto, on its working set -------------------------

  /** What can be staged: nothing empty. */
  ghost predicate Stageable(i: Input) {
    NoEmpty(i.contributions) && (i.upstream.Some? ==> forall t :: t in i.upstream.value ==> i.upstream.value[t] != {})
  }

  /** servedAsUpstream */
  method ServedAsUpstream(staged0: RRsets, i: Input, rrtype: nat) returns (staged: RRsets)
    requires Stageable(i) && NoEmpty(staged0)
    ensures staged == Set(staged0, Slot(i.zone, rrtype),
        RestoredTo(i.upstream, rrtype, At(staged0, Slot(i.zone, rrtype))))
  {
    var slot := Slot(i.zone, rrtype);
    SettingTheSame(staged0, slot);
    if i.upstream.None? { return staged0; }
    var cur := At(staged0, slot);
    if rrtype in i.upstream.value {
      if cur == i.upstream.value[rrtype] { return staged0; }
      return staged0[slot := i.upstream.value[rrtype]];
    }
    if cur == {} || rrtype == NS { return staged0; }
    return staged0 - {slot};
  }

  /** combineInto: the merged contributions, RRset by RRset. */
  method CombineInto(served: RRsets, i: Input) returns (staged: RRsets)
    requires Stageable(i) && NoEmpty(served)
    ensures NoEmpty(staged)
    ensures forall slot :: At(staged, slot) == if slot in i.contributions then Next(i, served, slot)
        else At(served, slot)
  {
    staged := served;
    var todo := i.contributions.Keys;
    while todo != {}
      invariant todo <= i.contributions.Keys && NoEmpty(staged)
      invariant forall slot :: At(staged, slot) == if slot in i.contributions && slot !in todo
          then Next(i, served, slot) else At(served, slot)
    {
      var slot :| slot in todo;
      SetAt(staged, slot, Next(i, served, slot));
      staged := CombineOne(staged, served, i, slot);
      todo := todo - {slot};
    }
  }

  /** combineInto, one RRset: at the apex, the contribution, on top of the upstream's
      NS where it is that, or what the upstream has when the policy does not apply it. */
  method CombineOne(staged0: RRsets, ghost served: RRsets, i: Input, slot: Slot) returns (staged: RRsets)
    requires Stageable(i) && slot in i.contributions && NoEmpty(staged0) && At(staged0, slot) == At(served, slot)
    ensures staged == Set(staged0, slot, Next(i, served, slot))
  {
    SettingTheSame(staged0, slot);
    if slot.owner != i.zone { return staged0; }
    if !i.policy.CanApply(slot.rrtype) {
      staged := ServedAsUpstream(staged0, i, slot.rrtype);
    } else {
      var baseline := if slot.rrtype == NS && i.upstream.Some? then UpAt(i.upstream.value, NS) else {};
      var next := baseline + i.contributions[slot];
      assert next == Next(i, served, slot) && next != {};
      staged := if At(staged0, slot) == next then staged0 else staged0[slot := next];
    }
  }

  /** cleanupInto, one RRset; whether it is put off. */
  method CleanupOne(staged0: RRsets, ghost served: RRsets, i: Input, c: Slot) returns (staged: RRsets, putOff: bool)
    requires Stageable(i) && NoEmpty(staged0) && c in i.cleanups
    requires c !in i.contributions ==> At(staged0, c) == At(served, c) || At(staged0, c) == Next(i, served, c)
    ensures staged == if c in i.contributions then staged0 else Set(staged0, c, Next(i, served, c))
    ensures putOff <==> c in Deferred(i)
  {
    SettingTheSame(staged0, c);
    if c in i.contributions { return staged0, false; }
    if c.owner != i.zone { return staged0 - {c}, false; }
    if i.upstream.None? { return staged0, true; }
    staged := ServedAsUpstream(staged0, i, c.rrtype);
    putOff := false;
  }

  /** cleanupInto: what nobody contributes any more; at the apex, put off until the
      upstream's apex is known. */
  method CleanupInto(staged0: RRsets, ghost served: RRsets, i: Input, cleanups: seq<Slot>)
    returns (staged: RRsets, deferred: seq<Slot>)
    requires Stageable(i) && NoEmpty(staged0) && Elements(cleanups) == i.cleanups
    requires forall slot :: slot !in i.contributions ==> At(staged0, slot) == At(served, slot)
    ensures NoEmpty(staged) && Elements(deferred) == Deferred(i)
    ensures forall slot :: At(staged, slot) == if slot in i.cleanups && slot !in i.contributions
        then Next(i, served, slot) else At(staged0, slot)
  {
    staged, deferred := staged0, [];
    ghost var done: set<Slot> := {};
    for k := 0 to |cleanups|
      invariant done == Elements(cleanups[..k]) && NoEmpty(staged)
      invariant forall slot :: At(staged, slot) == if slot in done && slot !in i.contributions
          then Next(i, served, slot) else At(staged0, slot)
      invariant forall slot :: slot in deferred <==> slot in done && slot in Deferred(i)
    {
      var c := cleanups[k];
      assert c in Elements(cleanups) && cleanups[..k + 1] == cleanups[..k] + [c];
      SetAt(staged, c, Next(i, served, c));
      var put;
      staged, put := CleanupOne(staged, served, i, c);
      done := done + {c};
      if put { deferred := deferred + [c]; }
    }
    assert cleanups[..|cleanups|] == cleanups;
  }

  /** The batch's callback: the zone's next content. */
  method ProjectInto(served: RRsets, i: Input, cleanups: seq<Slot>) returns (staged: RRsets, deferred: seq<Slot>)
    requires Stageable(i) && NoEmpty(served) && Elements(cleanups) == i.cleanups
    ensures staged == Projected(i, served) && Elements(deferred) == Deferred(i)
  {
    staged := CombineInto(served, i);
    staged, deferred := CleanupInto(staged, served, i, cleanups);
    forall slot ensures At(staged, slot) == At(Projected(i, served), slot) { ProjectedAt(i, served, slot); }
    SameRRsets(staged, Projected(i, served));
  }

  /** Nothing was merged again, or the CSYNCs picked are those the listings led to. */
  ghost predicate PicksWhenMerging(s: State, s': State) {
    || (s'.merged == s.merged && s'.picked == s.picked)
    || Picked(s'.contributions, s'.self, s'.picked)
  }

  lemma RestartIsLoading(s: State, pick: Picks)
    requires s.pending == {} && s.upstream.None? && s.served == map[] && s.loaded == map[] && s.inFlight.None?
    ensures Rebuilt(s.(contributions := Load(s.rows)), pick) == Restart(s, pick)
  {
    assert {} + Filtered(Load(s.rows), s.handed) == Filtered(Load(s.rows), s.handed);
  }

  method ListOf(held: set<HeldCsync>) returns (list: seq<HeldCsync>)
    ensures multiset(list) == multiset(held)
  {
    list := [];
    var todo := held;
    while todo != {}
      invariant todo <= held && multiset(list) == multiset(held - todo)
    {
      var h :| h in todo;
      assert held - (todo - {h}) == held - todo + {h};
      list := list + [h];
      todo := todo - {h};
    }
    assert held - {} == held;
  }

  lemma NextBlock(all: set<HeldCsync>, senders: set<Sender>, x: Sender, held: seq<HeldCsync>, block: seq<HeldCsync>)
    requires x in senders && BySender(held)
    requires multiset(held) == multiset(set h | h in all && h.sender !in senders)
    requires multiset(block) == multiset(set h | h in all && h.sender == x)
    ensures BySender(held + block) && multiset(held + block) == multiset(set h | h in all && h.sender !in senders - {x})
  {
    var before, its := set h | h in all && h.sender !in senders, set h | h in all && h.sender == x;
    assert (set h | h in all && h.sender !in senders - {x}) == before + its && before !! its;
    forall i | 0 <= i < |block| ensures block[i].sender == x { assert block[i] in multiset(block); }
    forall i | 0 <= i < |held| ensures held[i].sender != x { assert held[i] in multiset(held); }
    ABlockLast(held, block, x);
  }

  class ZoneAtCombiner {
    const zone: string
    const self: string
    var contributions: Contribs
    var combinerData: RRsets
    ghost var picked: Picks
    var pendingCleanups: seq<Slot>
    var rows: set<Row>
    var handed: Option<Roles>
    var policy: EditPolicy
    var upstream: Option<map<nat, set<RR>>>
    var served: RRsets
    ghost var loaded: RRsets
    ghost var inFlight: Option<Flight>

    ghost function Value(): State
      reads this
    {
      State(zone, self, contributions, combinerData, picked, (set c | c in pendingCleanups), rows, handed, policy,
          upstream, served, loaded, inFlight)
    }

    constructor (zone: string, self: string, rows: set<Row>, handed: Option<Roles>, policy: EditPolicy)
      ensures Picked(contributions, self, picked)
      ensures Value() == Restart(State(zone, self, map[], map[], map[], {}, rows, handed, policy, None, map[], map[],
          None), picked)
    {
      this.zone, this.self, this.rows, this.handed, this.policy := zone, self, rows, handed, policy;
      picked := map[];
      contributions, combinerData, pendingCleanups, upstream, served, loaded, inFlight :=
          map[], map[], [], None, map[], map[], None;
      new;
      ghost var start := Value();
      assert (set c | c in pendingCleanups) == {};
      LoadContributions();
      RebuildCombinerData();
      RestartIsLoading(start, picked);
    }

    method NoteCleanup(c: Slot)
      modifies this`pendingCleanups
      ensures Value() == old(Value()).(pending := old(Value()).pending + {c})
    {
      if c !in pendingCleanups { pendingCleanups := pendingCleanups + [c]; }
    }

    /** LoadAllContributions, row by row. */
    method LoadContributions()
      modifies this`contributions
      ensures contributions == Load(rows)
    {
      var c: Contribs := map[];
      var todo := rows;
      while todo != {}
        invariant todo <= rows && c == Load(rows - todo)
      {
        var r :| r in todo;
        LoadOneMore(rows - todo, r);
        assert rows - (todo - {r}) == rows - todo + {r};
        c := c[r.sender := WithRow(Of(c, r.sender), r)];
        todo := todo - {r};
      }
      assert rows - {} == rows;
      contributions := c;
    }

    /** SaveContributions: the deletes and inserts of one transaction. */
    method SaveContributions(sender: Sender, works: bool)
      modifies this`rows
      ensures rows == if works then Save(old(rows), sender, Of(contributions, sender)) else old(rows)
    {
      var next := set r | r in rows && r.sender != sender;
      ghost var others := next;
      var m := Of(contributions, sender);
      var todo := m.Keys;
      while todo != {}
        invariant todo <= m.Keys
        invariant next == others + RowsOf(sender, m - todo)
      {
        var slot :| slot in todo;
        assert (m - (todo - {slot})).Keys == (m - todo).Keys + {slot};
        var inserts := m[slot];
        ghost var before := next;
        while inserts != {}
          invariant inserts <= m[slot]
          invariant next == before + set rr | rr in m[slot] - inserts :: Row(sender, slot, rr)
        {
          var rr :| rr in inserts;
          next := next + {Row(sender, slot, rr)};
          inserts := inserts - {rr};
        }
        todo := todo - {slot};
      }
      assert m - {} == m;
      if works { rows := next; }
    }

    /** csyncsHeld: a listing of the CSYNC records at an owner, sender by sender. */
    method CsyncsHeld(owner: string) returns (held: seq<HeldCsync>)
      ensures multiset(held) == multiset(HeldAt(contributions, owner)) && BySender(held)
    {
      held := [];
      var all := HeldAt(contributions, owner);
      var senders := contributions.Keys;
      while senders != {}
        invariant senders <= contributions.Keys && BySender(held)
        invariant multiset(held) == multiset(set h | h in all && h.sender !in senders)
      {
        var x :| x in senders;
        var block := ListOf(set h | h in all && h.sender == x);
        NextBlock(all, senders, x, held, block);
        held := held + block;
        senders := senders - {x};
      }
      assert (set h | h in all && h.sender !in senders) == all;
    }

    ghost function Pending(): set<Slot>
      reads this`pendingCleanups
    {
      set c | c in pendingCleanups
    }

    /** RebuildCombinerData, one sender's CSYNC: it is in the merge when it is the one to
        serve. */
    method MergeCsync(x: Sender, slot: Slot, merged0: RRsets, ghost done: set<(Sender, Slot)>, ghost pick0: Picks)
      returns (merged: RRsets, ghost pick: Picks)
      requires Contributes(contributions, x, slot) && slot.rrtype == CSYNC && (x, slot) !in done
          && PickedSoFar(contributions, self, done, pick0)
      requires AllContribute(contributions, done) && merged0 == MergedOver(contributions, handed, pick0, done)
      ensures merged == MergedOver(contributions, handed, pick, done + {(x, slot)})
      ensures PickedSoFar(contributions, self, done + {(x, slot)}, pick)
    {
      var held := CsyncsHeld(slot.owner);
      ghost var all := HeldAt(contributions, slot.owner);
      merged, pick := merged0, pick0;
      if held != [] {
        var best := CsyncToServe(held, self);
        assert MayServe(all, best, self);
        if best.sender == x {
          PickedAtItsTurn(contributions, handed, pick0, done, best, slot);
          merged, pick := merged0[slot := {CsyncRR(best.rr)}], pick0[slot.owner := best];
          return;
        }
        assert ServesAnother(all, x, self);
      } else {
        assert multiset(all) == multiset{} && forall h :: h in all ==> h in multiset(all);
      }
      NothingToMerge(contributions, handed, pick0, done, x, slot);
    }

    /** RebuildCombinerData, one RRset of one sender. */
    method MergeOne(x: Sender, slot: Slot, merged0: RRsets, ghost done: set<(Sender, Slot)>, ghost pick0: Picks)
      returns (merged: RRsets, ghost pick: Picks)
      requires Contributes(contributions, x, slot) && (x, slot) !in done
          && PickedSoFar(contributions, self, done, pick0)
      requires AllContribute(contributions, done) && merged0 == MergedOver(contributions, handed, pick0, done)
      modifies this`pendingCleanups
      ensures merged == MergedOver(contributions, handed, pick, done + {(x, slot)})
      ensures PickedSoFar(contributions, self, done + {(x, slot)}, pick)
      ensures Pending() == old(Pending()) + if HandedOrigin(handed, x, slot.rrtype) then {} else {slot}
    {
      pick := pick0;
      if !HandedOrigin(handed, x, slot.rrtype) {
        NoteCleanup(slot);
        NothingToMerge(contributions, handed, pick, done, x, slot);
        merged := merged0;
      } else if slot.rrtype == CSYNC {
        merged, pick := MergeCsync(x, slot, merged0, done, pick0);
      } else {
        merged := Set(merged0, slot, At(merged0, slot) + contributions[x][slot]);
        MergedOneMore(contributions, handed, pick, done, x, slot);
      }
    }

    /** RebuildCombinerData's inner loops: one sender's RRsets into the merge. */
    method MergeSender(x: Sender, merged0: RRsets, ghost done: set<(Sender, Slot)>, ghost pick0: Picks)
      returns (merged: RRsets, ghost pick: Picks)
      requires x in contributions && (forall p :: p in done ==> p.0 != x)
          && PickedSoFar(contributions, self, done, pick0)
      requires AllContribute(contributions, done) && merged0 == MergedOver(contributions, handed, pick0, done)
      modifies this`pendingCleanups
      ensures AllContribute(contributions, done + PairsOf(contributions, x))
      ensures merged == MergedOver(contributions, handed, pick, done + PairsOf(contributions, x))
      ensures PickedSoFar(contributions, self, done + PairsOf(contributions, x), pick)
      ensures Pending() == old(Pending()) + FilteredOf(handed, PairsOf(contributions, x))
    {
      merged, pick := merged0, pick0;
      ghost var mine: set<(Sender, Slot)> := {};
      var slots := contributions[x].Keys;
      assert done + mine == done;
      while slots != {}
        invariant slots <= contributions[x].Keys
        invariant mine == set slot | slot in contributions[x] && slot !in slots :: (x, slot)
        invariant AllContribute(contributions, done + mine)
        invariant merged == MergedOver(contributions, handed, pick, done + mine)
        invariant PickedSoFar(contributions, self, done + mine, pick)
        invariant Pending() == old(Pending()) + FilteredOf(handed, mine)
      {
        var slot :| slot in slots;
        merged, pick := MergeOne(x, slot, merged, done + mine, pick);
        FilteredOneMore(handed, mine, x, slot);
        assert done + (mine + {(x, slot)}) == done + mine + {(x, slot)};
        mine := mine + {(x, slot)};
        slots := slots - {slot};
      }
      assert mine == PairsOf(contributions, x);
    }

    /** RebuildCombinerData's outer loop: sender by sender. */
    method MergeSenders() returns (merged: RRsets, ghost pick: Picks)
      modifies this`pendingCleanups
      ensures merged == Merged(contributions, handed, pick)
          && PickedSoFar(contributions, self, Pairs(contributions), pick)
      ensures Pending() == old(Pending()) + FilteredOf(handed, Pairs(contributions))
    {
      merged, pick := map[], map[];
      ghost var done: set<(Sender, Slot)> := {};
      var senders := contributions.Keys;
      while senders != {}
        invariant senders <= contributions.Keys
        invariant done == PairsBut(contributions, senders)
        invariant merged == MergedOver(contributions, handed, pick, done)
        invariant PickedSoFar(contributions, self, done, pick)
        invariant Pending() == old(Pending()) + FilteredOf(handed, done)
      {
        var x :| x in senders;
        merged, pick := MergeSender(x, merged, done, pick);
        FilteredTogether(handed, done, PairsOf(contributions, x));
        OneMoreSender(contributions, senders, x);
        done := done + PairsOf(contributions, x);
        senders := senders - {x};
      }
      assert PairsBut(contributions, {}) == Pairs(contributions);
    }

    /** RebuildCombinerData: the merge, of the providers handed, and a cleanup for what is
        left out of it. */
    method RebuildCombinerData()
      modifies this`combinerData, this`picked, this`pendingCleanups
      ensures Picked(contributions, self, picked) && Value() == Rebuilt(old(Value()), picked)
      ensures forall slot, rr ::
        rr in At(combinerData, slot) <==> BelongsInTheMerge(contributions, handed, picked, slot, rr)
      ensures forall slot ::
        slot in Pending() <==> slot in old(Pending()) || TurnedAway(contributions, handed, slot)
    {
      var merged;
      ghost var pick;
      merged, pick := MergeSenders();
      FilteredByPairs(contributions, handed);
      PickedInTheEnd(contributions, self, pick);
      combinerData, picked := merged, pick;
      MergedByTheProviders(contributions, handed, pick);
    }

    // ---- One sender's contribution changes ----------------------------------------

    /** What every change ends in: the merge, and the save. */
    method RebuildAndSave(sender: Sender, saves: bool)
      requires sender in contributions
      modifies this`combinerData, this`picked, this`pendingCleanups, this`rows
      ensures Picked(contributions, self, picked)
          && Value() == Put(old(Value()), sender, contributions[sender], saves, picked)
    {
      assert contributions[sender := contributions[sender]] == contributions;
      RebuildCombinerData();
      SaveContributions(sender, saves);
    }

    method AddCombinerData(senderID: Sender, data: seq<RRset>, saves: bool) returns (changed: bool)
      requires WellFormed(contributions)
      modifies this`contributions, this`combinerData, this`picked, this`pendingCleanups, this`rows
      ensures PicksWhenMerging(old(Value()), Value()) && Value() == Add(old(Value()), senderID, data, saves, picked)
      ensures changed <==> Of(contributions, Name(senderID)) != Of(old(contributions), Name(senderID))
    {
      var sender := if senderID == "" then "local" else senderID;
      var next;
      next, changed := AddInto(Of(contributions, sender), data);
      contributions := contributions[sender := next];
      if changed { RebuildAndSave(sender, saves); }
    }

    method RemoveCombinerDataNG(senderID: Sender, data: seq<RRset>, saves: bool) returns (removed: seq<RR>)
      requires WellFormed(contributions)
      modifies this`contributions, this`combinerData, this`picked, this`pendingCleanups, this`rows
      ensures PicksWhenMerging(old(Value()), Value()) && Value() == Remove(old(Value()), senderID, data, saves, picked)
      ensures RemovedBy(removed, Of(old(contributions), Name(senderID)), GoneBy(data))
    {
      var sender := if senderID == "" then "local" else senderID;
      removed := [];
      if sender !in contributions { return; }
      var next;
      next, removed := RemoveFrom(contributions[sender], data);
      if removed == [] { return; }
      contributions := contributions[sender := next];
      RebuildAndSave(sender, saves);
      if saves { NoteCleanupsFor(data); }
    }

    /** noteCleanupsFor: every RRset the records name. */
    method NoteCleanupsFor(data: seq<RRset>)
      modifies this`pendingCleanups
      ensures Pending() == old(Pending()) + NamedSlots(data)
    {
      for i := 0 to |data|
        invariant Pending() == old(Pending()) + NamedSlots(data[..i])
      {
        NamedOneMore(data, i);
        if data[i].rrs != [] { NoteCleanup(data[i].slot); }
      }
      assert data[..|data|] == data;
    }

    method RemoveCombinerDataByRRtype(senderID: Sender, slot: Slot, saves: bool) returns (removed: set<RR>)
      modifies this`contributions, this`combinerData, this`picked, this`pendingCleanups, this`rows
      ensures PicksWhenMerging(old(Value()), Value())
          && Value() == RemoveType(old(Value()), senderID, slot, saves, picked)
      ensures removed == At(Of(old(contributions), Name(senderID)), slot)
    {
      var sender := if senderID == "" then "local" else senderID;
      if sender !in contributions || slot !in contributions[sender] { return {}; }
      removed := contributions[sender][slot];
      contributions := contributions[sender := contributions[sender] - {slot}];
      RebuildAndSave(sender, saves);
      if saves { NoteCleanup(slot); }
    }

    method ReplaceCombinerDataByRRtype(senderID: Sender, slot: Slot, rrs: set<RR>, saves: bool)
      returns (applied: set<RR>, removed: set<RR>, changed: bool)
      requires WellFormed(contributions)
      modifies this`contributions, this`combinerData, this`picked, this`pendingCleanups, this`rows
      ensures PicksWhenMerging(old(Value()), Value())
          && Value() == Replace(old(Value()), senderID, slot, rrs, saves, picked)
      ensures var had := At(Of(old(contributions), Name(senderID)), slot);
        applied == rrs - had && removed == had - rrs && (changed <==> applied != {} || removed != {})
    {
      var sender := if senderID == "" then "local" else senderID;
      contributions := contributions[sender := Of(contributions, sender)];
      var had := At(contributions[sender], slot);
      applied, removed := rrs - had, had - rrs;
      changed := applied != {} || removed != {};
      if !changed { return; }
      var next := if rrs == {} then contributions[sender] - {slot} else contributions[sender][slot := rrs];
      assert contributions[sender := next] == old(contributions)[sender := next];
      contributions := contributions[sender := next];
      RebuildAndSave(sender, saves);
      NoteCleanup(slot);
    }

    method PurgeContributionsForOrigin(origin: Sender, deletes: bool) returns (refused: bool)
      modifies this`contributions, this`combinerData, this`picked, this`pendingCleanups, this`rows
      ensures PicksWhenMerging(old(Value()), Value()) && Value() == Purge(old(Value()), origin, deletes, picked)
          && (refused <==> origin == "")
    {
      if origin == "" { return true; }
      refused := false;
      if origin !in contributions { return; }
      var purged := contributions[origin].Keys;
      contributions := contributions - {origin};
      RebuildCombinerData();
      assert Of(contributions, origin) == map[];
      if !deletes { return; }
      SaveContributions(origin, true);
      NoteAll(purged);
    }

    method NoteAll(slots: set<Slot>)
      modifies this`pendingCleanups
      ensures Pending() == old(Pending()) + slots
    {
      var todo := slots;
      while todo != {}
        invariant todo <= slots && Pending() == old(Pending()) + (slots - todo)
      {
        var c :| c in todo;
        NoteCleanup(c);
        assert slots - (todo - {c}) == slots - todo + {c};
        todo := todo - {c};
      }
      assert slots - {} == slots;
    }

    // ---- The combine ------------------------------------------------------------------

    /** The upstream's copy comes in the place of the zone served; snapshotUpstreamData
        keeps its apex, type by type. */
    method Refresh(content: RRsets)
      modifies this`served, this`upstream, this`loaded
      ensures Value() == Projection.Refresh(old(Value()), content)
    {
      var snapshot: map<nat, set<RR>> := map[];
      var todo := APEX_COMBINER;
      while todo != {}
        invariant todo <= APEX_COMBINER
        invariant snapshot == map t | t in APEX_COMBINER && t !in todo && Slot(zone, t) in content ::
            content[Slot(zone, t)]
      {
        var t :| t in todo;
        if Slot(zone, t) in content { snapshot := snapshot[t := content[Slot(zone, t)]]; }
        todo := todo - {t};
      }
      assert snapshot == Snapshot(zone, content);
      var hasApex := exists slot :: slot in content && slot.owner == zone;
      served, upstream, loaded := content, if hasApex then Some(snapshot) else None, content;
    }

    ghost predicate Valid()
      reads this
    {
      NoEmpty(combinerData) && NoEmpty(served)
          && (upstream.Some? ==> forall t :: t in upstream.value ==> upstream.value[t] != {})
    }

    /** combineInput's copy of the merge, RRset by RRset. */
    method CombineInput() returns (i: Input)
      requires Valid() && inFlight.None?
      modifies this`inFlight
      ensures Value() == Copy(old(Value()), combinerData.Keys)
      ensures inFlight == Some(Flight(i, false)) && i == InputOf(old(Value())).(cleanups := {})
    {
      var copy: RRsets := map[];
      var todo := combinerData.Keys;
      while todo != {}
        invariant todo <= combinerData.Keys
        invariant copy == map slot | slot in combinerData && slot !in todo :: combinerData[slot]
      {
        var slot :| slot in todo;
        copy := copy[slot := combinerData[slot]];
        todo := todo - {slot};
      }
      assert copy == combinerData;
      i := Input(zone, copy, policy, upstream, {});
      inFlight := Some(Flight(i, false));
      assert Copy(old(Value()), combinerData.Keys).inFlight.value.input.contributions == combinerData;
    }

    /** takeCleanups */
    method TakeOutCleanups() returns (cleanups: seq<Slot>)
      requires inFlight.Some? && !inFlight.value.taken
      modifies this`inFlight, this`pendingCleanups
      ensures Value() == TakeCleanups(old(Value())) && Elements(cleanups) == old(Pending())
    {
      cleanups := pendingCleanups;
      inFlight := Some(Flight(inFlight.value.input.(cleanups := Pending()), true));
      pendingCleanups := [];
    }

    /** requeueCleanups */
    method RequeueCleanups(cs: seq<Slot>)
      modifies this`pendingCleanups
      ensures Pending() == old(Pending()) + Elements(cs)
    {
      for k := 0 to |cs|
        invariant Pending() == old(Pending()) + Elements(cs[..k])
      {
        assert cs[..k + 1] == cs[..k] + [cs[k]];
        NoteCleanup(cs[k]);
      }
      assert cs[..|cs|] == cs;
    }

    /** The batch: staged and published, or failed and its cleanups given back. */
    method StageBatch(i: Input, cleanups: seq<Slot>, works: bool) returns (changed: bool)
      requires Stageable(i) && NoEmpty(served) && Elements(cleanups) == i.cleanups && inFlight == Some(Flight(i, true))
      modifies this`inFlight, this`pendingCleanups, this`served
      ensures Value() == Stage(old(Value()), works)
      ensures changed <==> served != old(served)
    {
      var staged, deferred := ProjectInto(served, i, cleanups);
      inFlight := None;
      if !works {
        RequeueCleanups(cleanups);
        return false;
      }
      changed := staged != served;
      served := staged;
      RequeueCleanups(deferred);
    }

    /** combineAndPublish: copy, cleanups and batch, with nothing in between. */
    method CombineAndPublish(works: bool) returns (changed: bool)
      requires Valid() && inFlight.None?
      modifies this`inFlight, this`served, this`pendingCleanups
      ensures Value() == Combine(old(Value()), works)
      ensures changed <==> served != old(served)
    {
      if policy.zoneSigned && !policy.weAreSigner {
        pendingCleanups := [];
        return false;
      }
      CombineIsItsParts(Value(), works);
      var i := CombineInput();
      var cleanups := TakeOutCleanups();
      changed := StageBatch(i.(cleanups := Elements(cleanups)), cleanups, works);
    }
  }

  lemma MergedByTheProviders(c: Contribs, handed: Option<Roles>, pick: Picks)
    ensures forall slot, rr :: rr in At(Merged(c, handed, pick), slot) <==> BelongsInTheMerge(c, handed, pick, slot, rr)
    ensures forall slot :: slot in Filtered(c, handed) <==> TurnedAway(c, handed, slot)
  {
    forall slot, rr ensures rr in At(Merged(c, handed, pick), slot) <==> BelongsInTheMerge(c, handed, pick, slot, rr) {
      TheMergeHasWhatIsContributed(c, handed, pick, slot, rr);
    }
    forall slot ensures slot in Filtered(c, handed) <==> TurnedAway(c, handed, slot) {
      WhatTheProvidersLeaveOut(c, handed, slot);
    }
  }

  function PairsOf(c: Contribs, x: Sender): set<(Sender, Slot)> { set slot | slot in Of(c, x) :: (x, slot) }

  function FilteredOf(handed: Option<Roles>, done: set<(Sender, Slot)>): set<Slot> {
    set p | p in done && !HandedOrigin(handed, p.0, p.1.rrtype) :: p.1
  }

  lemma FilteredOneMore(handed: Option<Roles>, done: set<(Sender, Slot)>, x: Sender, slot: Slot)
    ensures FilteredOf(handed, done + {(x, slot)}) ==
        FilteredOf(handed, done) + if HandedOrigin(handed, x, slot.rrtype) then {} else {slot}
  {
  }

  ghost function PairsBut(c: Contribs, senders: set<Sender>): set<(Sender, Slot)> {
    set p | p in Pairs(c) && p.0 !in senders
  }

  lemma OneMoreSender(c: Contribs, senders: set<Sender>, x: Sender)
    requires x in senders && senders <= c.Keys
    ensures PairsBut(c, senders - {x}) == PairsBut(c, senders) + PairsOf(c, x)
    ensures AllContribute(c, PairsBut(c, senders))
  {
  }

  lemma FilteredTogether(handed: Option<Roles>, a: set<(Sender, Slot)>, b: set<(Sender, Slot)>)
    ensures FilteredOf(handed, a + b) == FilteredOf(handed, a) + FilteredOf(handed, b)
  {
  }

  lemma FilteredByPairs(c: Contribs, handed: Option<Roles>)
    ensures FilteredOf(handed, Pairs(c)) == Filtered(c, handed)
  {
    forall slot | slot in Filtered(c, handed) ensures slot in FilteredOf(handed, Pairs(c)) {
      var x :| x in c && slot in c[x] && !HandedOrigin(handed, x, slot.rrtype);
      assert (x, slot) in Pairs(c);
    }
  }

  function WithRow(m: RRsets, r: Row): RRsets { m[r.slot := At(m, r.slot) + {r.rr}] }

  lemma LoadOneMore(rows: set<Row>, r: Row)
    ensures var c := Load(rows); Load(rows + {r}) == c[r.sender := WithRow(Of(c, r.sender), r)]
  {
    LoadedSenders(rows, r);
    forall x ensures Of(Load(rows + {r}), x) == if x == r.sender then WithRow(Of(Load(rows), x), r)
        else Of(Load(rows), x)
    {
      LoadOneMoreAt(rows, r, x);
    }
    OneSenderMore(Load(rows), Load(rows + {r}), r.sender, WithRow(Of(Load(rows), r.sender), r));
  }

  lemma OneSenderMore(c: Contribs, d: Contribs, sender: Sender, m: RRsets)
    requires d.Keys == c.Keys + {sender}
    requires forall x :: Of(d, x) == if x == sender then m else Of(c, x)
    ensures d == c[sender := m]
  {
    forall x | x in d ensures d[x] == c[sender := m][x] { assert Of(d, x) == d[x]; }
  }

  lemma LoadOneMoreAt(rows: set<Row>, r: Row, x: Sender)
    ensures var l := Of(Load(rows), x); Of(Load(rows + {r}), x) == if x == r.sender then WithRow(l, r) else l
  {
    LoadOfOneMore(rows, r, x);
    LoadOfIsLoaded(rows, x);
    LoadOfIsLoaded(rows + {r}, x);
  }

  lemma LoadedSenders(rows: set<Row>, r: Row)
    ensures Load(rows + {r}).Keys == Load(rows).Keys + {r.sender}
  {
    assert r in rows + {r};
    forall x | x in Load(rows)
      ensures x in Load(rows + {r})
    {
      var q :| q in rows && q.sender == x;
      assert q in rows + {r};
    }
  }

  lemma LoadOfIsLoaded(rows: set<Row>, x: Sender)
    ensures Of(Load(rows), x) == LoadOf(rows, x)
  {
    if x !in Load(rows) { assert LoadOf(rows, x) == map[]; }
  }

  lemma LoadOfOneMore(rows: set<Row>, r: Row, x: Sender)
    ensures var l := LoadOf(rows, x); LoadOf(rows + {r}, x) == if x == r.sender then WithRow(l, r) else l
  {
    var l, k := LoadOf(rows, x), LoadOf(rows + {r}, x);
    var want := if x == r.sender then WithRow(l, r) else l;
    LoadedIsWellFormed(rows, x);
    LoadedIsWellFormed(rows + {r}, x);
    forall slot ensures At(k, slot) == At(want, slot) {
      forall rr ensures rr in At(k, slot) <==> rr in At(want, slot) { LoadedRecord(rows, r, x, slot, rr); }
    }
    SameRRsets(k, want);
  }

  lemma LoadedRecord(rows: set<Row>, r: Row, x: Sender, slot: Slot, rr: RR)
    ensures rr in At(LoadOf(rows, x), slot) <==> Row(x, slot, rr) in rows
    ensures rr in At(LoadOf(rows + {r}, x), slot) <==> Row(x, slot, rr) in rows || Row(x, slot, rr) == r
  {
    assert Row(x, slot, rr) in rows + {r} <==> Row(x, slot, rr) in rows || Row(x, slot, rr) == r;
  }
}
