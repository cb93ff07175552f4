/** One RRset of a combine, over the lists of records the RRsets are: what it stages
    is, as a set, what CombinerZone's methods stage, and a list that carries the
    same records already is left as it is. */
module ServedLists {
  import opened Collections
  import opened Wrappers
  import opened Contributions
  import opened Projection
  import opened CombinerZone
  import RecordLists

  type Lists = map<Slot, seq<RR>>

  datatype ListInput = ListInput(
    zone: string, contributions: Lists, policy: EditPolicy,
    upstream: Option<map<nat, seq<RR>>>, cleanups: seq<Slot>)

  predicate Filled(l: Lists) { forall slot :: slot in l ==> l[slot] != [] }

  predicate FilledInput(i: ListInput) {
    Filled(i.contributions) && (i.upstream.Some? ==> forall t :: t in i.upstream.value ==> i.upstream.value[t] != [])
  }

  function Sets(l: Lists): RRsets { map slot | slot in l :: Elements(l[slot]) }

  function AsSets(i: ListInput): Input {
    Input(i.zone, Sets(i.contributions), i.policy,
          if i.upstream.None? then None else Some(map t | t in i.upstream.value :: Elements(i.upstream.value[t])),
          Elements(i.cleanups))
  }

  lemma FilledIsStageable(i: ListInput, l: Lists)
    requires FilledInput(i) && Filled(l)
    ensures Stageable(AsSets(i)) && NoEmpty(Sets(l))
  {
    forall slot | slot in l ensures Sets(l)[slot] != {} { assert l[slot][0] in Elements(l[slot]); }
    var up := AsSets(i).upstream;
    forall slot | slot in i.contributions ensures Sets(i.contributions)[slot] != {} {
      assert i.contributions[slot][0] in Elements(i.contributions[slot]);
    }
    if up.Some? {
      forall t | t in up.value ensures up.value[t] != {} { assert i.upstream.value[t][0] in up.value[t]; }
    }
  }

  /** SetRRset, where the list there does not carry the same records. Where no list has
      a record twice, one that has the records to be served stays, in its order. */
  method SetUnlessSame(staged0: Lists, slot: Slot, next: seq<RR>) returns (staged: Lists)
    requires Filled(staged0) && next != []
    ensures Filled(staged) && Sets(staged) == Set(Sets(staged0), slot, Elements(next))
    ensures staged == if slot in staged0 && multiset(staged0[slot]) == multiset(next) then staged0
        else staged0[slot := next]
    ensures slot in staged0 && Distinct(staged0[slot]) && Distinct(next) ==>
      (Elements(staged0[slot]) == Elements(next) ==> staged == staged0)
  {
    assert next[0] in Elements(next);
    if slot in staged0 && Distinct(staged0[slot]) && Distinct(next) {
      RecordLists.SameRecordsSameSet(staged0[slot], next);
    }
    if slot in staged0 {
      var same := RecordLists.RRsetEqual(staged0[slot], next);
      if same {
        forall rr
          ensures rr in staged0[slot] <==> rr in next
        {
          assert rr in multiset(staged0[slot]) <==> rr in multiset(next);
        }
        assert Elements(staged0[slot]) == Elements(next);
        SameMap(Sets(staged0), Sets(staged0)[slot := Elements(next)]);
        return staged0;
      }
    }
    staged := staged0[slot := next];
  }

  /** servedAsUpstream */
  method ServedAsUpstreamList(staged0: Lists, i: ListInput, rrtype: nat) returns (staged: Lists)
    requires FilledInput(i) && Filled(staged0)
    ensures var slot := Slot(i.zone, rrtype);
      Filled(staged) && Sets(staged) ==
          Set(Sets(staged0), slot, RestoredTo(AsSets(i).upstream, rrtype, At(Sets(staged0), slot)))
  {
    var slot := Slot(i.zone, rrtype);
    FilledIsStageable(i, staged0);
    SettingTheSame(Sets(staged0), slot);
    if i.upstream.None? { return staged0; }
    if rrtype in i.upstream.value {
      staged := SetUnlessSame(staged0, slot, i.upstream.value[rrtype]);
      return;
    }
    if slot !in staged0 || rrtype == NS { return staged0; }
    staged := staged0 - {slot};
  }

  /** combineInto, one RRset, the NS merged on top of the upstream's. */
  method CombineOneList(staged0: Lists, ghost served: Lists, i: ListInput, slot: Slot) returns (staged: Lists)
    requires FilledInput(i) && Filled(staged0) && slot in i.contributions
    requires At(Sets(staged0), slot) == At(Sets(served), slot)
    ensures Filled(staged) && Sets(staged) == Set(Sets(staged0), slot, Next(AsSets(i), Sets(served), slot))
  {
    FilledIsStageable(i, staged0);
    SettingTheSame(Sets(staged0), slot);
    if slot.owner != i.zone { return staged0; }
    if !i.policy.CanApply(slot.rrtype) {
      staged := ServedAsUpstreamList(staged0, i, slot.rrtype);
      return;
    }
    var next := i.contributions[slot];
    if slot.rrtype == NS {
      var baseline := if i.upstream.Some? && NS in i.upstream.value then i.upstream.value[NS] else [];
      assert Elements<RR>([]) == {};
      next := RecordLists.MergeRRsets(baseline, next);
      assert i.contributions[slot][0] in Elements(next);
    }
    assert Elements(next) == Applied(AsSets(i), slot);
    staged := SetUnlessSame(staged0, slot, next);
  }
}
