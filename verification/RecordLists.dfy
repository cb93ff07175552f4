/** What the combiner does with the record lists of two RRsets: merging one into
    another, telling whether they carry the same records, and finding what a
    replacement adds and removes. */
module RecordLists {
  import opened Collections

  /** mergeRRsets: the contribution on top of the zone file's records. */
  method MergeRRsets<T(==)>(baseline: seq<T>, contribution: seq<T>) returns (merged: seq<T>)
    ensures baseline <= merged
    ensures Elements(merged) == Elements(baseline) + Elements(contribution)
    ensures Distinct(baseline) ==> Distinct(merged)
  {
    merged := baseline;
    for i := 0 to |contribution|
      invariant baseline <= merged
      invariant Elements(merged) == Elements(baseline) + Elements(contribution[..i])
      invariant Distinct(baseline) ==> Distinct(merged)
    {
      var rr := contribution[i];
      assert contribution[..i + 1] == contribution[..i] + [rr];
      var alreadyPresent := false;
      for k := 0 to |merged|
        invariant alreadyPresent <==> rr in merged[..k]
      {
        if merged[k] == rr { alreadyPresent := true; break; }
      }
      assert merged[..|merged|] == merged;
      assert alreadyPresent <==> rr in Elements(merged);
      assert Elements(contribution[..i + 1]) == Elements(contribution[..i]) + {rr};
      if !alreadyPresent {
        assert Elements(merged + [rr]) == Elements(merged) + {rr};
        merged := merged + [rr];
      }
    }
    assert contribution[..|contribution|] == contribution;
  }

  function Count<T(==)>(seen: map<T, nat>, x: T): nat { if x in seen then seen[x] else 0 }

  method CountRecords<T(==)>(a: seq<T>) returns (seen: map<T, nat>)
    ensures forall x :: Count(seen, x) == multiset(a)[x]
  {
    seen := map[];
    for i := 0 to |a|
      invariant forall x :: Count(seen, x) == multiset(a[..i])[x]
    {
      assert a[..i + 1] == a[..i] + [a[i]];
      seen := seen[a[i] := Count(seen, a[i]) + 1];
    }
    assert a[..|a|] == a;
  }

  /** rrsetEqual: the records of one are counted, and those of the other taken off. */
  method RRsetEqual<T(==)>(a: seq<T>, b: seq<T>) returns (equal: bool)
    ensures equal <==> multiset(a) == multiset(b)
  {
    if |a| != |b| {
      assert |multiset(a)| != |multiset(b)|;
      return false;
    }
    var seen := CountRecords(a);
    for i := 0 to |b|
      invariant forall x :: Count(seen, x) + multiset(b[..i])[x] == multiset(a)[x]
    {
      assert b[..i + 1] == b[..i] + [b[i]];
      if Count(seen, b[i]) == 0 {
        MoreOfThePrefix(b, i + 1, b[i]);
        return false;
      }
      seen := seen[b[i] := seen[b[i]] - 1];
    }
    assert b[..|b|] == b;
    SameSizeSubset(multiset(b), multiset(a));
    return true;
  }

  lemma MoreOfThePrefix<T>(s: seq<T>, n: nat, x: T)
    requires n <= |s|
    ensures multiset(s[..n])[x] <= multiset(s)[x]
  {
    assert s == s[..n] + s[n..];
  }

  lemma SameSizeSubset<T>(a: multiset<T>, b: multiset<T>)
    requires a <= b && |a| == |b|
    ensures a == b
  {
    assert b == a + (b - a);
  }

  /** Without a record twice in either, the same records are the same set. */
  lemma {:induction false} SameRecordsSameSet<T>(a: seq<T>, b: seq<T>)
    requires Distinct(a) && Distinct(b)
    ensures multiset(a) == multiset(b) <==> Elements(a) == Elements(b)
  {
    OnceEach(a);
    OnceEach(b);
    if multiset(a) == multiset(b) {
      forall x ensures x in a <==> x in b { assert x in multiset(a) <==> x in multiset(b); }
    } else if Elements(a) == Elements(b) {
      forall x ensures multiset(a)[x] == multiset(b)[x] { assert x in Elements(a) <==> x in Elements(b); }
    }
  }

  lemma {:induction false} OnceEach<T>(s: seq<T>)
    requires Distinct(s)
    ensures forall x :: multiset(s)[x] == if x in s then 1 else 0
  {
    if s != [] {
      OnceEach(s[1..]);
      assert s == [s[0]] + s[1..];
      assert s[0] !in s[1..];
    }
  }

  lemma NotYet<T>(s: seq<T>, i: nat, seen: seq<T>)
    requires i < |s| && Distinct(s) && Elements(seen) <= Elements(s[..i])
    ensures s[i] !in seen
  {
    assert forall x :: x in seen ==> x in Elements(seen);
  }

  /** The records of `of` that `without` lacks, in order: the two searches of
      replaceCombinerDataByRRtypeLocked are this, each way round. */
  method Missing<T(==)>(of: seq<T>, without: seq<T>) returns (missing: seq<T>)
    ensures Elements(missing) == Elements(of) - Elements(without)
    ensures Distinct(of) ==> Distinct(missing)
  {
    missing := [];
    for i := 0 to |of|
      invariant Elements(missing) == Elements(of[..i]) - Elements(without)
      invariant Elements(missing) <= Elements(of[..i])
      invariant Distinct(of) ==> Distinct(missing)
    {
      assert of[..i + 1] == of[..i] + [of[i]];
      var found := false;
      for k := 0 to |without|
        invariant found <==> of[i] in without[..k]
      {
        if of[i] == without[k] { found := true; break; }
      }
      assert without[..|without|] == without;
      assert found <==> of[i] in Elements(without);
      assert Elements(of[..i + 1]) == Elements(of[..i]) + {of[i]};
      if !found && Distinct(of) { NotYet(of, i, missing); }
      assert !found ==> Elements(missing + [of[i]]) == Elements(missing) + {of[i]};
      if !found { missing := missing + [of[i]]; }
    }
    assert of[..|of|] == of;
  }

  /** The diff of a replacement: what is added, what is removed, and whether
      anything changed. */
  method ReplacementDiff<T(==)>(before: seq<T>, after: seq<T>) returns (applied: seq<T>, removed: seq<T>, changed: bool)
    ensures Elements(applied) == Elements(after) - Elements(before)
    ensures Elements(removed) == Elements(before) - Elements(after)
    ensures changed <==> Elements(before) != Elements(after)
    ensures Distinct(before) && Distinct(after) ==> Distinct(applied) && Distinct(removed)
  {
    removed := Missing(before, after);
    applied := Missing(after, before);
    changed := removed != [] || applied != [];
    if removed != [] { assert removed[0] in Elements(removed); }
    if applied != [] { assert applied[0] in Elements(applied); }
  }
}
