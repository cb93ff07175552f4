/** One CSYNC per zone: which of the CSYNC records held at an owner a combiner
    serves, and what it does with one that arrives. */
module Csync {
  import opened Names
  import opened Serial

  datatype CsyncRecord = CsyncRecord(serial: uint32, rest: string)

  datatype HeldCsync = HeldCsync(sender: string, rr: CsyncRecord)

  /** h is to be served rather than o: the combiner's own, made by an earlier
      build, gives way to any; otherwise the newer serial. */
  predicate Supersedes(h: HeldCsync, o: HeldCsync, self: string) {
    if (h.sender == self) != (o.sender == self) then o.sender == self
    else SerialNewer(h.rr.serial, o.rr.serial)
  }

  /** h takes best's place in the choice. */
  predicate Displaces(h: HeldCsync, best: HeldCsync, self: string) {
    Supersedes(h, best, self) || (!Supersedes(best, h, self) && Before(h.sender, best.sender))
  }

  function Choose(best: HeldCsync, rest: seq<HeldCsync>, self: string): HeldCsync
    decreases |rest|
  {
    if rest == [] then best
    else Choose(if Displaces(rest[0], best, self) then rest[0] else best, rest[1..], self)
  }

  function Serve(held: seq<HeldCsync>, self: string): HeldCsync
    requires held != []
  {
    Choose(held[0], held[1..], self)
  }

  /** The choice as the program makes it, in the order the records are listed. */
  method CsyncToServe(held: seq<HeldCsync>, self: string) returns (best: HeldCsync)
    requires held != []
    ensures best == Serve(held, self) && best in held
  {
    best := held[0];
    var i := 1;
    while i < |held|
      invariant 1 <= i <= |held|
      invariant best in held
      invariant Choose(best, held[i..], self) == Serve(held, self)
    {
      assert held[i..][0] == held[i] && held[i..][1..] == held[i + 1..];
      if Supersedes(held[i], best, self) || (!Supersedes(best, held[i], self) && Before(held[i].sender, best.sender)) {
        best := held[i];
      }
      i := i + 1;
    }
  }

  lemma {:induction false} ChosenIsOneOf(best: HeldCsync, rest: seq<HeldCsync>, self: string)
    ensures Choose(best, rest, self) in [best] + rest
    decreases |rest|
  {
    if rest != [] {
      var next := if Displaces(rest[0], best, self) then rest[0] else best;
      ChosenIsOneOf(next, rest[1..], self);
      assert forall h :: h in [next] + rest[1..] ==> h in [best] + rest;
    }
  }

  lemma NewerIsRank(base: uint32, a: uint32, b: uint32)
    requires InHalf(base, a) && InHalf(base, b)
    ensures SerialNewer(a, b) <==> Rank(base, a) > Rank(base, b)
    ensures SerialNewer(b, a) <==> Rank(base, b) > Rank(base, a)
  {
  }

  // ---- Which is served, by the senders and the serials ---------------------------

  /** The combiner's own never is to be served rather than another's, and another's
      always is rather than it; of two others', or two of its own, the one whose serial
      is ahead by less than half the circle. */
  lemma WhatSupersedes(h: HeldCsync, o: HeldCsync, self: string)
    ensures h.sender == self && o.sender != self ==> !Supersedes(h, o, self)
    ensures h.sender != self && o.sender == self ==> Supersedes(h, o, self)
    ensures (h.sender == self <==> o.sender == self) ==>
      (Supersedes(h, o, self) <==> 0 < (h.rr.serial - o.rr.serial) % 0x1_0000_0000 < 0x8000_0000)
  {
  }

  /** Of two, the combiner's own gives way to any other's; else the one whose serial is
      ahead by less than half the circle is served; and where neither is, the sender
      named first. In either order of the two. */
  lemma ServedOfTwo(a: HeldCsync, b: HeldCsync, self: string)
    requires a.sender != b.sender
    ensures a.sender == self ==> Serve([a, b], self) == b && Serve([b, a], self) == b
    ensures a.sender != self && b.sender != self && 0 < (a.rr.serial - b.rr.serial) % 0x1_0000_0000 < 0x8000_0000 ==>
      Serve([a, b], self) == a && Serve([b, a], self) == a
    ensures a.sender != self && b.sender != self && Before(a.sender, b.sender) ==>
      ((a.rr.serial - b.rr.serial) % 0x1_0000_0000 in {0, 0x8000_0000} ==>
         Serve([a, b], self) == a && Serve([b, a], self) == a)
  {
    Reverse(a.rr.serial, b.rr.serial);
    OneOfTwo(a, b, self);
    OneOfTwo(b, a, self);
    if Before(a.sender, b.sender) { BeforeIsAsymmetric(a.sender, b.sender); }
  }

  lemma OneOfTwo(a: HeldCsync, b: HeldCsync, self: string)
    ensures Serve([a, b], self) == if Displaces(b, a, self) then b else a
  {
    assert [a, b][1..] == [b] && [b][1..] == [];
    var next := if Displaces(b, a, self) then b else a;
    assert Choose(a, [b], self) == Choose(next, [], self);
  }

  /** However many are held: the combiner's own is served only when there is no other. */
  lemma {:induction false} TheOwnIsServedLast(best: HeldCsync, rest: seq<HeldCsync>, self: string)
    ensures Choose(best, rest, self).sender == self <==> forall h :: h in [best] + rest ==> h.sender == self
    decreases |rest|
  {
    if rest != [] {
      var next := if Displaces(rest[0], best, self) then rest[0] else best;
      TheOwnIsServedLast(next, rest[1..], self);
      assert [best] + rest == [best, rest[0]] + rest[1..];
      assert next.sender == self <==> best.sender == self && rest[0].sender == self;
      assert (forall h :: h in [best] + rest ==> h.sender == self) <==>
        best.sender == self && rest[0].sender == self && forall h :: h in rest[1..] ==> h.sender == self;
    }
  }

  /** And of the others', their serials in one half of the circle, the newest is; of
      several with its serial, one whose sender no other is named before. */
  lemma {:induction false} TheNewestOfTheOthersIsServed(best: HeldCsync, rest: seq<HeldCsync>, base: uint32,
      self: string)
    requires forall h :: h in [best] + rest && h.sender != self ==> InHalf(base, h.rr.serial)
    ensures var w := Choose(best, rest, self);
      w in [best] + rest && (w.sender != self ==> NewestOfOthers([best] + rest, w, base, self))
    decreases |rest|
  {
    if rest == [] {
      if Before(best.sender, best.sender) { BeforeIsAsymmetric(best.sender, best.sender); }
    } else {
      var next := if Displaces(rest[0], best, self) then rest[0] else best;
      assert [best] + rest == [best, rest[0]] + rest[1..];
      TheNewestOfTheOthersIsServed(next, rest[1..], base, self);
      var w := Choose(next, rest[1..], self);
      if w.sender != self {
        TheOwnIsServedLast(next, rest[1..], self);
        forall o | o in [best] + rest && o.sender != self ensures NoNewer(w, o, base) {
          if o !in [next] + rest[1..] {
            NoNewerThanTheNext(best, rest[0], o, base, self);
            assert NoNewer(w, next, base);
            NoNewerIsTransitive(w, next, o, base);
          }
        }
      }
    }
  }

  /** o's serial is not after w's in the half of the circle; nor, of one serial, its
      sender named before w's. */
  ghost predicate NoNewer(w: HeldCsync, o: HeldCsync, base: uint32) {
    || (o.rr.serial - base) % 0x1_0000_0000 < (w.rr.serial - base) % 0x1_0000_0000
    || (o.rr.serial == w.rr.serial && !Before(o.sender, w.sender))
  }

  ghost predicate NewestOfOthers(held: seq<HeldCsync>, w: HeldCsync, base: uint32, self: string) {
    forall o :: o in held && o.sender != self ==> NoNewer(w, o, base)
  }

  lemma NoNewerIsTransitive(a: HeldCsync, b: HeldCsync, c: HeldCsync, base: uint32)
    requires NoNewer(a, b, base) && NoNewer(b, c, base)
    ensures NoNewer(a, c, base)
  {
    if Before(c.sender, a.sender) {
      BeforeIsTotal(b.sender, a.sender);
      if Before(a.sender, b.sender) { BeforeIsTransitive(c.sender, a.sender, b.sender); }
    }
  }

  /** What gives way, o, is no newer than what takes its place. */
  lemma NoNewerThanTheNext(best: HeldCsync, h: HeldCsync, o: HeldCsync, base: uint32, self: string)
    requires best.sender != self ==> InHalf(base, best.rr.serial)
    requires h.sender != self ==> InHalf(base, h.rr.serial)
    requires var next := if Displaces(h, best, self) then h else best;
      (o == best || o == h) && o != next && o.sender != self
    ensures var next := if Displaces(h, best, self) then h else best;
      next.sender != self && NoNewer(next, o, base)
  {
    if Before(h.sender, best.sender) { BeforeIsAsymmetric(h.sender, best.sender); }
    if h.sender != self && best.sender != self {
      NewerIsRank(base, h.rr.serial, best.rr.serial);
      if Rank(base, h.rr.serial) == Rank(base, best.rr.serial) {
        RankIsInjective(base, h.rr.serial, best.rr.serial);
      }
    }
  }

  // ---- When the order of the records does not matter -----------------------------

  /** w displaces every other record held. */
  predicate BeatsAll(held: seq<HeldCsync>, w: HeldCsync, self: string) {
    w in held && forall o :: o in held && o != w ==> Displaces(w, o, self)
  }

  lemma DisplacingIsAsymmetric(h: HeldCsync, o: HeldCsync, self: string)
    requires Displaces(h, o, self)
    ensures !Displaces(o, h, self)
  {
    NewerIsCompare(h.rr.serial, o.rr.serial);
    NewerIsCompare(o.rr.serial, h.rr.serial);
    CompareIsAntisymmetric(h.rr.serial, o.rr.serial);
    if Before(h.sender, o.sender) { BeforeIsAsymmetric(h.sender, o.sender); }
  }

  lemma {:induction false} TheBestIsChosen(best: HeldCsync, rest: seq<HeldCsync>, w: HeldCsync, self: string)
    requires BeatsAll([best] + rest, w, self)
    ensures Choose(best, rest, self) == w
    decreases |rest|
  {
    var all := [best] + rest;
    if rest == [] {
      assert all == [best];
    } else {
      var next := if Displaces(rest[0], best, self) then rest[0] else best;
      assert best in all && rest[0] in all;
      if best == w && rest[0] != w { DisplacingIsAsymmetric(w, rest[0], self); }
      var left := [next] + rest[1..];
      assert forall o :: o in left ==> o in all;
      assert w in left by {
        if w != best && w != rest[0] { assert w in rest[1..]; }
      }
      TheBestIsChosen(next, rest[1..], w, self);
    }
  }

  function Copies(s: seq<HeldCsync>, x: HeldCsync): seq<HeldCsync> {
    if s == [] then [] else (if s[0] == x then [x] else []) + Copies(s[1..], x)
  }

  function Others(s: seq<HeldCsync>, x: HeldCsync): (r: seq<HeldCsync>)
    ensures x !in r
  {
    if s == [] then [] else (if s[0] == x then [] else [s[0]]) + Others(s[1..], x)
  }

  lemma OneMoreCounted(x: HeldCsync, rest: seq<HeldCsync>, h: HeldCsync)
    ensures multiset([x] + rest)[h] == (if x == h then 1 else 0) + multiset(rest)[h]
  {
  }

  lemma {:induction false} CopiesCounted(s: seq<HeldCsync>, x: HeldCsync, h: HeldCsync)
    ensures multiset(Copies(s, x))[h] + multiset(Others(s, x))[h] == multiset(s)[h]
  {
    if s != [] {
      CopiesCounted(s[1..], x, h);
      assert s == [s[0]] + s[1..];
      OneMoreCounted(s[0], s[1..], h);
      if s[0] == x {
        assert Others(s, x) == Others(s[1..], x) && Copies(s, x) == [x] + Copies(s[1..], x);
        OneMoreCounted(x, Copies(s[1..], x), h);
      } else {
        assert Copies(s, x) == Copies(s[1..], x) && Others(s, x) == [s[0]] + Others(s[1..], x);
        OneMoreCounted(s[0], Others(s[1..], x), h);
      }
    }
  }

  lemma CopiesAndOthers(s: seq<HeldCsync>, x: HeldCsync)
    ensures multiset(Copies(s, x)) + multiset(Others(s, x)) == multiset(s)
  {
    forall h ensures multiset(Copies(s, x))[h] + multiset(Others(s, x))[h] == multiset(s)[h] { CopiesCounted(s, x, h); }
  }

  lemma {:induction false} CopiesAreAlike(s: seq<HeldCsync>, x: HeldCsync)
    ensures forall h :: h in Copies(s, x) ==> h == x
  {
    if s != [] { CopiesAreAlike(s[1..], x); }
  }

  lemma {:induction false} ItStays(o: HeldCsync, copies: seq<HeldCsync>, rest: seq<HeldCsync>, x: HeldCsync,
      self: string)
    requires o != x && !Displaces(x, o, self) && (forall h :: h in copies ==> h == x) && x !in rest
    ensures Choose(o, copies + rest, self) != x
    decreases |copies| + |rest|
  {
    if copies != [] {
      assert (copies + rest)[1..] == copies[1..] + rest;
      assert copies[0] in copies && forall h :: h in copies[1..] ==> h in copies;
      ItStays(o, copies[1..], rest, x, self);
    } else {
      assert copies + rest == rest;
      NeverChosen(o, rest, x, self);
    }
  }

  lemma {:induction false} NeverChosen(best: HeldCsync, rest: seq<HeldCsync>, x: HeldCsync, self: string)
    requires best != x && x !in rest
    ensures Choose(best, rest, self) != x
    decreases |rest|
  {
    if rest != [] {
      NeverChosen(if Displaces(rest[0], best, self) then rest[0] else best, rest[1..], x, self);
    }
  }

  /** A listing as the nested maps give one: a sender's records together. */
  predicate BySender(listed: seq<HeldCsync>) {
    forall i, j, k :: 0 <= i < j < k < |listed| && listed[i].sender == listed[k].sender ==>
        listed[j].sender == listed[i].sender
  }

  ghost predicate AlwaysServed(held: seq<HeldCsync>, x: HeldCsync, self: string) {
    forall listed: seq<HeldCsync> :: multiset(listed) == multiset(held) && BySender(listed) && listed != [] ==>
        Serve(listed, self) == x
  }

  lemma TheBestIsAlwaysServed(held: seq<HeldCsync>, x: HeldCsync, self: string)
    requires BeatsAll(held, x, self)
    ensures AlwaysServed(held, x, self)
  {
    forall listed: seq<HeldCsync> | multiset(listed) == multiset(held) && BySender(listed) && listed != []
      ensures Serve(listed, self) == x
    {
      assert forall o :: o in listed <==> o in multiset(listed);
      assert forall o :: o in held <==> o in multiset(held);
      assert listed == [listed[0]] + listed[1..];
      TheBestIsChosen(listed[0], listed[1..], x, self);
    }
  }

  function SentBy(s: seq<HeldCsync>, sender: string): (r: seq<HeldCsync>)
    ensures forall h :: h in r ==> h.sender == sender
  {
    if s == [] then [] else (if s[0].sender == sender then [s[0]] else []) + SentBy(s[1..], sender)
  }

  function SentByOthers(s: seq<HeldCsync>, sender: string): (r: seq<HeldCsync>)
    ensures forall h :: h in r ==> h.sender != sender
    ensures |r| <= |s|
  {
    if s == [] then [] else (if s[0].sender == sender then [] else [s[0]]) + SentByOthers(s[1..], sender)
  }

  lemma {:induction false} SentCounted(s: seq<HeldCsync>, sender: string, h: HeldCsync)
    ensures multiset(SentBy(s, sender))[h] + multiset(SentByOthers(s, sender))[h] == multiset(s)[h]
  {
    if s != [] {
      SentCounted(s[1..], sender, h);
      assert s == [s[0]] + s[1..];
      OneMoreCounted(s[0], s[1..], h);
      if s[0].sender == sender {
        assert SentByOthers(s, sender) == SentByOthers(s[1..], sender);
        OneMoreCounted(s[0], SentBy(s[1..], sender), h);
      } else {
        assert SentBy(s, sender) == SentBy(s[1..], sender);
        OneMoreCounted(s[0], SentByOthers(s[1..], sender), h);
      }
    }
  }

  lemma SentByAndByOthers(s: seq<HeldCsync>, sender: string)
    ensures multiset(SentBy(s, sender)) + multiset(SentByOthers(s, sender)) == multiset(s)
  {
    forall h
      ensures multiset(SentBy(s, sender))[h] + multiset(SentByOthers(s, sender))[h] == multiset(s)[h]
    {
      SentCounted(s, sender, h);
    }
  }

  /** A listing of the same records, a sender's together. */
  lemma {:induction false} Grouped(s: seq<HeldCsync>) returns (g: seq<HeldCsync>)
    ensures multiset(g) == multiset(s) && BySender(g)
    decreases |s|
  {
    if s == [] {
      g := [];
    } else {
      var sender := s[0].sender;
      SentByAndByOthers(s, sender);
      assert SentByOthers(s, sender) == SentByOthers(s[1..], sender);
      var rest := Grouped(SentByOthers(s[1..], sender));
      TheOthersApart(SentBy(s, sender), SentByOthers(s, sender), rest, sender);
      ABlockFirst(SentBy(s, sender), rest, sender);
      g := SentBy(s, sender) + rest;
    }
  }

  lemma TheOthersApart(block: seq<HeldCsync>, others: seq<HeldCsync>, rest: seq<HeldCsync>, sender: string)
    requires multiset(rest) == multiset(others)
    requires (forall h :: h in block ==> h.sender == sender) && forall h :: h in others ==> h.sender != sender
    ensures Apart(block, rest, sender)
  {
    forall i | 0 <= i < |rest| ensures rest[i].sender != sender {
      assert rest[i] in multiset(rest);
      assert rest[i] in multiset(others);
    }
  }

  ghost predicate Apart(block: seq<HeldCsync>, rest: seq<HeldCsync>, sender: string) {
    && (forall i :: 0 <= i < |block| ==> block[i].sender == sender)
    && (forall i :: 0 <= i < |rest| ==> rest[i].sender != sender)
  }

  lemma ABlockFirst(block: seq<HeldCsync>, rest: seq<HeldCsync>, sender: string)
    requires Apart(block, rest, sender) && BySender(rest)
    ensures BySender(block + rest)
  {
    var all, n := block + rest, |block|;
    assert forall i :: n <= i < |all| ==> all[i] == rest[i - n];
    forall i, j, k | 0 <= i < j < k < |all| && all[i].sender == all[k].sender ensures all[j].sender == all[i].sender {
      if i >= n { assert rest[i - n].sender == rest[k - n].sender; }
    }
  }

  lemma ABlockLast(rest: seq<HeldCsync>, block: seq<HeldCsync>, sender: string)
    requires Apart(block, rest, sender) && BySender(rest)
    ensures BySender(rest + block)
  {
    var all, n := rest + block, |rest|;
    assert forall i :: n <= i < |all| ==> all[i] == block[i - n];
    forall i, j, k | 0 <= i < j < k < |all| && all[i].sender == all[k].sender ensures all[j].sender == all[i].sender {
      if k < n { assert rest[i].sender == rest[k].sender; }
    }
  }

  lemma {:induction false} ChoosingOn(best: HeldCsync, s: seq<HeldCsync>, t: seq<HeldCsync>, self: string)
    ensures Choose(best, s + t, self) == Choose(Choose(best, s, self), t, self)
    decreases |s|
  {
    if s == [] {
      assert s + t == t;
    } else {
      assert (s + t)[1..] == s[1..] + t;
      ChoosingOn(if Displaces(s[0], best, self) then s[0] else best, s[1..], t, self);
    }
  }

  /** All but one occurrence of o. */
  lemma AllButOne(held: seq<HeldCsync>, o: HeldCsync) returns (left: seq<HeldCsync>)
    requires o in held
    ensures multiset(held) == multiset{o} + multiset(left)
  {
    var i :| 0 <= i < |held| && held[i] == o;
    left := held[..i] + held[i + 1..];
    assert held == held[..i] + [o] + held[i + 1..];
  }

  /** The records of o's sender, but for one o, and those of the others, grouped. */
  lemma TakenApart(held: seq<HeldCsync>, o: HeldCsync) returns (own: seq<HeldCsync>, rest: seq<HeldCsync>)
    requires o in held
    ensures multiset(held) == multiset{o} + multiset(own) + multiset(rest)
    ensures Apart(own, rest, o.sender) && BySender(rest)
  {
    var left := AllButOne(held, o);
    SentByAndByOthers(left, o.sender);
    own := SentBy(left, o.sender);
    rest := Grouped(SentByOthers(left, o.sender));
    TheOthersApart(own, SentByOthers(left, o.sender), rest, o.sender);
  }

  /** o, the copies of x, and the sender's others. */
  lemma TheCopiesNext(own: seq<HeldCsync>, o: HeldCsync, x: HeldCsync) returns (block: seq<HeldCsync>)
    requires forall i :: 0 <= i < |own| ==> own[i].sender == o.sender
    ensures block == [o] + Copies(own, x) + Others(own, x) && multiset(block) == multiset{o} + multiset(own)
    ensures forall i :: 0 <= i < |block| ==> block[i].sender == o.sender
  {
    CopiesAndOthers(own, x);
    block := [o] + Copies(own, x) + Others(own, x);
    assert multiset(block) == multiset{o} + multiset(own);
    forall i | 0 <= i < |block| ensures block[i].sender == o.sender {
      assert block[i] in multiset(block);
      if block[i] != o { assert block[i] in own; }
    }
  }

  lemma TheCopiesDoNotHelp(o: HeldCsync, own: seq<HeldCsync>, rest: seq<HeldCsync>, x: HeldCsync, self: string)
    requires o != x && !Displaces(x, o, self) && x !in rest
    ensures Serve([o] + Copies(own, x) + Others(own, x) + rest, self) != x
  {
    var copies, others := Copies(own, x), Others(own, x);
    CopiesAreAlike(own, x);
    assert ([o] + copies + others + rest)[1..] == copies + (others + rest);
    ItStays(o, copies, others + rest, x, self);
  }

  /** x is the same sender's: o first of all, and the copies of x after it. */
  lemma TheSendersOtherFirst(held: seq<HeldCsync>, x: HeldCsync, o: HeldCsync, self: string)
    returns (listed: seq<HeldCsync>)
    requires o in held && o != x && !Displaces(x, o, self) && x.sender == o.sender
    ensures multiset(listed) == multiset(held) && BySender(listed) && listed != [] && Serve(listed, self) != x
  {
    var own, rest := TakenApart(held, o);
    var block := TheCopiesNext(own, o, x);
    ABlockFirst(block, rest, o.sender);
    TheCopiesDoNotHelp(o, own, rest, x, self);
    listed := block + rest;
  }

  lemma ItIsDisplacedLast(o: HeldCsync, own: seq<HeldCsync>, rest: seq<HeldCsync>, x: HeldCsync, self: string)
    requires rest != [] && o != x && Displaces(o, x, self) && x !in own
    ensures Serve(rest + ([o] + own), self) != x
  {
    var listed := rest + ([o] + own);
    assert listed[0] == rest[0] && listed[1..] == rest[1..] + ([o] + own);
    ChoosingOn(rest[0], rest[1..], [o] + own, self);
    var before := Choose(rest[0], rest[1..], self);
    assert ([o] + own)[0] == o && ([o] + own)[1..] == own;
    NeverChosen(if Displaces(o, before, self) then o else before, own, x, self);
  }

  /** x is another sender's: those of o's sender last, o first among them. */
  lemma TheOtherSenderLast(held: seq<HeldCsync>, x: HeldCsync, o: HeldCsync, self: string)
    returns (listed: seq<HeldCsync>)
    requires o in held && x in held && !Displaces(x, o, self) && x.sender != o.sender
    ensures multiset(listed) == multiset(held) && BySender(listed) && listed != [] && Serve(listed, self) != x
  {
    var own, rest := TakenApart(held, o);
    assert x !in own && x in multiset(held);
    assert rest != [];
    ABlockLast(rest, [o] + own, o.sender);
    DisplacingIsTotal(x, o, self);
    ItIsDisplacedLast(o, own, rest, x, self);
    listed := rest + ([o] + own);
  }

  /** The senders are listed in the order a map gives them, and a sender's records
      in the order they came. The same record is served in every such order exactly
      when it displaces all the others. */
  lemma ServedInEveryOrder(held: seq<HeldCsync>, x: HeldCsync, self: string)
    requires x in held
    ensures AlwaysServed(held, x, self) <==> BeatsAll(held, x, self)
    ensures BeatsAll(held, x, self) ==> forall o :: o in held ==> !Supersedes(o, x, self)
  {
    if BeatsAll(held, x, self) {
      TheBestIsAlwaysServed(held, x, self);
      forall o | o in held ensures !Supersedes(o, x, self) {
        if o != x { DisplacingIsAsymmetric(x, o, self); }
      }
    } else {
      var o :| o in held && o != x && !Displaces(x, o, self);
      var listed: seq<HeldCsync>;
      if x.sender == o.sender { listed := TheSendersOtherFirst(held, x, o, self); }
      else { listed := TheOtherSenderLast(held, x, o, self); }
    }
  }

  // ---- When one displaces all the others --------------------------------------------

  /** Each sender holds one CSYNC, and the agents' serials lie in one half of the
      circle. */
  predicate Settled(held: seq<HeldCsync>, base: uint32, self: string) {
    && (forall h, o :: h in held && o in held && h.sender == o.sender ==> h == o)
    && (forall h :: h in held && h.sender != self ==> InHalf(base, h.rr.serial))
  }

  lemma DisplacingIsTotal(h: HeldCsync, o: HeldCsync, self: string)
    requires h.sender != o.sender
    ensures Displaces(h, o, self) || Displaces(o, h, self)
  {
    BeforeIsTotal(h.sender, o.sender);
  }

  lemma DisplacingIsTransitive(base: uint32, a: HeldCsync, b: HeldCsync, c: HeldCsync, self: string)
    requires a.sender != b.sender && b.sender != c.sender && a.sender != c.sender
    requires a.sender != self ==> InHalf(base, a.rr.serial)
    requires b.sender != self ==> InHalf(base, b.rr.serial)
    requires c.sender != self ==> InHalf(base, c.rr.serial)
    requires Displaces(a, b, self) && Displaces(b, c, self)
    ensures Displaces(a, c, self)
  {
    if a.sender != self && b.sender != self && c.sender != self {
      NewerIsRank(base, a.rr.serial, b.rr.serial);
      NewerIsRank(base, b.rr.serial, c.rr.serial);
      NewerIsRank(base, a.rr.serial, c.rr.serial);
      if Before(a.sender, b.sender) && Before(b.sender, c.sender) { BeforeIsTransitive(a.sender, b.sender, c.sender); }
    }
  }

  lemma {:induction false} TheChosenBeatsAll(base: uint32, best: HeldCsync, seen: seq<HeldCsync>,
      rest: seq<HeldCsync>, self: string)
    requires Settled(seen + rest, base, self) && BeatsAll(seen, best, self)
    ensures BeatsAll(seen + rest, Choose(best, rest, self), self)
    decreases |rest|
  {
    if rest == [] {
      assert seen + rest == seen;
    } else {
      var h := rest[0];
      var next := if Displaces(h, best, self) then h else best;
      var all := seen + rest;
      assert (seen + [h]) + rest[1..] == all;
      assert best in all && h in all;
      forall o | o in seen + [h] && o != next ensures Displaces(next, o, self) {
        assert o in all;
        if Displaces(h, best, self) {
          DisplacingIsAsymmetric(h, best, self);
          if o != best { DisplacingIsTransitive(base, h, best, o, self); }
        } else if o == h {
          DisplacingIsTotal(best, h, self);
        }
      }
      TheChosenBeatsAll(base, next, seen + [h], rest[1..], self);
    }
  }

  /** Then the order does not matter: one record is served, however the map lists
      the senders, and none that is held supersedes it. */
  lemma OneCsyncWhateverTheOrder(held: seq<HeldCsync>, base: uint32, self: string)
    requires held != [] && Settled(held, base, self)
    ensures AlwaysServed(held, Serve(held, self), self)
    ensures forall o :: o in held ==> !Supersedes(o, Serve(held, self), self)
  {
    assert held == [held[0]] + held[1..];
    TheChosenBeatsAll(base, held[0], [held[0]], held[1..], self);
    ServedInEveryOrder(held, Serve(held, self), self);
  }

  /** If each of three displaces the next, none is served in every order. */
  lemma RoundAndRound(a: HeldCsync, b: HeldCsync, c: HeldCsync, self: string)
    requires Displaces(b, a, self) && Displaces(c, b, self) && Displaces(a, c, self)
    ensures forall x :: x in [a, b, c] ==> !AlwaysServed([a, b, c], x, self)
  {
    DisplacingIsAsymmetric(b, a, self);
    DisplacingIsAsymmetric(c, b, self);
    DisplacingIsAsymmetric(a, c, self);
    var held := [a, b, c];
    assert held[0] == a && held[1] == b && held[2] == c;
    forall x | x in held ensures !AlwaysServed(held, x, self) {
      ServedInEveryOrder(held, x, self);
    }
  }

  /** Serials pairwise less than 2^31 apart are not enough: three a third of the
      circle apart are each newer than the next. */
  lemma PairwiseCloseIsNotEnough(rest: string)
    ensures var a, b, c := HeldCsync("a", CsyncRecord(0, rest)), HeldCsync("b", CsyncRecord(0x5555_5555, rest)),
        HeldCsync("c", CsyncRecord(0xaaaa_aaaa, rest));
      && !Opposite(a.rr.serial, b.rr.serial) && !Opposite(b.rr.serial, c.rr.serial)
          && !Opposite(c.rr.serial, a.rr.serial)
      && (forall x :: x in [a, b, c] ==> !AlwaysServed([a, b, c], x, ""))
  {
    var a, b, c := HeldCsync("a", CsyncRecord(0, rest)), HeldCsync("b", CsyncRecord(0x5555_5555, rest)),
        HeldCsync("c", CsyncRecord(0xaaaa_aaaa, rest));
    assert (0x5555_5555 - 0) % CIRCLE == 0x5555_5555;
    assert (0xaaaa_aaaa - 0x5555_5555) % CIRCLE == 0x5555_5555;
    assert (0 - 0xaaaa_aaaa) % CIRCLE == 0x5555_5556;
    assert SerialNewer(b.rr.serial, a.rr.serial) && SerialNewer(c.rr.serial, b.rr.serial)
        && SerialNewer(a.rr.serial, c.rr.serial);
    RoundAndRound(a, b, c, "");
  }

  // ---- What is done with a CSYNC that arrives ----------------------------------------

  datatype Verdict = Refused | Taken(drop: seq<string>)

  /** The CSYNC records held, by sender, and a listing of them. */
  ghost predicate Lists(held: seq<HeldCsync>, csyncs: map<string, seq<CsyncRecord>>) {
    forall h :: h in held <==> h.sender in csyncs && h.rr in csyncs[h.sender]
  }

  method CsyncVerdict(sender: string, rrs: seq<CsyncRecord>, held: seq<HeldCsync>, self: string) returns (v: Verdict)
    ensures v.Refused? <==>
      |rrs| != 1 || exists h :: h in held && h.sender != sender && Supersedes(h, HeldCsync(sender, rrs[0]), self)
    ensures v.Taken? ==> forall o :: o in v.drop <==> o != sender && exists h :: h in held && h.sender == o
    ensures v.Taken? ==> forall i, j :: 0 <= i < j < |v.drop| ==> v.drop[i] != v.drop[j]
  {
    if |rrs| != 1 { return Refused; }
    var arriving := HeldCsync(sender, rrs[0]);
    var drop := [];
    for i := 0 to |held|
      invariant forall h :: h in held[..i] && h.sender != sender ==> !Supersedes(h, arriving, self)
      invariant forall o :: o in drop ==> o != sender && exists h :: h in held && h.sender == o
      invariant forall h :: h in held[..i] && h.sender != sender ==> h.sender in drop
      invariant forall a, b :: 0 <= a < b < |drop| ==> drop[a] != drop[b]
    {
      var h := held[i];
      assert h in held;
      if h.sender != sender {
        if Supersedes(h, arriving, self) { return Refused; }
        if h.sender !in drop { drop := drop + [h.sender]; }
      }
    }
    assert held[..|held|] == held;
    return Taken(drop);
  }

  /** The sender's CSYNC in place of its own, those of the senders dropped gone. */
  function AfterVerdict(csyncs: map<string, seq<CsyncRecord>>, sender: string, rr: CsyncRecord,
      drop: seq<string>): map<string, seq<CsyncRecord>>
  {
    csyncs[sender := [rr]] - set o | o in drop
  }

  /** A CSYNC taken is the only one held, and so the one served. */
  lemma TakenIsTheOnlyOne(csyncs: map<string, seq<CsyncRecord>>, held: seq<HeldCsync>, sender: string,
      rr: CsyncRecord, drop: seq<string>, self: string)
    requires Lists(held, csyncs) && forall o :: o in csyncs ==> csyncs[o] != []
    requires forall o :: o in drop <==> o != sender && exists h :: h in held && h.sender == o
    ensures AfterVerdict(csyncs, sender, rr, drop) == map[sender := [rr]]
    ensures Serve([HeldCsync(sender, rr)], self) == HeldCsync(sender, rr)
  {
    var after := AfterVerdict(csyncs, sender, rr, drop);
    forall o | o in csyncs && o != sender ensures o in drop {
      assert HeldCsync(o, csyncs[o][0]) in held;
    }
    assert after.Keys == {sender};
  }
}
