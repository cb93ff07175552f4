/** What the agents contribute to a zone, kept per sender; its merge, judged by
    the providers the combiner was handed; and its snapshot in the database.
    RRsets are sets of records here; RecordLists.dfy has their lists. */
module Contributions {
  import opened Collections
  import opened Wrappers
  import opened Handover
  import opened Csync

  type Sender = string

  const NS := 2
  const KEY := 25
  const DNSKEY := 48
  const CDS := 59
  const CSYNC := 62

  datatype Slot = Slot(owner: string, rrtype: nat)

  datatype RR = CsyncRR(csync: CsyncRecord) | RR(text: string)

  type RRsets = map<Slot, set<RR>>
  type Contribs = map<Sender, RRsets>

  function At(m: RRsets, slot: Slot): set<RR> { if slot in m then m[slot] else {} }
  function Of(c: Contribs, sender: Sender): RRsets { if sender in c then c[sender] else map[] }

  predicate NoEmpty(m: RRsets) { forall slot :: slot in m ==> m[slot] != {} }

  ghost predicate WellFormed(c: Contribs) { forall x :: x in c ==> NoEmpty(c[x]) }

  predicate Contributes(c: Contribs, x: Sender, slot: Slot) { x in c && slot in c[x] }

  ghost predicate Contributed(c: Contribs, slot: Slot) { exists x :: Contributes(c, x, slot) }

  lemma SameRRsets(a: RRsets, b: RRsets)
    requires NoEmpty(a) && NoEmpty(b) && forall slot :: At(a, slot) == At(b, slot)
    ensures a == b
  {
    forall slot ensures slot in a <==> slot in b { assert At(a, slot) == At(b, slot); }
    forall slot | slot in a ensures a[slot] == b[slot] { assert At(a, slot) == At(b, slot); }
  }

  // ---- The merge --------------------------------------------------------------------

  /** The zone may carry origin's contribution of a type, by the sets handed; handed
      nothing, it may carry every one. */
  predicate HandedOrigin(handed: Option<Roles>, origin: Sender, rrtype: nat) {
    handed.None? ||
    if rrtype == DNSKEY then IdentityIn(handed.value.keySigners, origin)
    else if rrtype == CDS then IdentityIn(handed.value.dsSigners, origin)
    else true
  }

  predicate IdentityIn(providers: seq<Provider>, origin: Sender) {
    exists i :: 0 <= i < |providers| && providers[i].identity != "" && providers[i].identity == origin
  }

  function HeldAt(c: Contribs, owner: string): set<HeldCsync> {
    set x, rr | x in c && Slot(owner, CSYNC) in c[x] && rr in c[x][Slot(owner, CSYNC)] && rr.CsyncRR? ::
        HeldCsync(x, rr.csync)
  }

  predicate Served(held: set<HeldCsync>, w: HeldCsync, self: string) {
    w in held && forall o :: o in held && o != w ==> Displaces(w, o, self)
  }

  /** At every owner one CSYNC displaces the others. */
  ghost predicate OneCsync(c: Contribs, self: string) {
    forall x, slot :: Contributes(c, x, slot) && slot.rrtype == CSYNC ==>
        exists w :: Served(HeldAt(c, slot.owner), w, self)
  }

  /** The CSYNC a merge has, by owner. */
  type Picks = map<string, HeldCsync>

  function PickOf(pick: Picks, owner: string): Option<HeldCsync> {
    if owner in pick then Some(pick[owner]) else None
  }

  /** What sender x brings to the merge of a slot. */
  function Gives(c: Contribs, handed: Option<Roles>, pick: Picks, x: Sender, slot: Slot): set<RR>
    requires Contributes(c, x, slot)
  {
    if !HandedOrigin(handed, x, slot.rrtype) then {}
    else if slot.rrtype != CSYNC then c[x][slot]
    else if slot.owner in pick && pick[slot.owner].sender == x then {CsyncRR(pick[slot.owner].rr)}
    else {}
  }

  predicate AllContribute(c: Contribs, pairs: set<(Sender, Slot)>) {
    forall p :: p in pairs ==> Contributes(c, p.0, p.1)
  }

  function Union(c: Contribs, handed: Option<Roles>, pick: Picks, pairs: set<(Sender, Slot)>, slot: Slot): set<RR>
    requires AllContribute(c, pairs)
  {
    set p, rr | p in pairs && p.1 == slot && rr in Gives(c, handed, pick, p.0, slot) :: rr
  }

  function MergedOver(c: Contribs, handed: Option<Roles>, pick: Picks, pairs: set<(Sender, Slot)>): RRsets
    requires AllContribute(c, pairs)
  {
    map p | p in pairs && Union(c, handed, pick, pairs, p.1) != {} :: p.1 := Union(c, handed, pick, pairs, p.1)
  }

  function Pairs(c: Contribs): set<(Sender, Slot)> {
    set x, slot | x in c && slot in c[x] :: (x, slot)
  }

  /** The contributions of all senders merged. */
  function Merged(c: Contribs, handed: Option<Roles>, pick: Picks): RRsets { MergedOver(c, handed, pick, Pairs(c)) }

  /** What the merge leaves out, by the sets handed. */
  function Filtered(c: Contribs, handed: Option<Roles>): set<Slot> {
    set x, slot | x in c && slot in c[x] && !HandedOrigin(handed, x, slot.rrtype) :: slot
  }

  lemma MergedAt(c: Contribs, handed: Option<Roles>, pick: Picks, done: set<(Sender, Slot)>, q: Slot)
    requires AllContribute(c, done)
    ensures At(MergedOver(c, handed, pick, done), q) == Union(c, handed, pick, done, q)
  {
  }

  lemma MergedOverIsNotEmpty(c: Contribs, handed: Option<Roles>, pick: Picks, done: set<(Sender, Slot)>)
    requires AllContribute(c, done)
    ensures NoEmpty(MergedOver(c, handed, pick, done))
  {
  }

  lemma InTheMerge(c: Contribs, handed: Option<Roles>, pick: Picks, slot: Slot, rr: RR)
    ensures rr in At(Merged(c, handed, pick), slot) <==>
        exists x :: Contributes(c, x, slot) && rr in Gives(c, handed, pick, x, slot)
  {
    if rr in At(Merged(c, handed, pick), slot) {
      assert rr in Union(c, handed, pick, Pairs(c), slot);
      var p :| p in Pairs(c) && p.1 == slot && rr in Gives(c, handed, pick, p.0, slot);
      assert Contributes(c, p.0, slot);
    }
    if x :| Contributes(c, x, slot) && rr in Gives(c, handed, pick, x, slot) {
      assert (x, slot) in Pairs(c);
      assert rr in Union(c, handed, pick, Pairs(c), slot);
    }
  }

  lemma TheCsyncInTheMerge(c: Contribs, handed: Option<Roles>, pick: Picks, slot: Slot, rr: RR)
    requires slot.rrtype == CSYNC
    ensures (exists x :: Contributes(c, x, slot) && rr in Gives(c, handed, pick, x, slot)) <==>
      PickedFrom(c, pick, slot) && rr == CsyncRR(pick[slot.owner].rr)
  {
    if PickedFrom(c, pick, slot) && rr == CsyncRR(pick[slot.owner].rr) {
      assert rr in Gives(c, handed, pick, pick[slot.owner].sender, slot);
    }
  }

  /** x is the identity of one of the providers, where there are any to be one of. */
  ghost predicate OneOf(x: Sender, providers: Option<seq<Provider>>) {
    providers.Some? ==> exists p :: p in providers.value && p.identity == x && p.identity != ""
  }

  /** A sender contributes the record, one of the providers where they are given. */
  ghost predicate ContributedBy(c: Contribs, slot: Slot, rr: RR, providers: Option<seq<Provider>>) {
    exists x :: Contributes(c, x, slot) && rr in c[x][slot] && OneOf(x, providers)
  }

  /** A sender contributes there that is none of the providers. */
  ghost predicate ContributedByNoneOf(c: Contribs, slot: Slot, providers: seq<Provider>) {
    exists x :: Contributes(c, x, slot) && !OneOf(x, Some(providers))
  }

  /** Of the providers handed, those whose DNSKEYs a zone carries; None when nothing was
      handed. */
  function KeySigners(handed: Option<Roles>): Option<seq<Provider>> {
    if handed.None? then None else Some(handed.value.keySigners)
  }

  /** And those whose CDS it carries. */
  function DsSigners(handed: Option<Roles>): Option<seq<Provider>> {
    if handed.None? then None else Some(handed.value.dsSigners)
  }

  /** What the merge has at a slot: of the DNSKEYs those of the providers that sign the
      keys, of the CDS those of the providers that sign the DS, all of them when nothing
      was handed; the CSYNC picked; and all there is of every other type. */
  ghost predicate BelongsInTheMerge(c: Contribs, handed: Option<Roles>, pick: Picks, slot: Slot, rr: RR) {
    if slot.rrtype == DNSKEY then ContributedBy(c, slot, rr, KeySigners(handed))
    else if slot.rrtype == CDS then ContributedBy(c, slot, rr, DsSigners(handed))
    else if slot.rrtype == CSYNC then PickedFrom(c, pick, slot) && rr == CsyncRR(pick[slot.owner].rr)
    else ContributedBy(c, slot, rr, None)
  }

  lemma TheMergeHasWhatIsContributed(c: Contribs, handed: Option<Roles>, pick: Picks, slot: Slot, rr: RR)
    ensures rr in At(Merged(c, handed, pick), slot) <==> BelongsInTheMerge(c, handed, pick, slot, rr)
  {
    InTheMerge(c, handed, pick, slot, rr);
    if slot.rrtype == CSYNC { TheCsyncInTheMerge(c, handed, pick, slot, rr); }
    else { TheRestInTheMerge(c, handed, pick, slot, rr); }
  }

  /** The providers a type is judged by. */
  function Judges(handed: Option<Roles>, rrtype: nat): Option<seq<Provider>> {
    if rrtype == DNSKEY then KeySigners(handed) else if rrtype == CDS then DsSigners(handed) else None
  }

  lemma TheRestInTheMerge(c: Contribs, handed: Option<Roles>, pick: Picks, slot: Slot, rr: RR)
    requires slot.rrtype != CSYNC
    ensures (exists x :: Contributes(c, x, slot) && rr in Gives(c, handed, pick, x, slot)) <==>
        ContributedBy(c, slot, rr, Judges(handed, slot.rrtype))
  {
    var providers := Judges(handed, slot.rrtype);
    forall x ensures HandedOrigin(handed, x, slot.rrtype) <==> OneOf(x, providers) {
      HandedIsOneOf(handed, x, slot.rrtype);
    }
    if x :| Contributes(c, x, slot) && rr in c[x][slot] && OneOf(x, providers) {
      assert rr in Gives(c, handed, pick, x, slot);
    }
  }

  lemma HandedIsOneOf(handed: Option<Roles>, x: Sender, rrtype: nat)
    ensures HandedOrigin(handed, x, rrtype) <==> OneOf(x, Judges(handed, rrtype))
  {
    var providers := Judges(handed, rrtype);
    if providers.Some? {
      if p :| p in providers.value && p.identity == x && p.identity != "" {
        var i :| 0 <= i < |providers.value| && providers.value[i] == p;
      }
    }
  }

  /** What the providers handed leave out: the DNSKEYs of a slot at which some sender contributes
      that does not sign the keys, and the CDS likewise of the DS; nothing when nothing was
      handed. */
  ghost predicate TurnedAway(c: Contribs, handed: Option<Roles>, slot: Slot) {
    && handed.Some?
    && (|| (slot.rrtype == DNSKEY && ContributedByNoneOf(c, slot, handed.value.keySigners))
        || (slot.rrtype == CDS && ContributedByNoneOf(c, slot, handed.value.dsSigners)))
  }

  lemma WhatTheProvidersLeaveOut(c: Contribs, handed: Option<Roles>, slot: Slot)
    ensures slot in Filtered(c, handed) <==> TurnedAway(c, handed, slot)
  {
    forall x
      ensures HandedOrigin(handed, x, slot.rrtype) <==> OneOf(x, Judges(handed, slot.rrtype))
    {
      HandedIsOneOf(handed, x, slot.rrtype);
    }
    if x :| Contributes(c, x, slot) && !HandedOrigin(handed, x, slot.rrtype) {
      assert slot in Filtered(c, handed);
    }
  }

  predicate PickedFrom(c: Contribs, pick: Picks, slot: Slot) {
    slot.owner in pick && Contributes(c, pick[slot.owner].sender, slot)
  }

  /** A CSYNC is contributed and none is in the merge. */
  ghost predicate LeftOut(c: Contribs, pick: Picks, slot: Slot) {
    slot.rrtype == CSYNC && Contributed(c, slot) && !PickedFrom(c, pick, slot)
  }

  /** A slot that is contributed is in the merge, unless the sets handed leave out all
      its senders or it is a CSYNC that is left out; and then it is not. */
  lemma MergedOrFiltered(c: Contribs, handed: Option<Roles>, pick: Picks, slot: Slot)
    requires WellFormed(c) && Contributed(c, slot)
    ensures slot in Merged(c, handed, pick) || slot in Filtered(c, handed) || LeftOut(c, pick, slot)
    ensures LeftOut(c, pick, slot) ==> slot !in Merged(c, handed, pick)
  {
    var x :| Contributes(c, x, slot);
    if slot.rrtype == CSYNC {
      if PickedFrom(c, pick, slot) {
        TheMergeHasWhatIsContributed(c, handed, pick, slot, CsyncRR(pick[slot.owner].rr));
      }
      else if slot in Merged(c, handed, pick) {
        TheMergeIsContributed(c, handed, pick);
        var rr :| rr in Merged(c, handed, pick)[slot];
        TheMergeHasWhatIsContributed(c, handed, pick, slot, rr);
      }
    } else {
      var rr :| rr in c[x][slot];
      TheMergeHasWhatIsContributed(c, handed, pick, slot, rr);
    }
  }

  lemma TheMergeIsContributed(c: Contribs, handed: Option<Roles>, pick: Picks)
    ensures NoEmpty(Merged(c, handed, pick))
    ensures forall slot :: slot in Merged(c, handed, pick) ==> Contributed(c, slot)
  {
    forall slot | slot in Merged(c, handed, pick) ensures Contributed(c, slot) {
      var p :| p in Pairs(c) && p.1 == slot;
      assert Contributes(c, p.0, slot);
    }
  }

  // ---- Which CSYNC is picked --------------------------------------------------------------

  /** A listing of the nested maps from which h is the one to serve. */
  ghost predicate MayServe(held: set<HeldCsync>, h: HeldCsync, self: string) {
    exists listed: seq<HeldCsync> :: multiset(listed) == multiset(held) && BySender(listed) && listed != []
        && Serve(listed, self) == h
  }

  /** The merge asks at every sender's turn which CSYNC is to be served, of a listing
      of its own, and takes the answer when it is that sender's. So it may have any that
      a listing serves, and none when at each turn a listing serves another sender's. */
  ghost predicate PickedAt(held: set<HeldCsync>, picked: Option<HeldCsync>, self: string) {
    match picked
    case Some(h) => MayServe(held, h, self)
    case None => forall o :: o in held ==> ServesAnother(held, o.sender, self)
  }

  ghost predicate ServesAnother(held: set<HeldCsync>, x: Sender, self: string) {
    exists h :: MayServe(held, h, self) && h.sender != x
  }

  ghost predicate Picked(c: Contribs, self: string, pick: Picks) {
    forall owner :: PickedAt(HeldAt(c, owner), PickOf(pick, owner), self)
  }

  lemma WhatIsServedIsHeld(held: set<HeldCsync>, h: HeldCsync, self: string)
    requires MayServe(held, h, self)
    ensures h in held
    ensures forall w :: Served(held, w, self) ==> h == w
  {
    var listed: seq<HeldCsync> :| multiset(listed) == multiset(held) && BySender(listed) && listed != []
        && Serve(listed, self) == h;
    assert forall o :: o in listed <==> o in multiset(listed);
    assert listed == [listed[0]] + listed[1..];
    ChosenIsOneOf(listed[0], listed[1..], self);
    assert h in listed;
    forall w | Served(held, w, self) ensures h == w {
      assert BeatsAll(listed, w, self);
      TheBestIsChosen(listed[0], listed[1..], w, self);
    }
  }

  /** Where one CSYNC displaces the others it is the one picked. */
  lemma TheOneServedIsPicked(held: set<HeldCsync>, w: HeldCsync, picked: Option<HeldCsync>, self: string)
    requires Served(held, w, self) && PickedAt(held, picked, self)
    ensures picked == Some(w)
  {
    if picked.None? {
      assert ServesAnother(held, w.sender, self);
      var h :| MayServe(held, h, self) && h.sender != w.sender;
      WhatIsServedIsHeld(held, h, self);
    } else {
      WhatIsServedIsHeld(held, picked.value, self);
    }
  }

  lemma {:induction false} AListing(held: set<HeldCsync>) returns (listed: seq<HeldCsync>)
    ensures multiset(listed) == multiset(held)
  {
    listed := [];
    if held != {} {
      var h :| h in held;
      var rest := AListing(held - {h});
      listed := [h] + rest;
      assert multiset(held) == multiset{h} + multiset(held - {h});
    }
  }

  /** With one CSYNC a sender a merge may be without any exactly when none displaces all
      the others. */
  lemma NoneIsPickedWhenNoneDisplacesAll(held: set<HeldCsync>, self: string)
    requires held != {} && forall h, o :: h in held && o in held && h.sender == o.sender ==> h == o
    ensures PickedAt(held, None, self) <==> !exists w :: Served(held, w, self)
  {
    if w :| Served(held, w, self) {
      if PickedAt(held, None, self) { TheOneServedIsPicked(held, w, None, self); }
    } else {
      var listing := AListing(held);
      assert forall h :: h in listing <==> h in multiset(listing);
      forall o | o in held ensures ServesAnother(held, o.sender, self) {
        assert !Served(held, o, self);
        ServedInEveryOrder(listing, o, self);
        var listed: seq<HeldCsync> :| multiset(listed) == multiset(listing) && BySender(listed) && listed != []
            && Serve(listed, self) != o;
        assert MayServe(held, Serve(listed, self), self);
        WhatIsServedIsHeld(held, Serve(listed, self), self);
      }
    }
  }

  /** Whatever is held, one of them may be picked. */
  lemma OneMayBePicked(held: set<HeldCsync>, self: string) returns (h: HeldCsync)
    requires held != {}
    ensures MayServe(held, h, self)
  {
    var listing := AListing(held);
    var o :| o in held;
    assert o in multiset(listing);
    var listed := Grouped(listing);
    assert o in multiset(listed);
    h := Serve(listed, self);
  }

  lemma PickedIsContributed(c: Contribs, self: string, pick: Picks, slot: Slot)
    requires Picked(c, self, pick) && slot.rrtype == CSYNC
    ensures slot.owner in pick ==> pick[slot.owner] in HeldAt(c, slot.owner) && PickedFrom(c, pick, slot)
    ensures LeftOut(c, pick, slot) <==> Contributed(c, slot) && slot.owner !in pick
  {
    assert PickedAt(HeldAt(c, slot.owner), PickOf(pick, slot.owner), self);
    if slot.owner in pick { WhatIsServedIsHeld(HeldAt(c, slot.owner), pick[slot.owner], self); }
  }

  /** So where one displaces the others no CSYNC is left out. */
  lemma NoneIsLeftOut(c: Contribs, self: string, pick: Picks, slot: Slot)
    requires OneCsync(c, self) && Picked(c, self, pick)
    ensures !LeftOut(c, pick, slot)
  {
    if LeftOut(c, pick, slot) {
      var x :| Contributes(c, x, slot);
      var w :| Served(HeldAt(c, slot.owner), w, self);
      assert PickedAt(HeldAt(c, slot.owner), PickOf(pick, slot.owner), self);
      TheOneServedIsPicked(HeldAt(c, slot.owner), w, PickOf(pick, slot.owner), self);
      PickedIsContributed(c, self, pick, slot);
    }
  }

  // ---- The changes of one sender's contribution ---------------------------------------

  datatype RRset = RRset(slot: Slot, rrs: seq<RR>)

  function Carried(data: seq<RRset>, slot: Slot): set<RR> {
    set i, rr | 0 <= i < |data| && data[i].slot == slot && rr in data[i].rrs :: rr
  }

  function NamedSlots(data: seq<RRset>): set<Slot> {
    set i | 0 <= i < |data| && data[i].rrs != [] :: data[i].slot
  }

  /** What was there and what is added, RRset by RRset. */
  function Added(had: RRsets, data: seq<RRset>): RRsets {
    map slot | slot in had.Keys + NamedSlots(data) :: At(had, slot) + Carried(data, slot)
  }

  function Without(had: RRsets, data: seq<RRset>): RRsets {
    map slot | slot in had && had[slot] - Carried(data, slot) != {} :: had[slot] - Carried(data, slot)
  }

  lemma AddedIsWellFormed(had: RRsets, data: seq<RRset>)
    requires NoEmpty(had)
    ensures NoEmpty(Added(had, data))
  {
    forall slot | slot in Added(had, data) ensures Added(had, data)[slot] != {} {
      if slot in had { assert had[slot] <= Added(had, data)[slot]; }
      else {
        var i :| 0 <= i < |data| && data[i].rrs != [] && data[i].slot == slot;
        var rr := data[i].rrs[0];
        assert rr in data[i].rrs;
        assert rr in Carried(data, slot);
      }
    }
  }

  // ---- The snapshot ---------------------------------------------------------------------

  /** A row of one zone in the snapshot table. */
  datatype Row = Row(sender: Sender, slot: Slot, rr: RR)

  function RowsOf(sender: Sender, m: RRsets): set<Row> {
    set slot, rr | slot in m && rr in m[slot] :: Row(sender, slot, rr)
  }

  /** SaveContributions, committed: the sender's rows deleted, those of now inserted. */
  function Save(rows: set<Row>, sender: Sender, m: RRsets): set<Row> {
    (set r | r in rows && r.sender != sender) + RowsOf(sender, m)
  }

  /** LoadAllContributions, for one zone. */
  function Load(rows: set<Row>): Contribs {
    map r | r in rows :: r.sender := LoadOf(rows, r.sender)
  }

  function LoadOf(rows: set<Row>, sender: Sender): RRsets {
    map r | r in rows && r.sender == sender ::
        r.slot := set q | q in rows && q.sender == sender && q.slot == r.slot :: q.rr
  }

  /** The table has exactly what is held in memory. */
  ghost predicate Saved(rows: set<Row>, c: Contribs) {
    forall r: Row :: r in rows <==> r.sender in c && r.slot in c[r.sender] && r.rr in c[r.sender][r.slot]
  }

  /** The contributions, but for senders that contribute nothing. */
  function Contributing(c: Contribs): Contribs { map x | x in c && c[x] != map[] :: c[x] }

  lemma SavingKeepsSaved(rows: set<Row>, c: Contribs, sender: Sender, m: RRsets)
    requires forall r: Row :: r in rows && r.sender != sender <==>
        r.sender != sender && r.sender in c && r.slot in c[r.sender] && r.rr in c[r.sender][r.slot]
    ensures Saved(Save(rows, sender, m), c[sender := m])
    ensures forall r: Row :: r.sender != sender ==> (r in Save(rows, sender, m) <==> r in rows)
  {
  }

  /** A restart reads back what was held. */
  lemma TheSnapshotGivesItBack(rows: set<Row>, c: Contribs)
    requires Saved(rows, c) && WellFormed(c)
    ensures Load(rows) == Contributing(c)
  {
    LoadsTheSenders(rows, c);
    var l, k := Load(rows), Contributing(c);
    forall x | x in k ensures l[x] == k[x] { LoadsOne(rows, c, x); }
    SameMap(l, k);
  }

  lemma LoadsTheSenders(rows: set<Row>, c: Contribs)
    requires Saved(rows, c) && WellFormed(c)
    ensures Load(rows).Keys == Contributing(c).Keys
  {
    forall x ensures x in Load(rows) <==> x in Contributing(c) { LoadsASender(rows, c, x); }
  }

  lemma LoadsASender(rows: set<Row>, c: Contribs, x: Sender)
    requires Saved(rows, c) && WellFormed(c)
    ensures (exists r :: r in rows && r.sender == x) <==> x in c && c[x] != map[]
  {
    if x in c && c[x] != map[] {
      var slot :| slot in c[x];
      var rr :| rr in c[x][slot];
      var r := Row(x, slot, rr);
      assert r in rows && r.sender == x;
    }
  }

  lemma LoadsOne(rows: set<Row>, c: Contribs, x: Sender)
    requires Saved(rows, c) && WellFormed(c) && x in Contributing(c) && x in Load(rows)
    ensures Load(rows)[x] == Contributing(c)[x]
  {
    LoadsRecords(rows, c, x);
  }

  lemma LoadsRecords(rows: set<Row>, c: Contribs, x: Sender)
    requires Saved(rows, c) && WellFormed(c) && x in c
    ensures LoadOf(rows, x) == c[x]
  {
    var l := LoadOf(rows, x);
    forall slot ensures slot in l <==> slot in c[x] {
      if slot in c[x] {
        var rr :| rr in c[x][slot];
        assert Row(x, slot, rr) in rows;
      }
    }
    forall slot | slot in l ensures l[slot] == c[x][slot] {
      forall rr ensures rr in l[slot] <==> rr in c[x][slot] {
        if rr in c[x][slot] { assert Row(x, slot, rr) in rows; }
      }
    }
  }

  lemma UnionsAlike(c: Contribs, d: Contribs, handed: Option<Roles>, pick: Picks, pairs: set<(Sender, Slot)>,
      slot: Slot)
    requires AllContribute(c, pairs) && AllContribute(d, pairs)
    requires forall p :: p in pairs ==> Gives(c, handed, pick, p.0, p.1) == Gives(d, handed, pick, p.0, p.1)
    ensures Union(c, handed, pick, pairs, slot) == Union(d, handed, pick, pairs, slot)
  {
  }

  lemma MergesAlike(c: Contribs, d: Contribs, handed: Option<Roles>, pick: Picks)
    requires Pairs(c) == Pairs(d)
    requires forall p :: p in Pairs(c) ==> Gives(c, handed, pick, p.0, p.1) == Gives(d, handed, pick, p.0, p.1)
    ensures Merged(c, handed, pick) == Merged(d, handed, pick)
  {
    MergedOverIsNotEmpty(c, handed, pick, Pairs(c));
    MergedOverIsNotEmpty(d, handed, pick, Pairs(d));
    forall slot ensures At(Merged(c, handed, pick), slot) == At(Merged(d, handed, pick), slot) {
      MergedAt(c, handed, pick, Pairs(c), slot);
      MergedAt(d, handed, pick, Pairs(d), slot);
      UnionsAlike(c, d, handed, pick, Pairs(c), slot);
    }
    SameRRsets(Merged(c, handed, pick), Merged(d, handed, pick));
  }

  /** A merge has at a slot the same under two choices that agree there. */
  lemma PickedElsewhere(c: Contribs, handed: Option<Roles>, p: Picks, q: Picks, slot: Slot)
    requires slot.rrtype == CSYNC ==> PickOf(p, slot.owner) == PickOf(q, slot.owner)
    ensures At(Merged(c, handed, p), slot) == At(Merged(c, handed, q), slot)
  {
    MergedAt(c, handed, p, Pairs(c), slot);
    MergedAt(c, handed, q, Pairs(c), slot);
    GivenAlike(c, handed, p, q, Pairs(c), slot);
  }

  lemma GivenAlike(c: Contribs, handed: Option<Roles>, p: Picks, q: Picks, pairs: set<(Sender, Slot)>, slot: Slot)
    requires AllContribute(c, pairs)
    requires slot.rrtype == CSYNC ==> PickOf(p, slot.owner) == PickOf(q, slot.owner)
    ensures Union(c, handed, p, pairs, slot) == Union(c, handed, q, pairs, slot)
  {
    assert forall pair :: pair in pairs && pair.1 == slot ==>
        Gives(c, handed, p, pair.0, slot) == Gives(c, handed, q, pair.0, slot);
  }

  lemma HeldAlike(c: Contribs, owner: string)
    ensures HeldAt(Contributing(c), owner) == HeldAt(c, owner)
  {
    var k := Contributing(c);
    forall h | h in HeldAt(c, owner) ensures h in HeldAt(k, owner) {
      var rr := CsyncRR(h.rr);
      assert h.sender in k && Slot(owner, CSYNC) in k[h.sender] && rr in k[h.sender][Slot(owner, CSYNC)];
    }
  }

  /** And so merges to the same. */
  lemma TheRestoredMergeIsTheSame(c: Contribs, handed: Option<Roles>, pick: Picks)
    ensures Merged(Contributing(c), handed, pick) == Merged(c, handed, pick)
  {
    var k := Contributing(c);
    assert Pairs(k) == Pairs(c);
    assert forall p :: p in Pairs(c) ==> Gives(k, handed, pick, p.0, p.1) == Gives(c, handed, pick, p.0, p.1);
    MergesAlike(k, c, handed, pick);
  }
}
