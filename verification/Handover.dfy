/** The hand-over: what an agent hands its combiner for one zone, and the order
    the combiner takes hand-overs in. */
module Handover {
  import opened Wrappers
  import opened Serial

  type ZoneKey = string   // a zone's canonical name
  type Time = nat         // nanoseconds

  datatype Provider = Provider(name: string, identity: string)

  datatype Roles = Roles(
    servers: seq<Provider>, keySigners: seq<Provider>, dsSigners: seq<Provider>,
    keyConfirmers: seq<Provider>, signing: seq<Provider>,
    pubkey: bool, pubcds: bool, nsFromAgent: bool, parentByAgent: bool, hold: bool)

  datatype Phase = Steady | Refused | Agreeing | Reconciling | OwnerError | NotKnown

  datatype ActingHandover = ActingHandover(
    zone: ZoneKey, serial: uint32, digest: string, records: seq<string>,
    newest: uint32, phase: Phase, step: int, sets: Roles, made: Time,
    reset: bool, refresh: bool)
  {
    predicate SameAs(o: ActingHandover) {
      && serial == o.serial && digest == o.digest && newest == o.newest
      && phase == o.phase && step == o.step && |records| == |o.records|
      && sets == o.sets
    }

    /** Below `held` by the order key, or of its key, handing something else and
        made before it. */
    predicate OlderThan(held: ActingHandover) {
      if reset || |records| == 0 then made < held.made
      else if serial != held.serial then CompareSerial(serial, held.serial) != 1
      else if newest != held.newest then CompareSerial(newest, held.newest) != 1
      else if PhaseRank(phase) != PhaseRank(held.phase) then PhaseRank(phase) < PhaseRank(held.phase)
      else if step != held.step then step < held.step
      else if SameAs(held) then false
      else made < held.made
    }

    /** The serial, the newest and the step agree, and both are reconciling or neither is. */
    predicate SameKey(o: ActingHandover) {
      serial == o.serial && newest == o.newest && (phase == Reconciling <==> o.phase == Reconciling) && step == o.step
    }

    /** A hand-over of instructions that follows no forget. */
    predicate Ordered() {
      !reset && |records| > 0
    }

    /** Its serials lie in the half of the circle that starts at base. */
    predicate InWindow(base: uint32) {
      InHalf(base, serial) && InHalf(base, newest)
    }
  }

  function PhaseRank(phase: Phase): int {
    if phase == Reconciling then 0 else 1
  }

  /** Same, where either may be nil: nil is the same as nil alone. */
  predicate SameHanded(a: Option<ActingHandover>, b: Option<ActingHandover>) {
    if a.None? || b.None? then a == b else a.value.SameAs(b.value)
  }

  predicate OlderThanHeld(h: ActingHandover, held: Option<ActingHandover>) {
    held.Some? && h.OlderThan(held.value)
  }

  // ---- The comparisons by what is handed --------------------------------------

  /** Two hand-overs are the same exactly when they differ in nothing but whose
      zone they are, how their records read, when they were made and their flags. */
  lemma SameButForTheTimes(h: ActingHandover, o: ActingHandover)
    ensures h.SameAs(o) <==>
      && |h.records| == |o.records|
      && h == o.(zone := h.zone, records := h.records, made := h.made, reset := h.reset, refresh := h.refresh)
  {
  }

  /** After a forget, or of no instructions, the time alone decides, whatever the
      serials; otherwise a serial that is not newer by the arithmetic makes it older. */
  lemma OlderByTheSerials(h: ActingHandover, held: ActingHandover)
    ensures h.reset || h.records == [] ==> (h.OlderThan(held) <==> h.made < held.made)
    ensures !h.reset && h.records != [] && h.serial != held.serial ==>
      (h.OlderThan(held) <==> (held.serial - h.serial) % 0x1_0000_0000 <= 0x8000_0000)
    ensures !h.reset && h.records != [] && h.serial == held.serial && h.newest != held.newest ==>
      (h.OlderThan(held) <==> (held.newest - h.newest) % 0x1_0000_0000 <= 0x8000_0000)
  {
  }

  /** Of one pair of serials, what is reconciling is below whatever is not: the
      end of a transition is never older than its steps, and they always are
      older than it, whatever the steps and times. Where both or neither are
      reconciling the step decides, and of one step the time, unless they hand
      the same. */
  lemma ReconcilingComesFirst(h: ActingHandover, held: ActingHandover)
    requires h.Ordered() && h.serial == held.serial && h.newest == held.newest
    ensures held.phase == Reconciling && h.phase != Reconciling ==> !h.OlderThan(held)
    ensures held.phase != Reconciling && h.phase == Reconciling ==> h.OlderThan(held)
    ensures (h.phase == Reconciling <==> held.phase == Reconciling) && h.step != held.step ==>
      (h.OlderThan(held) <==> h.step < held.step)
    ensures (h.phase == Reconciling <==> held.phase == Reconciling) && h.step == held.step ==>
      (h.OlderThan(held) <==> h.made < held.made && !h.SameAs(held))
  {
  }

  // ---- The order as a level -------------------------------------------------

  /** b is above a by the key: the serials by their place in the window, then
      whatever is not reconciling above what is, then the step. */
  predicate AboveByKey(base: uint32, b: ActingHandover, a: ActingHandover) {
    || Rank(base, b.serial) > Rank(base, a.serial)
    || (b.serial == a.serial
        && (|| Rank(base, b.newest) > Rank(base, a.newest)
            || (b.newest == a.newest
                && (|| (b.phase != Reconciling && a.phase == Reconciling)
                    || ((b.phase == Reconciling <==> a.phase == Reconciling) && b.step > a.step)))))
  }

  /** b is not below a by (serial, newest, phase, step, made). */
  predicate AtOrAbove(base: uint32, b: ActingHandover, a: ActingHandover) {
    AboveByKey(base, b, a) || (b.SameKey(a) && b.made >= a.made)
  }

  lemma LevelsAreTransitive(base: uint32, c: ActingHandover, b: ActingHandover, a: ActingHandover)
    ensures AboveByKey(base, c, b) && AboveByKey(base, b, a) ==> AboveByKey(base, c, a)
    ensures AboveByKey(base, c, b) && b.SameKey(a) ==> AboveByKey(base, c, a)
    ensures c.SameKey(b) && AboveByKey(base, b, a) ==> AboveByKey(base, c, a)
    ensures AtOrAbove(base, c, b) && AtOrAbove(base, b, a) ==> AtOrAbove(base, c, a)
  {
  }

  /** Inside a window the code's comparison is the level: h is older than held
      exactly when held is above it by the key, or has its key, hands something
      else and was made after it. */
  lemma OlderThanIsBelow(base: uint32, h: ActingHandover, held: ActingHandover)
    requires h.Ordered() && h.InWindow(base) && held.InWindow(base)
    ensures h.OlderThan(held) <==>
      AboveByKey(base, held, h) || (h.SameKey(held) && !h.SameAs(held) && h.made < held.made)
    ensures h.SameKey(held) || AboveByKey(base, held, h) || AboveByKey(base, h, held)
    ensures !(AboveByKey(base, held, h) && AboveByKey(base, h, held))
  {
    CompareInsideAHalf(base, h.serial, held.serial);
    CompareInsideAHalf(base, h.newest, held.newest);
    if Rank(base, h.serial) == Rank(base, held.serial) { RankIsInjective(base, h.serial, held.serial); }
    if Rank(base, h.newest) == Rank(base, held.newest) { RankIsInjective(base, h.newest, held.newest); }
  }

  // ---- What kind of order olderThan is ---------------------------------------

  /** The first serials in which the two differ are 2^31 apart. */
  predicate DecidedByOpposites(h: ActingHandover, o: ActingHandover) {
    if h.serial != o.serial then Opposite(h.serial, o.serial)
    else h.newest != o.newest && Opposite(h.newest, o.newest)
  }

  /** Each is older than the other exactly when the serials that decide are
      opposite; and a hand-over is never older than itself. */
  lemma OlderBothWays(h: ActingHandover, o: ActingHandover)
    requires h.Ordered() && o.Ordered()
    ensures (h.OlderThan(o) && o.OlderThan(h)) <==> DecidedByOpposites(h, o)
    ensures !h.OlderThan(h)
  {
    CompareIsAntisymmetric(h.serial, o.serial);
    CompareIsAntisymmetric(h.newest, o.newest);
    OppositeIsSymmetric(h.serial, o.serial);
  }

  /** Neither is older exactly when they hand the same, or have one key and one
      time: the order leaves no other pair undecided. */
  lemma OlderNeitherWay(h: ActingHandover, o: ActingHandover)
    requires h.Ordered() && o.Ordered()
    ensures (!h.OlderThan(o) && !o.OlderThan(h)) <==> h.SameAs(o) || (h.SameKey(o) && h.made == o.made)
  {
    CompareIsAntisymmetric(h.serial, o.serial);
    CompareIsAntisymmetric(h.newest, o.newest);
  }

  /** Transitive inside a window, but for one case: the ends hand the same. */
  lemma OlderIsTransitiveButForSame(base: uint32, a: ActingHandover, b: ActingHandover, c: ActingHandover)
    requires a.Ordered() && b.Ordered() && c.Ordered()
    requires a.InWindow(base) && b.InWindow(base) && c.InWindow(base)
    requires a.OlderThan(b) && b.OlderThan(c)
    ensures a.OlderThan(c) || a.SameAs(c)
    ensures a.OlderThan(c) <==> !a.SameAs(c)
  {
    OlderThanIsBelow(base, a, b);
    OlderThanIsBelow(base, b, c);
    OlderThanIsBelow(base, a, c);
    LevelsAreTransitive(base, c, b, a);
  }

  /** The exception is real, for every hand-over that another of its key came
      after: handed again later, it is above that other one and yet not above
      itself, so olderThan alone does not order what an agent hands. */
  lemma TheSameHandedAgain(a: ActingHandover, b: ActingHandover, later: Time)
    requires a.Ordered() && b.Ordered() && a.SameKey(b) && !a.SameAs(b)
    requires a.made < b.made < later
    ensures var again := a.(made := later);
            a.OlderThan(b) && b.OlderThan(again) && !a.OlderThan(again) && a.SameAs(again)
  {
    assert !b.SameAs(a);
  }

  /** Outside a window the comparison is not transitive at all: three serials a
      third of the circle apart are each older than the next. */
  lemma OlderCanGoRound(h: ActingHandover)
    requires h.Ordered()
    ensures var a := h.(serial := 0);
            var b := h.(serial := 0x5555_5555);
            var c := h.(serial := 0xaaaa_aaaa);
            a.OlderThan(b) && b.OlderThan(c) && c.OlderThan(a)
  {
    assert (0x5555_5555 - 0) % CIRCLE == 0x5555_5555;
    assert (0xaaaa_aaaa - 0x5555_5555) % CIRCLE == 0x5555_5555;
    assert (0 - 0xaaaa_aaaa) % CIRCLE == 0x5555_5556;
  }

  /** The take's test as the level: a hand-over is not older than the one held
      exactly when it is at or above it, or hands the same under the same key. */
  lemma NotOlderIsAtOrAbove(base: uint32, h: ActingHandover, held: ActingHandover)
    requires h.Ordered() && h.InWindow(base) && held.InWindow(base)
    ensures !h.OlderThan(held) <==> AtOrAbove(base, h, held) || (h.SameKey(held) && h.SameAs(held))
  {
    OlderThanIsBelow(base, h, held);
  }
}
