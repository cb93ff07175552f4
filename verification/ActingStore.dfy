/** The combiner's side of the hand-over: what it holds of each zone's, kept in
    a table and read again at its start. */
module ActingStore {
  import opened Wrappers
  import opened Serial
  import opened Handover

  /** The instructions a hand-over's records give, as far as the store looks. */
  datatype Reading = Reading(serial: uint32, digest: string)

  /** How records read; None for records that give no instructions. */
  type Reader = (ZoneKey, seq<string>) -> Option<Reading>

  datatype ReadResult = NoInstructions | Instructions(reading: Reading) | Unreadable

  /** The hand-over's records, checked against the serial and digest it names. */
  function ReadHandover(read: Reader, h: ActingHandover): ReadResult {
    if |h.records| == 0 then NoInstructions
    else
      match read(h.zone, h.records)
      case None => Unreadable
      case Some(r) => if r.serial != h.serial || r.digest != h.digest then Unreadable else Instructions(r)
  }

  datatype HeldHandover = HeldHandover(handover: ActingHandover, reading: Option<Reading>, agent: string, since: Time)

  /** A row of the table: the hand-over as it was kept, and when, to the second. */
  datatype Row = Row(handover: ActingHandover, agent: string, since: Time)

  const SECOND: Time := 1_000_000_000

  function ToTheSecond(t: Time): Time { t - t % SECOND }

  /** `table` is None for a store that lives in memory only. */
  datatype Store = Store(zones: map<ZoneKey, HeldHandover>, table: Option<map<ZoneKey, Row>>)

  datatype TakeError = NotReadable | OlderHeld | NotKept

  datatype Answer = Answer(prev: Option<ActingHandover>, changed: bool, error: Option<TakeError>)

  function HeldFor(s: Store, zone: ZoneKey): Option<ActingHandover> {
    if zone in s.zones then Some(s.zones[zone].handover) else None
  }

  function Take(read: Reader, s: Store, h: ActingHandover, agent: string, now: Time,
      tableWorks: bool): (Store, Answer)
  {
    var given := ReadHandover(read, h);
    var prev := HeldFor(s, h.zone);
    if given.Unreadable? then (s, Answer(None, false, Some(NotReadable)))
    else if OlderThanHeld(h, prev) then (s, Answer(prev, false, Some(OlderHeld)))
    else if prev.Some? && h.SameAs(prev.value) then (s, Answer(prev, false, None))
    else if given.NoInstructions? && prev.None? then (s, Answer(None, false, None))
    else if s.table.Some? && !tableWorks then (s, Answer(prev, false, Some(NotKept)))
    else if given.NoInstructions? then
      (Store(s.zones - {h.zone}, if s.table.Some? then Some(s.table.value - {h.zone}) else None),
       Answer(prev, true, None))
    else
      var stored := h.(refresh := false);
      (Store(s.zones[h.zone := HeldHandover(stored, Some(given.reading), agent, now)],
             if s.table.Some? then Some(s.table.value[h.zone := Row(stored, agent, ToTheSecond(now))]) else None),
       Answer(prev, true, None))
  }

  /** What a start reads back: every row whose records still read. */
  function Restored(read: Reader, table: map<ZoneKey, Row>): map<ZoneKey, HeldHandover> {
    map zone | zone in table && !ReadHandover(read, table[zone].handover).Unreadable? ::
      RestoredRow(read, table[zone])
  }

  function RestoredRow(read: Reader, row: Row): HeldHandover {
    var given := ReadHandover(read, row.handover);
    HeldHandover(row.handover, if given.Instructions? then Some(given.reading) else None, row.agent, row.since)
  }

  /** Its records read, and give the serial and the digest it names. */
  predicate Reads(read: Reader, h: ActingHandover) {
    h.records == [] || read(h.zone, h.records) == Some(Reading(h.serial, h.digest))
  }

  /** What is held for the zone has the serials of h. */
  predicate HoldsItsSerials(s: Store, h: ActingHandover) {
    h.zone in s.zones && s.zones[h.zone].handover.serial == h.serial && s.zones[h.zone].handover.newest == h.newest
  }

  /** h is past the transition that what is held for its zone is a step of. */
  predicate EndsATransition(s: Store, h: ActingHandover) {
    h.Ordered() && HoldsItsSerials(s, h) && s.zones[h.zone].handover.phase == Reconciling && h.phase != Reconciling
  }

  /** h is a step of the transition that what is held for its zone is past. */
  predicate IsALateStep(s: Store, h: ActingHandover) {
    h.Ordered() && HoldsItsSerials(s, h) && s.zones[h.zone].handover.phase != Reconciling && h.phase == Reconciling
  }

  // ---- The store as the program has it ---------------------------------------

  class ActingStore {
    const read: Reader
    var zones: map<ZoneKey, HeldHandover>
    var table: Option<map<ZoneKey, Row>>

    function State(): Store
      reads this
    {
      Store(zones, table)
    }

    /** The combiner's start: the rows are read one by one, in any order. */
    constructor Load(read: Reader, rows: Option<map<ZoneKey, Row>>)
      ensures this.read == read && table == rows
      ensures zones == if rows.Some? then Restored(read, rows.value) else map[]
    {
      this.read, table, zones := read, rows, map[];
      new;
      if rows.Some? {
        var todo := rows.value.Keys;
        while todo != {}
          invariant todo <= rows.value.Keys
          invariant this.read == read && table == rows
          invariant zones == Restored(read, map zone | zone in rows.value && zone !in todo :: rows.value[zone])
        {
          var zone :| zone in todo;
          todo := todo - {zone};
          var row := rows.value[zone];
          var given := ReadHandover(read, row.handover);
          if !given.Unreadable? {
            zones := zones[zone := HeldHandover(row.handover, if given.Instructions? then Some(given.reading)
                else None, row.agent, row.since)];
          }
        }
        assert rows.value == map zone | zone in rows.value && zone !in todo :: rows.value[zone];
      }
    }

    /** The step of Take: among others, what ends a transition takes the place of
        its steps, and a late step is refused. */
    method TakeHandover(h: ActingHandover, agent: string, now: Time, tableWorks: bool) returns (a: Answer)
      modifies this
      ensures (State(), a) == Take(read, old(State()), h, agent, now, tableWorks)
      ensures EndsATransition(old(State()), h) && Reads(read, h) && (old(table).None? || tableWorks) ==>
        a.error.None? && a.changed && h.zone in zones && zones[h.zone].handover == h.(refresh := false)
      ensures IsALateStep(old(State()), h) && Reads(read, h) ==>
        a.error == Some(OlderHeld) && !a.changed && State() == old(State())
    {
      var given := ReadHandover(read, h);
      if given.Unreadable? { return Answer(None, false, Some(NotReadable)); }
      var stored := h.(refresh := false);
      var prev := None;
      if h.zone in zones {
        prev := Some(zones[h.zone].handover);
        if h.OlderThan(prev.value) { return Answer(prev, false, Some(OlderHeld)); }
        if h.SameAs(prev.value) { return Answer(prev, false, None); }
      }
      if given.NoInstructions? {
        if prev.None? { return Answer(None, false, None); }
        if table.Some? {
          if !tableWorks { return Answer(prev, false, Some(NotKept)); }
          table := Some(table.value - {h.zone});
        }
        zones := zones - {h.zone};
        return Answer(prev, true, None);
      }
      if table.Some? {
        if !tableWorks { return Answer(prev, false, Some(NotKept)); }
        table := Some(table.value[h.zone := Row(stored, agent, ToTheSecond(now))]);
      }
      zones := zones[h.zone := HeldHandover(stored, Some(given.reading), agent, now)];
      return Answer(prev, true, None);
    }
  }

  // ---- One take ---------------------------------------------------------------

  /** A take says what it did: an error changed nothing, in memory or in the
      table; no error means the combiner now acts by what it was handed, or by
      nothing when it was handed no instructions; and "changed" is told exactly
      when what it acts by changed. No other zone is touched. */
  lemma TakeTellsWhatItDid(read: Reader, s: Store, h: ActingHandover, agent: string, now: Time, tableWorks: bool)
    ensures var (s', a) := Take(read, s, h, agent, now, tableWorks);
      && (a.error.Some? ==> s' == s && !a.changed)
      && (a.error.None? && |h.records| > 0 ==> HeldFor(s', h.zone).Some? && HeldFor(s', h.zone).value.SameAs(h))
      && (a.error.None? && |h.records| == 0 ==>
            HeldFor(s', h.zone).None? || (HeldFor(s, h.zone) == HeldFor(s', h.zone)
                && h.SameAs(HeldFor(s', h.zone).value)))
      && (a.changed <==> !SameHanded(HeldFor(s, h.zone), HeldFor(s', h.zone)))
      && (a.changed && |h.records| > 0 ==>
            s'.zones[h.zone] == HeldHandover(h.(refresh := false), Some(Reading(h.serial, h.digest)), agent, now))
      && (forall zone :: zone != h.zone ==> HeldFor(s', zone) == HeldFor(s, zone))
  {
  }

  /** Which of the errors a take gives: its records do not give what it names;
      what is held is newer; or what is to be kept, dropped or changed could not
      be put in the table. */
  lemma WhyATakeFails(read: Reader, s: Store, h: ActingHandover, agent: string, now: Time, tableWorks: bool)
    ensures var a := Take(read, s, h, agent, now, tableWorks).1;
      var older := h.zone in s.zones && h.OlderThan(s.zones[h.zone].handover);
      var acts := if h.zone in s.zones then !h.SameAs(s.zones[h.zone].handover) else h.records != [];
      && (a.error == Some(NotReadable) <==> !Reads(read, h))
      && (a.error == Some(OlderHeld) <==> Reads(read, h) && older)
      && (a.error == Some(NotKept) <==> Reads(read, h) && !older && acts && s.table.Some? && !tableWorks)
      && (a.error.None? ==> (a.changed <==> acts))
  {
  }

  /** Over a step of a transition its end is taken and kept; over the end a step
      handed late is refused, and changes nothing. */
  lemma TheEndOfATransitionIsTaken(read: Reader, s: Store, h: ActingHandover, agent: string, now: Time,
      tableWorks: bool)
    requires Reads(read, h)
    ensures var (s', a) := Take(read, s, h, agent, now, tableWorks);
      && (EndsATransition(s, h) && (s.table.None? || tableWorks) ==>
            && a == Answer(Some(s.zones[h.zone].handover), true, None)
            && HeldFor(s', h.zone) == Some(h.(refresh := false))
            && (s.table.Some? ==>
                  && s'.table.Some? && h.zone in s'.table.value
                  && s'.table.value[h.zone] == Row(h.(refresh := false), agent, now - now % SECOND)))
      && (IsALateStep(s, h) ==>
            s' == s && a == Answer(Some(s.zones[h.zone].handover), false, Some(OlderHeld)))
  {
  }

  /** The store as a restart would give it back: `since` to the second. */
  predicate Durable(read: Reader, s: Store) {
    s.table.Some? ==>
      Restored(read, s.table.value) == map zone | zone in s.zones ::
          s.zones[zone].(since := ToTheSecond(s.zones[zone].since))
  }

  /** Of one zone. */
  predicate DurableAt(read: Reader, s: Store, zone: ZoneKey)
    requires s.table.Some?
  {
    var got := Restored(read, s.table.value);
    && (zone in got <==> zone in s.zones)
    && (zone in got ==> got[zone] == s.zones[zone].(since := ToTheSecond(s.zones[zone].since)))
  }

  lemma DurableZoneByZone(read: Reader, s: Store)
    requires s.table.Some?
    ensures Durable(read, s) <==> forall zone :: DurableAt(read, s, zone)
  {
    if forall zone :: DurableAt(read, s, zone) {
      var got, want := Restored(read, s.table.value), map zone | zone in s.zones ::
          s.zones[zone].(since := ToTheSecond(s.zones[zone].since));
      forall zone ensures zone in got <==> zone in want { assert DurableAt(read, s, zone); }
      forall zone | zone in want ensures got[zone] == want[zone] { assert DurableAt(read, s, zone); }
      assert got == want;
    } else {
      var zone :| !DurableAt(read, s, zone);
    }
  }

  lemma TakeIsDurableAt(read: Reader, s: Store, h: ActingHandover, agent: string, now: Time, tableWorks: bool,
      zone: ZoneKey)
    requires s.table.Some? && DurableAt(read, s, zone)
    ensures DurableAt(read, Take(read, s, h, agent, now, tableWorks).0, zone)
  {
  }

  /** What is held is always what a restart reads back, whatever failed. */
  lemma TakeIsDurable(read: Reader, s: Store, h: ActingHandover, agent: string, now: Time, tableWorks: bool)
    requires Durable(read, s)
    ensures Durable(read, Take(read, s, h, agent, now, tableWorks).0)
  {
    if s.table.Some? {
      DurableZoneByZone(read, s);
      DurableZoneByZone(read, Take(read, s, h, agent, now, tableWorks).0);
      forall zone ensures DurableAt(read, Take(read, s, h, agent, now, tableWorks).0, zone) {
        TakeIsDurableAt(read, s, h, agent, now, tableWorks, zone);
      }
    }
  }

  lemma RestartIsDurable(read: Reader, table: map<ZoneKey, Row>)
    requires forall zone :: zone in table ==> table[zone].since % SECOND == 0
    ensures Durable(read, Store(Restored(read, table), Some(table)))
  {
  }

  /** A store is as good as its word when, once it has said yes to h, it refuses
      every hand-over older than h. */
  ghost predicate RefusesTheOlder(read: Reader, s: Store, h: ActingHandover) {
    forall g: ActingHandover, agent: string, now: Time ::
      g.zone == h.zone && g.OlderThan(h) ==> Take(read, s, g, agent, now, true).1.error.Some?
  }

  lemma SameIsAsOld(g: ActingHandover, h: ActingHandover, held: ActingHandover)
    requires h.SameAs(held) && h.made <= held.made && g.OlderThan(h)
    ensures g.OlderThan(held)
  {
  }

  /** It is so after a yes exactly when the yes was not to a repeat, made later,
      of what it held: the repeat is answered and not kept, so the time held
      stays the earlier one, and a hand-over made in between is taken after it. */
  lemma AYesRefusesTheOlder(read: Reader, s: Store, h: ActingHandover, agent: string, now: Time, tableWorks: bool)
    requires |h.records| > 0
    requires Take(read, s, h, agent, now, tableWorks).1.error.None?
    ensures RefusesTheOlder(read, Take(read, s, h, agent, now, tableWorks).0, h) <==>
      !(HeldFor(s, h.zone).Some? && h.SameAs(HeldFor(s, h.zone).value) && HeldFor(s, h.zone).value.made < h.made)
  {
    var (s', a) := Take(read, s, h, agent, now, tableWorks);
    TakeTellsWhatItDid(read, s, h, agent, now, tableWorks);
    var held := HeldFor(s', h.zone).value;
    if held.made < h.made {
      assert a.prev == Some(held) && !a.changed;
      var between := h.(reset := false, sets := h.sets.(hold := !h.sets.hold), made := held.made);
      assert between.OlderThan(h) && !between.OlderThan(held) && !between.SameAs(held);
      assert Take(read, s', between, agent, now, true).1.error.None?;
    } else {
      assert RefusesTheOlder(read, s', h) by {
        forall g: ActingHandover, agent': string, now': Time | g.zone == h.zone && g.OlderThan(h)
          ensures Take(read, s', g, agent', now', true).1.error.Some?
        {
          SameIsAsOld(g, h, held);
        }
      }
    }
  }

  // ---- Runs -------------------------------------------------------------------

  datatype StoreEvent =
    | Handed(h: ActingHandover, agent: string, now: Time, tableWorks: bool)
    | Restart

  function Happens(read: Reader, s: Store, e: StoreEvent): Store {
    match e
    case Handed(h, agent, now, works) => Take(read, s, h, agent, now, works).0
    case Restart => if s.table.Some? then Store(Restored(read, s.table.value), s.table) else s
  }

  function AllHappen(read: Reader, s: Store, es: seq<StoreEvent>): Store
    decreases |es|
  {
    if es == [] then s else AllHappen(read, Happens(read, s, es[0]), es[1..])
  }

  /** A hand-over that follows no forget, drops nothing and lies in the window. */
  predicate Fits(base: uint32, h: ActingHandover) {
    h.Ordered() && h.InWindow(base)
  }

  predicate Advances(base: uint32, es: seq<StoreEvent>) {
    forall i :: 0 <= i < |es| && es[i].Handed? ==> Fits(base, es[i].h)
  }

  predicate HoldsInWindow(base: uint32, s: Store) {
    forall zone :: zone in s.zones ==> Fits(base, s.zones[zone].handover)
  }

  /** What a zone holds now is not below what it held. */
  predicate NotBelow(base: uint32, now: Option<ActingHandover>, before: Option<ActingHandover>) {
    before.Some? ==> now.Some? && AtOrAbove(base, now.value, before.value)
  }

  lemma RestartKeepsWhatIsHeld(read: Reader, s: Store, zone: ZoneKey)
    requires Durable(read, s)
    ensures HeldFor(Happens(read, s, Restart), zone) == HeldFor(s, zone)
    ensures Durable(read, Happens(read, s, Restart))
  {
  }

  lemma TakeKeepsTheLevel(read: Reader, base: uint32, s: Store, h: ActingHandover, agent: string, now: Time,
      works: bool)
    requires HoldsInWindow(base, s) && Fits(base, h)
    ensures var s' := Take(read, s, h, agent, now, works).0;
      && HoldsInWindow(base, s')
      && (forall zone :: NotBelow(base, HeldFor(s', zone), HeldFor(s, zone)))
  {
    var (s', a) := Take(read, s, h, agent, now, works);
    if a.changed {
      assert Fits(base, h.(refresh := false));
      if h.zone in s.zones {
        NotOlderIsAtOrAbove(base, h, s.zones[h.zone].handover);
      }
    }
  }

  /** One event of such a run never puts a zone below what it held. */
  lemma EventKeepsTheLevel(read: Reader, base: uint32, s: Store, e: StoreEvent)
    requires Durable(read, s) && HoldsInWindow(base, s) && (e.Handed? ==> Fits(base, e.h))
    ensures var s' := Happens(read, s, e);
      && Durable(read, s') && HoldsInWindow(base, s')
      && (forall zone :: NotBelow(base, HeldFor(s', zone), HeldFor(s, zone)))
  {
    match e
    case Handed(h, agent, now, works) =>
      TakeIsDurable(read, s, h, agent, now, works);
      TakeKeepsTheLevel(read, base, s, h, agent, now, works);
    case Restart =>
      var s' := Happens(read, s, e);
      forall zone ensures HeldFor(s', zone) == HeldFor(s, zone) { RestartKeepsWhatIsHeld(read, s, zone); }
      RestartKeepsWhatIsHeld(read, s, "");
      forall zone | zone in s'.zones ensures Fits(base, s'.zones[zone].handover) {
        assert HeldFor(s', zone) == HeldFor(s, zone);
      }
  }

  /** Whatever is handed in whatever order, repeated, refused, failing to be
      kept, with restarts in between: what is held of a zone is never below what
      was held of it before, and a restart at the end loses nothing. */
  lemma {:induction false} WhatIsHeldOnlyRises(read: Reader, base: uint32, s: Store, es: seq<StoreEvent>)
    requires Durable(read, s) && HoldsInWindow(base, s) && Advances(base, es)
    ensures var s' := AllHappen(read, s, es);
      && Durable(read, s') && HoldsInWindow(base, s')
      && (forall zone :: NotBelow(base, HeldFor(s', zone), HeldFor(s, zone)))
      && (forall zone :: HeldFor(Happens(read, s', Restart), zone) == HeldFor(s', zone))
    decreases |es|
  {
    if es == [] {
      forall zone { RestartKeepsWhatIsHeld(read, s, zone); }
    } else {
      EventKeepsTheLevel(read, base, s, es[0]);
      var mid := Happens(read, s, es[0]);
      WhatIsHeldOnlyRises(read, base, mid, es[1..]);
      var s' := AllHappen(read, mid, es[1..]);
      forall zone ensures NotBelow(base, HeldFor(s', zone), HeldFor(s, zone)) {
        if zone in s.zones {
          LevelsAreTransitive(base, HeldFor(s', zone).value, HeldFor(mid, zone).value, HeldFor(s, zone).value);
        }
      }
    }
  }
  /** So a transition that has ended stays ended: while a zone's serials are the
      same, no sequence of hand-overs, failures and restarts puts it back to a
      step, nor to an earlier one. */
  lemma ATransitionEndsForGood(read: Reader, base: uint32, s: Store, es: seq<StoreEvent>, zone: ZoneKey)
    requires Durable(read, s) && HoldsInWindow(base, s) && Advances(base, es)
    requires HeldFor(s, zone).Some? && HeldFor(s, zone).value.phase != Reconciling
    ensures var before, after := HeldFor(s, zone).value, HeldFor(AllHappen(read, s, es), zone);
      && after.Some?
      && (after.value.serial == before.serial && after.value.newest == before.newest ==>
            after.value.phase != Reconciling && after.value.step >= before.step)
  {
    WhatIsHeldOnlyRises(read, base, s, es);
    assert NotBelow(base, HeldFor(AllHappen(read, s, es), zone), HeldFor(s, zone));
  }
}
