/** The book of look-ups past the cache: a peer that keeps refusing is looked up again,
    at most once an interval, whichever of its callers asks. A refusal is noted in two
    holds of the lock, and any number of calls run between them. */
module LookupBook {
  import opened Wrappers

  type Peer = string
  type CallId = nat
  type Time = nat

  const REFUSALS_BEFORE := 3

  /** `rediscovered`: when the peer was last looked up; None: never. */
  datatype Entry = Entry(inARow: nat, rediscovered: Option<Time>) {
    predicate Due(now: Time, interval: nat) { rediscovered.None? || now >= rediscovered.value + interval }
  }

  datatype Booking = Booking(peer: Peer, at: Time, call: Option<CallId>)

  /** A noteRefused between its two holds of the lock. */
  datatype Call = Call(peer: Peer, refused: nat)

  datatype Book = Book(entries: map<Peer, Entry>, calls: map<CallId, Call>, bookings: seq<Booking>)

  /** lookupBook: the peer's entry, made when there is none. */
  function Of(b: Book, peer: Peer): Entry { if peer in b.entries then b.entries[peer] else Entry(0, None) }

  datatype Step =
    | Refused(call: CallId, peer: Peer, now: Time)      // noteRefused's first hold
    | Settled(call: CallId, named: bool, now: Time)     // and its second, if a zone names the peer
    | Fresh(peer: Peer, now: Time)                      // freshLookupDue
    | Accepted(peer: Peer)                              // noteHelloAccepted

  function FirstHold(b: Book, call: CallId, peer: Peer, now: Time, interval: nat): Book {
    var e := Of(b, peer).(inARow := Of(b, peer).inARow + 1);
    var b1 := b.(entries := b.entries[peer := e]);
    if e.inARow >= REFUSALS_BEFORE && e.Due(now, interval)
        then b1.(calls := b.calls[call := Call(peer, e.inARow)]) else b1
  }

  function Booked(b: Book, peer: Peer, now: Time, call: Option<CallId>): Book {
    b.(entries := b.entries[peer := Of(b, peer).(rediscovered := Some(now))],
        bookings := b.bookings + [Booking(peer, now, call)])
  }

  function SecondHold(b: Book, call: CallId, named: bool, now: Time, interval: nat): Book {
    if call !in b.calls then b
    else
      var peer := b.calls[call].peer;
      var b1 := b.(calls := b.calls - {call});
      if named && Of(b, peer).Due(now, interval) then Booked(b1, peer, now, Some(call)) else b1
  }

  function FreshHold(b: Book, peer: Peer, now: Time, interval: nat): Book {
    if Of(b, peer).Due(now, interval) then Booked(b, peer, now, None)
    else b.(entries := b.entries[peer := Of(b, peer)])
  }

  function AcceptedHold(b: Book, peer: Peer): Book {
    if peer !in b.entries then b else b.(entries := b.entries[peer := b.entries[peer].(inARow := 0)])
  }

  function Take(b: Book, s: Step, interval: nat): Book {
    match s
    case Refused(call, peer, now) => FirstHold(b, call, peer, now, interval)
    case Settled(call, named, now) => SecondHold(b, call, named, now, interval)
    case Fresh(peer, now) => FreshHold(b, peer, now, interval)
    case Accepted(peer) => AcceptedHold(b, peer)
  }

  function TakeAll(run: seq<Step>, interval: nat): Book {
    if run == [] then Book(map[], map[], []) else Take(TakeAll(run[..|run| - 1], interval), run[|run| - 1], interval)
  }

  /** By its entry, the peer was last looked up an interval ago, or never. */
  predicate LastIsAgo(b: Book, peer: Peer, now: Time, interval: nat) {
    peer in b.entries && b.entries[peer].rediscovered.Some? ==>
      b.entries[peer].rediscovered.value + interval <= now
  }

  class Lookups {
    const interval: nat
    var entries: map<Peer, Entry>
    ghost var calls: map<CallId, Call>
    ghost var bookings: seq<Booking>

    ghost function Value(): Book
      reads this
    {
      Book(entries, calls, bookings)
    }

    constructor (interval: nat)
      ensures this.interval == interval && Value() == Book(map[], map[], [])
    {
      this.interval, entries, calls, bookings := interval, map[], map[], [];
    }

    method EntryFor(peer: Peer) returns (e: Entry)
      modifies this`entries
      ensures e == Of(old(Value()), peer) && entries == old(entries)[peer := e]
    {
      if peer !in entries { entries := entries[peer := Entry(0, None)]; }
      e := entries[peer];
      assert entries == old(entries)[peer := e];
    }

    /** noteRefused up to where it lets go of the lock: the count, and whether to go on. */
    method NoteRefused(ghost call: CallId, peer: Peer, now: Time) returns (due: bool, refused: nat)
      modifies this
      ensures Value() == FirstHold(old(Value()), call, peer, now, interval)
      ensures due <==> refused >= 3 && LastIsAgo(old(Value()), peer, now, interval)
      ensures refused == Of(old(Value()), peer).inARow + 1
      ensures bookings == old(bookings) && calls == if due then old(calls)[call := Call(peer, refused)] else old(calls)
    {
      var e := EntryFor(peer);
      e := e.(inARow := e.inARow + 1);
      entries := entries[peer := e];
      refused := e.inARow;
      due := refused >= REFUSALS_BEFORE && e.Due(now, interval);
      if due { calls := calls[call := Call(peer, refused)]; }
    }

    /** The rest of it: the check again, under the lock again, and the booking. */
    method BookRefused(ghost call: CallId, peer: Peer, named: bool, now: Time) returns (booked: bool)
      requires call in calls && calls[call].peer == peer && peer in entries
      modifies this
      ensures Value() == SecondHold(old(Value()), call, named, now, interval)
      ensures booked <==> named && LastIsAgo(old(Value()), peer, now, interval)
      ensures bookings == old(bookings) + if booked then [Booking(peer, now, Some(call))] else []
      ensures booked ==> Of(Value(), peer).rediscovered == Some(now)
    {
      calls := calls - {call};
      if !named { return false; }
      var e := entries[peer];
      booked := e.Due(now, interval);
      if booked {
        entries := entries[peer := e.(rediscovered := Some(now))];
        bookings := bookings + [Booking(peer, now, Some(call))];
      }
    }

    method FreshLookupDue(peer: Peer, now: Time) returns (due: bool)
      modifies this
      ensures Value() == FreshHold(old(Value()), peer, now, interval)
      ensures due <==> LastIsAgo(old(Value()), peer, now, interval)
      ensures bookings == old(bookings) + if due then [Booking(peer, now, None)] else []
      ensures due ==> Of(Value(), peer).rediscovered == Some(now)
    {
      var e := EntryFor(peer);
      due := e.Due(now, interval);
      if due {
        entries := entries[peer := e.(rediscovered := Some(now))];
        bookings := bookings + [Booking(peer, now, None)];
      }
    }

    method NoteHelloAccepted(peer: Peer)
      modifies this`entries
      ensures Value() == AcceptedHold(old(Value()), peer)
    {
      if peer in entries { entries := entries[peer := entries[peer].(inARow := 0)]; }
    }
  }

  // ---- An interval apart -----------------------------------------------------------------

  /** The entry has the peer's last booking, and two bookings are an interval apart. */
  ghost predicate Spaced(b: Book, interval: nat, peer: Peer) {
    && (forall i :: 0 <= i < |b.bookings| && b.bookings[i].peer == peer ==>
          Of(b, peer).rediscovered.Some? && b.bookings[i].at <= Of(b, peer).rediscovered.value)
    && (forall i, j :: 0 <= i < j < |b.bookings| && b.bookings[i].peer == b.bookings[j].peer == peer ==>
          b.bookings[i].at + interval <= b.bookings[j].at)
  }

  lemma TakeKeepsSpaced(b: Book, s: Step, interval: nat, peer: Peer)
    requires Spaced(b, interval, peer)
    ensures Spaced(Take(b, s, interval), interval, peer)
  {
  }

  /** However the holds of any number of calls fall between one another, two look-ups
      booked for one peer are at least the interval apart. */
  lemma {:induction false} LookupsAreAnIntervalApart(run: seq<Step>, interval: nat, peer: Peer)
    ensures Spaced(TakeAll(run, interval), interval, peer)
    decreases |run|
  {
    if run != [] {
      LookupsAreAnIntervalApart(run[..|run| - 1], interval, peer);
      TakeKeepsSpaced(TakeAll(run[..|run| - 1], interval), run[|run| - 1], interval, peer);
    }
  }

  // ---- Granted exactly when the interval has passed ------------------------------------------

  /** The entry has one of the peer's bookings, where there is any. */
  ghost predicate HasABooking(b: Book, peer: Peer) {
    Of(b, peer).rediscovered.Some? ==>
      exists i :: 0 <= i < |b.bookings| && b.bookings[i].peer == peer
        && b.bookings[i].at == Of(b, peer).rediscovered.value
  }

  lemma TakeKeepsABooking(b: Book, s: Step, interval: nat, peer: Peer)
    requires HasABooking(b, peer)
    ensures HasABooking(Take(b, s, interval), peer)
  {
    var b' := Take(b, s, interval);
    if i :| 0 <= i < |b.bookings| && b.bookings[i].peer == peer && Of(b, peer).rediscovered == Some(b.bookings[i].at) {
      assert b'.bookings[i] == b.bookings[i];
    }
    if b'.bookings != b.bookings { assert b'.bookings[|b.bookings|] == b'.bookings[|b'.bookings| - 1]; }
  }

  lemma {:induction false} EveryRunHasABooking(run: seq<Step>, interval: nat, peer: Peer)
    ensures HasABooking(TakeAll(run, interval), peer)
    decreases |run|
  {
    if run != [] {
      EveryRunHasABooking(run[..|run| - 1], interval, peer);
      TakeKeepsABooking(TakeAll(run[..|run| - 1], interval), run[|run| - 1], interval, peer);
    }
  }

  /** What a step books: a fresh look-up, or one a call's second hold makes, and nothing
      else; of a peer whose look-ups booked so far all are an interval ago. */
  ghost predicate Books(b: Book, s: Step, interval: nat, booking: Booking) {
    && (|| (s.Fresh? && booking == Booking(s.peer, s.now, None))
        || (s.Settled? && s.named && s.call in b.calls
              && booking == Booking(b.calls[s.call].peer, s.now, Some(s.call))))
    && forall i :: 0 <= i < |b.bookings| && b.bookings[i].peer == booking.peer ==>
         b.bookings[i].at + interval <= booking.at
  }

  /** In every run a look-up asked for is booked exactly when every one booked for the
      peer before it is an interval ago: none is put off for longer, and none is granted
      unbooked. */
  lemma BookedExactlyWhenAnIntervalAgo(run: seq<Step>, s: Step, interval: nat)
    ensures var (b, b') := (TakeAll(run, interval), Take(TakeAll(run, interval), s, interval));
      && (forall booking :: Books(b, s, interval, booking) ==> b'.bookings == b.bookings + [booking])
      && ((!exists booking :: Books(b, s, interval, booking)) ==> b'.bookings == b.bookings)
  {
    var b := TakeAll(run, interval);
    if s.Fresh? {
      DueIsAgo(run, interval, s.peer, s.now);
      if Of(b, s.peer).Due(s.now, interval) { assert Books(b, s, interval, Booking(s.peer, s.now, None)); }
    } else if s.Settled? && s.call in b.calls {
      var peer := b.calls[s.call].peer;
      DueIsAgo(run, interval, peer, s.now);
      if s.named && Of(b, peer).Due(s.now, interval) {
        assert Books(b, s, interval, Booking(peer, s.now, Some(s.call)));
      }
    }
  }

  lemma DueIsAgo(run: seq<Step>, interval: nat, peer: Peer, now: Time)
    ensures var b := TakeAll(run, interval);
      Of(b, peer).Due(now, interval) <==>
        forall i :: 0 <= i < |b.bookings| && b.bookings[i].peer == peer ==> b.bookings[i].at + interval <= now
  {
    LookupsAreAnIntervalApart(run, interval, peer);
    EveryRunHasABooking(run, interval, peer);
  }

  // ---- After three refusals ----------------------------------------------------------------

  /** The peer's refusals in a run since it last took a hello. */
  function RefusalsInARow(run: seq<Step>, peer: Peer): nat {
    if run == [] then 0
    else
      var last, n := run[|run| - 1], RefusalsInARow(run[..|run| - 1], peer);
      if last.Refused? && last.peer == peer then n + 1 else if last == Accepted(peer) then 0 else n
  }

  lemma {:induction false} TheCountIsOfTheRefusals(run: seq<Step>, interval: nat, peer: Peer)
    ensures Of(TakeAll(run, interval), peer).inARow == RefusalsInARow(run, peer)
    decreases |run|
  {
    if run != [] { TheCountIsOfTheRefusals(run[..|run| - 1], interval, peer); }
  }

  /** In the run the call's first hold found the peer's third refusal in a row, or a
      later one. */
  ghost predicate Began(run: seq<Step>, call: CallId, peer: Peer) {
    exists i :: 0 <= i < |run| && run[i].Refused? && run[i].call == call && run[i].peer == peer
        && RefusalsInARow(run[..i + 1], peer) >= 3
  }

  ghost predicate AllBegan(run: seq<Step>, b: Book) {
    && (forall c :: c in b.calls ==> Began(run, c, b.calls[c].peer))
    && (forall i :: 0 <= i < |b.bookings| && b.bookings[i].call.Some? ==>
        Began(run, b.bookings[i].call.value, b.bookings[i].peer))
  }

  lemma BeganEarlier(run: seq<Step>, s: Step, call: CallId, peer: Peer)
    requires Began(run, call, peer)
    ensures Began(run + [s], call, peer)
  {
    var i :| 0 <= i < |run| && run[i].Refused? && run[i].call == call && run[i].peer == peer
        && RefusalsInARow(run[..i + 1], peer) >= 3;
    assert (run + [s])[i] == run[i] && (run + [s])[..i + 1] == run[..i + 1];
  }

  lemma BeganNow(run: seq<Step>, s: Step, interval: nat)
    requires s.Refused? && Of(TakeAll(run, interval), s.peer).inARow + 1 >= REFUSALS_BEFORE
    ensures Began(run + [s], s.call, s.peer)
  {
    TheCountIsOfTheRefusals(run, interval, s.peer);
    var all := run + [s];
    assert all[..|run| + 1] == all && all[..|run|] == run && all[|run|] == s;
    assert RefusalsInARow(all[..|run| + 1], s.peer) >= REFUSALS_BEFORE;
  }

  /** Every look-up that a refusal booked follows three refusals in a row, counted when
      its call first held the lock. */
  lemma {:induction false} AfterThreeRefusals(run: seq<Step>, interval: nat)
    ensures AllBegan(run, TakeAll(run, interval))
    decreases |run|
  {
    if run != [] {
      var init, last := run[..|run| - 1], run[|run| - 1];
      AfterThreeRefusals(init, interval);
      assert run == init + [last];
      var b, b' := TakeAll(init, interval), TakeAll(run, interval);
      forall c | c in b'.calls ensures Began(run, c, b'.calls[c].peer) {
        if c in b.calls && b.calls[c] == b'.calls[c] { BeganEarlier(init, last, c, b.calls[c].peer); }
        else { BeganNow(init, last, interval); }
      }
      forall i | 0 <= i < |b'.bookings| && b'.bookings[i].call.Some?
        ensures Began(run, b'.bookings[i].call.value, b'.bookings[i].peer)
      {
        if i < |b.bookings| {
          BeganEarlier(init, last, b.bookings[i].call.value, b.bookings[i].peer);
        } else {
          BeganEarlier(init, last, last.call, b.calls[last.call].peer);
        }
      }
    }
  }
}
