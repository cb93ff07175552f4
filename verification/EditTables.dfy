/** The combiner's edits in three tables, pending, approved and rejected, and the ids
    they share. Each table's edit_id is unique in that table; nothing in the database
    makes it unique over the three. */
module EditTables {
  import opened Wrappers

  type Records = seq<string>

  datatype Edit = Edit(zone: string, sender: string, distId: string, records: Records)

  datatype Tables = Tables(pending: map<nat, Edit>, approved: map<nat, Edit>, rejected: map<nat, Edit>) {
    function Ids(): set<nat> { pending.Keys + approved.Keys + rejected.Keys }

    /** An id names at most one row over the three tables. */
    predicate Unique() {
      pending.Keys !! approved.Keys && pending.Keys !! rejected.Keys && approved.Keys !! rejected.Keys
    }

    /** The row an id names, whichever table it is in. */
    function Row(id: nat): Option<Edit> {
      if id in pending then Some(pending[id]) else if id in approved then Some(approved[id])
      else if id in rejected then Some(rejected[id]) else None
    }
  }

  /** The largest of some ids; 0 of none. */
  ghost function MaxOf(ids: set<nat>): (m: nat)
    ensures forall id :: id in ids ==> id <= m
    ensures ids != {} ==> m in ids
    ensures ids == {} ==> m == 0
  {
    if ids == {} then 0
    else
      var id :| id in ids;
      var m := MaxOf(ids - {id});
      assert forall x :: x in ids ==> x == id || x in ids - {id};
      if id > m then id else m
  }

  ghost function NextId(t: Tables): nat { MaxOf(t.Ids()) + 1 }

  // ---- The transactions, which commit or change nothing --------------------------------

  function Save(t: Tables, id: nat, e: Edit): Tables {
    if id in t.pending then t else t.(pending := t.pending[id := e])
  }

  function Approve(t: Tables, id: nat): Tables {
    if id !in t.pending || id in t.approved then t
    else t.(approved := t.approved[id := t.pending[id]], pending := t.pending - {id})
  }

  function Reject(t: Tables, id: nat): Tables {
    if id !in t.pending || id in t.rejected then t
    else t.(rejected := t.rejected[id := t.pending[id]], pending := t.pending - {id})
  }

  /** The approved portion keeps the id, the rejected one is given a new id; a portion
      without records is not written. */
  ghost function Resolve(t: Tables, id: nat, applied: Records, refused: Records): Tables {
    if id !in t.pending || (applied != [] && id in t.approved) then t
    else
      var t1 := if applied == [] then t else t.(approved := t.approved[id := t.pending[id].(records := applied)]);
      var t2 := if refused == [] then t1
          else t1.(rejected := t1.rejected[NextId(t1) := t.pending[id].(records := refused)]);
      t2.(pending := t2.pending - {id})
  }

  function Cleared(table: map<nat, Edit>, zone: string): map<nat, Edit> {
    map id | id in table && zone != "" && table[id].zone != zone :: table[id]
  }

  lemma OneLess(m: map<nat, Edit>, id: nat)
    requires id in m
    ensures |m - {id}| == |m| - 1
  {
    assert m.Keys == (m - {id}).Keys + {id} && |m.Keys| == |m| && |(m - {id}).Keys| == |m - {id}|;
  }

  /** DELETE, of one zone's rows or of all, one row after the other; the number deleted. */
  method DeleteRows(table: map<nat, Edit>, zone: string) returns (left: map<nat, Edit>, n: nat)
    ensures left == Cleared(table, zone) && n == |table| - |left|
  {
    left, n := table, 0;
    var todo := table.Keys;
    while todo != {}
      invariant todo <= left.Keys <= table.Keys && n == |table| - |left|
      invariant left == map id | id in table && (id in todo || (zone != "" && table[id].zone != zone)) :: table[id]
    {
      var id :| id in todo;
      todo := todo - {id};
      if zone == "" || left[id].zone == zone {
        OneLess(left, id);
        left, n := left - {id}, n + 1;
      }
    }
  }

  // ---- The tables themselves ------------------------------------------------------------

  class EditStore {
    var pending: map<nat, Edit>
    var approved: map<nat, Edit>
    var rejected: map<nat, Edit>

    function Value(): Tables
      reads this
    {
      Tables(pending, approved, rejected)
    }

    constructor ()
      ensures Value() == Tables(map[], map[], map[])
    {
      pending, approved, rejected := map[], map[], map[];
    }

    /** The MAX over the three tables. */
    method MaxEditID() returns (max: nat)
      ensures max == MaxOf(Value().Ids())
    {
      max := 0;
      var todo := pending.Keys + approved.Keys + rejected.Keys;
      while todo != {}
        invariant todo <= Value().Ids()
        invariant forall id :: id in Value().Ids() - todo ==> id <= max
        invariant max == 0 || max in Value().Ids()
      {
        var id :| id in todo;
        assert forall x :: x in Value().Ids() - (todo - {id}) ==> x == id || x in Value().Ids() - todo;
        if id > max { max := id; }
        todo := todo - {id};
      }
      assert Value().Ids() - {} == Value().Ids();
    }

    method NextEditID() returns (id: nat)
      ensures id == NextId(Value())
    {
      var max := MaxEditID();
      id := max + 1;
    }

    method SavePendingEdit(id: nat, e: Edit) returns (ok: bool)
      modifies this`pending
      ensures Value() == Save(old(Value()), id, e) && (ok <==> id !in old(pending))
      ensures pending == if ok then old(pending)[id := e] else old(pending)
    {
      if id in pending { return false; }
      pending := pending[id := e];
      return true;
    }

    method ApprovePendingEdit(id: nat) returns (rec: Option<Edit>)
      modifies this
      ensures Value() == Approve(old(Value()), id)
      ensures rec == if id in old(pending) && id !in old(approved) then Some(old(pending)[id]) else None
    {
      if id !in pending || id in approved { return None; }
      rec := Some(pending[id]);
      approved := approved[id := pending[id]];
      pending := pending - {id};
    }

    method RejectPendingEdit(id: nat) returns (rec: Option<Edit>)
      modifies this
      ensures Value() == Reject(old(Value()), id)
      ensures rec == if id in old(pending) && id !in old(rejected) then Some(old(pending)[id]) else None
    {
      if id !in pending || id in rejected { return None; }
      rec := Some(pending[id]);
      rejected := rejected[id := pending[id]];
      pending := pending - {id};
    }

    method ResolvePendingEdit(id: nat, applied: Records, refused: Records) returns (ok: bool)
      modifies this
      ensures Value() == Resolve(old(Value()), id, applied, refused)
      ensures ok <==> id in old(pending) && (applied == [] || id !in old(approved))
    {
      if id !in pending || (applied != [] && id in approved) { return false; }
      var e := pending[id];
      if applied != [] { approved := approved[id := e.(records := applied)]; }
      if refused != [] {
        var rejId := id + 1;
        var max := MaxEditID();
        if max >= rejId { rejId := max + 1; }
        rejected := rejected[rejId := e.(records := refused)];
      }
      pending := pending - {id};
      return true;
    }

    method ClearPendingEdits(zone: string) returns (n: nat)
      modifies this`pending
      ensures pending == Cleared(old(pending), zone) && n == |old(pending)| - |pending|
      ensures zone == "" ==> pending == map[]
      ensures forall id :: id in old(pending) && old(pending)[id].zone == zone ==> id !in pending
      ensures zone != "" ==> forall id :: id in old(pending) && old(pending)[id].zone != zone ==>
          id in pending && pending[id] == old(pending)[id]
      ensures pending.Keys <= old(pending).Keys
    {
      pending, n := DeleteRows(pending, zone);
    }

    method ClearApprovedEdits(zone: string) returns (n: nat)
      modifies this`approved
      ensures approved == Cleared(old(approved), zone) && n == |old(approved)| - |approved|
      ensures zone == "" ==> approved == map[]
      ensures forall id :: id in old(approved) && old(approved)[id].zone == zone ==> id !in approved
      ensures zone != "" ==> forall id :: id in old(approved) && old(approved)[id].zone != zone ==>
          id in approved && approved[id] == old(approved)[id]
      ensures approved.Keys <= old(approved).Keys
    {
      approved, n := DeleteRows(approved, zone);
    }

    method ClearRejectedEdits(zone: string) returns (n: nat)
      modifies this`rejected
      ensures rejected == Cleared(old(rejected), zone) && n == |old(rejected)| - |rejected|
      ensures zone == "" ==> rejected == map[]
      ensures forall id :: id in old(rejected) && old(rejected)[id].zone == zone ==> id !in rejected
      ensures zone != "" ==> forall id :: id in old(rejected) && old(rejected)[id].zone != zone ==>
          id in rejected && rejected[id] == old(rejected)[id]
      ensures rejected.Keys <= old(rejected).Keys
    {
      rejected, n := DeleteRows(rejected, zone);
    }
  }

  // ---- Runs ------------------------------------------------------------------------------

  datatype Step =
    | SavingNext(edit: Edit)              // NextEditID and SavePendingEdit, as one
    | Approving(id: nat)
    | Rejecting(id: nat)
    | Resolving(id: nat, applied: Records, refused: Records)
    | ClearingPending(zone: string)
    | ClearingApproved(zone: string)
    | ClearingRejected(zone: string)

  ghost function Take(t: Tables, s: Step): Tables {
    match s
    case SavingNext(e) => Save(t, NextId(t), e)
    case Approving(id) => Approve(t, id)
    case Rejecting(id) => Reject(t, id)
    case Resolving(id, applied, refused) => Resolve(t, id, applied, refused)
    case ClearingPending(zone) => t.(pending := Cleared(t.pending, zone))
    case ClearingApproved(zone) => t.(approved := Cleared(t.approved, zone))
    case ClearingRejected(zone) => t.(rejected := Cleared(t.rejected, zone))
  }

  ghost function TakeAll(t: Tables, run: seq<Step>): Tables {
    if run == [] then t else Take(TakeAll(t, run[..|run| - 1]), run[|run| - 1])
  }

  lemma NextIsNew(t: Tables)
    ensures NextId(t) !in t.Ids() && forall id :: id in t.Ids() ==> id < NextId(t)
  {
  }

  lemma TakeKeepsUnique(t: Tables, s: Step)
    requires t.Unique()
    ensures Take(t, s).Unique()
  {
  }

  /** In every run in which an edit is given its id and saved as one step, an id names at
      most one row over the three tables. */
  lemma {:induction false} EveryRunIsUnique(run: seq<Step>)
    ensures TakeAll(Tables(map[], map[], map[]), run).Unique()
    decreases |run|
  {
    if run != [] {
      EveryRunIsUnique(run[..|run| - 1]);
      TakeKeepsUnique(TakeAll(Tables(map[], map[], map[]), run[..|run| - 1]), run[|run| - 1]);
    }
  }

  /** An edit saved under the next id is the row that id names then, pending; every other
      id names what it named. */
  lemma TheSavedIsNamed(t: Tables, e: Edit, other: nat)
    requires t.Unique()
    ensures var t' := Take(t, SavingNext(e));
      && NextId(t) in t'.pending && t'.Row(NextId(t)) == Some(e)
      && t'.approved == t.approved && t'.rejected == t.rejected
      && (other != NextId(t) ==> t'.Row(other) == t.Row(other) && (other in t'.pending <==> other in t.pending))
  {
  }

  /** Approving and rejecting move a row: every id names the row it named, and only the
      table of the one moved is another. */
  lemma MovingLosesNothing(t: Tables, id: nat, other: nat, t': Tables)
    requires t.Unique() && (t' == Approve(t, id) || t' == Reject(t, id))
    ensures t'.Row(other) == t.Row(other) && t'.Ids() == t.Ids() && t'.Unique()
    ensures t'.pending == t.pending - {id}
    ensures id in t.pending ==> if t' == Approve(t, id) then id in t'.approved && t'.rejected == t.rejected
        else id in t'.rejected && t'.approved == t.approved
  {
  }

  /** Resolving takes the edit out of the pending ones, and leaves each portion that has
      records in its table, under ids that name nothing else. */
  lemma ResolvingSplits(t: Tables, id: nat, applied: Records, refused: Records)
    requires t.Unique() && id in t.pending
    ensures var t' := Resolve(t, id, applied, refused);
      && t'.pending == t.pending - {id}
      && (applied != [] ==> t'.approved == t.approved[id := t.pending[id].(records := applied)])
      && (applied == [] ==> t'.approved == t.approved)
      && (refused != [] ==>
            && t'.rejected == t.rejected[NextId(t) := t.pending[id].(records := refused)]
            && NextId(t) !in t.Ids())
      && (refused == [] ==> t'.rejected == t.rejected)
  {
    var t1 := if applied == [] then t else t.(approved := t.approved[id := t.pending[id].(records := applied)]);
    assert t1.Ids() == t.Ids();
  }

  /** A clear of one zone's rows takes no other zone's, and, ids being given from 1 on,
      the next id falls back exactly when the row with the largest id was taken. */
  lemma ClearingIsForOneZone(t: Tables, s: Step, zone: string)
    requires t.Unique() && zone != "" && t.Ids() != {} && 0 !in t.Ids()
    requires s == ClearingPending(zone) || s == ClearingApproved(zone) || s == ClearingRejected(zone)
    ensures var t' := Take(t, s);
      && (forall id :: id in t.Ids() && t.Row(id).value.zone != zone ==> id in t'.Ids() && t'.Row(id) == t.Row(id))
      && (NextId(t') < NextId(t) <==> MaxOf(t.Ids()) !in t'.Ids())
  {
    var t', most := Take(t, s), MaxOf(t.Ids());
    assert t'.Ids() <= t.Ids() && most in t.Ids();
    assert MaxOf(t'.Ids()) <= most by {
      if t'.Ids() != {} { assert MaxOf(t'.Ids()) in t'.Ids(); }
    }
  }

  // ---- The id taken and used in two steps ---------------------------------------------------

  /** Saving under an id taken earlier keeps the ids unique exactly when the id names
      nothing approved or rejected by now. */
  lemma SavingKeepsUniqueWhenFree(t: Tables, id: nat, e: Edit)
    requires t.Unique() && id !in t.pending
    ensures Save(t, id, e).Unique() <==> id !in t.approved && id !in t.rejected
  {
  }

  /** And it may: an edit resolved between the two, with a portion rejected, is given the
      id that the other was. Then it names two rows. */
  lemma AnIdTakenTwice(t: Tables, id: nat, applied: Records, refused: Records, e: Edit)
    requires t.Unique() && id in t.pending && refused != []
    ensures var t1 := Resolve(t, id, applied, refused);
      t1.Unique() && !Save(t1, NextId(t), e).Unique()
  {
    TakeKeepsUnique(t, Resolving(id, applied, refused));
    ResolvingSplits(t, id, applied, refused);
    SavingKeepsUniqueWhenFree(Resolve(t, id, applied, refused), NextId(t), e);
  }
}
