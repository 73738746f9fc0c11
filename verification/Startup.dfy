/** The startup pass over the ledger: claims left by earlier store runtimes become recovery
    obligations, page by page, and the obligations are counted. */
module Startup {
  import opened Codes
  import opened Ledger
  import opened Options

  const PAGE := 256

  datatype Page = Page(last: Option<CommandId>, recovering: nat, complete: bool)

  /** Obligations among the ids from `lo` up to, not including, `hi`. */
  function Obligations(t: Table, lo: nat, hi: nat): nat {
    if hi <= lo then 0
    else Obligations(t, lo, hi - 1) + if hi - 1 in t && t[hi - 1].status.RecoveryRequired? then 1 else 0
  }

  lemma {:induction false} ObligationsSplit(t: Table, lo: nat, mid: nat, hi: nat)
    requires lo <= mid <= hi
    ensures Obligations(t, lo, hi) == Obligations(t, lo, mid) + Obligations(t, mid, hi)
    decreases hi
  {
    if mid < hi {
      ObligationsSplit(t, lo, mid, hi - 1);
    }
  }

  function Unresolved(t: Table, hi: nat): set<CommandId> {
    set id | id in t && id < hi && t[id].status.RecoveryRequired?
  }

  lemma {:induction false} ObligationsCount(t: Table, hi: nat)
    ensures Obligations(t, 0, hi) == |Unresolved(t, hi)|
  {
    if hi > 0 {
      ObligationsCount(t, hi - 1);
      if hi - 1 in t && t[hi - 1].status.RecoveryRequired? {
        assert Unresolved(t, hi) == Unresolved(t, hi - 1) + {hi - 1};
      } else {
        assert Unresolved(t, hi) == Unresolved(t, hi - 1);
      }
    }
  }

  /** The rows with ids from `lo` up to, not including, `hi` are settled, and no other row changed. */
  ghost predicate SettledOn(t: Table, u: Table, lo: nat, hi: nat) {
    t.Keys == u.Keys && forall id :: id in t ==> u[id] == if lo <= id < hi then Settle(t[id]) else t[id]
  }

  /** The first id behind a given one, if one is given. */
  function Start(after: Option<CommandId>): nat {
    if after.None? then 0 else after.value + 1
  }

  /** How far a page reached. */
  function End(page: Page, boundary: Option<CommandId>): nat {
    if page.complete || page.last.None? then Start(boundary) else page.last.value + 1
  }

  // The outside

  /** What the store and its caller meet from outside, one entry a look: a request to stop, a clock that
      fails, a failing transaction. */
  datatype Outside = Outside(stops: nat -> Option<Stop>, clock: nat -> bool, transactions: nat -> Option<StoreError>)

  function StopError(stop: Stop): StoreError {
    match stop
    case Cancelled => StoreCancelled
    case DeadlineReached => StoreDeadlineExceeded
  }

  /** Look `n` meets a fault that is answered as `e`. */
  predicate Faulty(outside: Outside, n: nat, e: StoreError) {
    || (outside.stops(n).Some? && e == StopError(outside.stops(n).value))
    || (!outside.clock(n) && e == StoreIdGenerationUnavailable)
    || outside.transactions(n) == Some(e)
  }

  /** Some look from `from` on, before `to`, met such a fault. */
  ghost predicate Met(outside: Outside, from: nat, to: nat, e: StoreError) {
    exists n :: from <= n < to && Faulty(outside, n, e)
  }

  /** No look from `from` on meets a fault. */
  ghost predicate Calm(outside: Outside, from: nat) {
    forall n :: from <= n ==> outside.stops(n).None? && outside.clock(n) && outside.transactions(n).None?
  }

  // Rows the pass rejects

  /** The first pass rejects a claim of the running store or of another operation, the second an
      obligation of another operation. */
  predicate Rejects(e: Entry, runtime: Runtime, recovering: bool) {
    if recovering then e.status.RecoveryRequired? && e.op == OtherOperation
    else e.status == Claimed && (e.op == OtherOperation || e.runtime == runtime)
  }

  /** Some row with an id from `lo` up to, not including, `hi` is rejected. */
  ghost predicate Corrupt(t: Table, runtime: Runtime, recovering: bool, lo: nat, hi: nat) {
    exists id :: id in t && lo <= id < hi && Rejects(t[id], runtime, recovering)
  }

  lemma CorruptAt(t: Table, runtime: Runtime, recovering: bool, lo: nat, hi: nat, id: CommandId)
    requires id in t && lo <= id < hi && Rejects(t[id], runtime, recovering)
    ensures Corrupt(t, runtime, recovering, lo, hi)
  {
  }

  lemma CorruptNext(t: Table, runtime: Runtime, recovering: bool, lo: nat, id: CommandId)
    requires lo <= id && !Corrupt(t, runtime, recovering, lo, id) && (id in t ==> !Rejects(t[id], runtime, recovering))
    ensures !Corrupt(t, runtime, recovering, lo, id + 1)
  {
  }

  lemma SettledNext(t: Table, u: Table, lo: nat, id: CommandId, u': Table)
    requires SettledOn(t, u, lo, id) && lo <= id && u' == if id in u then u[id := Settle(u[id])] else u
    ensures SettledOn(t, u', lo, id + 1)
  {
  }

  /** Nothing for the pass to reject: no claim of this store's runtime, and neither a claim nor an
      obligation of another operation. */
  ghost predicate Startable(t: Table, runtime: Runtime) {
    forall id :: id in t ==>
      && (t[id].status == Claimed ==> t[id].runtime != runtime && t[id].op != OtherOperation)
      && (t[id].status.RecoveryRequired? ==> t[id].op != OtherOperation)
  }

  lemma MetLater(outside: Outside, from: nat, mid: nat, to: nat, e: StoreError)
    requires from <= mid <= to
    ensures Met(outside, mid, to, e) ==> Met(outside, from, to, e)
  {
  }

  /** What a pass has settled up to `lo` leaves the rows from there on as they were. */
  lemma CorruptBehind(t: Table, u: Table, runtime: Runtime, recovering: bool, lo: nat, hi: nat)
    requires SettledOn(t, u, 0, lo)
    ensures Corrupt(u, runtime, recovering, lo, hi) ==> Corrupt(t, runtime, recovering, 0, hi)
    ensures Corrupt(t, runtime, recovering, 0, hi) ==>
              Corrupt(t, runtime, recovering, 0, lo) || Corrupt(u, runtime, recovering, lo, hi)
  {
    if Corrupt(u, runtime, recovering, lo, hi) {
      var id :| id in u && lo <= id < hi && Rejects(u[id], runtime, recovering);
      assert t[id] == u[id];
    }
    if Corrupt(t, runtime, recovering, 0, hi) {
      var id :| id in t && 0 <= id < hi && Rejects(t[id], runtime, recovering);
      if lo <= id {
        assert u[id] == t[id];
      }
    }
  }

  lemma WholeLedger(t: Table, runtime: Runtime, hi: nat)
    requires forall id :: id in t ==> id < hi
    ensures Startable(t, runtime) <==> !Corrupt(t, runtime, false, 0, hi) && !Corrupt(t, runtime, true, 0, hi)
  {
    if !Startable(t, runtime) {
      var id :| id in t && (Rejects(t[id], runtime, false) || Rejects(t[id], runtime, true));
    }
  }

  lemma SettledCorruption(t: Table, u: Table, runtime: Runtime, hi: nat)
    requires (forall id :: id in t ==> id < hi) && SettledOn(t, u, 0, hi) && !Corrupt(t, runtime, false, 0, hi)
    ensures Corrupt(u, runtime, true, 0, hi) <==> Corrupt(t, runtime, true, 0, hi)
  {
    if Corrupt(t, runtime, true, 0, hi) {
      var id :| id in t && 0 <= id < hi && Rejects(t[id], runtime, true);
      assert u[id] == t[id];
    }
    if Corrupt(u, runtime, true, 0, hi) {
      var id :| id in u && 0 <= id < hi && Rejects(u[id], runtime, true);
      assert !Rejects(t[id], runtime, false);
      assert Rejects(t[id], runtime, true);
    }
  }

  class Store {
    const runtime: Runtime
    const outside: Outside
    var table: Table
    var looks: nat

    constructor (runtime: Runtime, table: Table, outside: Outside)
      ensures this.runtime == runtime && this.table == table && this.outside == outside && looks == 0
    {
      this.runtime, this.table := runtime, table;
      this.outside, looks := outside, 0;
    }

    /** `startup_checkpoint` and `controlled_checkpoint`. */
    method Checkpoint() returns (stop: Option<StoreError>)
      modifies this`looks
      ensures looks == old(looks) + 1
      ensures stop.Some? ==> Met(outside, old(looks), looks, stop.value)
      ensures stop.None? <==> outside.stops(old(looks)).None?
    {
      var request := outside.stops(looks);
      stop := if request.None? then None else Some(StopError(request.value));
      assert stop.Some? ==> Faulty(outside, looks, stop.value);
      looks := looks + 1;
    }

    method ReadClock() returns (error: Option<StoreError>)
      modifies this`looks
      ensures looks == old(looks) + 1
      ensures error.Some? ==> Met(outside, old(looks), looks, error.value)
      ensures error.None? <==> outside.clock(old(looks))
    {
      error := if outside.clock(looks) then None else Some(StoreIdGenerationUnavailable);
      assert error.Some? ==> Faulty(outside, looks, error.value);
      looks := looks + 1;
    }

    /** What a transaction comes to, apart from its rows. */
    method Transact() returns (error: Option<StoreError>)
      modifies this`looks
      ensures looks == old(looks) + 1
      ensures error.Some? ==> Met(outside, old(looks), looks, error.value)
      ensures error.None? <==> outside.transactions(old(looks)).None?
    {
      error := outside.transactions(looks);
      assert error.Some? ==> Faulty(outside, looks, error.value);
      looks := looks + 1;
    }

    /** `capture_startup_mutation_boundary`: the largest command id. */
    method Boundary() returns (r: Option<CommandId>)
      ensures r.None? <==> table == map[]
      ensures r.Some? ==> r.value in table && forall id :: id in table ==> id <= r.value
    {
      r := None;
      var rest := table.Keys;
      while rest != {}
        invariant rest <= table.Keys
        invariant r.None? <==> rest == table.Keys
        invariant r.Some? ==> r.value in table && forall id :: id in table && id !in rest ==> id <= r.value
      {
        var id :| id in rest;
        rest := rest - {id};
        r := if r.None? || r.value < id then Some(id) else r;
      }
    }

    /** `classify_startup_mutation_page`: up to 256 rows in id order, in one transaction; an error
        leaves the ledger alone.  An empty ledger has no boundary, and one empty page. */
    method ClassifyPage(boundary: Option<CommandId>, recovering: bool, after: Option<CommandId>) returns (r: Result<Page>)
      modifies this`table, this`looks
      ensures looks >= old(looks)
      ensures r.Err? ==> table == old(table)
      ensures r.Err? ==> || Met(outside, old(looks), looks, r.error)
                         || (r.error == StoreCorruption && Corrupt(table, runtime, recovering, Start(after), Start(boundary)))
                         || (r.error == Validation && Start(boundary) < Start(after))
      ensures r.Ok? ==> (r.value.complete || r.value.last.Some?) && r.value.recovering <= PAGE
      ensures r.Ok? && r.value.last.Some? ==> Start(after) <= r.value.last.value < Start(boundary)
      ensures r.Ok? ==> !Corrupt(old(table), runtime, recovering, Start(after), End(r.value, boundary))
      ensures r.Ok? && !recovering ==>
                r.value.recovering == 0 && SettledOn(old(table), table, Start(after), End(r.value, boundary))
      ensures r.Ok? && recovering ==>
                table == old(table) && r.value.recovering == Obligations(table, Start(after), End(r.value, boundary))
    {
      var stop := Checkpoint();
      if stop.Some? {
        return Err(stop.value);
      }
      if boundary.None? {
        return if after.Some? then Err(Validation) else Ok(Page(None, 0, true));
      }
      if after.Some? && after.value > boundary.value {
        return Err(Validation);
      }
      ghost var before := looks;
      r := ClassifyRows(boundary.value, recovering, after);
      if r.Err? {
        MetLater(outside, old(looks), before, looks, r.error);
      }
    }

    /** The transaction of a page. */
    method ClassifyRows(boundary: CommandId, recovering: bool, after: Option<CommandId>) returns (r: Result<Page>)
      requires Start(after) <= boundary + 1
      modifies this`table, this`looks
      ensures looks >= old(looks)
      ensures r.Err? ==> table == old(table)
      ensures r.Err? ==> || Met(outside, old(looks), looks, r.error)
                         || (r.error == StoreCorruption && Corrupt(table, runtime, recovering, Start(after), boundary + 1))
      ensures r.Ok? ==> (r.value.complete || r.value.last.Some?) && r.value.recovering <= PAGE
      ensures r.Ok? && r.value.last.Some? ==> Start(after) <= r.value.last.value <= boundary
      ensures r.Ok? ==> !Corrupt(old(table), runtime, recovering, Start(after), End(r.value, Some(boundary)))
      ensures r.Ok? && !recovering ==>
                r.value.recovering == 0 && SettledOn(old(table), table, Start(after), End(r.value, Some(boundary)))
      ensures r.Ok? && recovering ==>
                table == old(table) && r.value.recovering == Obligations(table, Start(after), End(r.value, Some(boundary)))
    {
      var work: Table, id, rows := table, Start(after), 0;
      var last: Option<CommandId>, count := None, 0;
      while id <= boundary && rows < PAGE
        invariant table == old(table) && looks >= old(looks)
        invariant Start(after) <= id <= boundary + 1 && rows <= PAGE
        invariant last.Some? ==> Start(after) <= last.value < id
        invariant last.None? ==> rows == 0
        invariant rows == PAGE ==> last == Some(id - 1)
        invariant !Corrupt(table, runtime, recovering, Start(after), id)
        invariant if recovering then work == table else count == 0 && SettledOn(table, work, Start(after), id)
        invariant recovering ==> count == rows == Obligations(table, Start(after), id)
      {
        ghost var settled := work;
        if id in work && (if recovering then work[id].status.RecoveryRequired? else work[id].status == Claimed) {
          ghost var before := looks;
          var stop := Checkpoint();
          if stop.Some? {
            MetLater(outside, old(looks), before, looks, stop.value);
            return Err(stop.value);
          }
          if work[id].op == OtherOperation || (!recovering && work[id].runtime == runtime) {
            CorruptAt(table, runtime, recovering, Start(after), boundary + 1, id);
            return Err(StoreCorruption);
          }
          if recovering {
            count := count + 1;
          } else {
            work := work[id := Settle(work[id])];
          }
          rows, last := rows + 1, Some(id);
        }
        CorruptNext(table, runtime, recovering, Start(after), id);
        if !recovering {
          SettledNext(table, settled, Start(after), id, work);
        }
        id := id + 1;
      }
      ghost var before := looks;
      var error := EndTransaction();
      if error.Some? {
        MetLater(outside, old(looks), before, looks, error.value);
        return Err(error.value);
      }
      table := work;
      r := Ok(Page(last, count, rows < PAGE || last == Some(boundary)));
    }

    /** The last checkpoint of a transaction, and its commit. */
    method EndTransaction() returns (error: Option<StoreError>)
      modifies this`looks
      ensures looks >= old(looks)
      ensures error.Some? ==> Met(outside, old(looks), looks, error.value)
    {
      error := Checkpoint();
      if error.Some? {
        return;
      }
      ghost var before := looks;
      error := Transact();
      if error.Some? {
        MetLater(outside, old(looks), before, looks, error.value);
      }
    }

    /** What stands before each page: the caller's checkpoint and its clock. */
    method BeginPage() returns (error: Option<StoreError>)
      modifies this`looks
      ensures looks >= old(looks)
      ensures error.Some? ==> Met(outside, old(looks), looks, error.value)
    {
      error := Checkpoint();
      if error.Some? {
        return;
      }
      ghost var before := looks;
      error := ReadClock();
      if error.Some? {
        MetLater(outside, old(looks), before, looks, error.value);
      }
    }

    /** The first checkpoint, and the transaction that reads the boundary. */
    method BeginPass() returns (error: Option<StoreError>)
      modifies this`looks
      ensures looks >= old(looks)
      ensures error.Some? ==> Met(outside, old(looks), looks, error.value)
    {
      error := EndTransaction();
    }

    /** The first pass of `classify_with_clock`. */
    method ClassifyClaims(boundary: Option<CommandId>) returns (error: Option<StoreError>)
      modifies this`table, this`looks
      ensures looks >= old(looks)
      ensures error.None? ==> SettledOn(old(table), table, 0, Start(boundary))
      ensures error.None? ==> !Corrupt(old(table), runtime, false, 0, Start(boundary))
      ensures error.Some? ==> exists hi: nat :: SettledOn(old(table), table, 0, hi)
      ensures error.Some? ==> || Met(outside, old(looks), looks, error.value)
                              || (error.value == StoreCorruption && Corrupt(old(table), runtime, false, 0, Start(boundary)))
    {
      var after: Option<CommandId> := None;
      var done := false;
      while !done
        invariant Start(after) <= Start(boundary) && looks >= old(looks)
        invariant SettledOn(old(table), table, 0, if done then Start(boundary) else Start(after))
        invariant !Corrupt(old(table), runtime, false, 0, if done then Start(boundary) else Start(after))
        decreases Start(boundary) - Start(after), !done
      {
        ghost var before, was := looks, table;
        var fault := BeginPage();
        if fault.Some? {
          MetLater(outside, old(looks), before, looks, fault.value);
          assert SettledOn(old(table), table, 0, Start(after));
          return fault;
        }
        before := looks;
        var page := ClassifyPage(boundary, false, after);
        if page.Err? {
          MetLater(outside, old(looks), before, looks, page.error);
          CorruptBehind(old(table), was, runtime, false, Start(after), Start(boundary));
          assert SettledOn(old(table), table, 0, Start(after));
          return Some(page.error);
        }
        CorruptBehind(old(table), was, runtime, false, Start(after), End(page.value, boundary));
        if page.value.complete {
          done := true;
        } else {
          after := page.value.last;
        }
      }
      error := None;
    }

    /** The second pass. */
    method CountObligations(boundary: Option<CommandId>) returns (r: Result<nat>)
      modifies this`table, this`looks
      ensures table == old(table) && looks >= old(looks)
      ensures r.Ok? ==> r.value == Obligations(table, 0, Start(boundary))
      ensures r.Ok? ==> !Corrupt(table, runtime, true, 0, Start(boundary))
      ensures r.Err? ==> || Met(outside, old(looks), looks, r.error)
                         || (r.error == StoreCorruption && Corrupt(table, runtime, true, 0, Start(boundary)))
    {
      var after: Option<CommandId>, count, done := None, 0, false;
      while !done
        invariant Start(after) <= Start(boundary) && table == old(table) && looks >= old(looks)
        invariant count == Obligations(table, 0, if done then Start(boundary) else Start(after))
        invariant !Corrupt(table, runtime, true, 0, if done then Start(boundary) else Start(after))
        decreases Start(boundary) - Start(after), !done
      {
        ghost var before := looks;
        var fault := BeginPage();
        if fault.Some? {
          MetLater(outside, old(looks), before, looks, fault.value);
          return Err(fault.value);
        }
        before := looks;
        var page := ClassifyPage(boundary, true, after);
        if page.Err? {
          MetLater(outside, old(looks), before, looks, page.error);
          return Err(page.error);
        }
        ObligationsSplit(table, 0, Start(after), End(page.value, boundary));
        count := count + page.value.recovering;
        if page.value.complete {
          done := true;
        } else {
          after := page.value.last;
        }
      }
      r := Ok(count);
    }

    /** `classify_with_clock`: no claim survives, the count is the number of obligations, and without a
        fault from outside the pass succeeds exactly on a ledger it has nothing to reject in. */
    method Classify() returns (r: Result<nat>)
      modifies this`table, this`looks
      ensures r.Ok? ==> forall id :: id in table ==> table[id].status != Claimed
      ensures r.Ok? ==> table.Keys == old(table).Keys && forall id :: id in table ==> table[id] == Settle(old(table)[id])
      ensures r.Ok? ==> r.value == |set id | id in table && table[id].status.RecoveryRequired?|
      ensures r.Err? ==> table.Keys == old(table).Keys
                         && forall id :: id in table ==> table[id] == old(table)[id] || table[id] == Settle(old(table)[id])
      ensures r.Ok? ==> Startable(old(table), runtime)
      ensures r.Err? ==> || Met(outside, old(looks), looks, r.error)
                         || (r.error == StoreCorruption && !Startable(old(table), runtime))
      ensures Calm(outside, old(looks)) ==> (r.Ok? <==> Startable(old(table), runtime))
      ensures Calm(outside, old(looks)) && r.Err? ==> r.error == StoreCorruption
    {
      ghost var was := table;
      var fault := BeginPass();
      if fault.Some? {
        return Err(fault.value);
      }
      var boundary := Boundary();
      ghost var before := looks;
      var stop := Checkpoint();
      if stop.Some? {
        MetLater(outside, old(looks), before, looks, stop.value);
        return Err(stop.value);
      }
      before := looks;
      var error := ClassifyClaims(boundary);
      WholeLedger(was, runtime, Start(boundary));
      if error.Some? {
        MetLater(outside, old(looks), before, looks, error.value);
        return Err(error.value);
      }
      before := looks;
      r := CountObligations(boundary);
      SettledCorruption(was, table, runtime, Start(boundary));
      if r.Err? {
        MetLater(outside, old(looks), before, looks, r.error);
      }
      ObligationsCount(table, Start(boundary));
      assert Unresolved(table, Start(boundary)) == set id | id in table && table[id].status.RecoveryRequired?;
    }
  }
}
