/** `ApplicationDbContext`: the change tracker, the stamping `SaveChangesAsync`, and the
    coordinator holding at most one database transaction. */
module Persistence {
  import opened Wrappers
  import opened Common
  import opened Rows
  import opened TenantContext

  /** What one call of `SaveChangesAsync` yields: its result, the table rows and the tracker. */
  datatype SaveResult = SaveResult(result: Result<nat, Error>, rows: seq<Row>, entries: seq<Entry>)

  /** The tenant the stamping loop writes; irrelevant when reading it fails, since then nothing
      is stamped with it. */
  function TenantOrEmpty(tenant: Result<Guid, Error>): Guid {
    if tenant.Success? then tenant.value else EmptyGuid
  }

  /** `SaveChangesAsync` given the tracker, the tables, what reading `TenantId` yields and whether
      the database rejects the save. An Added tenant-scoped entry with no tenant context throws
      before anything is stamped or written. */
  function SaveSpec(entries: seq<Entry>, rows: seq<Row>, tenant: Result<Guid, Error>, now: Time, dbFails: bool): (s: SaveResult)
    ensures s.result.Failure? ==> s.rows == rows
    ensures s.result.Failure? <==> dbFails || (tenant.Failure? && HasAddedScoped(entries))
    ensures |s.entries| == |entries|
    ensures s.result.Success? ==> PendingCount(s.entries) == 0 && s.result.value <= |entries|
  {
    if tenant.Failure? && HasAddedScoped(entries) then
      SaveResult(Failure(tenant.error), rows, entries)
    else
      var stamped := StampAudit(StampTenant(entries, TenantOrEmpty(tenant)), now);
      if dbFails then SaveResult(Failure(DatabaseFailure), rows, stamped)
      else
        AcceptedHasNothingPending(stamped);
        SaveResult(Success(PendingCount(stamped)), Persist(rows, stamped), AcceptAll(stamped))
  }

  /** No tenant context and an entity to stamp: the exception escapes before the base save, so
      no row is written and no entry changes. */
  lemma SaveWithoutTenantPersistsNothing(entries: seq<Entry>, rows: seq<Row>, now: Time, dbFails: bool)
    requires HasAddedScoped(entries)
    ensures var s := SaveSpec(entries, rows, Failure(NoTenantContext), now, dbFails);
      s.result == Failure(NoTenantContext) && s.rows == rows && s.entries == entries
  {
  }

  /** A successful save of new entities appends them, tenant-scoped ones carrying the provider's
      tenant and every one with `CreatedAt` where it has one; existing rows are kept. */
  lemma SaveOfAdditions(entries: seq<Entry>, rows: seq<Row>, tenantId: Guid, now: Time)
    requires AllAdded(entries)
    ensures var s := SaveSpec(entries, rows, Success(tenantId), now, false);
      && s.result == Success(|entries|)
      && |s.rows| == |rows| + |entries| && s.rows[..|rows|] == rows
      && (forall i :: 0 <= i < |entries| ==> s.rows[|rows| + i].Id() == entries[i].row.Id())
      && (forall i :: |rows| <= i < |s.rows| && s.rows[i].IsTenantScoped() ==> s.rows[i].TenantId() == tenantId)
      && (forall i :: |rows| <= i < |s.rows| && s.rows[i].HasAuditFields() ==> s.rows[i].CreatedAt() == now)
      && PendingCount(s.entries) == 0
  {
    var stamped := StampAudit(StampTenant(entries, tenantId), now);
    PersistAllAdded(rows, stamped);
    AllAddedPending(stamped);
    AcceptedHasNothingPending(stamped);
  }

  lemma {:induction false} AllAddedPending(entries: seq<Entry>)
    requires AllAdded(entries)
    ensures PendingCount(entries) == |entries|
    decreases |entries|
  {
    if entries != [] {
      AllAddedPending(entries[1..]);
    }
  }

  /** An open transaction: its handle and the rows as they were when it began. */
  datatype Transaction = Transaction(handle: nat, snapshot: seq<Row>)

  /** What happens to transaction handles. */
  datatype TransactionEvent = Began(handle: nat) | Committed(handle: nat) | RolledBack(handle: nat) | Disposed(handle: nat)

  function HandleOf(e: TransactionEvent): nat {
    match e
    case Began(h) => h
    case Committed(h) => h
    case RolledBack(h) => h
    case Disposed(h) => h
  }

  class ApplicationDbContext {
    /** `ChangeTracker.Entries()`. */
    var tracker: array<Entry>
    /** The database tables. */
    var rows: seq<Row>
    const tenantProvider: TenantProvider
    /** `_currentTransaction`: at most one handle. */
    var currentTransaction: Option<Transaction>
    var nextHandle: nat
    var transactionLog: seq<TransactionEvent>

    /** Every handle handed out so far is below `nextHandle`, so a new one is fresh. */
    predicate Valid()
      reads this
    {
      (forall i :: 0 <= i < |transactionLog| ==> HandleOf(transactionLog[i]) < nextHandle) &&
      (currentTransaction.Some? ==> currentTransaction.value.handle < nextHandle)
    }

    constructor (tenantProvider: TenantProvider, rows: seq<Row>)
      ensures Valid() && fresh(tracker)
      ensures this.tenantProvider == tenantProvider && this.rows == rows && tracker[..] == []
      ensures currentTransaction == None && transactionLog == []
    {
      this.tenantProvider := tenantProvider;
      this.rows := rows;
      tracker := new Entry[0];
      currentTransaction := None;
      nextHandle := 0;
      transactionLog := [];
    }

    /** `DbSet.Add`: the entity is tracked as Added. */
    method Add(row: Row)
      modifies this`tracker
      ensures fresh(tracker)
      ensures tracker[..] == old(tracker[..]) + [Entry(Added, row)]
    {
      var entries := tracker[..];
      var a := new Entry[|entries| + 1](i => if 0 <= i < |entries| then entries[i] else Entry(Added, row));
      assert a[..] == entries + [Entry(Added, row)];
      tracker := a;
    }

    /** `SaveChangesAsync(now)`: stamps the tracked entities in place and saves them. */
    method SaveChanges(now: Time, dbFails: bool) returns (r: Result<nat, Error>)
      modifies tracker, this`rows, tenantProvider`cachedTenantId
      ensures var s := SaveSpec(old(tracker[..]), old(rows), old(tenantProvider.Current()), now, dbFails);
        r == s.result && rows == s.rows && tracker[..] == s.entries
      ensures tenantProvider.Current() == old(tenantProvider.Current())
    {
      var failure := SetTenantIds();
      if failure.Some? {
        return Failure(failure.value);
      }
      SetAuditFields(now);
      if dbFails {
        return Failure(DatabaseFailure);
      }
      rows := Persist(rows, tracker[..]);
      r := Success(PendingCount(tracker[..]));
      forall k | 0 <= k < tracker.Length {
        tracker[k] := Accepted(tracker[k]);
      }
    }

    /** The first loop of `SaveChangesAsync`: the provider's tenant onto every Added
        tenant-scoped entry. Reading the tenant throws only when such an entry exists and there
        is no tenant context, and then no entry has been changed. */
    method SetTenantIds() returns (failure: Option<Error>)
      modifies tracker, tenantProvider`cachedTenantId
      ensures tenantProvider.Current() == old(tenantProvider.Current())
      ensures old(tenantProvider.Current()).Failure? && HasAddedScoped(old(tracker[..])) ==>
                failure == Some(old(tenantProvider.Current()).error) && tracker[..] == old(tracker[..])
      ensures !(old(tenantProvider.Current()).Failure? && HasAddedScoped(old(tracker[..]))) ==>
                failure == None && tracker[..] == StampTenant(old(tracker[..]), TenantOrEmpty(old(tenantProvider.Current())))
    {
      ghost var entries := tracker[..];
      ghost var tenant := tenantProvider.Current();
      ghost var tenantId := TenantOrEmpty(tenant);
      var i := 0;
      while i < tracker.Length
        invariant 0 <= i <= tracker.Length
        invariant tenantProvider.Current() == tenant
        invariant forall k :: 0 <= k < i ==> tracker[k] == TenantStamped(entries[k], tenantId)
        invariant forall k :: i <= k < tracker.Length ==> tracker[k] == entries[k]
        invariant tenant.Failure? ==> forall k :: 0 <= k < i ==> !IsAddedScoped(entries[k])
      {
        var e := tracker[i];
        if e.state == Added && e.row.IsTenantScoped() {
          var t := tenantProvider.TenantId();
          if t.Failure? {
            assert tracker[..] == entries;
            return Some(t.error);
          }
          tracker[i] := e.(row := e.row.WithTenantId(t.value));
        }
        i := i + 1;
      }
      assert tracker[..] == StampTenant(entries, tenantId);
      failure := None;
    }

    /** The second loop of `SaveChangesAsync`: `CreatedAt` onto Added entities and `UpdatedAt`
        onto Modified ones that have the property. */
    method SetAuditFields(now: Time)
      modifies tracker
      ensures tracker[..] == StampAudit(old(tracker[..]), now)
    {
      ghost var entries := tracker[..];
      var i := 0;
      while i < tracker.Length
        invariant 0 <= i <= tracker.Length
        invariant forall k :: 0 <= k < i ==> tracker[k] == AuditStamped(entries[k], now)
        invariant forall k :: i <= k < tracker.Length ==> tracker[k] == entries[k]
      {
        var e := tracker[i];
        if e.row.HasAuditFields() {
          if e.state == Added {
            tracker[i] := e.(row := e.row.WithCreatedAt(now));
          } else if e.state == Modified {
            tracker[i] := e.(row := e.row.WithUpdatedAt(now));
          }
        }
        i := i + 1;
      }
    }

    /** `BeginTransactionAsync`: the open transaction when there is one, otherwise a new one;
        `beginFails` says whether the database refuses to open it, which throws and leaves
        no transaction open. */
    method BeginTransaction(beginFails: bool) returns (r: Result<nat, Error>)
      requires Valid()
      modifies this`currentTransaction, this`nextHandle, this`transactionLog
      ensures Valid()
      ensures old(currentTransaction).Some? ==>
                r == Success(old(currentTransaction).value.handle) &&
                currentTransaction == old(currentTransaction) && transactionLog == old(transactionLog) &&
                nextHandle == old(nextHandle)
      ensures old(currentTransaction).None? && beginFails ==>
                r == Failure(DatabaseFailure) && currentTransaction == None &&
                transactionLog == old(transactionLog) && nextHandle == old(nextHandle)
      ensures old(currentTransaction).None? && !beginFails ==>
                r == Success(old(nextHandle)) && currentTransaction == Some(Transaction(r.value, rows)) &&
                transactionLog == old(transactionLog) + [Began(r.value)] &&
                forall i :: 0 <= i < |old(transactionLog)| ==> HandleOf(old(transactionLog)[i]) != r.value
    {
      if currentTransaction.Some? {
        return Success(currentTransaction.value.handle);
      }
      if beginFails {
        return Failure(DatabaseFailure);
      }
      var handle := nextHandle;
      nextHandle := nextHandle + 1;
      currentTransaction := Some(Transaction(handle, rows));
      transactionLog := transactionLog + [Began(handle)];
      r := Success(handle);
    }

    /** `RollbackTransactionAsync`: with no open transaction, awaiting the null task throws;
        otherwise the rows go back to the snapshot, unless the database fails the rollback
        (`rollbackFails`), which throws and leaves the rows as they are. Either way the handle
        is disposed. */
    method RollbackTransaction(rollbackFails: bool) returns (r: Outcome<Error>)
      requires Valid()
      modifies this`rows, this`currentTransaction, this`transactionLog
      ensures Valid() && currentTransaction == None
      ensures old(currentTransaction).None? ==>
                r == Fail(NullReference) && rows == old(rows) && transactionLog == old(transactionLog)
      ensures old(currentTransaction).Some? && rollbackFails ==>
                var t := old(currentTransaction).value;
                r == Fail(DatabaseFailure) && rows == old(rows) &&
                transactionLog == old(transactionLog) + [Disposed(t.handle)]
      ensures old(currentTransaction).Some? && !rollbackFails ==>
                var t := old(currentTransaction).value;
                r == Pass && rows == t.snapshot &&
                transactionLog == old(transactionLog) + [RolledBack(t.handle), Disposed(t.handle)]
    {
      if currentTransaction.None? {
        return Fail(NullReference);
      }
      var t := currentTransaction.value;
      if rollbackFails {
        r := Fail(DatabaseFailure);
      } else {
        rows := t.snapshot;
        transactionLog := transactionLog + [RolledBack(t.handle)];
        r := Pass;
      }
      // finally
      transactionLog := transactionLog + [Disposed(t.handle)];
      currentTransaction := None;
    }

    /** `CommitTransactionAsync`: saves, then commits. A failure of either rolls back and is
        rethrown, unless the rollback itself fails: its exception then replaces the first and the
        saved rows stay. With no open transaction the save still lands and then awaiting the null
        task throws. Afterwards no transaction is open. */
    method CommitTransaction(now: Time, saveFails: bool, commitFails: bool, rollbackFails: bool) returns (r: Outcome<Error>)
      requires Valid()
      modifies this`rows, this`currentTransaction, this`transactionLog, tracker, tenantProvider`cachedTenantId
      ensures Valid() && currentTransaction == None
      ensures var s := SaveSpec(old(tracker[..]), old(rows), old(tenantProvider.Current()), now, saveFails);
        tracker[..] == s.entries &&
        match old(currentTransaction)
        case None =>
          r == Fail(NullReference) && rows == s.rows && transactionLog == old(transactionLog)
        case Some(t) =>
          if (s.result.Failure? || commitFails) && rollbackFails then
            r == Fail(DatabaseFailure) && rows == s.rows &&
            transactionLog == old(transactionLog) + [Disposed(t.handle)]
          else if s.result.Failure? then
            r == Fail(s.result.error) && rows == t.snapshot &&
            transactionLog == old(transactionLog) + [RolledBack(t.handle), Disposed(t.handle)]
          else if commitFails then
            r == Fail(DatabaseFailure) && rows == t.snapshot &&
            transactionLog == old(transactionLog) + [RolledBack(t.handle), Disposed(t.handle)]
          else
            r == Pass && rows == s.rows &&
            transactionLog == old(transactionLog) + [Committed(t.handle), Disposed(t.handle)]
    {
      var saved := SaveChanges(now, saveFails);
      var failure: Option<Error> := None;
      if saved.Failure? {
        failure := Some(saved.error);
      } else if currentTransaction.None? {
        failure := Some(NullReference);
      } else if commitFails {
        failure := Some(DatabaseFailure);
      } else {
        transactionLog := transactionLog + [Committed(currentTransaction.value.handle)];
      }
      if failure.Some? {
        // catch: roll back, then rethrow (an exception from the rollback replaces the original)
        var rolledBack := RollbackTransaction(rollbackFails);
        r := if rolledBack.Fail? then rolledBack else Fail(failure.value);
      } else {
        r := Pass;
      }
      // finally
      if currentTransaction.Some? {
        transactionLog := transactionLog + [Disposed(currentTransaction.value.handle)];
        currentTransaction := None;
      }
    }
  }

  /** A handle is never reused: after a commit the next `Begin` opens a new one. */
  method CommitThenBegin(db: ApplicationDbContext, now: Time) returns (first: Result<nat, Error>, second: Result<nat, Error>)
    requires db.Valid()
    modifies db, db.tracker, db.tenantProvider`cachedTenantId
    ensures first.Success? && second.Success? && first.value != second.value
  {
    first := db.BeginTransaction(false);
    var _ := db.CommitTransaction(now, false, false, false);
    second := db.BeginTransaction(false);
  }
}
