/**
 * The queue of vouchers whose CAE request got no answer: a table with a unique
 * (issuer, idempotency key) index, retried with exponential backoff.
 */
module PendingQueue {
  import opened Common

  datatype Amounts = Amounts(net: int, iva: int, total: int)

  /** The payload of a request: what ARCA is told and echoes, and the amounts computed from its items
      (a fixed function of the payload, so they travel with it here), in cents. */
  datatype Input = Input(salesPoint: int, voucherType: int, docType: int, docNumber: string, amounts: Amounts)

  datatype Status = PENDING | FAILED

  /** `submission` and `enqueuedAt` are history: which request queued the row, and when. */
  datatype Row = Row(
    id: nat,
    issuer: string,
    key: Option<string>,
    payload: Input,
    status: Status,
    retryCount: nat,
    nextRetryAt: int,
    attemptedNumber: Option<int>,
    attemptedSalesPoint: Option<int>,
    submission: nat,
    enqueuedAt: int)

  datatype Table = Table(rows: map<nat, Row>, byKey: map<(string, string), nat>)

  datatype Policy = Policy(maxRetries: int, retryBaseMs: nat)

  const RETRY_BATCH_SIZE := 25
  const BACKOFF_FACTOR := 2

  function Pow2(n: nat): nat {
    if n == 0 then 1 else BACKOFF_FACTOR * Pow2(n - 1)
  }

  /** The rows and the unique index tell the same story. */
  ghost predicate Consistent(t: Table) {
    && (forall id | id in t.rows :: t.rows[id].id == id)
    && (forall id | id in t.rows && t.rows[id].key.Some? ::
          (t.rows[id].issuer, t.rows[id].key.value) in t.byKey
          && t.byKey[(t.rows[id].issuer, t.rows[id].key.value)] == id)
    && (forall k | k in t.byKey ::
          t.byKey[k] in t.rows
          && t.rows[t.byKey[k]].issuer == k.0 && t.rows[t.byKey[k]].key == Some(k.1))
  }

  /** Everything about a row that no operation ever changes. */
  predicate SameOrigin(r: Row, q: Row) {
    r == q.(status := r.status, retryCount := r.retryCount, nextRetryAt := r.nextRetryAt)
  }

  function NewRow(
      id: nat, issuer: string, key: Option<string>, payload: Input, attemptedNumber: Option<int>,
      submission: nat, now: int, policy: Policy): Row
  {
    Row(id, issuer, key, payload, PENDING, 0, now + policy.retryBaseMs,
        attemptedNumber, if attemptedNumber.None? then None else Some(payload.salesPoint), submission, now)
  }

  predicate Clashes(t: Table, issuer: string, key: Option<string>) {
    key.Some? && (issuer, key.value) in t.byKey
  }

  function Insert(t: Table, row: Row): Table {
    Table(t.rows[row.id := row],
          if row.key.Some? then t.byKey[(row.issuer, row.key.value) := row.id] else t.byKey)
  }

  function Remove(t: Table, id: nat): Table
    requires id in t.rows
  {
    var row := t.rows[id];
    Table(t.rows - {id}, if row.key.Some? then t.byKey - {(row.issuer, row.key.value)} else t.byKey)
  }

  /** `update` with the fields computed from the snapshot the caller holds. */
  function FailRow(t: Table, pending: Row): Table
    requires pending.id in t.rows
  {
    t.(rows := t.rows[pending.id :=
      t.rows[pending.id].(status := FAILED, retryCount := pending.retryCount + 1)])
  }

  function BumpRow(t: Table, pending: Row, now: int, policy: Policy): Table
    requires pending.id in t.rows
  {
    var retryCount := pending.retryCount + 1;
    if retryCount >= policy.maxRetries then FailRow(t, pending)
    else t.(rows := t.rows[pending.id :=
      t.rows[pending.id].(retryCount := retryCount, nextRetryAt := now + policy.retryBaseMs * Pow2(retryCount))])
  }

  /** The two manual actions reach only failed rows of the caller's issuer. */
  predicate IsFailed(t: Table, id: nat, issuer: string) {
    id in t.rows && t.rows[id].issuer == issuer && t.rows[id].status == FAILED
  }

  function Rearm(t: Table, id: nat, now: int): Table
    requires id in t.rows
  {
    t.(rows := t.rows[id := t.rows[id].(status := PENDING, retryCount := 0, nextRetryAt := now)])
  }

  predicate Due(r: Row, now: int) {
    r.status == PENDING && r.nextRetryAt <= now
  }

  /** Any answer the due query may give: due rows, each once, at most a batch of them, and all of
      them when they fit. */
  ghost predicate IsDueBatch(t: Table, now: int, batch: seq<Row>) {
    && |batch| <= RETRY_BATCH_SIZE
    && (forall i | 0 <= i < |batch| :: batch[i].id in t.rows && t.rows[batch[i].id] == batch[i] && Due(batch[i], now))
    && (forall i, j | 0 <= i < j < |batch| :: batch[i].id != batch[j].id)
    && (|batch| < RETRY_BATCH_SIZE ==>
          forall id | id in t.rows && Due(t.rows[id], now) :: t.rows[id] in batch)
  }

  // Backoff -----------------------------------------------------------------------------------

  /** Since it was enqueued, a waiting row has been made to wait at least as long as the doubling
      schedule says; a failed row waited at least once. */
  ghost predicate OnSchedule(r: Row, now: int, policy: Policy) {
    && (r.status == PENDING ==>
          && (policy.maxRetries >= 1 ==> r.retryCount < policy.maxRetries)
          && r.nextRetryAt >= r.enqueuedAt + policy.retryBaseMs * (Pow2(r.retryCount + 1) - 1))
    && (r.status == FAILED ==> now >= r.enqueuedAt + policy.retryBaseMs)
  }

  lemma NewRowOnSchedule(
      id: nat, issuer: string, key: Option<string>, payload: Input, attemptedNumber: Option<int>,
      submission: nat, now: int, policy: Policy)
    ensures OnSchedule(NewRow(id, issuer, key, payload, attemptedNumber, submission, now, policy), now, policy)
  {}

  lemma {:induction false} Pow2AtLeast(n: nat)
    ensures Pow2(n) >= 1
  {
    if n > 0 { Pow2AtLeast(n - 1); }
  }

  lemma ScheduleGrows(base: nat, n: nat)
    ensures base * (Pow2(n + 1) - 1) == base * (Pow2(n) - 1) + base * Pow2(n)
    ensures base * (Pow2(n + 1) - 1) >= base
  {
    assert Pow2(n + 1) == Pow2(n) + Pow2(n);
    Pow2AtLeast(n);
    assert base * (Pow2(n + 1) - 1) == base * ((Pow2(n) - 1) + Pow2(n));
    assert base * (Pow2(n) - 1) >= 0;
  }

  /** Bumping a due row keeps it on schedule; when that exhausts it, it was enqueued at least
      retryBaseMs * (2^maxRetries - 1) earlier. */
  lemma BumpKeepsSchedule(t: Table, pending: Row, now: int, policy: Policy)
    requires pending.id in t.rows && t.rows[pending.id] == pending
    requires Due(pending, now) && OnSchedule(pending, now, policy)
    ensures OnSchedule(BumpRow(t, pending, now, policy).rows[pending.id], now, policy)
    ensures BumpRow(t, pending, now, policy).rows[pending.id].retryCount == pending.retryCount + 1
    ensures policy.maxRetries >= 1 && BumpRow(t, pending, now, policy).rows[pending.id].status == FAILED
            ==> pending.retryCount + 1 == policy.maxRetries
                && now >= pending.enqueuedAt + policy.retryBaseMs * (Pow2(policy.maxRetries) - 1)
  {
    ScheduleGrows(policy.retryBaseMs, pending.retryCount);
    ScheduleGrows(policy.retryBaseMs, pending.retryCount + 1);
  }

  lemma FailKeepsSchedule(t: Table, pending: Row, now: int, policy: Policy)
    requires pending.id in t.rows && t.rows[pending.id] == pending
    requires Due(pending, now) && OnSchedule(pending, now, policy)
    ensures OnSchedule(FailRow(t, pending).rows[pending.id], now, policy)
  {
    ScheduleGrows(policy.retryBaseMs, pending.retryCount);
  }

  /** Re-arming restarts the count, not the clock: the first wait has already been served. */
  lemma RearmKeepsSchedule(t: Table, id: nat, now: int, policy: Policy)
    requires id in t.rows && t.rows[id].status == FAILED && OnSchedule(t.rows[id], now, policy)
    ensures OnSchedule(Rearm(t, id, now).rows[id], now, policy)
  {}

  lemma InsertKeepsConsistent(t: Table, row: Row)
    requires Consistent(t) && row.id !in t.rows && !Clashes(t, row.issuer, row.key)
    ensures Consistent(Insert(t, row))
  {}

  lemma RemoveKeepsConsistent(t: Table, id: nat)
    requires Consistent(t) && id in t.rows
    ensures Consistent(Remove(t, id))
  {}

  // The service -------------------------------------------------------------------------------

  datatype EnqueueResult = Stored(row: Row) | AlreadyQueued(row: Row) | UniqueViolation

  class PendingVoucherQueue {
    const policy: Policy
    var table: Table
    var nextId: nat

    ghost predicate Valid() reads this {
      Consistent(table) && forall id | id in table.rows :: id < nextId
    }

    constructor (policy: Policy)
      ensures Valid() && this.policy == policy && table == Table(map[], map[]) && nextId == 0
    {
      this.policy, table, nextId := policy, Table(map[], map[]), 0;
    }

    /** Insert, or on a unique violation hand back the row already queued under that key.  A key that
        is present but empty still collides, and then there is nothing to hand back. */
    method Enqueue(
        issuer: string, payload: Input, key: Option<string>, attemptedNumber: Option<int>, submission: nat, now: int)
      returns (result: EnqueueResult)
      requires Valid()
      modifies this
      ensures Valid()
      ensures result.Stored? <==> !Clashes(old(table), issuer, key)
      ensures result.Stored? ==>
                && result.row == NewRow(old(nextId), issuer, key, payload, attemptedNumber, submission, now, policy)
                && table == Insert(old(table), result.row)
                && OnSchedule(result.row, now, policy)
      ensures !result.Stored? ==> table == old(table)
      ensures result.AlreadyQueued? <==> Clashes(old(table), issuer, key) && HasText(key)
      ensures result.AlreadyQueued? ==>
                result.row.id in table.rows && table.rows[result.row.id] == result.row
                && result.row.issuer == issuer && result.row.key == key
    {
      if key.Some? && (issuer, key.value) in table.byKey {
        if !HasText(key) { return UniqueViolation; }
        return AlreadyQueued(table.rows[table.byKey[(issuer, key.value)]]);
      }
      NewRowOnSchedule(nextId, issuer, key, payload, attemptedNumber, submission, now, policy);
      var attemptedSalesPoint := if attemptedNumber.None? then None else Some(payload.salesPoint);
      var row := Row(nextId, issuer, key, payload, PENDING, 0, now + policy.retryBaseMs,
                     attemptedNumber, attemptedSalesPoint, submission, now);
      InsertKeepsConsistent(table, row);
      table := Insert(table, row);
      nextId := nextId + 1;
      return Stored(row);
    }

    method Complete(pending: Row)
      requires Valid() && pending.id in table.rows
      modifies this`table
      ensures Valid() && table == Remove(old(table), pending.id)
    {
      RemoveKeepsConsistent(table, pending.id);
      table := Remove(table, pending.id);
    }

    method Bump(pending: Row, now: int)
      requires Valid() && pending.id in table.rows
      modifies this`table
      ensures Valid() && table == BumpRow(old(table), pending, now, policy)
      ensures old(table.rows[pending.id]) == pending && Due(pending, now) && OnSchedule(pending, now, policy)
              ==> OnSchedule(table.rows[pending.id], now, policy)
                  && table.rows[pending.id].retryCount == pending.retryCount + 1
    {
      if table.rows[pending.id] == pending && Due(pending, now) {
        if OnSchedule(pending, now, policy) { BumpKeepsSchedule(table, pending, now, policy); }
      }
      var retryCount := pending.retryCount + 1;
      if retryCount >= policy.maxRetries {
        Fail(pending);
        return;
      }
      var nextRetryAt := now + policy.retryBaseMs * Pow2(retryCount);
      var row := table.rows[pending.id].(retryCount := retryCount, nextRetryAt := nextRetryAt);
      table := table.(rows := table.rows[pending.id := row]);
    }

    method Fail(pending: Row)
      requires Valid() && pending.id in table.rows
      modifies this`table
      ensures Valid() && table == FailRow(old(table), pending)
    {
      var row := table.rows[pending.id].(status := FAILED, retryCount := pending.retryCount + 1);
      table := table.(rows := table.rows[pending.id := row]);
    }

    /** The manual retry: `false` is the conflict or not-found answer. */
    method RetryFailed(issuer: string, id: nat, now: int) returns (done: bool)
      requires Valid()
      modifies this`table
      ensures Valid() && done == IsFailed(old(table), id, issuer)
      ensures done ==> old(table).rows[id].issuer == issuer && table.rows.Keys == old(table).rows.Keys
      ensures table == if done then Rearm(old(table), id, now) else old(table)
    {
      done := id in table.rows && table.rows[id].issuer == issuer && table.rows[id].status == FAILED;
      if done {
        var row := table.rows[id].(status := PENDING, retryCount := 0, nextRetryAt := now);
        table := table.(rows := table.rows[id := row]);
      }
    }

    /** The manual discard: a row still queued is never removed by it. */
    method DiscardFailed(issuer: string, id: nat) returns (done: bool)
      requires Valid()
      modifies this`table
      ensures Valid() && done == IsFailed(old(table), id, issuer)
      ensures done ==> old(table).rows[id].issuer == issuer && table.rows.Keys == old(table).rows.Keys - {id}
      ensures table == if done then Remove(old(table), id) else old(table)
    {
      done := id in table.rows && table.rows[id].issuer == issuer && table.rows[id].status == FAILED;
      if done {
        RemoveKeepsConsistent(table, id);
        table := Remove(table, id);
      }
    }
  }
}
