/** Every step of a process keeps the invariant, and stays within what the others rely on. */
module EmissionSteps {
  import opened Common
  import opened Arca
  import opened CaeRequest
  import opened PendingQueue
  import opened Emission
  import opened EmissionInvariant

  // Replay ------------------------------------------------------------------------------------------

  /** A voucher stored under a key is found through its record, once nobody is still writing one. */
  lemma ReplayMissesNothing(w: World, p: Proc)
    requires VouchersOk(w.vouchers, w.ledger, w.cuits, w.queued) && LedgerOk(w.ledger, w.calls)
    requires Recorded(w.vouchers, w.records, w.unkeyed, w.clashed)
    requires HasText(p.key) && Clean(w.clashed, p.issuer, p.key) && Replayed(w, p) == None
    requires forall v | v in w.unkeyed && v < |w.vouchers| :: w.vouchers[v].issuer != p.issuer
    ensures NoVoucher(w.vouchers, p.issuer, p.key)
  {}

  lemma ReplayAnswers(w: World, p: Proc)
    requires VouchersOk(w.vouchers, w.ledger, w.cuits, w.queued) && RecordsOk(w.records, w.vouchers, w.unkeyed)
    requires p.key.Some? && Replayed(w, p).Some?
    ensures AnswerIsStored(w, p, Issued(ToIssued(Replayed(w, p).value)))
  {}

  lemma ReplayRecordStep(w: World, p: Proc)
    requires WorldOk(w) && AtPc(w, p) && (p.pc.ReplayingRecord? || p.pc.ReplayingRecordInside?)
    ensures AtPc(w, p.(pc := Replay(w, p)))
  {
    hide RowsOk, QueuedOk, AllNumbersOk, IndexOk, AccountsOk, OnePerKey, WaitingAlone, RowVouchersOk, CompletedOk;
    if Replayed(w, p).Some? { ReplayAnswers(w, p); }
    else if p.pc.ReplayingRecordInside? && Clean(w.clashed, p.issuer, p.key) {
      ReplayMissesNothing(w, p);
    }
  }

  lemma ReplayPendingStep(w: World, p: Proc)
    requires RowsOk(w.table, w.queued, w.now, w.policy)
    requires AtPc(w, p) && (p.pc.ReplayingPending? || p.pc.ReplayingPendingInside?)
    ensures AtPc(w, p.(pc := Replay(w, p)))
  {}

  // Recording ---------------------------------------------------------------------------------------

  lemma AddVoucher(vouchers: seq<Voucher>, v: Voucher, ledger: Ledger, cuits: map<string, string>, queued: seq<Row>)
    requires VouchersOk(vouchers, ledger, cuits, queued)
    requires v.id == |vouchers| && VoucherOk(v, ledger, cuits, queued)
    ensures VouchersOk(vouchers + [v], ledger, cuits, queued)
  {}

  lemma AddNumber(vouchers: seq<Voucher>, v: Voucher, numbers: set<(string, int, int, int)>)
    requires IndexOk(vouchers, numbers) && NumberKey(v) !in numbers
    ensures IndexOk(vouchers + [v], numbers + {NumberKey(v)})
  {
    var after := vouchers + [v];
    forall k | k in numbers + {NumberKey(v)} ensures exists i :: 0 <= i < |after| && NumberKey(after[i]) == k {
      if k in numbers {
        var i :| 0 <= i < |vouchers| && NumberKey(vouchers[i]) == k;
        assert NumberKey(after[i]) == k;
      } else {
        assert NumberKey(after[|vouchers|]) == k;
      }
    }
  }

  lemma AddToAccounts(
      rows: map<nat, Row>, queued: seq<Row>, vouchers: seq<Voucher>, v: Voucher,
      completed: map<nat, nat>, discarded: set<nat>)
    requires AccountsOk(rows, queued, vouchers, completed, discarded)
    ensures AccountsOk(rows, queued, vouchers + [v], completed, discarded)
  {}

  lemma AddToRecords(
      records: map<(string, string), nat>, vouchers: seq<Voucher>, v: Voucher, unkeyed: set<nat>)
    requires RecordsOk(records, vouchers, unkeyed)
    ensures RecordsOk(records, vouchers + [v], unkeyed)
    ensures RecordsOk(records, vouchers + [v], unkeyed + {|vouchers|})
  {}

  lemma AddToRow(vouchers: seq<Voucher>, v: Voucher, records: map<(string, string), nat>, row: Row)
    requires RowVouchersOk(vouchers, records) && Unfinished(vouchers, records, row)
    requires v.source == Some(row.id) ==> v.issuer == row.issuer && v.key == row.key
    requires forall i | 0 <= i < |vouchers| && vouchers[i].source == Some(row.id) ::
               vouchers[i].issuer == row.issuer && vouchers[i].key == row.key
    requires v.source == Some(row.id) || v.source == None
    ensures RowVouchersOk(vouchers + [v], records)
  {}

  lemma AddToCompleted(
      vouchers: seq<Voucher>, v: Voucher, records: map<(string, string), nat>, rows: map<nat, Row>, queued: seq<Row>,
      completed: map<nat, nat>, discarded: set<nat>)
    requires AccountsOk(rows, queued, vouchers, completed, discarded) && CompletedOk(vouchers, records, completed)
    ensures CompletedOk(vouchers + [v], records, completed)
  {}

  lemma AddUnderKey(vouchers: seq<Voucher>, v: Voucher, clashed: set<(string, string)>)
    requires OnePerKey(vouchers, clashed)
    requires HasText(v.key) && Clean(clashed, v.issuer, v.key) ==> NoVoucher(vouchers, v.issuer, v.key)
    ensures OnePerKey(vouchers + [v], clashed)
  {}

  lemma AddUnrecorded(
      vouchers: seq<Voucher>, v: Voucher, records: map<(string, string), nat>, unkeyed: set<nat>,
      clashed: set<(string, string)>)
    requires Recorded(vouchers, records, unkeyed, clashed)
    ensures HasText(v.key) ==> Recorded(vouchers + [v], records, unkeyed + {|vouchers|}, clashed)
    ensures !HasText(v.key) ==> Recorded(vouchers + [v], records, unkeyed, clashed)
  {}

  lemma AddBesideWaiting(vouchers: seq<Voucher>, v: Voucher, rows: map<nat, Row>, clashed: set<(string, string)>)
    requires WaitingAlone(vouchers, rows, clashed)
    requires forall id | id in rows && rows[id].status == PENDING && HasText(rows[id].key)
                         && Clean(clashed, rows[id].issuer, rows[id].key)
                         && UnderKey(v, rows[id].issuer, rows[id].key) :: v.source == Some(id)
    ensures WaitingAlone(vouchers + [v], rows, clashed)
  {}

  /** A waiting row's voucher would be the recorded one, and then the row would be on its way out. */
  lemma NothingUnderThisKeyYet(w: World, p: Proc)
    requires WaitingAlone(w.vouchers, w.table.rows, w.clashed) && OriginOk(w.queued, w.calls, p)
    requires RecordsOk(w.records, w.vouchers, w.unkeyed)
    requires AtPc(w, p) && p.pc.Recording? && HasText(p.key) && Clean(w.clashed, p.issuer, p.key)
    ensures NoVoucher(w.vouchers, p.issuer, p.key)
  {
    if p.job.Retry? {
      forall i | 0 <= i < |w.vouchers| ensures !UnderKey(w.vouchers[i], p.issuer, p.key) {
        if UnderKey(w.vouchers[i], p.issuer, p.key) {
          assert w.vouchers[i].source == Some(p.job.row.id) && Sourced(w.vouchers, p.job.row.id);
        }
      }
    }
  }

  lemma OnlyItsOwnRowWaits(w: World, p: Proc, id: nat)
    requires Consistent(w.table) && OriginOk(w.queued, w.calls, p)
    requires AtPc(w, p) && p.pc.Recording? && Clean(w.clashed, p.issuer, p.key)
    requires id in w.table.rows && w.table.rows[id].status == PENDING && HasText(w.table.rows[id].key)
    requires w.table.rows[id].issuer == p.issuer && w.table.rows[id].key == p.key
    ensures p.job.Retry? && p.job.row.id == id
  {
    assert w.table.byKey[(p.issuer, p.key.value)] == id;
  }

  lemma NewVoucherOk(w: World, p: Proc)
    requires AtPc(w, p) && p.pc.Recording? && OriginOk(w.queued, w.calls, p)
    ensures VoucherOk(VoucherOf(w, p), w.ledger, w.cuits, w.queued)
  {}

  lemma RecordedKeys(w: World, p: Proc)
    requires WorldOk(w) && Local(w, p) && p.pc.Recording?
    ensures OnePerKey(w.vouchers + [VoucherOf(w, p)], w.clashed)
    ensures WaitingAlone(w.vouchers + [VoucherOf(w, p)], w.table.rows, w.clashed)
  {
    var v := VoucherOf(w, p);
    if HasText(p.key) && Clean(w.clashed, p.issuer, p.key) { NothingUnderThisKeyYet(w, p); }
    AddUnderKey(w.vouchers, v, w.clashed);
    forall id | id in w.table.rows && w.table.rows[id].status == PENDING && HasText(w.table.rows[id].key)
                && Clean(w.clashed, w.table.rows[id].issuer, w.table.rows[id].key)
                && UnderKey(v, w.table.rows[id].issuer, w.table.rows[id].key)
      ensures v.source == Some(id)
    {
      OnlyItsOwnRowWaits(w, p, id);
    }
    AddBesideWaiting(w.vouchers, v, w.table.rows, w.clashed);
  }

  lemma RecordedForTheRow(w: World, p: Proc)
    requires RowVouchersOk(w.vouchers, w.records) && VouchersOk(w.vouchers, w.ledger, w.cuits, w.queued)
    requires Local(w, p) && p.pc.Recording?
    ensures RowVouchersOk(w.vouchers + [VoucherOf(w, p)], w.records)
  {
    if p.job.Retry? {
      var row := p.job.row;
      assert Unfinished(w.vouchers, w.records, row) && p.issuer == row.issuer && p.key == row.key;
      assert row.id < |w.queued| && SameOrigin(row, w.queued[row.id]);
      hide AtPc, OriginOk, Unfinished, RowVouchersOk;
      forall i | 0 <= i < |w.vouchers| && w.vouchers[i].source == Some(row.id)
        ensures w.vouchers[i].issuer == row.issuer && w.vouchers[i].key == row.key
      {
        assert VoucherOk(w.vouchers[i], w.ledger, w.cuits, w.queued);
      }
      AddToRow(w.vouchers, VoucherOf(w, p), w.records, row);
    }
  }

  lemma RecordVoucherWorld(w: World, p: Proc)
    requires WorldOk(w) && Local(w, p) && p.pc.Recording?
    ensures WorldOk(RecordVoucher(w, p).0)
  {
    var v := VoucherOf(w, p);
    if NumberKey(v) !in w.numbers {
      NewVoucherOk(w, p);
      RecordedKeys(w, p);
      RecordedForTheRow(w, p);
      hide RowsOk, QueuedOk, LedgerOk, AllNumbersOk, VouchersOk, IndexOk, AccountsOk, RecordsOk;
      hide OnePerKey, Recorded, WaitingAlone, RowVouchersOk, CompletedOk, AtPc, OriginOk, VoucherOk;
      AddVoucher(w.vouchers, v, w.ledger, w.cuits, w.queued);
      AddNumber(w.vouchers, v, w.numbers);
      AddToCompleted(w.vouchers, v, w.records, w.table.rows, w.queued, w.completed, w.discarded);
      AddToAccounts(w.table.rows, w.queued, w.vouchers, v, w.completed, w.discarded);
      AddToRecords(w.records, w.vouchers, v, w.unkeyed);
      AddUnrecorded(w.vouchers, v, w.records, w.unkeyed, w.clashed);
    }
  }

  lemma RecordVoucherLocal(w: World, p: Proc)
    requires Local(w, p) && p.pc.Recording?
    ensures AtPc(RecordVoucher(w, p).0, p.(pc := RecordVoucher(w, p).1))
  {
    var v := VoucherOf(w, p);
    assert (w.vouchers + [v])[|w.vouchers|] == v;
  }

  lemma RecordVoucherGuarantee(w: World, p: Proc)
    requires p.pc.Recording?
    ensures Guarantee(w, RecordVoucher(w, p).0, p)
  {
    var v := VoucherOf(w, p);
    assert FromProc(v, p);
    hide FromProc, NoPendingRow, Own;
    assert (w.vouchers + [v])[|w.vouchers|] == v;
  }

  // Keying ------------------------------------------------------------------------------------------

  /** Under a clean key, the unique index of idempotency records is never violated. */
  lemma KeyIsFree(w: World, p: Proc)
    requires RecordsOk(w.records, w.vouchers, w.unkeyed) && OnePerKey(w.vouchers, w.clashed)
    requires AtPc(w, p) && p.pc.Keying? && Clean(w.clashed, p.issuer, p.key)
    ensures (p.issuer, p.key.value) !in w.records
  {}

  lemma AddRecord(
      records: map<(string, string), nat>, vouchers: seq<Voucher>, unkeyed: set<nat>, clashed: set<(string, string)>,
      issuer: string, key: string, v: nat)
    requires RecordsOk(records, vouchers, unkeyed) && (issuer, key) !in records
    requires key != "" && v < |vouchers| && UnderKey(vouchers[v], issuer, Some(key))
    ensures RecordsOk(records[(issuer, key) := v], vouchers, unkeyed - {v})
    ensures Recorded(vouchers, records, unkeyed, clashed)
            ==> Recorded(vouchers, records[(issuer, key) := v], unkeyed - {v}, clashed)
    ensures RowVouchersOk(vouchers, records) ==> RowVouchersOk(vouchers, records[(issuer, key) := v])
    ensures forall completed | CompletedOk(vouchers, records, completed) ::
              CompletedOk(vouchers, records[(issuer, key) := v], completed)
  {}

  /** A voucher whose key turns out to be recorded stays without a record. */
  lemma DropUnkeyed(w: World, p: Proc)
    requires RecordsOk(w.records, w.vouchers, w.unkeyed) && OnePerKey(w.vouchers, w.clashed)
    requires Recorded(w.vouchers, w.records, w.unkeyed, w.clashed)
    requires AtPc(w, p) && p.pc.Keying? && (p.issuer, p.key.value) in w.records
    ensures RecordsOk(w.records, w.vouchers, w.unkeyed - {p.pc.voucher})
    ensures Recorded(w.vouchers, w.records, w.unkeyed - {p.pc.voucher}, w.clashed)
  {
    if Clean(w.clashed, p.issuer, p.key) { KeyIsFree(w, p); }
  }

  lemma RecordKeyWorld(w: World, p: Proc)
    requires WorldOk(w) && AtPc(w, p) && p.pc.Keying?
    ensures WorldOk(RecordKey(w, p).0)
  {
    if (p.issuer, p.key.value) in w.records { DropUnkeyed(w, p); }
    else { AddRecord(w.records, w.vouchers, w.unkeyed, w.clashed, p.issuer, p.key.value, p.pc.voucher); }
    hide RowsOk, QueuedOk, LedgerOk, AllNumbersOk, VouchersOk, IndexOk, AccountsOk, RecordsOk;
    hide OnePerKey, Recorded, WaitingAlone, RowVouchersOk, CompletedOk;
  }

  lemma RecordKeyLocal(w: World, p: Proc)
    requires AtPc(w, p) && p.pc.Keying? && VouchersOk(w.vouchers, w.ledger, w.cuits, w.queued)
    ensures AtPc(RecordKey(w, p).0, p.(pc := RecordKey(w, p).1))
  {}

  lemma RecordKeyGuarantee(w: World, p: Proc)
    requires AtPc(w, p) && p.pc.Keying?
    ensures Guarantee(w, RecordKey(w, p).0, p)
  {
    assert FromProc(w.vouchers[p.pc.voucher], p) && w.vouchers[p.pc.voucher].issuer == p.issuer;
    hide AtPc, FromProc, NoPendingRow, Own;
  }

  // Completing --------------------------------------------------------------------------------------

  lemma RemoveRow(table: Table, queued: seq<Row>, now: int, policy: Policy, id: nat)
    requires RowsOk(table, queued, now, policy) && id in table.rows
    ensures RowsOk(Remove(table, id), queued, now, policy)
  {}

  lemma CompleteAccounts(
      rows: map<nat, Row>, queued: seq<Row>, vouchers: seq<Voucher>,
      completed: map<nat, nat>, discarded: set<nat>, id: nat, v: nat)
    requires AccountsOk(rows, queued, vouchers, completed, discarded)
    requires id in rows && id < |queued| && v < |vouchers| && vouchers[v].source == Some(id)
    ensures AccountsOk(rows - {id}, queued, vouchers, completed[id := v], discarded)
  {}

  lemma FewerWaiting(vouchers: seq<Voucher>, rows: map<nat, Row>, clashed: set<(string, string)>, id: nat)
    requires WaitingAlone(vouchers, rows, clashed)
    ensures WaitingAlone(vouchers, rows - {id}, clashed)
  {}

  lemma CompletedAsFiled(w: World, p: Proc)
    requires CompletedOk(w.vouchers, w.records, w.completed) && AtPc(w, p) && p.pc.Completing?
    ensures CompletedOk(w.vouchers, w.records, w.completed[p.job.row.id := p.pc.voucher])
  {}

  lemma CompleteWorld(w: World, p: Proc)
    requires WorldOk(w) && Local(w, p) && p.pc.Completing?
    ensures WorldOk(Complete(w, p).0)
  {
    var id := p.job.row.id;
    RemoveRow(w.table, w.queued, w.now, w.policy, id);
    CompletedAsFiled(w, p);
    CompleteAccounts(w.table.rows, w.queued, w.vouchers, w.completed, w.discarded, id, p.pc.voucher);
    FewerWaiting(w.vouchers, w.table.rows, w.clashed, id);
    hide RowsOk, QueuedOk, LedgerOk, AllNumbersOk, VouchersOk, IndexOk, AccountsOk, RecordsOk;
    hide OnePerKey, Recorded, WaitingAlone, RowVouchersOk, CompletedOk;
  }

  lemma CompleteLocal(w: World, p: Proc)
    requires AtPc(w, p) && p.pc.Completing? && VouchersOk(w.vouchers, w.ledger, w.cuits, w.queued)
    ensures AtPc(Complete(w, p).0, p.(pc := Complete(w, p).1))
  {}

  lemma CompleteGuarantee(w: World, p: Proc)
    requires Consistent(w.table) && Local(w, p) && p.pc.Completing?
    ensures Guarantee(w, Complete(w, p).0, p)
  {}

  // Enqueuing ---------------------------------------------------------------------------------------

  lemma InsertRow(table: Table, queued: seq<Row>, now: int, policy: Policy, row: Row)
    requires RowsOk(table, queued, now, policy) && row.id == |queued| && !Clashes(table, row.issuer, row.key)
    requires OnSchedule(row, now, policy)
    ensures RowsOk(Insert(table, row), queued + [row], now, policy)
  {
    InsertKeepsConsistent(table, row);
  }

  lemma AddQueued(queued: seq<Row>, calls: nat, row: Row)
    requires QueuedOk(queued, calls) && row.id == |queued| && row.submission < calls
    requires forall i | 0 <= i < |queued| :: queued[i].submission != row.submission
    requires row.attemptedSalesPoint == if row.attemptedNumber.None? then None else Some(row.payload.salesPoint)
    ensures QueuedOk(queued + [row], calls)
  {}

  lemma AddQueuedNumbers(ledger: Ledger, cuits: map<string, string>, queued: seq<Row>, row: Row)
    requires AllNumbersOk(ledger, cuits, queued) && NumbersOk(ledger, cuits, row)
    ensures AllNumbersOk(ledger, cuits, queued + [row])
  {}

  lemma QueuedVouchers(
      vouchers: seq<Voucher>, ledger: Ledger, cuits: map<string, string>, queued: seq<Row>, row: Row)
    requires VouchersOk(vouchers, ledger, cuits, queued)
    ensures VouchersOk(vouchers, ledger, cuits, queued + [row])
  {}

  lemma EnqueueAccounts(
      rows: map<nat, Row>, queued: seq<Row>, vouchers: seq<Voucher>,
      completed: map<nat, nat>, discarded: set<nat>, row: Row)
    requires AccountsOk(rows, queued, vouchers, completed, discarded) && row.id == |queued|
    ensures AccountsOk(rows[row.id := row], queued + [row], vouchers, completed, discarded)
  {}

  lemma OneMoreWaiting(vouchers: seq<Voucher>, rows: map<nat, Row>, clashed: set<(string, string)>, row: Row)
    requires WaitingAlone(vouchers, rows, clashed)
    requires HasText(row.key) && Clean(clashed, row.issuer, row.key) ==> NoVoucher(vouchers, row.issuer, row.key)
    ensures WaitingAlone(vouchers, rows[row.id := row], clashed)
  {}

  lemma NewRowNumbers(w: World, p: Proc)
    requires AtPc(w, p) && p.pc.Enqueuing?
    ensures NumbersOk(w.ledger, w.cuits, RowOf(w, p))
  {}

  lemma NewRowJoins(w: World, p: Proc)
    requires RowsOk(w.table, w.queued, w.now, w.policy) && QueuedOk(w.queued, w.calls)
    requires Local(w, p) && p.pc.Enqueuing? && !Clashes(w.table, p.issuer, p.key)
    ensures RowsOk(Insert(w.table, RowOf(w, p)), w.queued + [RowOf(w, p)], w.now, w.policy)
    ensures QueuedOk(w.queued + [RowOf(w, p)], w.calls)
  {
    NewRowOnSchedule(|w.queued|, p.issuer, p.key, p.input, p.pc.attemptedNumber, p.submission, w.now, w.policy);
    InsertRow(w.table, w.queued, w.now, w.policy, RowOf(w, p));
    AddQueued(w.queued, w.calls, RowOf(w, p));
  }

  lemma EnqueueWorld(w: World, p: Proc)
    requires WorldOk(w) && Local(w, p) && p.pc.Enqueuing?
    ensures WorldOk(Enqueue(w, p).0)
  {
    var row := RowOf(w, p);
    if !Clashes(w.table, p.issuer, p.key) {
      OneMoreWaiting(w.vouchers, w.table.rows, w.clashed, row);
      hide RowsOk, QueuedOk, LedgerOk, AllNumbersOk, VouchersOk, IndexOk, AccountsOk, RecordsOk;
      hide OnePerKey, Recorded, WaitingAlone, RowVouchersOk, CompletedOk, NumbersOk, OnSchedule;
      NewRowJoins(w, p);
      NewRowNumbers(w, p);
      AddQueuedNumbers(w.ledger, w.cuits, w.queued, row);
      QueuedVouchers(w.vouchers, w.ledger, w.cuits, w.queued, row);
      EnqueueAccounts(w.table.rows, w.queued, w.vouchers, w.completed, w.discarded, row);
    }
  }

  lemma EnqueueLocal(w: World, p: Proc)
    requires p.pc.Enqueuing?
    ensures AtPc(Enqueue(w, p).0, p.(pc := Enqueue(w, p).1))
  {}

  /** A new row touches no other row, and no key of another issuer. */
  lemma InsertFrame(table: Table, row: Row)
    requires Consistent(table) && row.id !in table.rows
    ensures forall id | id in table.rows :: id in Insert(table, row).rows && Insert(table, row).rows[id] == table.rows[id]
    ensures forall issuer, key | NoPendingRow(table, issuer, key) && issuer != row.issuer ::
              NoPendingRow(Insert(table, row), issuer, key)
  {}

  lemma EnqueueGuarantee(w: World, p: Proc)
    requires RowsOk(w.table, w.queued, w.now, w.policy) && p.pc.Enqueuing? && p.job.Request?
    ensures Guarantee(w, Enqueue(w, p).0, p)
  {
    if !Clashes(w.table, p.issuer, p.key) {
      InsertFrame(w.table, RowOf(w, p));
      hide RowsOk, Insert, NoPendingRow, Clashes;
      assert Enqueue(w, p).0 == w.(table := Insert(w.table, RowOf(w, p)), queued := w.queued + [RowOf(w, p)]);
    }
  }

  // Postponing --------------------------------------------------------------------------------------

  ghost predicate Postponing(pc: Pc) {
    pc.Bumping? || pc.Failing? || pc.FailingOrphan?
  }

  /** The row after a bump or a failure: only its status, count and next retry moved. */
  function Postponed(w: World, p: Proc): Row
    requires Holds(w, p) && Postponing(p.pc)
  {
    Postpone(w, p).0.table.rows[p.job.row.id]
  }

  lemma PostponedRow(w: World, p: Proc)
    requires Holds(w, p) && Postponing(p.pc) && OnSchedule(p.job.row, w.now, w.policy)
    ensures Postpone(w, p).0 == w.(table := w.table.(rows := w.table.rows[p.job.row.id := Postponed(w, p)]))
    ensures SameOrigin(Postponed(w, p), p.job.row) && OnSchedule(Postponed(w, p), w.now, w.policy)
    ensures !p.pc.Bumping? ==> Postponed(w, p).status == FAILED
  {
    if p.pc.Bumping? { BumpKeepsSchedule(w.table, p.job.row, w.now, w.policy); }
    else { FailKeepsSchedule(w.table, p.job.row, w.now, w.policy); }
  }

  lemma ReplaceRow(table: Table, queued: seq<Row>, now: int, policy: Policy, row: Row)
    requires RowsOk(table, queued, now, policy) && row.id in table.rows
    requires SameOrigin(row, table.rows[row.id]) && OnSchedule(row, now, policy)
    ensures RowsOk(table.(rows := table.rows[row.id := row]), queued, now, policy)
  {}

  lemma SameKeysSameAccounts(
      rows: map<nat, Row>, rows': map<nat, Row>, queued: seq<Row>, vouchers: seq<Voucher>,
      completed: map<nat, nat>, discarded: set<nat>)
    requires AccountsOk(rows, queued, vouchers, completed, discarded) && rows'.Keys == rows.Keys
    ensures AccountsOk(rows', queued, vouchers, completed, discarded)
  {}

  lemma ReplaceWaiting(vouchers: seq<Voucher>, rows: map<nat, Row>, clashed: set<(string, string)>, row: Row)
    requires WaitingAlone(vouchers, rows, clashed)
    requires row.id in rows && SameOrigin(row, rows[row.id]) && rows[row.id].status == PENDING
    ensures WaitingAlone(vouchers, rows[row.id := row], clashed)
  {}

  lemma PostponeWorld(w: World, p: Proc)
    requires WorldOk(w) && Holds(w, p) && Postponing(p.pc)
    ensures WorldOk(Postpone(w, p).0)
  {
    var id := p.job.row.id;
    assert w.table.rows[id].id == id;
    PostponedRow(w, p);
    hide RowsOk, QueuedOk, LedgerOk, AllNumbersOk, VouchersOk, IndexOk, AccountsOk, RecordsOk;
    hide OnePerKey, Recorded, WaitingAlone, RowVouchersOk, CompletedOk, OnSchedule, Postpone, Postponed;
    var row := Postponed(w, p);
    ReplaceRow(w.table, w.queued, w.now, w.policy, row);
    ReplaceWaiting(w.vouchers, w.table.rows, w.clashed, row);
    SameKeysSameAccounts(w.table.rows, w.table.rows[id := row], w.queued, w.vouchers, w.completed, w.discarded);
  }

  lemma ReplaceGuarantee(w: World, p: Proc, row: Row)
    requires Consistent(w.table) && Local(w, p) && Holds(w, p) && row.id == p.job.row.id
    requires row.status == FAILED || Inside(p.pc)
    ensures Guarantee(w, w.(table := w.table.(rows := w.table.rows[row.id := row])), p)
  {}

  lemma PostponeGuarantee(w: World, p: Proc)
    requires RowsOk(w.table, w.queued, w.now, w.policy) && Local(w, p) && Postponing(p.pc)
    ensures Guarantee(w, Postpone(w, p).0, p)
  {
    assert Holds(w, p) && OnSchedule(p.job.row, w.now, w.policy);
    hide Postpone, Guarantee, OnSchedule, RowsOk;
    assert Consistent(w.table) by { RowsAreConsistent(w); }
    PostponedRow(w, p);
    ReplaceGuarantee(w, p, Postponed(w, p));
  }

  lemma RowsAreConsistent(w: World)
    requires RowsOk(w.table, w.queued, w.now, w.policy)
    ensures Consistent(w.table)
  {}

  // All table steps ---------------------------------------------------------------------------------

  lemma ActWorld(w: World, p: Proc)
    requires WorldOk(w) && Local(w, p) && CanAct(w, p)
    ensures WorldOk(Act(w, p).0)
  {
    hide WorldOk, OriginOk;
    match p.pc
    case Recording(_, _, _) => RecordVoucherWorld(w, p);
    case Keying(_) => RecordKeyWorld(w, p);
    case Completing(_) => CompleteWorld(w, p);
    case Enqueuing(_) => EnqueueWorld(w, p);
    case Bumping => PostponeWorld(w, p);
    case Failing => PostponeWorld(w, p);
    case FailingOrphan => PostponeWorld(w, p);
    case _ =>
  }

  lemma ActLocal(w: World, p: Proc)
    requires WorldOk(w) && Local(w, p) && CanAct(w, p)
    ensures AtPc(Act(w, p).0, p.(pc := Act(w, p).1))
  {
    hide RowsOk, QueuedOk, LedgerOk, AllNumbersOk, VouchersOk, IndexOk, AccountsOk, RecordsOk;
    hide OnePerKey, Recorded, WaitingAlone, RowVouchersOk, CompletedOk, OriginOk;
    match p.pc
    case ReplayingRecord => ReplayRecordStep(w, p);
    case ReplayingRecordInside => ReplayRecordStep(w, p);
    case ReplayingPending => ReplayPendingStep(w, p);
    case ReplayingPendingInside => ReplayPendingStep(w, p);
    case Recording(_, _, _) => RecordVoucherLocal(w, p);
    case Keying(_) => RecordKeyLocal(w, p);
    case Completing(_) => CompleteLocal(w, p);
    case Enqueuing(_) => EnqueueLocal(w, p);
    case _ =>
  }

  lemma ActGuarantee(w: World, p: Proc)
    requires WorldOk(w) && Local(w, p) && CanAct(w, p)
    ensures Guarantee(w, Act(w, p).0, p)
  {
    hide QueuedOk, LedgerOk, AllNumbersOk, VouchersOk, IndexOk, AccountsOk, RecordsOk;
    hide OnePerKey, Recorded, WaitingAlone, RowVouchersOk, CompletedOk, OriginOk;
    match p.pc
    case Recording(_, _, _) => RecordVoucherGuarantee(w, p);
    case Keying(_) => RecordKeyGuarantee(w, p);
    case Completing(_) => CompleteGuarantee(w, p);
    case Enqueuing(_) => EnqueueGuarantee(w, p);
    case Bumping => PostponeGuarantee(w, p);
    case Failing => PostponeGuarantee(w, p);
    case FailingOrphan => PostponeGuarantee(w, p);
    case _ =>
  }

  lemma ActOrigin(w: World, p: Proc)
    requires WorldOk(w) && Local(w, p) && CanAct(w, p)
    ensures OriginOk(Act(w, p).0.queued, Act(w, p).0.calls, p)
  {
    ActGuarantee(w, p);
    if p.job.Retry? { assert Act(w, p).0.queued[p.job.row.id] == w.queued[p.job.row.id]; }
  }
}
