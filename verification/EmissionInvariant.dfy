/**
 * What every reachable state of the emission system satisfies: facts about the shared world, facts
 * tying one process to the world, and how far the steps of others may disturb the latter.
 */
module EmissionInvariant {
  import opened Common
  import opened Arca
  import opened CaeRequest
  import opened PendingQueue
  import opened Emission

  // The world -----------------------------------------------------------------------------------

  ghost predicate RowsOk(table: Table, queued: seq<Row>, now: int, policy: Policy) {
    && Consistent(table)
    && (forall id | id in table.rows ::
          id < |queued| && SameOrigin(table.rows[id], queued[id]) && OnSchedule(table.rows[id], now, policy))
  }

  ghost predicate QueuedOk(queued: seq<Row>, calls: nat) {
    && (forall i | 0 <= i < |queued| ::
          && queued[i].id == i && queued[i].submission < calls
          && (queued[i].attemptedNumber.None? <==> queued[i].attemptedSalesPoint.None?)
          && (queued[i].attemptedSalesPoint.Some? ==>
                queued[i].attemptedSalesPoint.value == queued[i].payload.salesPoint))
    && (forall i, j | 0 <= i < j < |queued| :: queued[i].submission != queued[j].submission)
  }

  ghost predicate LedgerOk(ledger: Ledger, calls: nat) {
    && (forall s, n | Has(ledger, s, n) :: At(ledger, s, n).cae != "")
    && (forall s, n, submission: nat | Own(ledger, s, n, submission) :: submission < calls)
  }

  function RowSeries(cuits: map<string, string>, row: Row): Series {
    SeriesOf(cuits, row.issuer, row.payload)
  }

  /** Whether the number in flight when the row was queued turned out to be the row's own voucher. */
  predicate Landed(ledger: Ledger, cuits: map<string, string>, row: Row) {
    row.attemptedNumber.Some? && Own(ledger, RowSeries(cuits, row), row.attemptedNumber.value, row.submission)
  }

  /** Which numbers a queued row's submission can own: none before the number it was queued with,
      and if that one is its own, no other. */
  ghost predicate NumbersOk(ledger: Ledger, cuits: map<string, string>, row: Row) {
    && (forall s, n | Own(ledger, s, n, row.submission) ::
          && s == RowSeries(cuits, row) && At(ledger, s, n).detail == DetailOf(row.payload)
          && (row.attemptedNumber.Some? ==>
                row.attemptedNumber.value <= n && (Landed(ledger, cuits, row) ==> n == row.attemptedNumber.value)))
    && (row.attemptedNumber.Some? ==>
          1 <= row.attemptedNumber.value <= |Numbering(ledger, RowSeries(cuits, row))| + 1)
  }

  ghost predicate AllNumbersOk(ledger: Ledger, cuits: map<string, string>, queued: seq<Row>) {
    forall i | 0 <= i < |queued| :: NumbersOk(ledger, cuits, queued[i])
  }

  predicate FromRow(v: Voucher, row: Row) {
    v.issuer == row.issuer && v.input == row.payload && v.key == row.key && v.submission == row.submission
  }

  function VoucherSeries(cuits: map<string, string>, v: Voucher): Series {
    SeriesOf(cuits, v.issuer, v.input)
  }

  /** A stored voucher is ARCA's entry at its number; one that came from a queued row carries the
      row's payload, and its attempted number if that landed. */
  ghost predicate VoucherOk(v: Voucher, ledger: Ledger, cuits: map<string, string>, queued: seq<Row>) {
    && Has(ledger, VoucherSeries(cuits, v), v.number)
    && At(ledger, VoucherSeries(cuits, v), v.number).cae == v.cae
    && (v.source.Some? ==>
          && v.source.value < |queued| && FromRow(v, queued[v.source.value])
          && NumberRespects(v.number, ledger, cuits, queued[v.source.value]))
  }

  predicate NumberRespects(number: int, ledger: Ledger, cuits: map<string, string>, row: Row) {
    row.attemptedNumber.Some? ==>
      row.attemptedNumber.value <= number && (Landed(ledger, cuits, row) ==> number == row.attemptedNumber.value)
  }

  ghost predicate VouchersOk(vouchers: seq<Voucher>, ledger: Ledger, cuits: map<string, string>, queued: seq<Row>) {
    forall i | 0 <= i < |vouchers| :: vouchers[i].id == i && VoucherOk(vouchers[i], ledger, cuits, queued)
  }

  /** The unique index of vouchers by number holds what is stored, and nothing else. */
  ghost predicate IndexOk(vouchers: seq<Voucher>, numbers: set<(string, int, int, int)>) {
    && (forall i | 0 <= i < |vouchers| :: NumberKey(vouchers[i]) in numbers)
    && (forall k | k in numbers :: exists i :: 0 <= i < |vouchers| && NumberKey(vouchers[i]) == k)
    && (forall i, j | 0 <= i < j < |vouchers| :: NumberKey(vouchers[i]) != NumberKey(vouchers[j]))
  }

  /** Every row ever enqueued is stored, completed or discarded, and only one of them. */
  ghost predicate AccountsOk(
      rows: map<nat, Row>, queued: seq<Row>, vouchers: seq<Voucher>, completed: map<nat, nat>, discarded: set<nat>)
  {
    && (forall i | 0 <= i < |queued| :: i in rows || i in completed || i in discarded)
    && (forall i | i in completed ::
          && i < |queued| && i !in rows && i !in discarded
          && completed[i] < |vouchers| && vouchers[completed[i]].source == Some(i))
    && (forall i | i in discarded :: i < |queued| && i !in rows)
  }

  ghost predicate RecordsOk(records: map<(string, string), nat>, vouchers: seq<Voucher>, unkeyed: set<nat>) {
    && (forall v | v in unkeyed :: v < |vouchers|)
    && (forall k | k in records ::
          && k.1 != "" && records[k] < |vouchers| && records[k] !in unkeyed
          && vouchers[records[k]].issuer == k.0 && vouchers[records[k]].key == Some(k.1))
  }

  ghost predicate NoVoucher(vouchers: seq<Voucher>, issuer: string, key: Option<string>) {
    forall i | 0 <= i < |vouchers| :: !UnderKey(vouchers[i], issuer, key)
  }

  predicate NoPendingRow(table: Table, issuer: string, key: Option<string>) {
    key.Some? && (issuer, key.value) in table.byKey && table.byKey[(issuer, key.value)] in table.rows ==>
      table.rows[table.byKey[(issuer, key.value)]].status == FAILED
  }

  ghost predicate Sourced(vouchers: seq<Voucher>, id: nat) {
    exists i :: 0 <= i < |vouchers| && vouchers[i].source == Some(id)
  }

  predicate KeyRecorded(records: map<(string, string), nat>, issuer: string, key: Option<string>) {
    HasText(key) && (issuer, key.value) in records
  }

  /** The row's key has no record, or the record of a voucher that is not the row's. */
  predicate Unclaimed(vouchers: seq<Voucher>, records: map<(string, string), nat>, row: Row) {
    KeyRecorded(records, row.issuer, row.key) ==>
      && records[(row.issuer, row.key.value)] < |vouchers|
      && vouchers[records[(row.issuer, row.key.value)]].source != Some(row.id)
  }

  /** A row still to be completed: it has a voucher already only if its key went to another one. */
  ghost predicate Unfinished(vouchers: seq<Voucher>, records: map<(string, string), nat>, row: Row) {
    Unclaimed(vouchers, records, row) && (Sourced(vouchers, row.id) ==> KeyRecorded(records, row.issuer, row.key))
  }

  /** A queued row has a second voucher only if its key was recorded with a voucher of another origin. */
  ghost predicate RowVouchersOk(vouchers: seq<Voucher>, records: map<(string, string), nat>) {
    forall i, j | 0 <= i < j < |vouchers| && vouchers[i].source.Some? && vouchers[i].source == vouchers[j].source ::
      && KeyRecorded(records, vouchers[i].issuer, vouchers[i].key)
      && records[(vouchers[i].issuer, vouchers[i].key.value)] < |vouchers|
      && vouchers[records[(vouchers[i].issuer, vouchers[i].key.value)]].source != vouchers[i].source
  }

  /** A row is completed with the voucher its key was recorded with. */
  ghost predicate CompletedOk(vouchers: seq<Voucher>, records: map<(string, string), nat>, completed: map<nat, nat>) {
    forall id | id in completed && completed[id] < |vouchers| && HasText(vouchers[completed[id]].key) ::
      var v := vouchers[completed[id]];
      (v.issuer, v.key.value) in records && records[(v.issuer, v.key.value)] == completed[id]
  }

  /** A key under which no failed row was re-armed against another voucher. */
  predicate Clean(clashed: set<(string, string)>, issuer: string, key: Option<string>) {
    HasText(key) ==> (issuer, key.value) !in clashed
  }

  /** One voucher per clean idempotency key. */
  ghost predicate OnePerKey(vouchers: seq<Voucher>, clashed: set<(string, string)>) {
    forall i, j | 0 <= i < j < |vouchers| && HasText(vouchers[i].key)
                  && Clean(clashed, vouchers[i].issuer, vouchers[i].key) ::
      !UnderKey(vouchers[j], vouchers[i].issuer, vouchers[i].key)
  }

  /** Every voucher under a clean key has its record, or is about to get it. */
  ghost predicate Recorded(
      vouchers: seq<Voucher>, records: map<(string, string), nat>, unkeyed: set<nat>, clashed: set<(string, string)>)
  {
    forall i | 0 <= i < |vouchers| && HasText(vouchers[i].key) && Clean(clashed, vouchers[i].issuer, vouchers[i].key) ::
      || i in unkeyed
      || ((vouchers[i].issuer, vouchers[i].key.value) in records
          && records[(vouchers[i].issuer, vouchers[i].key.value)] == i)
  }

  /** A row still waiting shares a clean key with no voucher but its own. */
  ghost predicate WaitingAlone(vouchers: seq<Voucher>, rows: map<nat, Row>, clashed: set<(string, string)>) {
    forall i, id | 0 <= i < |vouchers| && id in rows && rows[id].status == PENDING && HasText(rows[id].key)
                   && Clean(clashed, rows[id].issuer, rows[id].key)
                   && UnderKey(vouchers[i], rows[id].issuer, rows[id].key) ::
      vouchers[i].source == Some(id)
  }

  ghost predicate WorldOk(w: World) {
    && RowsOk(w.table, w.queued, w.now, w.policy)
    && QueuedOk(w.queued, w.calls)
    && LedgerOk(w.ledger, w.calls)
    && AllNumbersOk(w.ledger, w.cuits, w.queued)
    && VouchersOk(w.vouchers, w.ledger, w.cuits, w.queued)
    && IndexOk(w.vouchers, w.numbers)
    && AccountsOk(w.table.rows, w.queued, w.vouchers, w.completed, w.discarded)
    && RecordsOk(w.records, w.vouchers, w.unkeyed)
    && RowVouchersOk(w.vouchers, w.records)
    && CompletedOk(w.vouchers, w.records, w.completed)
    && OnePerKey(w.vouchers, w.clashed)
    && Recorded(w.vouchers, w.records, w.unkeyed, w.clashed)
    && WaitingAlone(w.vouchers, w.table.rows, w.clashed)
  }

  // One process in the world ----------------------------------------------------------------------

  predicate Live(proc: Proc) {
    !proc.pc.Leaving? && !proc.pc.Ended?
  }

  function ProcSeries(cuits: map<string, string>, p: Proc): Series {
    SeriesOf(cuits, p.issuer, p.input)
  }

  ghost predicate OriginOk(queued: seq<Row>, calls: nat, p: Proc) {
    && p.submission < calls
    && (p.job.Retry? ==>
          && p.job.row.id < |queued| && SameOrigin(p.job.row, queued[p.job.row.id])
          && p.issuer == p.job.row.issuer && p.input == p.job.row.payload
          && p.key == p.job.row.key && p.submission == p.job.row.submission)
  }

  /** A request whose submission is in nobody else's hands and owns at most the given number. */
  ghost predicate Owns(w: World, p: Proc, number: Option<int>) {
    && p.job.Request?
    && (forall i | 0 <= i < |w.queued| :: w.queued[i].submission != p.submission)
    && (forall s, n | Own(w.ledger, s, n, p.submission) ::
          s == ProcSeries(w.cuits, p) && At(w.ledger, s, n).detail == DetailOf(p.input) && number == Some(n))
  }

  /** A retry and its row: stored exactly as in the snapshot, and due. */
  ghost predicate Holds(w: World, p: Proc) {
    && p.job.Retry?
    && p.job.row.id in w.table.rows && w.table.rows[p.job.row.id] == p.job.row
    && Due(p.job.row, w.now)
  }

  /** ... and still to be completed. */
  ghost predicate Waits(w: World, p: Proc) {
    Holds(w, p) && Unfinished(w.vouchers, w.records, p.job.row)
  }

  /** Nobody has a voucher for the request's key yet. */
  ghost predicate KeyUnused(w: World, p: Proc) {
    HasText(p.key) && Clean(w.clashed, p.issuer, p.key) ==> NoVoucher(w.vouchers, p.issuer, p.key)
  }

  /** ... and no waiting row will get one. */
  ghost predicate KeyFree(w: World, p: Proc) {
    && KeyUnused(w, p)
    && (HasText(p.key) && Clean(w.clashed, p.issuer, p.key) ==> NoPendingRow(w.table, p.issuer, p.key))
  }

  predicate InReach(w: World, p: Proc, number: Option<int>) {
    number.Some? ==> 1 <= number.value <= |Numbering(w.ledger, ProcSeries(w.cuits, p))| + 1
  }

  /** The number an attempt of this retry may use next: nothing landed at the attempted one. */
  predicate Unlanded(w: World, p: Proc, number: Option<int>)
    requires p.job.Retry?
  {
    p.job.row.attemptedNumber.Some? ==>
      && !Own(w.ledger, ProcSeries(w.cuits, p), p.job.row.attemptedNumber.value, p.submission)
      && (number.Some? ==> p.job.row.attemptedNumber.value <= number.value)
  }

  /** The announced number is not the submission's own: an entry found at it is somebody else's. */
  predicate NotItsOwn(w: World, p: Proc, number: Option<int>) {
    number.Some? ==> !Own(w.ledger, ProcSeries(w.cuits, p), number.value, p.submission)
  }

  /** No voucher of the issuer has the number. */
  ghost predicate NumberUnused(vouchers: seq<Voucher>, p: Proc, number: int) {
    forall i | 0 <= i < |vouchers| ::
      NumberKey(vouchers[i]) != (p.issuer, p.input.salesPoint, p.input.voucherType, number)
  }

  /** The request's key has no record. */
  predicate Unrecorded(w: World, p: Proc) {
    !KeyRecorded(w.records, p.issuer, p.key)
  }

  predicate FromProc(v: Voucher, p: Proc) {
    && UnderKey(v, p.issuer, p.key) && v.input == p.input && v.submission == p.submission
    && v.source == if p.job.Retry? then Some(p.job.row.id) else None
  }

  /** The voucher's record is there, if its key calls for one. */
  predicate Filed(w: World, p: Proc, v: nat) {
    HasText(p.key) ==> (p.issuer, p.key.value) in w.records && w.records[(p.issuer, p.key.value)] == v
  }

  ghost predicate AnswerIsStored(w: World, p: Proc, answer: Answer) {
    answer.Issued? ==>
      && answer.voucher.id < |w.vouchers|
      && answer.voucher == ToIssued(w.vouchers[answer.voucher.id])
      && UnderKey(w.vouchers[answer.voucher.id], p.issuer, p.key)
      && Filed(w, p, answer.voucher.id)
      && (!HasText(p.key) ==>
            w.vouchers[answer.voucher.id].input == p.input && w.vouchers[answer.voucher.id].submission == p.submission)
  }

  /** The assertion at each program point. */
  ghost predicate AtPc(w: World, p: Proc) {
    match p.pc
    case ReplayingRecord => HasText(p.key) && Owns(w, p, None)
    case ReplayingPending => HasText(p.key) && Owns(w, p, None)
    case Arriving => Owns(w, p, None) || Waits(w, p)
    case AwaitingTurn => Owns(w, p, None) || Waits(w, p)
    case ReplayingRecordInside =>
      && HasText(p.key) && Owns(w, p, None)
      && (forall v | v in w.unkeyed && v < |w.vouchers| :: w.vouchers[v].issuer != p.issuer)
    case ReplayingPendingInside => HasText(p.key) && Owns(w, p, None) && KeyUnused(w, p) && Unrecorded(w, p)
    case RecoverAuthenticating => CanRecover(p) && Waits(w, p)
    case RecoverConsulting => CanRecover(p) && Waits(w, p)
    case Attempting(a) =>
      && !CaeRequest.Finished(a) && InReach(w, p, Announced(a)) && NotItsOwn(w, p, Announced(a))
      && (Announced(a).Some? ==> NumberUnused(w.vouchers, p, Announced(a).value))
      && (Owns(w, p, None) || Waits(w, p))
      && (p.job.Request? ==> KeyFree(w, p) && Unrecorded(w, p))
      && (p.job.Retry? ==> Unlanded(w, p, Announced(a)))
    case Recording(n, cae, recovered) =>
      && Has(w.ledger, ProcSeries(w.cuits, p), n) && At(w.ledger, ProcSeries(w.cuits, p), n).cae == cae
      && (Owns(w, p, Some(n)) || Waits(w, p))
      && (p.job.Request? ==> !recovered && KeyFree(w, p) && Unrecorded(w, p))
      && (p.job.Retry? ==> NumberRespects(n, w.ledger, w.cuits, p.job.row))
      && (!recovered ==> NumberUnused(w.vouchers, p, n))
    case Keying(v) =>
      && HasText(p.key) && v < |w.vouchers| && FromProc(w.vouchers[v], p) && v in w.unkeyed
      && (p.job.Retry? ==> Holds(w, p) && Unclaimed(w.vouchers, w.records, p.job.row))
      && (p.job.Request? ==>
            Unrecorded(w, p) && forall i | 0 <= i < |w.queued| :: w.queued[i].submission != p.submission)
    case Completing(v) => v < |w.vouchers| && FromProc(w.vouchers[v], p) && Filed(w, p, v) && Holds(w, p)
    case Enqueuing(attempted) => Owns(w, p, attempted) && InReach(w, p, attempted) && KeyUnused(w, p)
    case Bumping => Waits(w, p)
    case Failing => Waits(w, p)
    case FindingIssuer => Waits(w, p)
    case FailingOrphan => Waits(w, p)
    case Leaving(answer) => AnswerIsStored(w, p, answer)
    case Ended(answer) => AnswerIsStored(w, p, answer)
  }

  ghost predicate Local(w: World, p: Proc) {
    OriginOk(w.queued, w.calls, p) && AtPc(w, p)
  }

  lemma LiveRetryHolds(w: World, p: Proc)
    requires AtPc(w, p) && Live(p) && p.job.Retry?
    ensures Holds(w, p)
  {}

  lemma LiveRequestUnqueued(w: World, p: Proc)
    requires AtPc(w, p) && Live(p) && p.job.Request?
    ensures forall i | 0 <= i < |w.queued| :: w.queued[i].submission != p.submission
  {}

  // Interference ----------------------------------------------------------------------------------

  /** What no step ever undoes. */
  ghost predicate Grows(w: World, w': World) {
    && w.now <= w'.now && w'.cuits == w.cuits && w'.policy == w.policy
    && Extends(w.ledger, w'.ledger)
    && w.queued <= w'.queued && w.vouchers <= w'.vouchers
    && w.calls <= w'.calls && w.clashed <= w'.clashed
    && (forall v | v in w'.unkeyed :: v in w.unkeyed || |w.vouchers| <= v < |w'.vouchers|)
    && (forall k | k in w.records :: k in w'.records && w'.records[k] == w.records[k])
  }

  /** What a process can count on while others act. */
  ghost predicate Rely(w: World, w': World, q: Proc) {
    && Grows(w, w')
    && (Live(q) ==> forall s, n | Own(w'.ledger, s, n, q.submission) :: Own(w.ledger, s, n, q.submission))
    && (Live(q) && q.job.Request? ==>
          forall i | |w.queued| <= i < |w'.queued| :: w'.queued[i].submission != q.submission)
    && (Live(q) && q.job.Retry? ==>
          && (q.job.row.id in w.table.rows ==>
                q.job.row.id in w'.table.rows && w'.table.rows[q.job.row.id] == w.table.rows[q.job.row.id])
          && (forall i | |w.vouchers| <= i < |w'.vouchers| :: w'.vouchers[i].source != Some(q.job.row.id))
          && (forall k | k in w'.records && k !in w.records ::
                w'.records[k] < |w'.vouchers| && w'.vouchers[w'.records[k]].source != Some(q.job.row.id)))
    && (Inside(q.pc) ==>
          && (forall i | |w.vouchers| <= i < |w'.vouchers| :: w'.vouchers[i].issuer != q.issuer)
          && (forall v | v in w.unkeyed && v < |w.vouchers| && w.vouchers[v].issuer == q.issuer :: v in w'.unkeyed)
          && (forall k | k in w'.records && k !in w.records :: k.0 != q.issuer))
    && (Obtaining(q, q.issuer, q.key) && HasText(q.key) && Clean(w'.clashed, q.issuer, q.key) ==>
          NoPendingRow(w.table, q.issuer, q.key) ==> NoPendingRow(w'.table, q.issuer, q.key))
  }

  lemma OwnsStable(w: World, w': World, q: Proc, number: Option<int>)
    requires Owns(w, q, number) && Rely(w, w', q) && Live(q)
    ensures Owns(w', q, number)
  {}

  lemma WaitsStable(w: World, w': World, q: Proc)
    requires Waits(w, q) && Rely(w, w', q) && Live(q)
    ensures Waits(w', q)
  {}

  lemma KeyUnusedStable(w: World, w': World, q: Proc)
    requires KeyUnused(w, q) && Rely(w, w', q) && Inside(q.pc)
    ensures KeyUnused(w', q)
  {}

  lemma AnswerStable(w: World, w': World, q: Proc, answer: Answer)
    requires AnswerIsStored(w, q, answer) && Grows(w, w')
    ensures AnswerIsStored(w', q, answer)
  {}

  lemma NoneUnkeyedStable(w: World, w': World, q: Proc)
    requires Rely(w, w', q) && Inside(q.pc)
    requires forall v | v in w.unkeyed && v < |w.vouchers| :: w.vouchers[v].issuer != q.issuer
    ensures forall v | v in w'.unkeyed && v < |w'.vouchers| :: w'.vouchers[v].issuer != q.issuer
  {}

  lemma BeforeLockStable(w: World, w': World, q: Proc)
    requires (Owns(w, q, None) || Waits(w, q)) && Rely(w, w', q) && Live(q)
    ensures Owns(w', q, None) || Waits(w', q)
  {}

  lemma AttemptingStable(w: World, w': World, q: Proc)
    requires AtPc(w, q) && q.pc.Attempting? && Rely(w, w', q)
    ensures AtPc(w', q)
  {}

  lemma RecordingStable(w: World, w': World, q: Proc)
    requires Local(w, q) && q.pc.Recording? && Rely(w, w', q)
    ensures AtPc(w', q)
  {}

  lemma VoucherInHandStable(w: World, w': World, q: Proc)
    requires AtPc(w, q) && (q.pc.Keying? || q.pc.Completing?) && Rely(w, w', q)
    ensures AtPc(w', q)
  {}

  lemma ReplayingStable(w: World, w': World, q: Proc)
    requires AtPc(w, q) && Rely(w, w', q)
    requires q.pc.ReplayingRecord? || q.pc.ReplayingPending? || q.pc.ReplayingRecordInside? || q.pc.ReplayingPendingInside?
    ensures AtPc(w', q)
  {
    OwnsStable(w, w', q, None);
    if q.pc.ReplayingRecordInside? { NoneUnkeyedStable(w, w', q); }
    if q.pc.ReplayingPendingInside? { KeyUnusedStable(w, w', q); }
  }

  lemma EnqueuingStable(w: World, w': World, q: Proc)
    requires AtPc(w, q) && q.pc.Enqueuing? && Rely(w, w', q)
    ensures AtPc(w', q)
  {
    OwnsStable(w, w', q, q.pc.attemptedNumber);
    KeyUnusedStable(w, w', q);
  }

  lemma AnsweredStable(w: World, w': World, q: Proc)
    requires AtPc(w, q) && (q.pc.Leaving? || q.pc.Ended?) && Rely(w, w', q)
    ensures AtPc(w', q)
  {
    AnswerStable(w, w', q, q.pc.answer);
  }

  lemma TurnStable(w: World, w': World, q: Proc)
    requires AtPc(w, q) && (q.pc.Arriving? || q.pc.AwaitingTurn?) && Rely(w, w', q)
    ensures AtPc(w', q)
  {
    BeforeLockStable(w, w', q);
  }

  lemma RetryStable(w: World, w': World, q: Proc)
    requires AtPc(w, q) && Rely(w, w', q)
    requires q.pc.RecoverAuthenticating? || q.pc.RecoverConsulting? || q.pc.Bumping? || q.pc.Failing? || q.pc.FindingIssuer?
             || q.pc.FailingOrphan?
    ensures AtPc(w', q)
  {
    WaitsStable(w, w', q);
  }

  lemma OriginStable(w: World, w': World, q: Proc)
    requires OriginOk(w.queued, w.calls, q) && Rely(w, w', q)
    ensures OriginOk(w'.queued, w'.calls, q)
  {
    if q.job.Retry? { assert w'.queued[q.job.row.id] == w.queued[q.job.row.id]; }
  }

  /** Interference the process relies on leaves everything it knows true. */
  lemma LocalStable(w: World, w': World, q: Proc)
    requires Local(w, q) && Rely(w, w', q)
    ensures Local(w', q)
  {
    hide AtPc, Rely, OriginOk;
    OriginStable(w, w', q);
    var pc := q.pc;
    if pc.Attempting? { AttemptingStable(w, w', q); }
    else if pc.Recording? { RecordingStable(w, w', q); }
    else if pc.Keying? || pc.Completing? { VoucherInHandStable(w, w', q); }
    else if pc.Enqueuing? { EnqueuingStable(w, w', q); }
    else if pc.Leaving? || pc.Ended? { AnsweredStable(w, w', q); }
    else if pc.Arriving? || pc.AwaitingTurn? { TurnStable(w, w', q); }
    else if pc.ReplayingRecord? || pc.ReplayingPending? || pc.ReplayingRecordInside? || pc.ReplayingPendingInside? {
      ReplayingStable(w, w', q);
    } else { RetryStable(w, w', q); }
  }

  // What one step of a process may do -------------------------------------------------------------

  ghost predicate Guarantee(w: World, w': World, p: Proc) {
    && Grows(w, w')
    && (forall s, n, submission: nat | Own(w'.ledger, s, n, submission) && submission != p.submission ::
          Own(w.ledger, s, n, submission))
    && (forall i | |w.queued| <= i < |w'.queued| :: p.job.Request? && w'.queued[i].submission == p.submission)
    && (forall id | id in w.table.rows && !(p.job.Retry? && p.job.row.id == id) ::
          id in w'.table.rows && w'.table.rows[id] == w.table.rows[id])
    && (forall i | |w.vouchers| <= i < |w'.vouchers| :: Inside(p.pc) && FromProc(w'.vouchers[i], p))
    && (forall v | v in w.unkeyed && v < |w.vouchers| && (w.vouchers[v].issuer != p.issuer || !Inside(p.pc)) ::
          v in w'.unkeyed)
    && (forall issuer, key | NoPendingRow(w.table, issuer, key) && (issuer != p.issuer || !Inside(p.pc)) ::
          NoPendingRow(w'.table, issuer, key))
    && (forall k | k in w'.records && k !in w.records ::
          && Inside(p.pc) && k.0 == p.issuer
          && w'.records[k] < |w'.vouchers| && FromProc(w'.vouchers[w'.records[k]], p))
    && w'.clashed == w.clashed && w'.now == w.now
  }

  /** Two processes that are not each other's competitors: different submissions, not both retries of
      the scheduler, not both inside the lock of one issuer. */
  ghost predicate Apart(p: Proc, q: Proc) {
    && (Live(p) && Live(q) ==> p.submission != q.submission)
    && (Live(p) && Live(q) ==> !(p.job.Retry? && q.job.Retry?))
    && (Inside(p.pc) && Inside(q.pc) ==> p.issuer != q.issuer)
  }

  lemma GuaranteeGivesRely(w: World, w': World, p: Proc, q: Proc)
    requires Guarantee(w, w', p) && Live(p) && Apart(p, q)
    ensures Rely(w, w', q)
  {
    forall i | |w.vouchers| <= i < |w'.vouchers|
      ensures Inside(p.pc) && w'.vouchers[i].issuer == p.issuer
      ensures w'.vouchers[i].source == if p.job.Retry? then Some(p.job.row.id) else None
    {
      assert FromProc(w'.vouchers[i], p);
    }
  }
}
