/**
 * Voucher emission as a step system: any number of API requests, the retry scheduler, manual
 * actions on the queue, the clock and emitters outside this service, interleaved at every `await`.
 *
 * A process is one `issueAuthorized` call, or the processing of one due row by the scheduler.  Its
 * program counter names the statement it is about to run; every table operation and every call to
 * ARCA is one step, taken by one process on the shared world.
 */
module Emission {
  import opened Common
  import opened Arca
  import opened CaeRequest
  import opened PendingQueue
  import IssuerLock

  datatype IssuedVoucher = IssuedVoucher(
    id: nat, voucherType: int, salesPoint: int, number: int, cae: string, net: int, iva: int, total: int)

  /** A stored voucher.  `key`, `source` (the queued row it came from) and `submission` are history. */
  datatype Voucher = Voucher(
    id: nat, issuer: string, input: Input, number: int, cae: string, recovered: bool,
    key: Option<string>, source: Option<nat>, submission: nat)

  /** What a request is answered; `Crashed` is an exception out of a table's unique constraint and
      `Deferred` the end of a retry that completed nothing. */
  datatype Answer =
    | Issued(voucher: IssuedVoucher)
    | Queued(row: nat)
    | RejectedByArca
    | Crashed
    | Deferred

  datatype Pc =
    | ReplayingRecord
    | ReplayingPending
    | Arriving
    | AwaitingTurn
    | ReplayingRecordInside
    | ReplayingPendingInside
    | RecoverAuthenticating
    | RecoverConsulting
    | Attempting(attempt: Attempt)
    | Recording(number: int, cae: string, recovered: bool)
    | Keying(voucher: nat)
    | Completing(voucher: nat)
    | Enqueuing(attemptedNumber: Option<int>)
    | Bumping
    | Failing
    | Leaving(answer: Answer)
    | FindingIssuer
    | FailingOrphan
    | Ended(answer: Answer)

  datatype Job = Request | Retry(row: Row)

  datatype Proc = Proc(
    job: Job, issuer: string, input: Input, key: Option<string>, submission: nat, ticket: nat, pc: Pc)

  /** What processes share: ARCA's ledger, the tables and the clock.
      `numbers` is the unique index of vouchers by (issuer, sales point, type, number).
      History: `queued` lists every row ever enqueued as it was then, `completed` says which voucher
      completed a row, `discarded` which rows were discarded by hand, `unkeyed` the vouchers whose
      idempotency record is still to be written, `calls` how many requests arrived, and `clashed`
      the keys under which a failed row was put back by hand although a voucher under them was
      stored, or a call was obtaining one. */
  datatype World = World(
    now: int,
    cuits: map<string, string>,
    policy: Policy,
    ledger: Ledger,
    table: Table,
    vouchers: seq<Voucher>,
    numbers: set<(string, int, int, int)>,
    records: map<(string, string), nat>,
    queued: seq<Row>,
    completed: map<nat, nat>,
    discarded: set<nat>,
    unkeyed: set<nat>,
    calls: nat,
    clashed: set<(string, string)>)

  /** `retryPendingVouchers` under the scheduler's `running` flag: the rows still to process and the
      process at work on one. */
  datatype Batch = Idle | Active(remaining: seq<Row>, current: Option<nat>)

  datatype State = State(world: World, procs: seq<Proc>, lock: IssuerLock.Lock, batch: Batch)

  ghost predicate Init(s: State) {
    && s.procs == [] && s.lock == IssuerLock.EMPTY && s.batch == Idle
    && s.world == World(s.world.now, s.world.cuits, s.world.policy, map[], Table(map[], map[]),
                        [], {}, map[], [], map[], {}, {}, 0, {})
  }

  function SeriesOf(cuits: map<string, string>, issuer: string, input: Input): Series {
    Series(if issuer in cuits then cuits[issuer] else "", input.salesPoint, input.voucherType)
  }

  function DetailOf(input: Input): Detail {
    Detail(input.docType, input.docNumber, input.amounts.total)
  }

  function ToIssued(v: Voucher): IssuedVoucher {
    IssuedVoucher(v.id, v.input.voucherType, v.input.salesPoint, v.number, v.cae,
                  v.input.amounts.net, v.input.amounts.iva, v.input.amounts.total)
  }

  function NumberKey(v: Voucher): (string, int, int, int) {
    (v.issuer, v.input.salesPoint, v.input.voucherType, v.number)
  }

  /** Whether the process is between entering and leaving `runExclusive`'s task. */
  predicate Inside(pc: Pc) {
    && !pc.ReplayingRecord? && !pc.ReplayingPending? && !pc.Arriving? && !pc.AwaitingTurn?
    && !pc.FindingIssuer? && !pc.FailingOrphan? && !pc.Ended?
  }

  // Table steps ---------------------------------------------------------------------------------

  /** `findReplayedVoucher`: the voucher stored under the key, if its record is there. */
  function Replayed(w: World, proc: Proc): Option<Voucher>
    requires proc.key.Some?
  {
    var k := (proc.issuer, proc.key.value);
    if k in w.records && w.records[k] < |w.vouchers| && w.vouchers[w.records[k]].cae != ""
    then Some(w.vouchers[w.records[k]]) else None
  }

  /** The rest of `replayOrQueued`: only a row still PENDING stops the call. */
  function StillQueued(w: World, proc: Proc): Option<nat>
    requires proc.key.Some?
  {
    var k := (proc.issuer, proc.key.value);
    if k in w.table.byKey && w.table.byKey[k] in w.table.rows && w.table.rows[w.table.byKey[k]].status == PENDING
    then Some(w.table.byKey[k]) else None
  }

  function Replay(w: World, proc: Proc): Pc
    requires proc.key.Some?
    requires proc.pc.ReplayingRecord? || proc.pc.ReplayingPending?
             || proc.pc.ReplayingRecordInside? || proc.pc.ReplayingPendingInside?
  {
    match proc.pc
    case ReplayingRecord =>
      (match Replayed(w, proc) case Some(v) => Ended(Issued(ToIssued(v))) case None => ReplayingPending)
    case ReplayingRecordInside =>
      (match Replayed(w, proc) case Some(v) => Leaving(Issued(ToIssued(v))) case None => ReplayingPendingInside)
    case ReplayingPending =>
      (match StillQueued(w, proc) case Some(row) => Ended(Queued(row)) case None => Arriving)
    case ReplayingPendingInside =>
      (match StillQueued(w, proc) case Some(row) => Leaving(Queued(row)) case None => Attempting(Authenticating))
  }

  function VoucherOf(w: World, proc: Proc): Voucher
    requires proc.pc.Recording?
  {
    Voucher(|w.vouchers|, proc.issuer, proc.input, proc.pc.number, proc.pc.cae, proc.pc.recovered,
            proc.key, if proc.job.Retry? then Some(proc.job.row.id) else None, proc.submission)
  }

  function AfterRecorded(proc: Proc, v: Voucher): Pc {
    if proc.job.Retry? then Completing(v.id) else Leaving(Issued(ToIssued(v)))
  }

  /** `createVoucher`. */
  function RecordVoucher(w: World, proc: Proc): (World, Pc)
    requires proc.pc.Recording?
  {
    var v := VoucherOf(w, proc);
    if NumberKey(v) in w.numbers then (w, Leaving(Crashed))
    else if HasText(proc.key) then
      (w.(vouchers := w.vouchers + [v], numbers := w.numbers + {NumberKey(v)}, unkeyed := w.unkeyed + {v.id}),
       Keying(v.id))
    else
      (w.(vouchers := w.vouchers + [v], numbers := w.numbers + {NumberKey(v)}), AfterRecorded(proc, v))
  }

  /** `idempotencyRecord.create`. */
  function RecordKey(w: World, proc: Proc): (World, Pc)
    requires proc.pc.Keying? && proc.key.Some? && proc.pc.voucher < |w.vouchers|
  {
    var k := (proc.issuer, proc.key.value);
    if k in w.records then (w.(unkeyed := w.unkeyed - {proc.pc.voucher}), Leaving(Crashed))
    else
      (w.(records := w.records[k := proc.pc.voucher], unkeyed := w.unkeyed - {proc.pc.voucher}),
       AfterRecorded(proc, w.vouchers[proc.pc.voucher]))
  }

  /** `complete`: the row leaves the queue. */
  function Complete(w: World, proc: Proc): (World, Pc)
    requires proc.pc.Completing? && proc.pc.voucher < |w.vouchers|
    requires proc.job.Retry? && proc.job.row.id in w.table.rows
  {
    (w.(table := Remove(w.table, proc.job.row.id),
        completed := w.completed[proc.job.row.id := proc.pc.voucher]),
     Leaving(Issued(ToIssued(w.vouchers[proc.pc.voucher]))))
  }

  function RowOf(w: World, proc: Proc): Row
    requires proc.pc.Enqueuing?
  {
    NewRow(|w.queued|, proc.issuer, proc.key, proc.input, proc.pc.attemptedNumber, proc.submission, w.now, w.policy)
  }

  /** `enqueue`, and the exception its caller turns into an answer. */
  function Enqueue(w: World, proc: Proc): (World, Pc)
    requires proc.pc.Enqueuing?
  {
    if !Clashes(w.table, proc.issuer, proc.key) then
      (w.(table := Insert(w.table, RowOf(w, proc)), queued := w.queued + [RowOf(w, proc)]),
       Leaving(Queued(|w.queued|)))
    else if HasText(proc.key) then (w, Leaving(Queued(w.table.byKey[(proc.issuer, proc.key.value)])))
    else (w, Leaving(Crashed))
  }

  /** `bump` and `fail`, the latter also outside the lock when the issuer is gone. */
  function Postpone(w: World, proc: Proc): (World, Pc)
    requires proc.job.Retry? && proc.job.row.id in w.table.rows
    requires proc.pc.Bumping? || proc.pc.Failing? || proc.pc.FailingOrphan?
  {
    match proc.pc
    case Bumping => (w.(table := BumpRow(w.table, proc.job.row, w.now, w.policy)), Leaving(Deferred))
    case Failing => (w.(table := FailRow(w.table, proc.job.row)), Leaving(Deferred))
    case FailingOrphan => (w.(table := FailRow(w.table, proc.job.row)), Ended(Deferred))
  }

  predicate CanAct(w: World, proc: Proc) {
    match proc.pc
    case ReplayingRecord => proc.key.Some?
    case ReplayingPending => proc.key.Some?
    case ReplayingRecordInside => proc.key.Some?
    case ReplayingPendingInside => proc.key.Some?
    case Recording(_, _, _) => true
    case Keying(v) => v < |w.vouchers| && proc.key.Some?
    case Completing(v) => v < |w.vouchers| && proc.job.Retry? && proc.job.row.id in w.table.rows
    case Enqueuing(_) => true
    case Bumping => proc.job.Retry? && proc.job.row.id in w.table.rows
    case Failing => proc.job.Retry? && proc.job.row.id in w.table.rows
    case FailingOrphan => proc.job.Retry? && proc.job.row.id in w.table.rows
    case _ => false
  }

  /** One table step of a process: the new world and where the process goes on. */
  function Act(w: World, proc: Proc): (World, Pc)
    requires CanAct(w, proc)
  {
    match proc.pc
    case Recording(_, _, _) => RecordVoucher(w, proc)
    case Keying(_) => RecordKey(w, proc)
    case Completing(_) => Complete(w, proc)
    case Enqueuing(_) => Enqueue(w, proc)
    case Bumping => Postpone(w, proc)
    case Failing => Postpone(w, proc)
    case FailingOrphan => Postpone(w, proc)
    case ReplayingRecord => (w, Replay(w, proc))
    case ReplayingPending => (w, Replay(w, proc))
    case ReplayingRecordInside => (w, Replay(w, proc))
    case ReplayingPendingInside => (w, Replay(w, proc))
  }

  // Calls to ARCA -------------------------------------------------------------------------------

  predicate CanRecover(proc: Proc) {
    proc.job.Retry? && proc.job.row.attemptedNumber.Some? && proc.job.row.attemptedSalesPoint.Some?
  }

  predicate CanTalk(proc: Proc) {
    || proc.pc.RecoverAuthenticating?
    || (proc.pc.RecoverConsulting? && CanRecover(proc))
    || (proc.pc.Attempting? && !CaeRequest.Finished(proc.pc.attempt))
  }

  function RecoverySeries(w: World, proc: Proc): Series
    requires CanRecover(proc)
  {
    SeriesOf(w.cuits, proc.issuer, proc.input).(salesPoint := proc.job.row.attemptedSalesPoint.value)
  }

  function CallAt(w: World, proc: Proc): Call
    requires CanTalk(proc)
  {
    match proc.pc
    case RecoverAuthenticating => Authenticate
    case RecoverConsulting => Consult(RecoverySeries(w, proc), proc.job.row.attemptedNumber.value)
    case Attempting(a) => CallOf(a, SeriesOf(w.cuits, proc.issuer, proc.input), DetailOf(proc.input))
  }

  /** What a finished attempt leads to. */
  function AfterAttempt(job: Job, a: Attempt): Pc {
    match a
    case Obtained(number, cae) => Recording(number, cae, false)
    case Refused => if job.Retry? then Failing else Leaving(RejectedByArca)
    case Interrupted(attempted) => if job.Retry? then Bumping else Enqueuing(attempted)
    case _ => Attempting(a)
  }

  function AfterReply(proc: Proc, reply: Reply): Pc
    requires CanTalk(proc)
  {
    match proc.pc
    case RecoverAuthenticating =>
      (match reply
       case Authenticated => RecoverConsulting
       case Rejected(_) => Failing
       case _ => Bumping)
    case RecoverConsulting =>
      (match reply
       case Found(detail, cae) =>
         if Matches(detail, DetailOf(proc.input)) then Recording(proc.job.row.attemptedNumber.value, cae, true)
         else Attempting(Authenticating)
       case NotFound => Attempting(Authenticating)
       case _ => Bumping)
    case Attempting(a) => AfterAttempt(proc.job, CaeRequest.Next(a, reply))
  }

  function Talk(w: World, proc: Proc, o: Outcome): (World, Pc)
    requires CanTalk(proc)
  {
    (w.(ledger := Effect(w.ledger, CallAt(w, proc), o, proc.submission)), AfterReply(proc, Seen(o)))
  }

  // The system ----------------------------------------------------------------------------------

  datatype Event =
    | Tick(to: int)
    | ForeignVoucher(series: Series, detail: Detail, cae: string)
    | Call(issuer: string, input: Input, key: Option<string>)
    | Work(p: nat)
    | Exchange(p: nat, o: Outcome)
    | Arrive(p: nat)
    | Enter(p: nat)
    | Leave(p: nat)
    | FindIssuer(p: nat, found: bool)
    | StartBatch(due: seq<Row>)
    | NextRow
    | EndBatch
    | RearmFailed(id: nat)
    | DiscardFailed(id: nat)

  predicate UnderKey(v: Voucher, issuer: string, key: Option<string>) {
    v.issuer == issuer && v.key == key
  }

  /** A call under the key that is past its last look at the queue and has not failed yet. */
  predicate Obtaining(p: Proc, issuer: string, key: Option<string>) {
    p.job.Request? && p.issuer == issuer && p.key == key && (p.pc.Attempting? || p.pc.Recording?)
  }

  /** The key has a voucher, or a call is obtaining one. */
  ghost predicate Contended(s: State, issuer: string, key: Option<string>) {
    || (exists v :: 0 <= v < |s.world.vouchers| && UnderKey(s.world.vouchers[v], issuer, key))
    || (exists p :: 0 <= p < |s.procs| && Obtaining(s.procs[p], issuer, key))
  }

  /** The key that re-arming the row brings into conflict, if any. */
  ghost function ClashOf(s: State, row: Row): set<(string, string)> {
    if row.key.Some? && Contended(s, row.issuer, row.key) then {(row.issuer, row.key.value)} else {}
  }

  ghost function Rearmed(s: State, id: nat): World
    requires id in s.world.table.rows
  {
    s.world.(table := Rearm(s.world.table, id, s.world.now),
             clashed := s.world.clashed + ClashOf(s, s.world.table.rows[id]))
  }

  ghost predicate Enabled(s: State, e: Event) {
    match e
    case Tick(to) => to >= s.world.now
    case ForeignVoucher(_, _, cae) => cae != ""
    case Call(_, _, _) => true
    case Work(p) => p < |s.procs| && CanAct(s.world, s.procs[p])
    case Exchange(p, o) =>
      p < |s.procs| && CanTalk(s.procs[p]) && Possible(s.world.ledger, CallAt(s.world, s.procs[p]), o)
    case Arrive(p) => p < |s.procs| && s.procs[p].pc.Arriving?
    case Enter(p) => p < |s.procs| && s.procs[p].pc.AwaitingTurn? && IssuerLock.CanEnter(s.lock, s.procs[p].ticket)
    case Leave(p) => p < |s.procs| && s.procs[p].pc.Leaving? && IssuerLock.CanLeave(s.lock, s.procs[p].ticket)
    case FindIssuer(p, _) => p < |s.procs| && s.procs[p].pc.FindingIssuer?
    case StartBatch(due) => s.batch.Idle? && IsDueBatch(s.world.table, s.world.now, due)
    case NextRow => s.batch.Active? && s.batch.current.None? && s.batch.remaining != []
    case EndBatch => s.batch.Active? && s.batch.current.None? && s.batch.remaining == []
    case RearmFailed(id) => id in s.world.table.rows && s.world.table.rows[id].status == FAILED
    case DiscardFailed(id) => id in s.world.table.rows && s.world.table.rows[id].status == FAILED
  }

  function NewCall(w: World, issuer: string, input: Input, key: Option<string>): Proc {
    Proc(Request, issuer, input, key, w.calls, 0, if HasText(key) then ReplayingRecord else Arriving)
  }

  function NewRetry(row: Row): Proc {
    Proc(Retry(row), row.issuer, row.payload, row.key, row.submission, 0, FindingIssuer)
  }

  function FirstInside(proc: Proc): Pc {
    if proc.job.Request? then (if HasText(proc.key) then ReplayingRecordInside else Attempting(Authenticating))
    else if CanRecover(proc) then RecoverAuthenticating
    else Attempting(Authenticating)
  }

  /** The loop of `retryPendingVouchers` goes on after a row, unless an exception left it. */
  function AfterRetry(batch: Batch, answer: Answer): Batch {
    if batch.Idle? then batch else Active(if answer == Crashed then [] else batch.remaining, None)
  }

  /** Process p took a step: the world changed and it goes on at pc. */
  function Moved(s: State, p: nat, step: (World, Pc)): State
    requires p < |s.procs|
  {
    var proc := s.procs[p].(pc := step.1);
    State(step.0, s.procs[p := proc], s.lock,
          if proc.job.Retry? && step.1.Ended? then AfterRetry(s.batch, step.1.answer) else s.batch)
  }

  ghost function Apply(s: State, e: Event): State
    requires Enabled(s, e)
  {
    match e
    case Tick(to) => s.(world := s.world.(now := to))
    case ForeignVoucher(series, detail, cae) =>
      s.(world := s.world.(ledger := Append(s.world.ledger, series, Entry(detail, cae, None))))
    case Call(issuer, input, key) =>
      s.(procs := s.procs + [NewCall(s.world, issuer, input, key)], world := s.world.(calls := s.world.calls + 1))
    case Work(p) => Moved(s, p, Act(s.world, s.procs[p]))
    case Exchange(p, o) => Moved(s, p, Talk(s.world, s.procs[p], o))
    case Arrive(p) =>
      s.(lock := IssuerLock.Arrive(s.lock, s.procs[p].issuer),
         procs := s.procs[p := s.procs[p].(ticket := |s.lock.tickets|, pc := AwaitingTurn)])
    case Enter(p) =>
      Moved(s, p, (s.world, FirstInside(s.procs[p]))).(lock := IssuerLock.Enter(s.lock, s.procs[p].ticket))
    case Leave(p) =>
      Moved(s, p, (s.world, Ended(s.procs[p].pc.answer))).(lock := IssuerLock.Leave(s.lock, s.procs[p].ticket))
    case FindIssuer(p, found) => Moved(s, p, (s.world, if found then Arriving else FailingOrphan))
    case StartBatch(due) => s.(batch := Active(due, None))
    case NextRow =>
      s.(procs := s.procs + [NewRetry(s.batch.remaining[0])],
         batch := Active(s.batch.remaining[1..], Some(|s.procs|)))
    case EndBatch => s.(batch := Idle)
    case RearmFailed(id) => s.(world := Rearmed(s, id))
    case DiscardFailed(id) =>
      s.(world := s.world.(table := Remove(s.world.table, id), discarded := s.world.discarded + {id}))
  }

  ghost predicate IsRun(states: seq<State>, events: seq<Event>) {
    && |states| == |events| + 1
    && Init(states[0])
    && forall i | 0 <= i < |events| :: Enabled(states[i], events[i]) && states[i + 1] == Apply(states[i], events[i])
  }
}
