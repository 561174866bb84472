/** What becomes of every queued row, over every run. */
module EmissionAccounts {
  import opened Common
  import opened Arca
  import opened PendingQueue
  import opened Emission
  import opened EmissionInvariant
  import opened EmissionSteps
  import opened EmissionSafety
  import opened EmissionEvents
  import opened EmissionTheorems
  import IssuerLock

  // One step and one row --------------------------------------------------------------------------

  /** The retry of row id is at work, about to run a statement of this kind. */
  ghost predicate WorksOn(s: State, e: Event, id: nat) {
    e.Work? && e.p < |s.procs| && s.procs[e.p].job.Retry? && s.procs[e.p].job.row.id == id
  }

  ghost predicate BumpsRow(s: State, e: Event, id: nat) {
    WorksOn(s, e, id) && s.procs[e.p].pc.Bumping?
  }

  ghost predicate FailsRow(s: State, e: Event, id: nat) {
    WorksOn(s, e, id) && (s.procs[e.p].pc.Failing? || s.procs[e.p].pc.FailingOrphan?)
  }

  ghost predicate CompletesRow(s: State, e: Event, id: nat) {
    WorksOn(s, e, id) && s.procs[e.p].pc.Completing?
  }

  /** The fate of a stored row in one step: it stays as it is, or its own retry bumps, fails or
      completes it, or it had failed and is re-armed or discarded by hand. */
  ghost predicate Fate(s: State, e: Event, s': State, id: nat)
    requires id in s.world.table.rows
  {
    var row, w, w' := s.world.table.rows[id], s.world, s'.world;
    if id in w'.table.rows then
      var row' := w'.table.rows[id];
      || (row' == row && !BumpsRow(s, e, id))
      || (BumpsRow(s, e, id) && row.status == PENDING
          && row'.retryCount == row.retryCount + 1
          && (row'.status == FAILED <==> row.retryCount + 1 >= w.policy.maxRetries))
      || (FailsRow(s, e, id) && row.status == PENDING && row'.status == FAILED)
      || (e == RearmFailed(id) && row.status == FAILED)
    else
      || (CompletesRow(s, e, id) && id in w'.completed && id !in w.completed
          && w'.completed[id] < |w'.vouchers|
          && w'.vouchers[w'.completed[id]].source == Some(id) && FromRow(w'.vouchers[w'.completed[id]], row))
      || (e == DiscardFailed(id) && row.status == FAILED && id in w'.discarded)
  }

  lemma CompletingFate(w: World, p: Proc)
    requires AtPc(w, p) && p.pc.Completing? && CanAct(w, p)
    ensures var id, w' := p.job.row.id, Act(w, p).0;
            && id !in w'.table.rows && w'.vouchers == w.vouchers && p.pc.voucher < |w.vouchers|
            && w'.completed == w.completed[id := p.pc.voucher]
            && w.vouchers[p.pc.voucher].source == Some(id) && FromProc(w.vouchers[p.pc.voucher], p)
  {}

  lemma RecordingFate(w: World, p: Proc)
    requires CanAct(w, p) && (p.pc.Recording? || p.pc.Keying?)
    ensures Act(w, p).0.table == w.table
  {}

  lemma RetryActs(w: World, p: Proc)
    requires AtPc(w, p) && CanAct(w, p) && p.job.Retry?
    ensures p.pc.Completing? || (Postponing(p.pc) && Holds(w, p)) || p.pc.Recording? || p.pc.Keying?
  {}

  lemma CompletingMeetsFate(s: State, p: nat, id: nat)
    requires WorldOk(s.world) && p < |s.procs| && Local(s.world, s.procs[p]) && CanAct(s.world, s.procs[p])
    requires s.procs[p].pc.Completing? && s.procs[p].job.row.id == id && id in s.world.table.rows
    ensures Fate(s, Work(p), Moved(s, p, Act(s.world, s.procs[p])), id)
  {
    var proc := s.procs[p];
    assert SameOrigin(s.world.table.rows[id], proc.job.row) && id !in s.world.completed;
    CompletingFate(s.world, proc);
    hide AtPc, Act, CanAct, WorldOk;
    assert FromRow(s.world.vouchers[proc.pc.voucher], s.world.table.rows[id]);
    assert CompletesRow(s, Work(p), id);
  }

  lemma PostponingMeetsFate(s: State, p: nat, id: nat)
    requires p < |s.procs| && Holds(s.world, s.procs[p]) && Postponing(s.procs[p].pc)
    requires s.procs[p].job.row.id == id
    ensures CanAct(s.world, s.procs[p]) && Fate(s, Work(p), Moved(s, p, Act(s.world, s.procs[p])), id)
  {}

  lemma ActFate(s: State, p: nat, id: nat)
    requires Inv(s) && p < |s.procs| && CanAct(s.world, s.procs[p]) && id in s.world.table.rows
    requires s.procs[p].job.Retry? && s.procs[p].job.row.id == id
    ensures Fate(s, Work(p), Moved(s, p, Act(s.world, s.procs[p])), id)
  {
    var proc := s.procs[p];
    assert Local(s.world, proc);
    hide AllLocal, LockOk, BatchOk, LiveDistinct, RowsSettled, UnkeyedHeld, WorldOk, AtPc, Act, CanAct, OriginOk;
    RetryActs(s.world, proc);
    if proc.pc.Completing? { CompletingMeetsFate(s, p, id); }
    else if Postponing(proc.pc) { PostponingMeetsFate(s, p, id); }
    else { RecordingFate(s.world, proc); }
  }

  lemma OthersLeaveTheRow(s: State, p: nat, id: nat)
    requires Inv(s) && p < |s.procs| && CanAct(s.world, s.procs[p]) && id in s.world.table.rows
    requires !(s.procs[p].job.Retry? && s.procs[p].job.row.id == id)
    ensures Fate(s, Work(p), Moved(s, p, Act(s.world, s.procs[p])), id)
  {
    assert Local(s.world, s.procs[p]);
    hide WorldOk, AllLocal, LockOk, BatchOk, LiveDistinct, RowsSettled, UnkeyedHeld, Local, Act, CanAct;
    ActGuarantee(s.world, s.procs[p]);
  }

  lemma StepFate(s: State, e: Event, id: nat)
    requires Inv(s) && Enabled(s, e) && id in s.world.table.rows
    ensures Fate(s, e, Apply(s, e), id)
  {
    if e.Work? {
      hide Inv, Fate, CanAct, Act;
      if s.procs[e.p].job.Retry? && s.procs[e.p].job.row.id == id { ActFate(s, e.p, id); }
      else { OthersLeaveTheRow(s, e.p, id); }
    } else {
      hide Inv, CanAct, Act, CanTalk, CallAt, Possible, NewCall, NewRetry, FirstInside, Effect, AfterReply;
      hide BumpsRow, FailsRow, CompletesRow;
    }
  }

  // Every run -----------------------------------------------------------------------------------------

  /** In every run, a stored row changes only at the hands of its own retry or of a manual action on a
      failed row; in particular a row still queued is never discarded, only a failed one is re-armed,
      and completing a row leaves a voucher that carries its payload. */
  lemma RowsMeetTheirFate(states: seq<State>, events: seq<Event>, i: nat, id: nat)
    requires IsRun(states, events) && i < |events| && id in states[i].world.table.rows
    ensures Fate(states[i], events[i], states[i + 1], id)
  {
    hide Inv, Grows, Enabled, Apply, Fate;
    RunStep(states, events, i);
    StepFate(states[i], events[i], id);
  }

  function Below(n: nat): (ids: set<nat>)
    ensures forall i: nat :: i in ids <==> i < n
    ensures |ids| == n
  {
    if n == 0 then {} else Below(n - 1) + {n - 1}
  }

  lemma ThreePartsAddUp(n: nat, a: set<nat>, b: set<nat>, c: set<nat>)
    requires forall i: nat :: i < n <==> i in a || i in b || i in c
    requires a !! b && a !! c && b !! c
    ensures n == |a| + |b| + |c|
  {
    assert Below(n) == a + b + c;
    assert |a + b| == |a| + |b|;
    assert |a + b + c| == |a + b| + |c|;
  }

  lemma AccountsPartition(
      rows: map<nat, Row>, queued: seq<Row>, vouchers: seq<Voucher>, completed: map<nat, nat>, discarded: set<nat>)
    requires AccountsOk(rows, queued, vouchers, completed, discarded) && forall id | id in rows :: id < |queued|
    ensures forall i: nat :: i < |queued| <==> i in rows.Keys || i in completed.Keys || i in discarded
    ensures rows.Keys !! completed.Keys && rows.Keys !! discarded && completed.Keys !! discarded
  {}

  lemma AccountsAdd(
      rows: map<nat, Row>, queued: seq<Row>, vouchers: seq<Voucher>, completed: map<nat, nat>, discarded: set<nat>)
    requires AccountsOk(rows, queued, vouchers, completed, discarded) && forall id | id in rows :: id < |queued|
    ensures |queued| == |rows| + |completed| + |discarded|
  {
    hide AccountsOk;
    AccountsPartition(rows, queued, vouchers, completed, discarded);
    ThreePartsAddUp(|queued|, rows.Keys, completed.Keys, discarded);
  }

  /** A completed row has the voucher it was completed with, and no other. */
  lemma CompletedOnce(w: World, id: nat, v: nat)
    requires AccountsOk(w.table.rows, w.queued, w.vouchers, w.completed, w.discarded)
    requires RowVouchersOk(w.vouchers, w.records) && CompletedOk(w.vouchers, w.records, w.completed)
    requires VouchersOk(w.vouchers, w.ledger, w.cuits, w.queued)
    requires id in w.completed && v < |w.vouchers| && w.vouchers[v].source == Some(id)
    ensures v == w.completed[id]
  {
    assert VoucherOk(w.vouchers[w.completed[id]], w.ledger, w.cuits, w.queued);
    assert VoucherOk(w.vouchers[v], w.ledger, w.cuits, w.queued);
    hide VouchersOk, VoucherOk;
  }

  /** A row ever enqueued, completed or not, has at most one voucher, unless a failed row under its key
      was put back while the key had a voucher or a call was obtaining one. */
  lemma RowsHaveOneVoucher(states: seq<State>, events: seq<Event>, j: nat, v: nat, u: nat)
    requires IsRun(states, events) && j < |states|
    requires v < |states[j].world.vouchers| && u < |states[j].world.vouchers|
    requires states[j].world.vouchers[v].source.Some?
    requires states[j].world.vouchers[v].source == states[j].world.vouchers[u].source
    requires forall i | 0 <= i < j ::
               !ClashesAt(states[i], events[i], states[j].world.vouchers[v].issuer, states[j].world.vouchers[v].key)
    ensures v == u
  {
    RunKeepsInv(states, events, j);
    hide AllLocal, LockOk, BatchOk, LiveDistinct, RowsSettled, UnkeyedHeld, Apply, Enabled, ClashesAt;
    var w := states[j].world;
    hide RowsOk, QueuedOk, LedgerOk, AllNumbersOk, IndexOk, AccountsOk, RecordsOk, OnePerKey, Recorded, WaitingAlone;
    assert VoucherOk(w.vouchers[u], w.ledger, w.cuits, w.queued) && VoucherOk(w.vouchers[v], w.ledger, w.cuits, w.queued);
    hide VouchersOk, VoucherOk, IsRun;
    if v != u {
      assert HasText(w.vouchers[v].key);
      OneVoucherPerKey(states, events, j, v, u);
    }
  }

  /** When a row does have two vouchers, its key is recorded with a voucher of another origin. */
  lemma SecondVoucherMeansKeyTaken(states: seq<State>, events: seq<Event>, j: nat, v: nat, u: nat)
    requires IsRun(states, events) && j < |states| && v < u < |states[j].world.vouchers|
    requires states[j].world.vouchers[v].source.Some?
    requires states[j].world.vouchers[v].source == states[j].world.vouchers[u].source
    ensures var w, voucher := states[j].world, states[j].world.vouchers[v];
            && KeyRecorded(w.records, voucher.issuer, voucher.key)
            && var r := w.records[(voucher.issuer, voucher.key.value)];
               r < |w.vouchers| && w.vouchers[r].source != voucher.source
    ensures states[j].world.vouchers[v].source.value !in states[j].world.completed
  {
    RunKeepsInv(states, events, j);
    hide AllLocal, LockOk, BatchOk, LiveDistinct, RowsSettled, UnkeyedHeld, Apply, Enabled, IsRun;
    var w := states[j].world;
    hide RowsOk, QueuedOk, LedgerOk, AllNumbersOk, IndexOk, RecordsOk, OnePerKey, Recorded, WaitingAlone;
    assert RowVouchersOk(w.vouchers, w.records);
    var id := w.vouchers[v].source.value;
    if id in w.completed {
      CompletedOnce(w, id, v);
      CompletedOnce(w, id, u);
    }
  }

  /** Rows ever enqueued = rows completed + rows discarded + rows still stored; no row is counted
      twice, and each completed row has exactly one voucher, re-arming or not. */
  lemma RowsAreConserved(states: seq<State>, events: seq<Event>, j: nat)
    requires IsRun(states, events) && j < |states|
    ensures var w := states[j].world;
            && |w.queued| == |w.table.rows| + |w.completed| + |w.discarded|
            && (forall id | id in w.completed :: id !in w.table.rows && id !in w.discarded)
            && (forall id | id in w.discarded :: id !in w.table.rows)
            && (forall id | id in w.completed ::
                  && id < |w.queued| && w.completed[id] < |w.vouchers|
                  && FromRow(w.vouchers[w.completed[id]], w.queued[id]))
            && (forall id, v | id in w.completed && 0 <= v < |w.vouchers| ::
                  w.vouchers[v].source == Some(id) <==> v == w.completed[id])
  {
    RunKeepsInv(states, events, j);
    hide IsRun, AllLocal, LockOk, BatchOk, LiveDistinct, RowsSettled, UnkeyedHeld;
    var w := states[j].world;
    hide QueuedOk, LedgerOk, AllNumbersOk, IndexOk, RecordsOk, OnePerKey, Recorded, WaitingAlone;
    AccountsAdd(w.table.rows, w.queued, w.vouchers, w.completed, w.discarded);
    forall id | id in w.completed ensures FromRow(w.vouchers[w.completed[id]], w.queued[id]) {
      assert VoucherOk(w.vouchers[w.completed[id]], w.ledger, w.cuits, w.queued);
    }
    forall id, v: nat | id in w.completed && v < |w.vouchers| && w.vouchers[v].source == Some(id)
      ensures v == w.completed[id]
    {
      CompletedOnce(w, id, v);
    }
  }

  // Backoff ---------------------------------------------------------------------------------------------

  /** A waiting row has retries left, and has waited for as long as the doubling schedule says. */
  lemma WaitingRowsAreOnSchedule(states: seq<State>, events: seq<Event>, j: nat, id: nat)
    requires IsRun(states, events) && j < |states| && id in states[j].world.table.rows
    requires states[j].world.table.rows[id].status == PENDING && states[j].world.policy.maxRetries >= 1
    ensures var row, policy := states[j].world.table.rows[id], states[j].world.policy;
            && row.retryCount < policy.maxRetries
            && row.nextRetryAt >= row.enqueuedAt + policy.retryBaseMs * (Pow2(row.retryCount + 1) - 1)
  {
    hide IsRun, AllLocal, LockOk, BatchOk, LiveDistinct, RowsSettled, UnkeyedHeld, Apply, Enabled;
    RunKeepsInv(states, events, j);
    hide QueuedOk, LedgerOk, AllNumbersOk, VouchersOk, IndexOk, AccountsOk, RecordsOk, OnePerKey, Recorded,
         WaitingAlone;
  }

  /** The clock when a row was queued is what its history says. */
  lemma QueuedByTheClock(s: State, e: Event)
    requires Enabled(s, e) && |s.world.queued| < |Apply(s, e).world.queued|
    ensures |Apply(s, e).world.queued| == |s.world.queued| + 1
    ensures Apply(s, e).world.queued[|s.world.queued|].enqueuedAt == s.world.now
  {
    if e.Work? {
      if s.procs[e.p].pc.Enqueuing? {
        hide Remove, Rearm, Clashes, Insert;
      } else {
        OthersQueueNothing(s.world, s.procs[e.p]);
        hide Act;
      }
    } else {
      hide Act, CanAct, Talk, CanTalk, CallAt, Possible, NewCall, NewRetry, FirstInside, Remove, Rearm;
    }
  }

  lemma OthersQueueNothing(w: World, p: Proc)
    requires CanAct(w, p) && !p.pc.Enqueuing?
    ensures Act(w, p).0.queued == w.queued
  {}

  lemma BumpExhausts(w: World, p: Proc)
    requires RowsOk(w.table, w.queued, w.now, w.policy) && Holds(w, p) && p.pc.Bumping? && w.policy.maxRetries >= 1
    requires BumpRow(w.table, p.job.row, w.now, w.policy).rows[p.job.row.id].status == FAILED
    ensures p.job.row.id < |w.queued| && p.job.row.retryCount + 1 == w.policy.maxRetries
    ensures w.now >= w.queued[p.job.row.id].enqueuedAt + w.policy.retryBaseMs * (Pow2(w.policy.maxRetries) - 1)
  {}

  /** A bump that exhausts a row (its state after the step is FAILED) comes at least
      retryBaseMs * (2^maxRetries - 1) after the step that enqueued it. */
  lemma ExhaustionTakesTime(states: seq<State>, events: seq<Event>, k: nat, i: nat, id: nat)
    requires IsRun(states, events) && k < i < |events|
    requires |states[k].world.queued| == id && |states[k + 1].world.queued| > id
    requires BumpsRow(states[i], events[i], id) && states[i].world.policy.maxRetries >= 1
    requires id in states[i + 1].world.table.rows && states[i + 1].world.table.rows[id].status == FAILED
    ensures states[i].world.now - states[k].world.now
            >= states[i].world.policy.retryBaseMs * (Pow2(states[i].world.policy.maxRetries) - 1)
  {
    hide WorldOk, AllLocal, LockOk, BatchOk, LiveDistinct, RowsSettled, UnkeyedHeld, Apply, Enabled;
    RunStep(states, events, k);
    RunGrows(states, events, k + 1, i);
    QueuedByTheClock(states[k], events[k]);
    RunStep(states, events, i);
    hide IsRun, Inv;
    BumpingIsHeld(states[i], events[i], id);
    BumpExhausts(states[i].world, states[i].procs[events[i].p]);
  }

  lemma BumpingIsHeld(s: State, e: Event, id: nat)
    requires Inv(s) && Enabled(s, e) && BumpsRow(s, e, id)
    ensures Holds(s.world, s.procs[e.p]) && RowsOk(s.world.table, s.world.queued, s.world.now, s.world.policy)
    ensures Apply(s, e).world.table == BumpRow(s.world.table, s.procs[e.p].job.row, s.world.now, s.world.policy)
  {
    hide LockOk, BatchOk, LiveDistinct, RowsSettled, UnkeyedHeld, RowsOk, QueuedOk, BumpRow;
    assert Local(s.world, s.procs[e.p]);
    hide WorldOk, AllLocal;
  }

  // Every processing is counted -------------------------------------------------------------------------

  /** How many of the steps from i to j bumped the row. */
  ghost function Bumps(states: seq<State>, events: seq<Event>, i: nat, j: nat, id: nat): nat
    requires j <= |events| && |events| < |states|
  {
    if i >= j then 0
    else Bumps(states, events, i, j - 1, id) + if BumpsRow(states[j - 1], events[j - 1], id) then 1 else 0
  }

  lemma RowsDoNotReappear(s: State, e: Event, id: nat)
    requires Inv(s) && Enabled(s, e) && id < |s.world.queued| && id in Apply(s, e).world.table.rows
    ensures id in s.world.table.rows
  {
    if e.Work? {
      hide Inv;
      if s.procs[e.p].pc.Enqueuing? {
        hide Remove, Rearm, Clashes;
      } else {
        OthersInsertNothing(s.world, s.procs[e.p], id);
        hide Act;
      }
    } else {
      hide Inv, Act, CanAct, Talk, CanTalk, CallAt, Possible, NewCall, NewRetry, FirstInside;
    }
  }

  lemma OthersInsertNothing(w: World, p: Proc, id: nat)
    requires CanAct(w, p) && !p.pc.Enqueuing? && id in Act(w, p).0.table.rows
    ensures id in w.table.rows
  {}

  /** As long as a row waits and nobody re-arms it, its retry count is the number of bumps so far; so
      it is bumped fewer than maxRetries times before it leaves the queue of waiting rows. */
  lemma {:induction false} RetriesAreCounted(states: seq<State>, events: seq<Event>, i: nat, j: nat, id: nat)
    requires IsRun(states, events) && i <= j < |states| && id in states[i].world.table.rows
    requires id in states[j].world.table.rows && states[j].world.table.rows[id].status == PENDING
    requires forall k | i <= k < j :: events[k] != RearmFailed(id)
    ensures states[i].world.table.rows[id].status == PENDING
    ensures states[j].world.table.rows[id].retryCount
            == states[i].world.table.rows[id].retryCount + Bumps(states, events, i, j, id)
    ensures states[j].world.policy.maxRetries >= 1
            ==> Bumps(states, events, i, j, id) < states[j].world.policy.maxRetries
    decreases j
  {
    hide Inv, Grows, Enabled, Apply, BumpsRow, FailsRow, CompletesRow;
    if i < j {
      StillQueued(states, events, i, j - 1, id);
      RunStep(states, events, j - 1);
      RowsDoNotReappear(states[j - 1], events[j - 1], id);
      RowsMeetTheirFate(states, events, j - 1, id);
      RetriesAreCounted(states, events, i, j - 1, id);
    }
    if states[j].world.policy.maxRetries >= 1 { WaitingRowsAreOnSchedule(states, events, j, id); }
  }

  lemma StillQueued(states: seq<State>, events: seq<Event>, i: nat, j: nat, id: nat)
    requires IsRun(states, events) && i <= j < |states| && id in states[i].world.table.rows
    ensures id < |states[j].world.queued|
  {
    hide AllLocal, LockOk, BatchOk, LiveDistinct, RowsSettled, UnkeyedHeld, Apply, Enabled;
    RunGrows(states, events, i, j);
    RunKeepsInv(states, events, i);
    hide QueuedOk, LedgerOk, AllNumbersOk, VouchersOk, IndexOk, AccountsOk, RecordsOk, OnePerKey, Recorded,
         WaitingAlone;
  }

  // Every processing that does not crash is counted -----------------------------------------------------

  ghost predicate RetryOf(p: Proc, id: nat) {
    p.job.Retry? && p.job.row.id == id
  }

  /** A processing of the row ends, and not with an exception. */
  ghost predicate EndsProcessing(s: State, e: Event, id: nat) {
    || (e.Leave? && e.p < |s.procs| && RetryOf(s.procs[e.p], id) && s.procs[e.p].pc.Leaving?
        && s.procs[e.p].pc.answer != Crashed)
    || (WorksOn(s, e, id) && s.procs[e.p].pc.FailingOrphan?)
  }

  /** The row has been dealt with and its retry is on the way out of the lock. */
  ghost predicate Handled(s: State, id: nat) {
    && s.batch.Active? && s.batch.current.Some? && s.batch.current.value < |s.procs|
    && var p := s.procs[s.batch.current.value];
       RetryOf(p, id) && p.pc.Leaving? && p.pc.answer != Crashed
  }

  /** How many processings of the row ended between i and j other than by an exception. */
  ghost function Processings(states: seq<State>, events: seq<Event>, i: nat, j: nat, id: nat): nat
    requires j <= |events| && |events| < |states|
  {
    if i >= j then 0
    else Processings(states, events, i, j - 1, id) + if EndsProcessing(states[j - 1], events[j - 1], id) then 1 else 0
  }

  function One(b: bool): nat {
    if b then 1 else 0
  }

  /** The row's own retry makes a step and the row goes on waiting: it was bumped, or the retry has not
      come to an end or came to one with an exception. */
  lemma OwnStepBalances(s: State, p: nat, id: nat)
    requires p < |s.procs| && CanAct(s.world, s.procs[p]) && AtPc(s.world, s.procs[p])
    requires BatchOk(s.world.table.rows, s.world.now, s.procs, s.batch)
    requires RetryOf(s.procs[p], id)
    requires var w' := Act(s.world, s.procs[p]).0; id in w'.table.rows && w'.table.rows[id].status == PENDING
    ensures var s' := Moved(s, p, Act(s.world, s.procs[p]));
            && !Handled(s, id) && !EndsProcessing(s, Work(p), id)
            && (Handled(s', id) <==> BumpsRow(s, Work(p), id))
  {
    hide BatchOk;
    OwnStepAnswers(s.world, s.procs[p], id);
    assert s.batch.Active? && s.batch.current == Some(p) by { CurrentRetry(s, p); }
    hide Act, CanAct, AtPc;
  }

  lemma CurrentRetry(s: State, p: nat)
    requires BatchOk(s.world.table.rows, s.world.now, s.procs, s.batch)
    requires p < |s.procs| && s.procs[p].job.Retry? && !s.procs[p].pc.Ended?
    ensures s.batch.Active? && s.batch.current == Some(p)
  {}

  lemma OwnStepAnswers(w: World, p: Proc, id: nat)
    requires CanAct(w, p) && AtPc(w, p) && RetryOf(p, id)
    requires id in Act(w, p).0.table.rows && Act(w, p).0.table.rows[id].status == PENDING
    ensures !p.pc.Leaving? && !p.pc.Ended? && !p.pc.FailingOrphan? && !Act(w, p).1.Ended?
    ensures Act(w, p).1.Leaving? && Act(w, p).1.answer != Crashed <==> p.pc.Bumping?
  {}

  lemma OthersBalance(s: State, p: nat, step: (World, Pc), id: nat)
    requires p < |s.procs| && BatchOk(s.world.table.rows, s.world.now, s.procs, s.batch)
    requires !RetryOf(s.procs[p], id) && !s.procs[p].pc.Ended?
    ensures Handled(Moved(s, p, step), id) <==> Handled(s, id)
  {}

  lemma ExchangeBalances(s: State, p: nat, o: Outcome, id: nat)
    requires p < |s.procs| && CanTalk(s.procs[p]) && BatchOk(s.world.table.rows, s.world.now, s.procs, s.batch)
    ensures Handled(Moved(s, p, Talk(s.world, s.procs[p], o)), id) <==> Handled(s, id)
  {
    if !RetryOf(s.procs[p], id) { OthersBalance(s, p, Talk(s.world, s.procs[p], o), id); }
    else { RetryTalks(s.world, s.procs[p], o); }
    hide Talk, CanTalk;
  }

  lemma RetryTalks(w: World, p: Proc, o: Outcome)
    requires CanTalk(p) && p.job.Retry?
    ensures !p.pc.Leaving? && !Talk(w, p, o).1.Leaving?
  {}

  /** As long as the row goes on waiting, every processing that ended without an exception bumped it. */
  lemma ProcessingsBalance(s: State, e: Event, id: nat)
    requires Inv(s) && Enabled(s, e) && id in s.world.table.rows && e != RearmFailed(id)
    requires id in Apply(s, e).world.table.rows && Apply(s, e).world.table.rows[id].status == PENDING
    ensures One(EndsProcessing(s, e, id)) + One(Handled(Apply(s, e), id)) == One(BumpsRow(s, e, id)) + One(Handled(s, id))
  {
    hide WorldOk, LockOk, LiveDistinct, RowsSettled, UnkeyedHeld;
    if e.Work? {
      assert Local(s.world, s.procs[e.p]);
      hide AllLocal, BatchOk;
      WorkBalances(s, e.p, id);
    } else {
      hide AllLocal, BatchOk, Handled, EndsProcessing, BumpsRow, Talk, CanTalk, Possible, CallAt, Moved;
      hide IssuerLock.CanLeave, IssuerLock.CanEnter, IssuerLock.Enter, IssuerLock.Leave, IssuerLock.Arrive;
      StandingBalances(s, e, id);
    }
  }

  lemma WorkBalances(s: State, p: nat, id: nat)
    requires p < |s.procs| && CanAct(s.world, s.procs[p]) && AtPc(s.world, s.procs[p])
    requires BatchOk(s.world.table.rows, s.world.now, s.procs, s.batch)
    requires var w' := Act(s.world, s.procs[p]).0; id in w'.table.rows && w'.table.rows[id].status == PENDING
    ensures var s' := Moved(s, p, Act(s.world, s.procs[p]));
            One(EndsProcessing(s, Work(p), id)) + One(Handled(s', id)) == One(BumpsRow(s, Work(p), id)) + One(Handled(s, id))
  {
    hide AtPc, Act, CanAct, BatchOk;
    if RetryOf(s.procs[p], id) { OwnStepBalances(s, p, id); }
    else {
      assert !s.procs[p].pc.Ended? by { ActStance(s.world, s.procs[p]); }
      OthersBalance(s, p, Act(s.world, s.procs[p]), id);
    }
  }

  lemma LeaveBalances(s: State, p: nat, lock: IssuerLock.Lock, id: nat)
    requires p < |s.procs| && s.procs[p].pc.Leaving? && BatchOk(s.world.table.rows, s.world.now, s.procs, s.batch)
    ensures var s' := Moved(s, p, (s.world, Ended(s.procs[p].pc.answer))).(lock := lock);
            One(EndsProcessing(s, Event.Leave(p), id)) + One(Handled(s', id)) == One(Handled(s, id))
  {
    if !RetryOf(s.procs[p], id) { OthersBalance(s, p, (s.world, Ended(s.procs[p].pc.answer)), id); }
    else { CurrentRetry(s, p); }
    hide BatchOk;
  }

  /** A process moves between two points that are both before its end. */
  lemma StandBalances(s: State, p: nat, pc: Pc, lock: IssuerLock.Lock, id: nat)
    requires p < |s.procs| && !s.procs[p].pc.Leaving? && !pc.Leaving? && !pc.Ended?
    ensures Handled(Moved(s, p, (s.world, pc)).(lock := lock), id) <==> Handled(s, id)
  {}

  lemma ArriveBalances(s: State, p: nat, lock: IssuerLock.Lock, id: nat)
    requires p < |s.procs| && s.procs[p].pc.Arriving?
    ensures Handled(s.(lock := lock, procs := s.procs[p := s.procs[p].(ticket := |s.lock.tickets|, pc := AwaitingTurn)]), id)
            <==> Handled(s, id)
  {}

  lemma SchedulerBalances(s: State, e: Event, id: nat)
    requires Enabled(s, e) && (e.StartBatch? || e.NextRow? || e.EndBatch? || e.Call?)
    requires BatchOk(s.world.table.rows, s.world.now, s.procs, s.batch)
    ensures Handled(Apply(s, e), id) <==> Handled(s, id)
  {}

  lemma WorldBalances(s: State, w: World, id: nat)
    ensures Handled(s.(world := w), id) <==> Handled(s, id)
  {}

  lemma StandingBalances(s: State, e: Event, id: nat)
    requires Enabled(s, e) && !e.Work? && BatchOk(s.world.table.rows, s.world.now, s.procs, s.batch)
    ensures One(EndsProcessing(s, e, id)) + One(Handled(Apply(s, e), id)) == One(BumpsRow(s, e, id)) + One(Handled(s, id))
  {
    assert !BumpsRow(s, e, id) && (!e.Leave? ==> !EndsProcessing(s, e, id));
    hide BatchOk, Handled, EndsProcessing, BumpsRow, Talk, CanTalk, Possible, CallAt, Moved, Remove, Rearmed;
    hide IssuerLock.CanLeave, IssuerLock.CanEnter, IssuerLock.Enter, IssuerLock.Leave, IssuerLock.Arrive;
    match e
    case Exchange(p, o) => ExchangeBalances(s, p, o, id);
    case Leave(p) => LeaveBalances(s, p, IssuerLock.Leave(s.lock, s.procs[p].ticket), id);
    case Arrive(p) => ArriveBalances(s, p, IssuerLock.Arrive(s.lock, s.procs[p].issuer), id);
    case Enter(p) => StandBalances(s, p, FirstInside(s.procs[p]), IssuerLock.Enter(s.lock, s.procs[p].ticket), id);
    case FindIssuer(p, found) => StandBalances(s, p, if found then Arriving else FailingOrphan, s.lock, id);
    case Tick(_) => WorldBalances(s, Apply(s, e).world, id);
    case ForeignVoucher(_, _, _) => WorldBalances(s, Apply(s, e).world, id);
    case RearmFailed(_) => WorldBalances(s, Apply(s, e).world, id);
    case DiscardFailed(_) => WorldBalances(s, Apply(s, e).world, id);
    case _ => SchedulerBalances(s, e, id);
  }

  /** While a row waits and nobody re-arms it, its processings that end other than by an exception are
      its bumps: fewer than maxRetries, so the one that makes them as many takes it out of the waiting. */
  lemma {:induction false} ProcessingsAreCounted(states: seq<State>, events: seq<Event>, i: nat, j: nat, id: nat)
    requires IsRun(states, events) && i <= j < |states| && id in states[i].world.table.rows
    requires id in states[j].world.table.rows && states[j].world.table.rows[id].status == PENDING
    requires forall k | i <= k < j :: events[k] != RearmFailed(id)
    ensures Processings(states, events, i, j, id) + One(Handled(states[j], id))
            == Bumps(states, events, i, j, id) + One(Handled(states[i], id))
    ensures states[j].world.policy.maxRetries >= 1 && !Handled(states[i], id)
            ==> Processings(states, events, i, j, id) < states[j].world.policy.maxRetries
    decreases j
  {
    hide Inv, Grows, Enabled, Apply, BumpsRow, FailsRow, CompletesRow, Handled, EndsProcessing;
    if i < j {
      StillQueued(states, events, i, j - 1, id);
      RunStep(states, events, j - 1);
      RowsDoNotReappear(states[j - 1], events[j - 1], id);
      RowsMeetTheirFate(states, events, j - 1, id);
      ProcessingsBalance(states[j - 1], events[j - 1], id);
      ProcessingsAreCounted(states, events, i, j - 1, id);
    }
    RetriesAreCounted(states, events, i, j, id);
  }

  // When a processing ends with an exception --------------------------------------------------------------

  /** A retry's step ends with an exception exactly when the voucher's number is already that of a stored
      voucher of the issuer, or the key already has its record. */
  lemma RetryCrashesIff(states: seq<State>, events: seq<Event>, j: nat, p: nat)
    requires IsRun(states, events) && j < |events| && events[j] == Work(p)
    requires p < |states[j].procs| && states[j].procs[p].job.Retry?
    ensures var w, proc := states[j].world, states[j].procs[p];
            p < |states[j + 1].procs|
            && (states[j + 1].procs[p].pc == Leaving(Crashed) <==>
                  || (proc.pc.Recording? && !NumberUnused(w.vouchers, proc, proc.pc.number))
                  || (proc.pc.Keying? && KeyRecorded(w.records, proc.issuer, proc.key)))
  {
    hide Apply, LockOk, BatchOk, RowsSettled, UnkeyedHeld, LiveDistinct;
    RunStep(states, events, j);
    var w, proc := states[j].world, states[j].procs[p];
    assert Local(w, proc);
    hide AllLocal, RowsOk, QueuedOk, LedgerOk, AllNumbersOk, VouchersOk, AccountsOk, RecordsOk, OnePerKey, Recorded;
    hide WaitingAlone;
    hide RowVouchersOk, CompletedOk, IsRun;
    assert IndexOk(w.vouchers, w.numbers);
    CrashingStep(w, proc);
    assert states[j + 1].procs[p].pc == Act(w, proc).1 by { WorkMoves(states[j], p); }
  }

  lemma WorkMoves(s: State, p: nat)
    requires Enabled(s, Work(p))
    ensures p < |Apply(s, Work(p)).procs| && Apply(s, Work(p)).procs[p].pc == Act(s.world, s.procs[p]).1
  {
    hide Act, CanAct;
  }

  /** A call ends with an exception exactly when it has to be queued under the empty key while that key is
      taken: never over its voucher's number, which nobody else can have taken, nor over its record, which it
      found missing under the lock. */
  lemma CallCrashesIff(states: seq<State>, events: seq<Event>, j: nat, p: nat)
    requires IsRun(states, events) && j < |events| && events[j] == Work(p)
    requires p < |states[j].procs| && states[j].procs[p].job.Request?
    ensures var w, proc := states[j].world, states[j].procs[p];
            p < |states[j + 1].procs|
            && (states[j + 1].procs[p].pc == Leaving(Crashed) <==>
                  proc.pc.Enqueuing? && proc.key == Some("") && Clashes(w.table, proc.issuer, proc.key))
  {
    hide Apply, LockOk, BatchOk, RowsSettled, UnkeyedHeld, LiveDistinct;
    RunStep(states, events, j);
    var w, proc := states[j].world, states[j].procs[p];
    assert Local(w, proc);
    hide AllLocal, RowsOk, QueuedOk, LedgerOk, AllNumbersOk, VouchersOk, AccountsOk, RecordsOk, OnePerKey, Recorded;
    hide WaitingAlone, RowVouchersOk, CompletedOk, IsRun;
    assert IndexOk(w.vouchers, w.numbers);
    CrashingCall(w, proc);
    assert states[j + 1].procs[p].pc == Act(w, proc).1 by { WorkMoves(states[j], p); }
  }

  lemma CrashingCall(w: World, p: Proc)
    requires CanAct(w, p) && AtPc(w, p) && p.job.Request? && IndexOk(w.vouchers, w.numbers)
    ensures Act(w, p).1 == Leaving(Crashed) <==>
            p.pc.Enqueuing? && p.key == Some("") && Clashes(w.table, p.issuer, p.key)
  {}

  lemma CrashingStep(w: World, p: Proc)
    requires CanAct(w, p) && AtPc(w, p) && p.job.Retry? && IndexOk(w.vouchers, w.numbers)
    ensures Act(w, p).1 == Leaving(Crashed) <==>
            || (p.pc.Recording? && !NumberUnused(w.vouchers, p, p.pc.number))
            || (p.pc.Keying? && KeyRecorded(w.records, p.issuer, p.key))
  {}

  /** A number that was granted, or taken over where it was refused as a duplicate, is never the cause: only
      one that a retry recovered is, whatever was re-armed. */
  lemma OnlyRecoveredNumbersCrash(states: seq<State>, events: seq<Event>, j: nat, p: nat)
    requires IsRun(states, events) && j < |states| && p < |states[j].procs| && states[j].procs[p].pc.Recording?
    requires !NumberUnused(states[j].world.vouchers, states[j].procs[p], states[j].procs[p].pc.number)
    ensures states[j].procs[p].pc.recovered && states[j].procs[p].job.Retry?
  {
    hide Apply, Enabled, IsRun, WorldOk, LockOk, BatchOk, RowsSettled, UnkeyedHeld, LiveDistinct, NumberUnused;
    RunKeepsInv(states, events, j);
    assert Local(states[j].world, states[j].procs[p]);
  }

  /** A key is the cause only after a failed row under it was put back while it had a voucher or a call
      was obtaining one. */
  lemma OnlyClashingKeysCrash(states: seq<State>, events: seq<Event>, j: nat, p: nat)
    requires IsRun(states, events) && j < |states| && p < |states[j].procs| && states[j].procs[p].pc.Keying?
    requires KeyRecorded(states[j].world.records, states[j].procs[p].issuer, states[j].procs[p].key)
    ensures exists i :: 0 <= i < j && ClashesAt(states[i], events[i], states[j].procs[p].issuer, states[j].procs[p].key)
  {
    hide Apply, Enabled, LockOk, BatchOk, RowsSettled, UnkeyedHeld, LiveDistinct, ClashesAt;
    RunKeepsInv(states, events, j);
    var w, proc := states[j].world, states[j].procs[p];
    assert Local(w, proc);
    hide AllLocal, RowsOk, QueuedOk, LedgerOk, AllNumbersOk, VouchersOk, AccountsOk, Recorded, WaitingAlone, IndexOk;
    if Clean(w.clashed, proc.issuer, proc.key) { KeyIsFree(w, proc); }
    hide IsRun;
    if forall i | 0 <= i < j :: !ClashesAt(states[i], events[i], proc.issuer, proc.key) {
      UnclashedIsClean(states, events, j, proc.issuer, proc.key);
    }
  }
}
