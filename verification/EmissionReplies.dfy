/** What each reply of ARCA does to a queued row and to a call's answer, read off the runs alone. */
module EmissionReplies {
  import opened Common
  import opened Arca
  import opened CaeRequest
  import opened PendingQueue
  import opened Emission
  import opened EmissionInvariant
  import opened EmissionSafety
  import opened EmissionEvents
  import opened EmissionTheorems
  import opened EmissionAccounts
  import opened EmissionProgress

  // Between its own steps a process stands still ----------------------------------------------------

  lemma OthersMoveNot(s: State, e: Event, p: nat)
    requires Enabled(s, e) && p < |s.procs| && !StepOf(e, p)
    ensures p < |Apply(s, e).procs| && Apply(s, e).procs[p] == s.procs[p]
  {
    hide Act, CanAct, Talk, CanTalk, CallAt, Possible, Rearmed, Remove, FirstInside;
  }

  ghost predicate Standing(events: seq<Event>, i: nat, j: nat, p: nat)
    requires j <= |events|
  {
    forall k | i <= k < j :: !StepOf(events[k], p)
  }

  lemma {:induction false} StandsStill(states: seq<State>, events: seq<Event>, i: nat, j: nat, p: nat)
    requires IsRun(states, events) && i <= j < |states| && p < |states[i].procs| && Standing(events, i, j, p)
    ensures p < |states[j].procs| && states[j].procs[p] == states[i].procs[p]
    decreases j
  {
    hide Apply, Enabled;
    if i < j {
      StandsStill(states, events, i, j - 1, p);
      assert Enabled(states[j - 1], events[j - 1]) && states[j] == Apply(states[j - 1], events[j - 1]);
      OthersMoveNot(states[j - 1], events[j - 1], p);
    }
  }

  // A reply and the row -----------------------------------------------------------------------------

  function Failed(row: Row): Row {
    row.(status := FAILED, retryCount := row.retryCount + 1)
  }

  /** One more attempt counted: the row waits base * 2^k after its k-th, or has failed with its last. */
  function Delayed(row: Row, now: int, policy: Policy): Row {
    var k := row.retryCount + 1;
    if k >= policy.maxRetries then Failed(row)
    else row.(retryCount := k, nextRetryAt := now + policy.retryBaseMs * Pow2(k))
  }

  /** What a reply that ends a processing makes of its row. */
  function Decided(row: Row, reply: Reply, now: int, policy: Policy): Row {
    match reply
    case Rejected(_) => Failed(row)
    case NoAnswer => Delayed(row, now, policy)
    case _ => row
  }

  /** The reply to the last call of a processing decides over its row: a rejection fails it, silence postpones it,
      a CAE leaves it to be completed. */
  lemma LastReplyDecides(w: World, p: Proc, o: Outcome, w': World, q: Proc)
    requires CanTalk(p) && Possible(w.ledger, CallAt(w, p), o) && p.job.Retry?
    requires q == p.(pc := Talk(w, p, o).1) && CanAct(w', q) && AtPc(w', q)
    ensures var id, after := p.job.row.id, Act(w', q).0;
            && id in w'.table.rows && id in after.table.rows
            && after.table.rows[id] == Decided(w'.table.rows[id], Seen(o), w'.now, w'.policy)
  {
    RetryGoesTo(w, p, o);
    hide Talk, CanTalk, CallAt, Possible;
    if q.pc.Recording? { RecordingFate(w', q); RecordingHolds(w', q); } else { PostponedAs(w', q); }
  }

  lemma RetryGoesTo(w: World, p: Proc, o: Outcome)
    requires CanTalk(p) && Possible(w.ledger, CallAt(w, p), o) && p.job.Retry?
    ensures var pc := Talk(w, p, o).1;
            || pc.Attempting? || pc.RecoverConsulting?
            || (pc.Failing? && Seen(o).Rejected?) || (pc.Bumping? && Seen(o).NoAnswer?)
            || (pc.Recording? && (Seen(o).Granted? || Seen(o).Found?))
  {}

  lemma RecordingHolds(w: World, p: Proc)
    requires AtPc(w, p) && p.pc.Recording? && p.job.Retry?
    ensures p.job.row.id in w.table.rows
  {}

  lemma PostponedAs(w: World, p: Proc)
    requires AtPc(w, p) && CanAct(w, p) && p.job.Retry? && (p.pc.Failing? || p.pc.Bumping?)
    ensures var id, after := p.job.row.id, Act(w, p).0;
            && id in w.table.rows && id in after.table.rows
            && after.table.rows[id]
               == if p.pc.Failing? then Failed(w.table.rows[id]) else Delayed(w.table.rows[id], w.now, w.policy)
  {}

  lemma MissingIssuerDecides(w: World, p: Proc, found: bool)
    requires p.job.Retry? && p.pc == (if found then Arriving else FailingOrphan) && CanAct(w, p) && AtPc(w, p)
    ensures var id, after := p.job.row.id, Act(w, p).0;
            && !found && id in w.table.rows && id in after.table.rows
            && after.table.rows[id] == Failed(w.table.rows[id])
  {}

  lemma ExchangeMoves(s: State, e: Event, p: nat)
    requires Enabled(s, e) && e.Exchange? && e.p == p && p < |s.procs|
    ensures p < |Apply(s, e).procs|
    ensures Apply(s, e).procs[p] == s.procs[p].(pc := Talk(s.world, s.procs[p], e.o).1)
    ensures CanTalk(s.procs[p]) && Possible(s.world.ledger, CallAt(s.world, s.procs[p]), e.o)
  {
    hide Talk, CanTalk, CallAt, Possible;
  }

  lemma FindIssuerMoves(s: State, e: Event, p: nat)
    requires Enabled(s, e) && e.FindIssuer? && e.p == p && p < |s.procs|
    ensures p < |Apply(s, e).procs|
    ensures Apply(s, e).procs[p] == s.procs[p].(pc := if e.found then Arriving else FailingOrphan)
  {}

  lemma WorkActs(s: State, p: nat)
    requires Enabled(s, Work(p)) && p < |s.procs|
    ensures CanAct(s.world, s.procs[p]) && Apply(s, Work(p)).world == Act(s.world, s.procs[p]).0
  {
    hide Act, CanAct;
  }

  lemma LocalAt(s: State, p: nat)
    requires Inv(s) && p < |s.procs|
    ensures AtPc(s.world, s.procs[p])
  {
    hide WorldOk, LockOk, BatchOk, RowsSettled, UnkeyedHeld, LiveDistinct, AtPc;
    assert Local(s.world, s.procs[p]);
  }

  /** Over every run, the table step that follows a call of a row's retry, with no step of that retry between:
      if the call was answered with a rejection, the row is failed and its count raised by one; if it got no
      answer, the row is bumped; after a CAE it is left alone.  And the table step that follows the search for
      the row's issuer comes only if the issuer is missing, and fails the row. */
  lemma RepliesDecideTheRow(states: seq<State>, events: seq<Event>, i: nat, j: nat, p: nat, id: nat)
    requires IsRun(states, events) && i < j < |events|
    requires p < |states[i].procs| && RetryOf(states[i].procs[p], id)
    requires (events[i].Exchange? || events[i].FindIssuer?) && events[i].p == p
    requires Standing(events, i + 1, j, p) && events[j] == Work(p)
    ensures var w, w' := states[j].world, states[j + 1].world;
            && id in w.table.rows && id in w'.table.rows
            && match events[i]
               case FindIssuer(_, found) => !found && w'.table.rows[id] == Failed(w.table.rows[id])
               case Exchange(_, o) => w'.table.rows[id] == Decided(w.table.rows[id], Seen(o), w.now, w.policy)
               case _ => true
  {
    hide Inv, Apply, Grows, Decided, Failed, Act, CanAct, Talk, CanTalk, CallAt, Possible, AtPc;
    RunStep(states, events, i);
    RunStep(states, events, j);
    if events[i].Exchange? { ExchangeMoves(states[i], events[i], p); } else { FindIssuerMoves(states[i], events[i], p); }
    StandsStill(states, events, i + 1, j, p);
    LocalAt(states[j], p);
    WorkActs(states[j], p);
    if events[i].Exchange? {
      LastReplyDecides(states[i].world, states[i].procs[p], events[i].o, states[j].world, states[j].procs[p]);
    } else {
      MissingIssuerDecides(states[j].world, states[j].procs[p], events[i].found);
    }
  }

  // How long a row waits ----------------------------------------------------------------------------

  lemma EnqueuedRow(w: World, p: Proc)
    requires CanAct(w, p) && p.pc.Enqueuing? && |w.queued| < |Act(w, p).0.queued|
    ensures var w', id := Act(w, p).0, |w.queued|;
            id in w'.table.rows
            && var row := w'.table.rows[id];
               && row.status == PENDING && row.retryCount == 0 && row.nextRetryAt == w.now + w.policy.retryBaseMs
               && row.issuer == p.issuer && row.key == p.key && row.payload == p.input && row.submission == p.submission
               && row.attemptedNumber == p.pc.attemptedNumber
               && row.attemptedSalesPoint == (if p.pc.attemptedNumber.Some? then Some(p.input.salesPoint) else None)
               && w'.table.rows - {id} == w.table.rows - {id}
  {}

  /** A call that is queued leaves its own sale, its key and the number it asked for last, to be tried after the
      first wait. */
  lemma QueuedRowWaitsTheBase(states: seq<State>, events: seq<Event>, i: nat)
    requires IsRun(states, events) && i < |events|
    requires |states[i].world.queued| < |states[i + 1].world.queued|
    ensures events[i].Work? && events[i].p < |states[i].procs| && states[i].procs[events[i].p].pc.Enqueuing?
    ensures var w, w', id := states[i].world, states[i + 1].world, |states[i].world.queued|;
            var p := states[i].procs[events[i].p];
            id in w'.table.rows
            && var row := w'.table.rows[id];
               && row.status == PENDING && row.retryCount == 0 && row.nextRetryAt == w.now + w.policy.retryBaseMs
               && row.issuer == p.issuer && row.key == p.key && row.payload == p.input && row.submission == p.submission
               && row.attemptedNumber == p.pc.attemptedNumber
               && row.attemptedSalesPoint == (if p.pc.attemptedNumber.Some? then Some(p.input.salesPoint) else None)
               && w'.table.rows - {id} == w.table.rows - {id}
  {
    hide Inv, Grows;
    RunStep(states, events, i);
    var s, e := states[i], events[i];
    if e.Work? {
      if s.procs[e.p].pc.Enqueuing? {
        EnqueuedRow(s.world, s.procs[e.p]);
      } else {
        OthersQueueNothing(s.world, s.procs[e.p]);
      }
      hide Act, CanAct;
    } else {
      hide Act, CanAct, Talk, CanTalk, CallAt, Possible, NewCall, NewRetry, FirstInside, Remove, Rearm;
    }
  }

  /** A failed row that is re-armed is due at once, with all its retries ahead. */
  lemma RearmedRowIsDue(states: seq<State>, events: seq<Event>, i: nat, id: nat)
    requires IsRun(states, events) && i < |events| && events[i] == RearmFailed(id)
    ensures var w, w' := states[i].world, states[i + 1].world;
            && id in w.table.rows && w.table.rows[id].status == FAILED
            && w'.table.rows == w.table.rows[id := w.table.rows[id].(
                 status := PENDING, retryCount := 0, nextRetryAt := w.now)]
  {
    hide Inv, Grows;
    RunStep(states, events, i);
  }

  lemma Postponed(t: Table, pending: Row, now: int, policy: Policy)
    requires pending.id in t.rows && BumpRow(t, pending, now, policy).rows[pending.id].status == PENDING
    ensures var row := BumpRow(t, pending, now, policy).rows[pending.id];
            row.retryCount == pending.retryCount + 1 && row.nextRetryAt == now + policy.retryBaseMs * Pow2(row.retryCount)
  {}

  lemma Doubling(n: nat)
    ensures Pow2(0) == 1 && Pow2(n + 1) == Pow2(n) + Pow2(n)
  {}

  /** The k-th bump of a row since it was queued or re-armed, unless it is the last, makes the row wait the base
      doubled k times: the first 2 * base, each later one twice the one before. */
  lemma TheKthWait(states: seq<State>, events: seq<Event>, i: nat, j: nat, id: nat)
    requires IsRun(states, events) && i <= j < |events|
    requires id in states[i].world.table.rows && states[i].world.table.rows[id].retryCount == 0
    requires forall k | i <= k <= j :: events[k] != RearmFailed(id)
    requires BumpsRow(states[j], events[j], id)
    requires id in states[j + 1].world.table.rows && states[j + 1].world.table.rows[id].status == PENDING
    ensures var k, policy := Bumps(states, events, i, j + 1, id), states[j].world.policy;
            var row := states[j + 1].world.table.rows[id];
            && row.retryCount == k >= 1
            && row.nextRetryAt == states[j].world.now + policy.retryBaseMs * Pow2(k)
            && Pow2(k) == 2 * Pow2(k - 1) && Pow2(0) == 1
  {
    hide Inv, Grows, Enabled, Apply, BumpRow, Fate;
    RunStep(states, events, j);
    BumpingIsHeld(states[j], events[j], id);
    RetriesAreCounted(states, events, i, j + 1, id);
    Postponed(states[j].world.table, states[j].procs[events[j].p].job.row, states[j].world.now, states[j].world.policy);
    Doubling(Bumps(states, events, i, j, id));
  }

  // A reply and what comes next ---------------------------------------------------------------------

  /** No answer, or a rejection other than "duplicate number" to the first request. */
  predicate EndsTheTalk(p: Proc, reply: Reply) {
    || reply.NoAnswer?
    || (reply.Rejected? && !(p.pc.Attempting? && p.pc.attempt.Requesting? && DUPLICATE_NUMBER in reply.codes))
  }

  /** The number a call to ARCA is about. */
  function NumberOf(call: Call): Option<int> {
    match call
    case RequestCae(_, number, _) => Some(number)
    case Consult(_, number) => Some(number)
    case _ => None
  }

  /** After such a reply nothing more is asked: a call is answered "rejected", or about to be queued with the
      number in flight; a retry is about to change its row. */
  lemma SuchAReplyEndsIt(states: seq<State>, events: seq<Event>, i: nat, p: nat, o: Outcome)
    requires IsRun(states, events) && i < |events| && events[i] == Exchange(p, o) && p < |states[i].procs|
    requires EndsTheTalk(states[i].procs[p], Seen(o))
    ensures p < |states[i + 1].procs|
    ensures var proc, q := states[i].procs[p], states[i + 1].procs[p];
            && CanTalk(proc) && !CanTalk(q) && !q.pc.Ended?
            && (proc.job.Request? && Seen(o).Rejected? ==> q.pc == Leaving(RejectedByArca))
            && (proc.job.Request? && Seen(o).NoAnswer? ==>
                  && q.pc.Enqueuing?
                  && var call := CallAt(states[i].world, proc);
                     (NumberOf(call).Some? || call.Authenticate? ==> q.pc.attemptedNumber == NumberOf(call)))
            && (proc.job.Retry? ==> CanAct(states[i + 1].world, q) && !q.pc.Recording?)
  {
    hide Inv, Apply, Grows, Act, CanAct, Talk, CanTalk, CallAt, Possible, AtPc, EndsTheTalk;
    RunStep(states, events, i);
    LocalAt(states[i], p);
    ExchangeMoves(states[i], events[i], p);
    LocalAt(states[i + 1], p);
    EndOfTalk(states[i].world, states[i].procs[p], o, states[i + 1].world, states[i + 1].procs[p]);
  }

  lemma EndOfTalk(w: World, p: Proc, o: Outcome, w': World, q: Proc)
    requires CanTalk(p) && Possible(w.ledger, CallAt(w, p), o) && EndsTheTalk(p, Seen(o)) && AtPc(w, p)
    requires q == p.(pc := Talk(w, p, o).1) && AtPc(w', q)
    ensures !CanTalk(q) && !q.pc.Ended?
    ensures p.job.Request? && Seen(o).Rejected? ==> q.pc == Leaving(RejectedByArca)
    ensures p.job.Request? && Seen(o).NoAnswer? ==>
              && q.pc.Enqueuing?
              && (NumberOf(CallAt(w, p)).Some? || CallAt(w, p).Authenticate? ==>
                    q.pc.attemptedNumber == NumberOf(CallAt(w, p)))
    ensures p.job.Retry? ==> CanAct(w', q) && !q.pc.Recording?
  {}

  // An answer and its voucher -----------------------------------------------------------------------

  /** Whoever is answered "issued" is told the stored voucher's own type, sales point, number, CAE and amounts,
      and the number and CAE are those of ARCA's entry; a call without a key is told of its own sale. */
  lemma AnswersTellTheVoucher(states: seq<State>, events: seq<Event>, j: nat, p: nat)
    requires IsRun(states, events) && j < |states| && p < |states[j].procs|
    requires states[j].procs[p].pc.Ended? && states[j].procs[p].pc.answer.Issued?
    ensures var w, proc, told := states[j].world, states[j].procs[p], states[j].procs[p].pc.answer.voucher;
            && told.id < |w.vouchers|
            && var v := w.vouchers[told.id];
               var series := SeriesOf(w.cuits, v.issuer, v.input);
               && told.voucherType == v.input.voucherType && told.salesPoint == v.input.salesPoint
               && told.net == v.input.amounts.net && told.iva == v.input.amounts.iva
               && told.total == v.input.amounts.total
               && v.issuer == proc.issuer && v.key == proc.key
               && (!HasText(proc.key) ==> v.input == proc.input && v.submission == proc.submission)
               && told.number == v.number && Has(w.ledger, series, told.number)
               && told.cae == At(w.ledger, series, told.number).cae
  {
    hide Inv, AtPc;
    RunKeepsInv(states, events, j);
    LocalAt(states[j], p);
    var id := states[j].procs[p].pc.answer.voucher.id;
    AnsweredAt(states[j].world, states[j].procs[p]);
    RecordedIsWhatArcaHolds(states, events, j, id);
    hide IsRun;
  }

  lemma AnsweredAt(w: World, p: Proc)
    requires AtPc(w, p) && p.pc.Ended?
    ensures AnswerIsStored(w, p, p.pc.answer)
  {}
}
