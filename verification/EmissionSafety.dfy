/** The invariant of the whole emission system, kept by every event of every run. */
module EmissionSafety {
  import opened Common
  import opened Arca
  import opened CaeRequest
  import opened PendingQueue
  import opened Emission
  import opened EmissionInvariant
  import opened EmissionSteps
  import opened EmissionTalk
  import IssuerLock

  // Who holds what --------------------------------------------------------------------------------

  predicate Queues(p: Proc) {
    p.pc.AwaitingTurn? || Inside(p.pc)
  }

  /** A process waiting for its turn, or inside, stands in the lock under its issuer. */
  ghost predicate TicketOk(p: Proc, lock: IssuerLock.Lock) {
    Queues(p) ==>
      && p.ticket < |lock.tickets| && lock.tickets[p.ticket].key == p.issuer
      && lock.tickets[p.ticket].phase == if Inside(p.pc) then IssuerLock.Running else IssuerLock.Waiting
  }

  /** An unfinished ticket is the ticket of a process that waits or is inside. */
  ghost predicate TicketsHeld(procs: seq<Proc>, lock: IssuerLock.Lock) {
    forall t | 0 <= t < |lock.tickets| && lock.tickets[t].phase != IssuerLock.Done ::
      exists p :: 0 <= p < |procs| && Queues(procs[p]) && procs[p].ticket == t
  }

  ghost predicate LockOk(procs: seq<Proc>, lock: IssuerLock.Lock) {
    && IssuerLock.Inv(lock) && TicketsHeld(procs, lock)
    && (forall p | 0 <= p < |procs| :: TicketOk(procs[p], lock))
    && (forall p, q | 0 <= p < q < |procs| && Queues(procs[p]) && Queues(procs[q]) ::
          procs[p].ticket != procs[q].ticket)
  }

  /** The scheduler works on one row at a time, and what it read stays true until it gets to it. */
  ghost predicate BatchOk(rows: map<nat, Row>, now: int, procs: seq<Proc>, batch: Batch) {
    && (forall p | 0 <= p < |procs| && procs[p].job.Retry? && !procs[p].pc.Ended? ::
          batch.Active? && batch.current == Some(p))
    && (batch.Active? ==>
          && (forall i | 0 <= i < |batch.remaining| ::
                && batch.remaining[i].id in rows && rows[batch.remaining[i].id] == batch.remaining[i]
                && Due(batch.remaining[i], now))
          && (forall i, j | 0 <= i < j < |batch.remaining| :: batch.remaining[i].id != batch.remaining[j].id)
          && (batch.current.Some? ==>
                && batch.current.value < |procs|
                && procs[batch.current.value].job.Retry? && !procs[batch.current.value].pc.Ended?
                && forall i | 0 <= i < |batch.remaining| ::
                     batch.remaining[i].id != procs[batch.current.value].job.row.id))
  }

  ghost predicate LiveDistinct(procs: seq<Proc>) {
    forall p, q | 0 <= p < q < |procs| && Live(procs[p]) && Live(procs[q]) ::
      procs[p].submission != procs[q].submission
  }

  predicate Finishing(p: Proc, id: nat) {
    p.job.Retry? && p.job.row.id == id && (p.pc.Keying? || p.pc.Completing?)
  }

  /** A stored row is still to be completed, or being completed right now. */
  ghost predicate RowsSettled(w: World, procs: seq<Proc>) {
    forall id | id in w.table.rows ::
      Unfinished(w.vouchers, w.records, w.table.rows[id]) || exists p :: 0 <= p < |procs| && Finishing(procs[p], id)
  }

  /** A voucher without its record is in the hands of a process inside its issuer's lock. */
  ghost predicate UnkeyedHeld(vouchers: seq<Voucher>, unkeyed: set<nat>, procs: seq<Proc>) {
    forall v | v in unkeyed ::
      v < |vouchers|
      && exists p :: 0 <= p < |procs| && procs[p].pc == Keying(v) && procs[p].issuer == vouchers[v].issuer
  }

  ghost predicate AllLocal(w: World, procs: seq<Proc>) {
    forall p | 0 <= p < |procs| :: Local(w, procs[p])
  }

  ghost predicate Inv(s: State) {
    && WorldOk(s.world)
    && AllLocal(s.world, s.procs)
    && LockOk(s.procs, s.lock)
    && BatchOk(s.world.table.rows, s.world.now, s.procs, s.batch)
    && LiveDistinct(s.procs)
    && RowsSettled(s.world, s.procs)
    && UnkeyedHeld(s.world.vouchers, s.world.unkeyed, s.procs)
  }

  lemma InitInv(s: State)
    requires Init(s)
    ensures Inv(s)
  {}

  /** At most one process is inside the lock of an issuer. */
  lemma OneInside(procs: seq<Proc>, lock: IssuerLock.Lock, p: nat, q: nat)
    requires LockOk(procs, lock) && p < |procs| && q < |procs| && p != q
    requires Inside(procs[p].pc) && Inside(procs[q].pc)
    ensures procs[p].issuer != procs[q].issuer
  {
    if procs[p].issuer == procs[q].issuer {
      assert TicketOk(procs[p], lock) && TicketOk(procs[q], lock);
      var t, u := procs[p].ticket, procs[q].ticket;
      assert t != u;
      assert IssuerLock.SameKey(lock, t, u) && IssuerLock.SameKey(lock, u, t);
    }
  }

  lemma AllApart(s: State, p: nat, q: nat)
    requires Inv(s) && p < |s.procs| && q < |s.procs| && p != q
    ensures Apart(s.procs[p], s.procs[q])
  {
    hide WorldOk, AllLocal, RowsSettled, UnkeyedHeld, IssuerLock.Inv, TicketOk;
    if Inside(s.procs[p].pc) && Inside(s.procs[q].pc) { OneInside(s.procs, s.lock, p, q); }
  }

  // Steps of one process -----------------------------------------------------------------------------

  /** The others keep what they know while p moves. */
  lemma MoveKeepsLocal(s: State, p: nat, w': World, pc: Pc)
    requires Inv(s) && p < |s.procs| && Live(s.procs[p])
    requires Guarantee(s.world, w', s.procs[p]) && Local(w', s.procs[p].(pc := pc))
    ensures AllLocal(w', s.procs[p := s.procs[p].(pc := pc)])
  {
    hide WorldOk, Local, Guarantee, Rely, LockOk, BatchOk, LiveDistinct, RowsSettled, UnkeyedHeld, Apart;
    var procs := s.procs[p := s.procs[p].(pc := pc)];
    forall q | 0 <= q < |procs| ensures Local(w', procs[q]) {
      if q != p {
        AllApart(s, p, q);
        GuaranteeGivesRely(s.world, w', s.procs[p], s.procs[q]);
        LocalStable(s.world, w', s.procs[q]);
      }
    }
  }

  predicate SameStance(pc: Pc, pc': Pc) {
    (Inside(pc) <==> Inside(pc')) && !pc.AwaitingTurn? && !pc'.AwaitingTurn?
  }

  /** The tickets still held after process p has become q: those of the others, and q's own. */
  lemma MoveKeepsHeld(procs: seq<Proc>, lock: IssuerLock.Lock, lock': IssuerLock.Lock, p: nat, q: Proc)
    requires TicketsHeld(procs, lock) && p < |procs|
    requires forall t | 0 <= t < |lock'.tickets| && lock'.tickets[t].phase != IssuerLock.Done ::
               || (Queues(q) && q.ticket == t)
               || (t < |lock.tickets| && lock.tickets[t].phase != IssuerLock.Done
                   && !(Queues(procs[p]) && procs[p].ticket == t))
    ensures TicketsHeld(procs[p := q], lock')
  {
    var procs' := procs[p := q];
    forall t | 0 <= t < |lock'.tickets| && lock'.tickets[t].phase != IssuerLock.Done
      ensures exists r :: 0 <= r < |procs'| && Queues(procs'[r]) && procs'[r].ticket == t
    {
      if Queues(q) && q.ticket == t {
        assert procs'[p] == q;
      } else {
        var r :| 0 <= r < |procs| && Queues(procs[r]) && procs[r].ticket == t;
        assert procs'[r] == procs[r];
      }
    }
  }

  lemma MoveKeepsLock(procs: seq<Proc>, lock: IssuerLock.Lock, p: nat, pc: Pc)
    requires LockOk(procs, lock) && p < |procs| && SameStance(procs[p].pc, pc)
    ensures LockOk(procs[p := procs[p].(pc := pc)], lock)
  {
    hide TicketsHeld, IssuerLock.Inv;
    MoveKeepsHeld(procs, lock, lock, p, procs[p].(pc := pc));
  }

  lemma MoveKeepsDistinct(procs: seq<Proc>, p: nat, pc: Pc)
    requires LiveDistinct(procs) && p < |procs| && Live(procs[p])
    ensures LiveDistinct(procs[p := procs[p].(pc := pc)])
  {}

  /** Another row's step does not invalidate the rows still to be processed. */
  lemma MoveKeepsBatch(s: State, p: nat, w': World, q: Proc)
    requires BatchOk(s.world.table.rows, s.world.now, s.procs, s.batch) && p < |s.procs| && !s.procs[p].pc.Ended?
    requires Guarantee(s.world, w', s.procs[p]) && q.job == s.procs[p].job
    ensures BatchOk(w'.table.rows, w'.now, s.procs[p := q], BatchAfter(s.batch, q))
  {}

  function BatchAfter(batch: Batch, q: Proc): Batch {
    if q.job.Retry? && q.pc.Ended? then AfterRetry(batch, q.pc.answer) else batch
  }


  // Vouchers still being recorded or completed --------------------------------------------------------

  /** What a step must do to the rows: leave those of others as unfinished as they were, and its own
      too unless it is finishing it. */
  ghost predicate Settles(w: World, w': World, p: Proc, q: Proc, id: nat)
    requires id in w'.table.rows
  {
    || Finishing(q, id)
    || Unfinished(w'.vouchers, w'.records, w'.table.rows[id])
    || (!Finishing(p, id) && id in w.table.rows && !Unfinished(w.vouchers, w.records, w.table.rows[id]))
  }

  lemma StepKeepsSettled(w: World, w': World, procs: seq<Proc>, p: nat, q: Proc)
    requires p < |procs| && RowsSettled(w, procs)
    requires forall id | id in w'.table.rows :: Settles(w, w', procs[p], q, id)
    ensures RowsSettled(w', procs[p := q])
  {
    hide Unfinished;
    var procs' := procs[p := q];
    forall id | id in w'.table.rows && !Unfinished(w'.vouchers, w'.records, w'.table.rows[id])
      ensures exists r :: 0 <= r < |procs'| && Finishing(procs'[r], id)
    {
      assert Settles(w, w', procs[p], q, id);
      if Finishing(q, id) {
        assert Finishing(procs'[p], id);
      } else {
        var r :| 0 <= r < |procs| && Finishing(procs[r], id);
        assert procs'[r] == procs[r];
      }
    }
  }

  lemma RecordSettles(w: World, p: Proc, id: nat)
    requires p.pc.Recording? && id in w.table.rows && w.table.rows[id].id == id
    ensures Settles(w, RecordVoucher(w, p).0, p, p.(pc := RecordVoucher(w, p).1), id)
  {}

  lemma KeyingSettles(w: World, p: Proc, id: nat)
    requires Local(w, p) && p.pc.Keying? && id in w.table.rows && w.table.rows[id].id == id
    ensures Settles(w, RecordKey(w, p).0, p, p.(pc := RecordKey(w, p).1), id)
  {}

  lemma CompletingSettles(w: World, p: Proc, id: nat)
    requires p.pc.Completing? && CanAct(w, p) && id in Complete(w, p).0.table.rows
    ensures Settles(w, Complete(w, p).0, p, p.(pc := Complete(w, p).1), id)
  {}

  lemma SourcesAreQueued(w: World, id: nat)
    requires VouchersOk(w.vouchers, w.ledger, w.cuits, w.queued) && Sourced(w.vouchers, id)
    ensures id < |w.queued|
  {}

  lemma EnqueueSettles(w: World, p: Proc, id: nat)
    requires VouchersOk(w.vouchers, w.ledger, w.cuits, w.queued) && RecordsOk(w.records, w.vouchers, w.unkeyed)
    requires p.pc.Enqueuing? && id in Enqueue(w, p).0.table.rows
    ensures Settles(w, Enqueue(w, p).0, p, p.(pc := Enqueue(w, p).1), id)
  {
    if id == |w.queued| {
      hide VouchersOk;
      assert !Sourced(w.vouchers, id) by { if Sourced(w.vouchers, id) { SourcesAreQueued(w, id); } }
      var row := Enqueue(w, p).0.table.rows[id];
      if id !in w.table.rows && KeyRecorded(w.records, row.issuer, row.key) {
        var r := w.records[(row.issuer, row.key.value)];
        assert w.vouchers[r].source == Some(id) ==> Sourced(w.vouchers, id);
      }
    }
  }

  lemma PostponingSettles(w: World, p: Proc, id: nat)
    requires RowsOk(w.table, w.queued, w.now, w.policy) && Local(w, p) && Postponing(p.pc) && CanAct(w, p)
    requires id in Postpone(w, p).0.table.rows
    ensures Settles(w, Postpone(w, p).0, p, p.(pc := Postpone(w, p).1), id)
  {
    HeldRow(w, p);
    hide RowsOk, Postpone, Postponed, OnSchedule, Local, CanAct, Unfinished;
    PostponedRow(w, p);
    SameRowUnfinished(w, p.job.row, Postponed(w, p));
  }

  lemma HeldRow(w: World, p: Proc)
    requires RowsOk(w.table, w.queued, w.now, w.policy) && Local(w, p) && Postponing(p.pc)
    ensures Holds(w, p) && OnSchedule(p.job.row, w.now, w.policy)
  {}

  lemma SameRowUnfinished(w: World, row: Row, other: Row)
    requires SameOrigin(other, row)
    ensures Unfinished(w.vouchers, w.records, row) <==> Unfinished(w.vouchers, w.records, other)
  {}

  lemma ActSettles(w: World, p: Proc, id: nat)
    requires WorldOk(w) && Local(w, p) && CanAct(w, p) && id in Act(w, p).0.table.rows
    ensures Settles(w, Act(w, p).0, p, p.(pc := Act(w, p).1), id)
  {
    RowNamed(w, id);
    hide RowsOk, QueuedOk, LedgerOk, AllNumbersOk, VouchersOk, IndexOk, AccountsOk, RecordsOk, RowVouchersOk, CompletedOk;
    hide OnePerKey, Recorded, WaitingAlone, Settles, Local, Act, RecordVoucher, RecordKey, Complete, Enqueue, Postpone;
    var q := p.(pc := Act(w, p).1);
    match p.pc
    case Recording(_, _, _) =>
      RecordedTable(w, p);
      RecordSettles(w, p, id);
    case Keying(_) =>
      RecordedTable(w, p);
      KeyingSettles(w, p, id);
    case Completing(_) => CompletingSettles(w, p, id);
    case Enqueuing(_) => EnqueueSettles(w, p, id);
    case Bumping => PostponingSettles(w, p, id);
    case Failing => PostponingSettles(w, p, id);
    case FailingOrphan => PostponingSettles(w, p, id);
    case _ => NothingUnsettles(w, p, q, id);
  }

  lemma RowNamed(w: World, id: nat)
    requires RowsOk(w.table, w.queued, w.now, w.policy)
    ensures id in w.table.rows ==> w.table.rows[id].id == id
  {}

  lemma RecordedTable(w: World, p: Proc)
    requires CanAct(w, p) && (p.pc.Recording? || p.pc.Keying?)
    ensures Act(w, p).0.table == w.table
  {}

  lemma NothingUnsettles(w: World, p: Proc, q: Proc, id: nat)
    requires id in w.table.rows && !p.pc.Keying? && !p.pc.Completing?
    ensures Settles(w, w, p, q, id)
  {}

  lemma ActKeepsSettled(w: World, procs: seq<Proc>, p: nat)
    requires p < |procs| && WorldOk(w) && Local(w, procs[p]) && CanAct(w, procs[p]) && RowsSettled(w, procs)
    ensures RowsSettled(Act(w, procs[p]).0, procs[p := procs[p].(pc := Act(w, procs[p]).1)])
  {
    hide WorldOk, Local, CanAct, Act, Settles, RowsSettled;
    var (w', pc) := Act(w, procs[p]);
    forall id | id in w'.table.rows ensures Settles(w, w', procs[p], procs[p].(pc := pc), id) {
      ActSettles(w, procs[p], id);
    }
    StepKeepsSettled(w, w', procs, p, procs[p].(pc := pc));
  }

  lemma ActKeepsUnkeyed(w: World, procs: seq<Proc>, p: nat)
    requires p < |procs| && CanAct(w, procs[p]) && UnkeyedHeld(w.vouchers, w.unkeyed, procs)
    ensures UnkeyedHeld(Act(w, procs[p]).0.vouchers, Act(w, procs[p]).0.unkeyed,
                        procs[p := procs[p].(pc := Act(w, procs[p]).1)])
  {
    var proc := procs[p];
    if proc.pc.Recording? {
      RecordKeepsUnkeyed(w, procs, p);
    } else {
      OtherActsCreateNothing(w, proc);
      hide Act, CanAct;
      StepKeepsUnkeyed(w.vouchers, w.unkeyed, Act(w, proc).0.unkeyed, procs, p, proc.(pc := Act(w, proc).1));
    }
  }

  lemma OtherActsCreateNothing(w: World, p: Proc)
    requires CanAct(w, p) && !p.pc.Recording?
    ensures Act(w, p).0.vouchers == w.vouchers
    ensures Act(w, p).0.unkeyed == w.unkeyed - if p.pc.Keying? then {p.pc.voucher} else {}
  {}

  lemma RecordKeepsUnkeyed(w: World, procs: seq<Proc>, p: nat)
    requires p < |procs| && procs[p].pc.Recording?
    requires UnkeyedHeld(w.vouchers, w.unkeyed, procs)
    ensures UnkeyedHeld(RecordVoucher(w, procs[p]).0.vouchers, RecordVoucher(w, procs[p]).0.unkeyed,
                        procs[p := procs[p].(pc := RecordVoucher(w, procs[p]).1)])
  {
    var (w', pc) := RecordVoucher(w, procs[p]);
    var procs' := procs[p := procs[p].(pc := pc)];
    forall v | v in w'.unkeyed
      ensures v < |w'.vouchers|
      ensures exists q :: 0 <= q < |procs'| && procs'[q].pc == Keying(v) && procs'[q].issuer == w'.vouchers[v].issuer
    {
      if v in w.unkeyed {
        var q :| 0 <= q < |procs| && procs[q].pc == Keying(v) && procs[q].issuer == w.vouchers[v].issuer;
        assert procs'[q] == procs[q];
      } else {
        assert procs'[p].pc == Keying(v) && procs'[p].issuer == w'.vouchers[v].issuer;
      }
    }
  }

  lemma StepKeepsUnkeyed(
      vouchers: seq<Voucher>, unkeyed: set<nat>, unkeyed': set<nat>, procs: seq<Proc>, p: nat, q: Proc)
    requires p < |procs| && UnkeyedHeld(vouchers, unkeyed, procs) && unkeyed' <= unkeyed
    requires procs[p].pc.Keying? ==> procs[p].pc.voucher !in unkeyed'
    ensures UnkeyedHeld(vouchers, unkeyed', procs[p := q])
  {
    var procs' := procs[p := q];
    forall v | v in unkeyed'
      ensures exists r :: 0 <= r < |procs'| && procs'[r].pc == Keying(v) && procs'[r].issuer == vouchers[v].issuer
    {
      var r :| 0 <= r < |procs| && procs[r].pc == Keying(v) && procs[r].issuer == vouchers[v].issuer;
      assert procs'[r] == procs[r];
    }
  }

  // Every event ---------------------------------------------------------------------------------------

  lemma MoveKeepsInv(s: State, p: nat, w': World, pc: Pc)
    requires Inv(s) && p < |s.procs| && Live(s.procs[p]) && SameStance(s.procs[p].pc, pc)
    requires WorldOk(w') && Local(w', s.procs[p].(pc := pc)) && Guarantee(s.world, w', s.procs[p])
    requires RowsSettled(w', s.procs[p := s.procs[p].(pc := pc)])
    requires UnkeyedHeld(w'.vouchers, w'.unkeyed, s.procs[p := s.procs[p].(pc := pc)])
    ensures Inv(Moved(s, p, (w', pc)))
  {
    MoveKeepsLocal(s, p, w', pc);
    MoveKeepsLock(s.procs, s.lock, p, pc);
    MoveKeepsDistinct(s.procs, p, pc);
    hide WorldOk, Local, AllLocal, LockOk, LiveDistinct, RowsSettled, UnkeyedHeld;
    MoveKeepsBatch(s, p, w', s.procs[p].(pc := pc));
    hide Guarantee, BatchOk;
  }

  lemma ActStance(w: World, p: Proc)
    requires CanAct(w, p)
    ensures Live(p) && SameStance(p.pc, Act(w, p).1)
  {}

  lemma WorkKeepsInv(s: State, p: nat)
    requires Inv(s) && p < |s.procs| && CanAct(s.world, s.procs[p])
    ensures Inv(Moved(s, p, Act(s.world, s.procs[p])))
  {
    var proc := s.procs[p];
    ActStance(s.world, proc);
    assert Local(s.world, proc);
    hide WorldOk, AllLocal, LockOk, BatchOk, LiveDistinct, RowsSettled, UnkeyedHeld, Guarantee, AtPc, SameStance;
    hide Act, CanAct;
    var (w', pc) := Act(s.world, proc);
    ActWorld(s.world, proc);
    ActLocal(s.world, proc);
    ActOrigin(s.world, proc);
    ActGuarantee(s.world, proc);
    ActKeepsSettled(s.world, s.procs, p);
    ActKeepsUnkeyed(s.world, s.procs, p);
    MoveKeepsInv(s, p, w', pc);
  }

  lemma TalkStance(w: World, p: Proc, o: Outcome)
    requires CanTalk(p)
    ensures Live(p) && SameStance(p.pc, Talk(w, p, o).1) && !p.pc.Keying? && !p.pc.Completing?
    ensures Talk(w, p, o).0 == w.(ledger := Talk(w, p, o).0.ledger)
  {}

  lemma TalkOrigin(w: World, p: Proc, o: Outcome)
    requires OriginOk(w.queued, w.calls, p) && CanTalk(p)
    ensures OriginOk(Talk(w, p, o).0.queued, Talk(w, p, o).0.calls, p.(pc := Talk(w, p, o).1))
  {}

  lemma ExchangeKeepsInv(s: State, p: nat, o: Outcome)
    requires Inv(s) && p < |s.procs| && CanTalk(s.procs[p])
    requires Possible(s.world.ledger, CallAt(s.world, s.procs[p]), o)
    ensures Inv(Moved(s, p, Talk(s.world, s.procs[p], o)))
  {
    var proc := s.procs[p];
    assert Local(s.world, proc);
    TalkStance(s.world, proc, o);
    TalkOrigin(s.world, proc, o);
    hide WorldOk, AllLocal, LockOk, BatchOk, LiveDistinct, RowsSettled, UnkeyedHeld, Guarantee, AtPc, OriginOk;
    hide SameStance, Talk, CanTalk, Possible, CallAt;
    var (w', pc) := Talk(s.world, proc, o);
    TalkWorld(s.world, proc, o);
    TalkLocal(s.world, proc, o);
    TalkGuarantee(s.world, proc, o);
    forall id | id in w'.table.rows ensures Settles(s.world, w', proc, proc.(pc := pc), id) {
      NothingUnsettles(s.world, proc, proc.(pc := pc), id);
    }
    StepKeepsSettled(s.world, w', s.procs, p, proc.(pc := pc));
    StepKeepsUnkeyed(s.world.vouchers, s.world.unkeyed, s.world.unkeyed, s.procs, p, proc.(pc := pc));
    MoveKeepsInv(s, p, w', pc);
  }

  // Into and out of the lock ----------------------------------------------------------------------------

  lemma ArriveKeepsLock(procs: seq<Proc>, lock: IssuerLock.Lock, p: nat)
    requires LockOk(procs, lock) && p < |procs| && !Queues(procs[p])
    ensures LockOk(procs[p := procs[p].(ticket := |lock.tickets|, pc := AwaitingTurn)],
                   IssuerLock.Arrive(lock, procs[p].issuer))
  {
    IssuerLock.ArriveKeepsInv(lock, procs[p].issuer);
    hide IssuerLock.Inv, TicketsHeld;
    MoveKeepsHeld(procs, lock, IssuerLock.Arrive(lock, procs[p].issuer), p,
                  procs[p].(ticket := |lock.tickets|, pc := AwaitingTurn));
  }

  lemma EnterKeepsLock(procs: seq<Proc>, lock: IssuerLock.Lock, p: nat, pc: Pc)
    requires LockOk(procs, lock) && p < |procs| && procs[p].pc.AwaitingTurn? && Inside(pc)
    requires IssuerLock.CanEnter(lock, procs[p].ticket)
    ensures LockOk(procs[p := procs[p].(pc := pc)], IssuerLock.Enter(lock, procs[p].ticket))
  {
    IssuerLock.EnterKeepsInv(lock, procs[p].ticket);
    hide IssuerLock.Inv, TicketsHeld, IssuerLock.CanEnter;
    MoveKeepsHeld(procs, lock, IssuerLock.Enter(lock, procs[p].ticket), p, procs[p].(pc := pc));
  }

  lemma LeaveKeepsLock(procs: seq<Proc>, lock: IssuerLock.Lock, p: nat, pc: Pc)
    requires LockOk(procs, lock) && p < |procs| && Inside(procs[p].pc) && !Inside(pc) && !pc.AwaitingTurn?
    requires IssuerLock.CanLeave(lock, procs[p].ticket)
    ensures LockOk(procs[p := procs[p].(pc := pc)], IssuerLock.Leave(lock, procs[p].ticket))
  {
    IssuerLock.LeaveKeepsInv(lock, procs[p].ticket);
    hide IssuerLock.Inv, TicketsHeld;
    MoveKeepsHeld(procs, lock, IssuerLock.Leave(lock, procs[p].ticket), p, procs[p].(pc := pc));
  }

  lemma StandingChangesNothing(w: World, p: Proc)
    ensures Guarantee(w, w, p)
  {}

  lemma StandKeepsLocal(s: State, p: nat, q: Proc)
    requires AllLocal(s.world, s.procs) && p < |s.procs| && q == s.procs[p].(ticket := q.ticket, pc := q.pc)
    requires AtPc(s.world, q)
    ensures AllLocal(s.world, s.procs[p := q])
  {
    assert Local(s.world, s.procs[p]);
    hide AtPc;
  }

  /** A process changed its program point and its place in the lock, and the world did not move. */
  lemma StandKeepsInv(s: State, p: nat, q: Proc, lock: IssuerLock.Lock)
    requires Inv(s) && p < |s.procs| && !s.procs[p].pc.Ended? && !s.procs[p].pc.Keying? && !s.procs[p].pc.Completing?
    requires q == s.procs[p].(ticket := q.ticket, pc := q.pc) && (Live(q) ==> Live(s.procs[p]))
    requires AtPc(s.world, q) && LockOk(s.procs[p := q], lock)
    ensures Inv(State(s.world, s.procs[p := q], lock, BatchAfter(s.batch, q)))
  {
    hide WorldOk, AllLocal, AtPc, LockOk, BatchOk, Guarantee, RowsSettled, UnkeyedHeld;
    StandKeepsLocal(s, p, q);
    StandingChangesNothing(s.world, s.procs[p]);
    MoveKeepsBatch(s, p, s.world, q);
    forall id | id in s.world.table.rows ensures Settles(s.world, s.world, s.procs[p], q, id) {
      NothingUnsettles(s.world, s.procs[p], q, id);
    }
    StepKeepsSettled(s.world, s.world, s.procs, p, q);
    StepKeepsUnkeyed(s.world.vouchers, s.world.unkeyed, s.world.unkeyed, s.procs, p, q);
  }

  lemma ArriveKeepsInv(s: State, p: nat)
    requires Inv(s) && Enabled(s, Event.Arrive(p))
    ensures Inv(Apply(s, Event.Arrive(p)))
  {
    var q := s.procs[p].(ticket := |s.lock.tickets|, pc := AwaitingTurn);
    ArriveKeepsLock(s.procs, s.lock, p);
    hide WorldOk, LockOk, BatchOk, RowsSettled, UnkeyedHeld, LiveDistinct, AtPc;
    assert Local(s.world, s.procs[p]);
    ArrivedLocal(s.world, s.procs[p], |s.lock.tickets|);
    StandKeepsInv(s, p, q, IssuerLock.Arrive(s.lock, s.procs[p].issuer));
  }

  lemma ArrivedLocal(w: World, p: Proc, ticket: nat)
    requires AtPc(w, p) && p.pc.Arriving?
    ensures AtPc(w, p.(ticket := ticket, pc := AwaitingTurn))
  {}

  lemma StandingLocal(w: World, p: Proc, pc: Pc)
    requires AtPc(w, p)
    requires match p.pc
             case Leaving(answer) => pc == Ended(answer)
             case FindingIssuer => pc == Arriving || pc == FailingOrphan
             case Arriving => pc == AwaitingTurn
             case _ => false
    ensures AtPc(w, p.(pc := pc))
  {}

  lemma LeaveKeepsInv(s: State, p: nat)
    requires Inv(s) && p < |s.procs| && s.procs[p].pc.Leaving? && IssuerLock.CanLeave(s.lock, s.procs[p].ticket)
    ensures Inv(Moved(s, p, (s.world, Ended(s.procs[p].pc.answer))).(lock := IssuerLock.Leave(s.lock, s.procs[p].ticket)))
  {
    var q := s.procs[p].(pc := Ended(s.procs[p].pc.answer));
    LeaveKeepsLock(s.procs, s.lock, p, q.pc);
    hide WorldOk, LockOk, BatchOk, RowsSettled, UnkeyedHeld, LiveDistinct;
    assert Local(s.world, s.procs[p]);
    hide AtPc;
    StandingLocal(s.world, s.procs[p], q.pc);
    StandKeepsInv(s, p, q, IssuerLock.Leave(s.lock, s.procs[p].ticket));
  }

  lemma FindIssuerKeepsInv(s: State, p: nat, found: bool)
    requires Inv(s) && p < |s.procs| && s.procs[p].pc.FindingIssuer?
    ensures Inv(Moved(s, p, (s.world, if found then Arriving else FailingOrphan)))
  {
    var q := s.procs[p].(pc := if found then Arriving else FailingOrphan);
    MoveKeepsLock(s.procs, s.lock, p, q.pc);
    hide WorldOk, LockOk, BatchOk, RowsSettled, UnkeyedHeld, LiveDistinct;
    assert Local(s.world, s.procs[p]);
    hide AtPc;
    StandingLocal(s.world, s.procs[p], q.pc);
    StandKeepsInv(s, p, q, s.lock);
  }

  /** Entering the lock, nobody else is writing a record for the issuer: the second replay sees all. */
  lemma NobodyElseIsKeying(s: State, p: nat, pc: Pc)
    requires Inv(s) && p < |s.procs| && s.procs[p].pc.AwaitingTurn?
    requires IssuerLock.CanEnter(s.lock, s.procs[p].ticket) && Inside(pc)
    ensures forall v | v in s.world.unkeyed && v < |s.world.vouchers| :: s.world.vouchers[v].issuer != s.procs[p].issuer
  {
    var procs, lock := s.procs[p := s.procs[p].(pc := pc)], IssuerLock.Enter(s.lock, s.procs[p].ticket);
    EnterKeepsLock(s.procs, s.lock, p, pc);
    hide WorldOk, AllLocal, LockOk, BatchOk, RowsSettled, LiveDistinct;
    forall v | v in s.world.unkeyed && v < |s.world.vouchers|
      ensures s.world.vouchers[v].issuer != s.procs[p].issuer
    {
      var q :| 0 <= q < |s.procs| && s.procs[q].pc == Keying(v) && s.procs[q].issuer == s.world.vouchers[v].issuer;
      OneInside(procs, lock, p, q);
    }
  }

  lemma FirstInsideLocal(w: World, p: Proc)
    requires QueuedOk(w.queued, w.calls) && Local(w, p) && p.pc.AwaitingTurn?
    requires forall v | v in w.unkeyed && v < |w.vouchers| :: w.vouchers[v].issuer != p.issuer
    ensures AtPc(w, p.(pc := FirstInside(p)))
  {}

  lemma EnterKeepsInv(s: State, p: nat)
    requires Inv(s) && p < |s.procs| && s.procs[p].pc.AwaitingTurn? && IssuerLock.CanEnter(s.lock, s.procs[p].ticket)
    ensures Inv(Moved(s, p, (s.world, FirstInside(s.procs[p]))).(lock := IssuerLock.Enter(s.lock, s.procs[p].ticket)))
  {
    var q := s.procs[p].(pc := FirstInside(s.procs[p]));
    assert Local(s.world, s.procs[p]) && QueuedOk(s.world.queued, s.world.calls);
    EnterKeepsLock(s.procs, s.lock, p, q.pc);
    NobodyElseIsKeying(s, p, q.pc);
    hide WorldOk, AllLocal, LockOk, BatchOk, RowsSettled, UnkeyedHeld, LiveDistinct, Local, AtPc;
    FirstInsideLocal(s.world, s.procs[p]);
    StandKeepsInv(s, p, q, IssuerLock.Enter(s.lock, s.procs[p].ticket));
  }
}
