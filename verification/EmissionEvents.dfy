/** Events outside any process, and the invariant over whole runs. */
module EmissionEvents {
  import opened Common
  import opened Arca
  import opened CaeRequest
  import opened PendingQueue
  import opened Emission
  import opened EmissionInvariant
  import opened EmissionSteps
  import opened EmissionTalk
  import opened EmissionSafety
  import IssuerLock

  /** Nothing a process relies on is touched, so all of them keep what they know. */
  lemma AllRely(w: World, w': World, procs: seq<Proc>)
    requires AllLocal(w, procs) && forall p | 0 <= p < |procs| :: Rely(w, w', procs[p])
    ensures AllLocal(w', procs)
  {
    hide Local, Rely;
    forall p | 0 <= p < |procs| ensures Local(w', procs[p]) { LocalStable(w, w', procs[p]); }
  }

  // The clock and other emitters -----------------------------------------------------------------

  lemma TickWorld(w: World, to: int)
    requires WorldOk(w) && to >= w.now
    ensures WorldOk(w.(now := to))
  {}

  lemma TickKeepsInv(s: State, to: int)
    requires Inv(s) && to >= s.world.now
    ensures Inv(s.(world := s.world.(now := to)))
  {
    TickWorld(s.world, to);
    hide WorldOk, LockOk, RowsSettled, UnkeyedHeld, LiveDistinct;
    AllRely(s.world, s.world.(now := to), s.procs);
  }

  lemma ForeignVoucherKeepsInv(s: State, series: Series, e: Entry)
    requires Inv(s) && e.cae != "" && e.origin.None?
    ensures Inv(s.(world := s.world.(ledger := Append(s.world.ledger, series, e))))
  {
    var w' := s.world.(ledger := Append(s.world.ledger, series, e));
    AppendWorld(s.world, series, e);
    hide WorldOk, LockOk, BatchOk, RowsSettled, UnkeyedHeld, LiveDistinct;
    forall p | 0 <= p < |s.procs| ensures Rely(s.world, w', s.procs[p]) {}
    AllRely(s.world, w', s.procs);
  }

  // A request arrives -----------------------------------------------------------------------------

  lemma CallWorld(w: World)
    requires WorldOk(w)
    ensures WorldOk(w.(calls := w.calls + 1))
  {}

  lemma NewCallLocal(w: World, issuer: string, input: Input, key: Option<string>)
    requires QueuedOk(w.queued, w.calls) && LedgerOk(w.ledger, w.calls)
    ensures Local(w.(calls := w.calls + 1), NewCall(w, issuer, input, key))
  {}

  lemma NewCallDistinct(w: World, procs: seq<Proc>, p: Proc)
    requires AllLocal(w, procs) && LiveDistinct(procs) && p.submission == w.calls
    ensures LiveDistinct(procs + [p])
  {}

  lemma OneMoreSettled(w: World, procs: seq<Proc>, p: Proc)
    requires RowsSettled(w, procs)
    ensures RowsSettled(w, procs + [p])
  {
    hide Unfinished;
    forall id | id in w.table.rows && !Unfinished(w.vouchers, w.records, w.table.rows[id])
      ensures exists q :: 0 <= q < |procs + [p]| && Finishing((procs + [p])[q], id)
    {
      var q :| 0 <= q < |procs| && Finishing(procs[q], id);
      assert (procs + [p])[q] == procs[q];
    }
  }

  lemma OneMoreUnkeyed(vouchers: seq<Voucher>, unkeyed: set<nat>, procs: seq<Proc>, p: Proc)
    requires UnkeyedHeld(vouchers, unkeyed, procs)
    ensures UnkeyedHeld(vouchers, unkeyed, procs + [p])
  {
    forall v | v in unkeyed
      ensures exists q :: 0 <= q < |procs + [p]|
                && (procs + [p])[q].pc == Keying(v) && (procs + [p])[q].issuer == vouchers[v].issuer
    {
      var q :| 0 <= q < |procs| && procs[q].pc == Keying(v) && procs[q].issuer == vouchers[v].issuer;
      assert (procs + [p])[q] == procs[q];
    }
  }

  lemma OneMoreLock(procs: seq<Proc>, lock: IssuerLock.Lock, p: Proc)
    requires LockOk(procs, lock) && !Queues(p)
    ensures LockOk(procs + [p], lock)
  {
    hide IssuerLock.Inv;
    forall t | 0 <= t < |lock.tickets| && lock.tickets[t].phase != IssuerLock.Done
      ensures exists q :: 0 <= q < |procs + [p]| && Queues((procs + [p])[q]) && (procs + [p])[q].ticket == t
    {
      var q :| 0 <= q < |procs| && Queues(procs[q]) && procs[q].ticket == t;
      assert (procs + [p])[q] == procs[q];
    }
  }

  lemma SameRowsSettled(w: World, w': World, procs: seq<Proc>)
    requires RowsSettled(w, procs) && w'.table == w.table && w'.vouchers == w.vouchers && w'.records == w.records
    ensures RowsSettled(w', procs)
  {
    hide Unfinished;
  }

  /** A new process joins, knowing what it needs and standing outside the lock. */
  lemma JoinKeepsInv(s: State, w': World, p: Proc, batch: Batch)
    requires Inv(s) && WorldOk(w') && (forall q | 0 <= q < |s.procs| :: Rely(s.world, w', s.procs[q]))
    requires w'.table == s.world.table && w'.vouchers == s.world.vouchers && w'.unkeyed == s.world.unkeyed
    requires w'.records == s.world.records
    requires Local(w', p) && !Queues(p) && LiveDistinct(s.procs + [p])
    requires BatchOk(w'.table.rows, w'.now, s.procs + [p], batch)
    ensures Inv(State(w', s.procs + [p], s.lock, batch))
  {
    hide WorldOk, Local, LockOk, BatchOk, RowsSettled, UnkeyedHeld, LiveDistinct, Rely;
    AllRely(s.world, w', s.procs);
    OneMoreLock(s.procs, s.lock, p);
    OneMoreSettled(s.world, s.procs, p);
    assert RowsSettled(w', s.procs + [p]) by { SameRowsSettled(s.world, w', s.procs + [p]); }
    OneMoreUnkeyed(s.world.vouchers, s.world.unkeyed, s.procs, p);
  }

  lemma CallRely(w: World, q: Proc)
    ensures Rely(w, w.(calls := w.calls + 1), q)
  {}

  lemma CallKeepsInv(s: State, issuer: string, input: Input, key: Option<string>)
    requires Inv(s)
    ensures Inv(s.(procs := s.procs + [NewCall(s.world, issuer, input, key)],
                   world := s.world.(calls := s.world.calls + 1)))
  {
    var w' := s.world.(calls := s.world.calls + 1);
    var p := NewCall(s.world, issuer, input, key);
    CallWorld(s.world);
    NewCallLocal(s.world, issuer, input, key);
    hide WorldOk, LockOk, RowsSettled, UnkeyedHeld, Local;
    NewCallDistinct(s.world, s.procs, p);
    forall q | 0 <= q < |s.procs| ensures Rely(s.world, w', s.procs[q]) { CallRely(s.world, s.procs[q]); }
    hide Rely;
    assert BatchOk(w'.table.rows, w'.now, s.procs + [p], s.batch);
    hide BatchOk, LiveDistinct;
    JoinKeepsInv(s, w', p, s.batch);
  }

  // The scheduler -----------------------------------------------------------------------------------

  lemma StartBatchKeepsInv(s: State, due: seq<Row>)
    requires Inv(s) && Enabled(s, StartBatch(due))
    ensures Inv(Apply(s, StartBatch(due)))
  {
    hide WorldOk, AllLocal, LockOk, RowsSettled, UnkeyedHeld, LiveDistinct;
  }

  lemma EndBatchKeepsInv(s: State)
    requires Inv(s) && Enabled(s, EndBatch)
    ensures Inv(Apply(s, EndBatch))
  {
    hide WorldOk, AllLocal, LockOk, RowsSettled, UnkeyedHeld, LiveDistinct;
  }

  /** Between two rows nobody is completing one, so the next row is still to be. */
  lemma NextRowIsUnfinished(s: State)
    requires Inv(s) && s.batch.Active? && s.batch.current.None? && s.batch.remaining != []
    ensures Unfinished(s.world.vouchers, s.world.records, s.batch.remaining[0])
  {
    hide WorldOk, AllLocal, LockOk, UnkeyedHeld, LiveDistinct, Unfinished;
    assert s.batch.remaining[0].id in s.world.table.rows;
  }

  lemma NewRetryLocal(w: World, row: Row)
    requires RowsOk(w.table, w.queued, w.now, w.policy) && QueuedOk(w.queued, w.calls)
    requires row.id in w.table.rows && w.table.rows[row.id] == row && Due(row, w.now)
    requires Unfinished(w.vouchers, w.records, row)
    ensures Local(w, NewRetry(row))
  {}

  lemma NewRetryDistinct(s: State)
    requires Inv(s) && s.batch.Active? && s.batch.current.None? && s.batch.remaining != []
    ensures LiveDistinct(s.procs + [NewRetry(s.batch.remaining[0])])
  {
    var row := s.batch.remaining[0];
    assert SameOrigin(row, s.world.queued[row.id]);
    hide WorldOk, LockOk, RowsSettled, UnkeyedHeld;
    forall q | 0 <= q < |s.procs| && Live(s.procs[q]) ensures s.procs[q].submission != row.submission {
      assert Local(s.world, s.procs[q]);
      if s.procs[q].job.Request? { LiveRequestUnqueued(s.world, s.procs[q]); }
    }
  }

  lemma NothingHappens(w: World, q: Proc)
    ensures Rely(w, w, q)
  {}

  lemma NextRowKeepsInv(s: State)
    requires Inv(s) && s.batch.Active? && s.batch.current.None? && s.batch.remaining != []
    ensures Inv(State(s.world, s.procs + [NewRetry(s.batch.remaining[0])], s.lock,
                      Active(s.batch.remaining[1..], Some(|s.procs|))))
  {
    var p := NewRetry(s.batch.remaining[0]);
    NextRowIsUnfinished(s);
    assert RowsOk(s.world.table, s.world.queued, s.world.now, s.world.policy);
    assert QueuedOk(s.world.queued, s.world.calls);
    NewRetryLocal(s.world, s.batch.remaining[0]);
    NewRetryDistinct(s);
    hide WorldOk, AllLocal, LockOk, RowsSettled, UnkeyedHeld, LiveDistinct, Local, Rely;
    forall q | 0 <= q < |s.procs| ensures Rely(s.world, s.world, s.procs[q]) { NothingHappens(s.world, s.procs[q]); }
    JoinKeepsInv(s, s.world, p, Active(s.batch.remaining[1..], Some(|s.procs|)));
  }

  // Manual actions ------------------------------------------------------------------------------------

  /** A re-armed row waits again; under a key that stays clean it has no competitor. */
  lemma RearmedWaiting(s: State, id: nat)
    requires WaitingAlone(s.world.vouchers, s.world.table.rows, s.world.clashed) && id in s.world.table.rows
    ensures WaitingAlone(s.world.vouchers, Rearmed(s, id).table.rows, Rearmed(s, id).clashed)
  {
    var w', row := Rearmed(s, id), s.world.table.rows[id];
    forall i, other | 0 <= i < |w'.vouchers| && other in w'.table.rows && w'.table.rows[other].status == PENDING
                      && HasText(w'.table.rows[other].key)
                      && Clean(w'.clashed, w'.table.rows[other].issuer, w'.table.rows[other].key)
                      && UnderKey(w'.vouchers[i], w'.table.rows[other].issuer, w'.table.rows[other].key)
      ensures w'.vouchers[i].source == Some(other)
    {
      if other == id { assert Contended(s, row.issuer, row.key); }
    }
  }

  lemma FewerClean(w: World, clashed: set<(string, string)>)
    requires OnePerKey(w.vouchers, w.clashed) && Recorded(w.vouchers, w.records, w.unkeyed, w.clashed)
    requires w.clashed <= clashed
    ensures OnePerKey(w.vouchers, clashed) && Recorded(w.vouchers, w.records, w.unkeyed, clashed)
  {}

  lemma RearmWorld(s: State, id: nat)
    requires WorldOk(s.world) && id in s.world.table.rows && s.world.table.rows[id].status == FAILED
    ensures WorldOk(Rearmed(s, id))
  {
    var w, w' := s.world, Rearmed(s, id);
    assert w.table.rows[id].id == id;
    RearmKeepsSchedule(w.table, id, w.now, w.policy);
    RearmedWaiting(s, id);
    FewerClean(w, w'.clashed);
    var row := Rearm(w.table, id, w.now).rows[id];
    assert SameOrigin(row, w.table.rows[id]) && row.id == id;
    assert OnSchedule(row, w.now, w.policy);
    hide RowsOk, QueuedOk, LedgerOk, AllNumbersOk, VouchersOk, IndexOk, AccountsOk, RecordsOk, OnSchedule;
    hide OnePerKey, Recorded, WaitingAlone, RowVouchersOk, CompletedOk, ClashOf;
    ReplaceRow(w.table, w.queued, w.now, w.policy, row);
    SameKeysSameAccounts(w.table.rows, w.table.rows[id := row], w.queued, w.vouchers, w.completed, w.discarded);
  }

  /** A row that a retry holds is due, so it is not the failed one; and a call whose key the re-armed row
      shares is a reason for that key to clash. */
  lemma RearmRely(s: State, id: nat, q: nat)
    requires Consistent(s.world.table) && id in s.world.table.rows && s.world.table.rows[id].status == FAILED
    requires q < |s.procs| && AtPc(s.world, s.procs[q])
    ensures Rely(s.world, Rearmed(s, id), s.procs[q])
  {
    var w', p, row := Rearmed(s, id), s.procs[q], s.world.table.rows[id];
    if Live(p) && p.job.Retry? { LiveRetryHolds(s.world, p); }
    if Obtaining(p, p.issuer, p.key) && Clean(w'.clashed, p.issuer, p.key) && NoPendingRow(s.world.table, p.issuer, p.key) {
      RearmedElsewhere(s, id, q);
    }
    hide AtPc, Contended, NoPendingRow, ClashOf;
  }

  lemma RearmedElsewhere(s: State, id: nat, q: nat)
    requires Consistent(s.world.table) && id in s.world.table.rows && q < |s.procs|
    requires Obtaining(s.procs[q], s.procs[q].issuer, s.procs[q].key)
    requires Clean(Rearmed(s, id).clashed, s.procs[q].issuer, s.procs[q].key)
    requires NoPendingRow(s.world.table, s.procs[q].issuer, s.procs[q].key)
    ensures HasText(s.procs[q].key) ==> NoPendingRow(Rearmed(s, id).table, s.procs[q].issuer, s.procs[q].key)
  {
    var p, row := s.procs[q], s.world.table.rows[id];
    if row.issuer == p.issuer && row.key == p.key { assert Contended(s, row.issuer, row.key); }
  }

  lemma DiscardRely(w: World, q: Proc, id: nat)
    requires AtPc(w, q) && id in w.table.rows && w.table.rows[id].status == FAILED
    ensures Rely(w, w.(table := Remove(w.table, id), discarded := w.discarded + {id}), q)
  {
    if Live(q) && q.job.Retry? { LiveRetryHolds(w, q); }
    hide AtPc;
  }

  lemma ManualKeepsBatch(rows: map<nat, Row>, rows': map<nat, Row>, now: int, procs: seq<Proc>, batch: Batch, id: nat)
    requires BatchOk(rows, now, procs, batch) && id in rows && rows[id].status == FAILED
    requires forall i | i in rows && i != id :: i in rows' && rows'[i] == rows[i]
    ensures BatchOk(rows', now, procs, batch)
  {}

  lemma RearmKeepsLocal(s: State, id: nat)
    requires AllLocal(s.world, s.procs) && RowsOk(s.world.table, s.world.queued, s.world.now, s.world.policy)
    requires id in s.world.table.rows && s.world.table.rows[id].status == FAILED
    ensures AllLocal(Rearmed(s, id), s.procs)
  {
    RowsAreConsistent(s.world);
    hide Rely, AtPc, OriginOk, Rearmed, RowsOk, Consistent;
    forall p: nat | p < |s.procs| ensures Rely(s.world, Rearmed(s, id), s.procs[p]) {
      assert Local(s.world, s.procs[p]);
      RearmRely(s, id, p);
    }
    AllRely(s.world, Rearmed(s, id), s.procs);
  }

  lemma RearmKeepsSettled(s: State, id: nat)
    requires RowsSettled(s.world, s.procs) && id in s.world.table.rows
    ensures RowsSettled(Rearmed(s, id), s.procs)
  {
    hide Unfinished, ClashOf;
    var w' := Rearmed(s, id);
    SameRowUnfinished(s.world, s.world.table.rows[id], w'.table.rows[id]);
    forall other | other in w'.table.rows && !Unfinished(w'.vouchers, w'.records, w'.table.rows[other])
      ensures exists p :: 0 <= p < |s.procs| && Finishing(s.procs[p], other)
    {
      assert other in s.world.table.rows && !Unfinished(s.world.vouchers, s.world.records, s.world.table.rows[other]);
    }
  }

  lemma RearmKeepsInv(s: State, id: nat)
    requires Inv(s) && id in s.world.table.rows && s.world.table.rows[id].status == FAILED
    ensures Inv(s.(world := Rearmed(s, id)))
  {
    hide WorldOk, AllLocal, LockOk, BatchOk, RowsSettled, UnkeyedHeld, LiveDistinct, ClashOf;
    var w' := Rearmed(s, id);
    RearmWorld(s, id);
    assert RowsOk(s.world.table, s.world.queued, s.world.now, s.world.policy) by { WorldRows(s.world); }
    RearmKeepsLocal(s, id);
    RearmKeepsSettled(s, id);
    ManualKeepsBatch(s.world.table.rows, w'.table.rows, s.world.now, s.procs, s.batch, id);
  }

  lemma WorldRows(w: World)
    requires WorldOk(w)
    ensures RowsOk(w.table, w.queued, w.now, w.policy)
  {}

  lemma DiscardAccounts(
      rows: map<nat, Row>, queued: seq<Row>, vouchers: seq<Voucher>,
      completed: map<nat, nat>, discarded: set<nat>, id: nat)
    requires AccountsOk(rows, queued, vouchers, completed, discarded) && id in rows && id < |queued|
    ensures AccountsOk(rows - {id}, queued, vouchers, completed, discarded + {id})
  {}

  lemma DiscardWorld(w: World, id: nat)
    requires WorldOk(w) && id in w.table.rows
    ensures WorldOk(w.(table := Remove(w.table, id), discarded := w.discarded + {id}))
  {
    RemoveRow(w.table, w.queued, w.now, w.policy, id);
    DiscardAccounts(w.table.rows, w.queued, w.vouchers, w.completed, w.discarded, id);
    FewerWaiting(w.vouchers, w.table.rows, w.clashed, id);
    hide RowsOk, QueuedOk, LedgerOk, AllNumbersOk, VouchersOk, IndexOk, AccountsOk, RecordsOk;
    hide OnePerKey, Recorded, WaitingAlone, RowVouchersOk, CompletedOk;
  }

  lemma DiscardKeepsLocal(s: State, id: nat)
    requires AllLocal(s.world, s.procs) && id in s.world.table.rows && s.world.table.rows[id].status == FAILED
    ensures AllLocal(s.world.(table := Remove(s.world.table, id), discarded := s.world.discarded + {id}), s.procs)
  {
    hide Rely, AtPc, OriginOk, Remove;
    var w' := s.world.(table := Remove(s.world.table, id), discarded := s.world.discarded + {id});
    forall p | 0 <= p < |s.procs| ensures Rely(s.world, w', s.procs[p]) {
      assert Local(s.world, s.procs[p]);
      DiscardRely(s.world, s.procs[p], id);
    }
    AllRely(s.world, w', s.procs);
  }

  lemma DiscardKeepsSettled(s: State, id: nat)
    requires RowsSettled(s.world, s.procs) && id in s.world.table.rows
    ensures RowsSettled(s.world.(table := Remove(s.world.table, id), discarded := s.world.discarded + {id}), s.procs)
  {
    hide Unfinished;
  }

  lemma DiscardKeepsInv(s: State, id: nat)
    requires Inv(s) && id in s.world.table.rows && s.world.table.rows[id].status == FAILED
    ensures Inv(s.(world := s.world.(table := Remove(s.world.table, id), discarded := s.world.discarded + {id})))
  {
    var w' := s.world.(table := Remove(s.world.table, id), discarded := s.world.discarded + {id});
    hide WorldOk, AllLocal, LockOk, BatchOk, RowsSettled, UnkeyedHeld, LiveDistinct;
    DiscardWorld(s.world, id);
    DiscardKeepsLocal(s, id);
    ManualKeepsBatch(s.world.table.rows, w'.table.rows, s.world.now, s.procs, s.batch, id);
    DiscardKeepsSettled(s, id);
  }

  // Every run -------------------------------------------------------------------------------------------

  lemma StepKeepsInv(s: State, e: Event)
    requires Inv(s) && Enabled(s, e)
    ensures Inv(Apply(s, e))
  {
    hide Inv;
    match e
    case Tick(to) => TickKeepsInv(s, to);
    case ForeignVoucher(series, detail, cae) => ForeignVoucherKeepsInv(s, series, Entry(detail, cae, None));
    case Call(issuer, input, key) => CallKeepsInv(s, issuer, input, key);
    case Work(p) => WorkKeepsInv(s, p);
    case Exchange(p, o) => ExchangeKeepsInv(s, p, o);
    case Arrive(p) => ArriveKeepsInv(s, p);
    case Enter(p) => EnterKeepsInv(s, p);
    case Leave(p) => LeaveKeepsInv(s, p);
    case FindIssuer(p, found) => FindIssuerKeepsInv(s, p, found);
    case StartBatch(due) => StartBatchKeepsInv(s, due);
    case NextRow => NextRowKeepsInv(s);
    case EndBatch => EndBatchKeepsInv(s);
    case RearmFailed(id) => RearmKeepsInv(s, id);
    case DiscardFailed(id) => DiscardKeepsInv(s, id);
  }

  lemma {:induction false} RunKeepsInv(states: seq<State>, events: seq<Event>, i: nat)
    requires IsRun(states, events) && i < |states|
    ensures Inv(states[i])
  {
    hide Inv;
    if i == 0 {
      InitInv(states[0]);
    } else {
      RunKeepsInv(states, events, i - 1);
      assert Enabled(states[i - 1], events[i - 1]) && states[i] == Apply(states[i - 1], events[i - 1]);
      StepKeepsInv(states[i - 1], events[i - 1]);
    }
  }
}
