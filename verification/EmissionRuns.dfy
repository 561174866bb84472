/** Building runs of the emission system event by event: one process at a time, on top of whatever else is there. */
module EmissionRuns {
  import opened Common
  import opened Arca
  import opened CaeRequest
  import opened PendingQueue
  import opened Emission
  import opened EmissionInvariant
  import opened EmissionTalk
  import opened EmissionSafety
  import opened EmissionEvents
  import IssuerLock

  ghost predicate Reachable(s: State) {
    exists states, events :: IsRun(states, events) && states[|events|] == s
  }

  lemma Started(s: State)
    requires Init(s)
    ensures Reachable(s)
  {
    var none: seq<Event> := [];
    assert IsRun([s], none) && [s][|none|] == s;
  }

  lemma OneMoreEvent(s: State, e: Event)
    requires Reachable(s) && Enabled(s, e)
    ensures Reachable(Apply(s, e))
  {
    hide Enabled, Apply;
    var states, events :| IsRun(states, events) && states[|events|] == s;
    var states', events' := states + [Apply(s, e)], events + [e];
    assert IsRun(states', events') && states'[|events'|] == Apply(s, e);
  }

  lemma ReachableInv(s: State)
    requires Reachable(s)
    ensures Inv(s)
  {
    hide Inv;
    var states, events :| IsRun(states, events) && states[|events|] == s;
    RunKeepsInv(states, events, |events|);
  }

  /** Nobody holds the issuer's lock or waits for it. */
  ghost predicate IssuerFree(lock: IssuerLock.Lock, issuer: string) {
    forall t | 0 <= t < |lock.tickets| && lock.tickets[t].key == issuer :: lock.tickets[t].phase == IssuerLock.Done
  }

  /** The scheduler is idle and the issuer's lock free; other issuers may be busy. */
  ghost predicate Resting(s: State, issuer: string) {
    s.batch == Idle && IssuerFree(s.lock, issuer)
  }

  /** The state with one more process on top. */
  function Plus(s: State, w: World, p: Proc, lock: IssuerLock.Lock, batch: Batch): State {
    State(w, s.procs + [p], lock, batch)
  }

  // Through the lock --------------------------------------------------------------------------------

  /** The lock after a process that found it free has entered, and after it has left again. */
  function Entered(lock: IssuerLock.Lock, issuer: string): IssuerLock.Lock {
    var arrived := IssuerLock.Arrive(lock, issuer);
    IssuerLock.SetPhase(arrived, |lock.tickets|, IssuerLock.Running)
  }

  function Left(lock: IssuerLock.Lock, issuer: string): IssuerLock.Lock {
    var l := Entered(lock, issuer);
    if IssuerLock.CanLeave(l, |lock.tickets|) then IssuerLock.Leave(l, |lock.tickets|) else l
  }

  lemma LockAlone(lock: IssuerLock.Lock, issuer: string)
    requires IssuerLock.Inv(lock) && IssuerFree(lock, issuer)
    ensures IssuerLock.CanEnter(IssuerLock.Arrive(lock, issuer), |lock.tickets|)
    ensures IssuerLock.Enter(IssuerLock.Arrive(lock, issuer), |lock.tickets|) == Entered(lock, issuer)
    ensures IssuerLock.CanLeave(Entered(lock, issuer), |lock.tickets|)
    ensures Left(lock, issuer) == IssuerLock.Leave(Entered(lock, issuer), |lock.tickets|)
    ensures IssuerFree(Left(lock, issuer), issuer)
  {}

  lemma FreeLock(s: State, issuer: string)
    requires Reachable(s) && IssuerFree(s.lock, issuer)
    ensures IssuerLock.CanEnter(IssuerLock.Arrive(s.lock, issuer), |s.lock.tickets|)
    ensures IssuerLock.Enter(IssuerLock.Arrive(s.lock, issuer), |s.lock.tickets|) == Entered(s.lock, issuer)
    ensures IssuerLock.CanLeave(Entered(s.lock, issuer), |s.lock.tickets|)
    ensures Left(s.lock, issuer) == IssuerLock.Leave(Entered(s.lock, issuer), |s.lock.tickets|)
    ensures IssuerFree(Left(s.lock, issuer), issuer)
  {
    ReachableInv(s);
    hide Reachable, WorldOk, AllLocal, BatchOk, LiveDistinct, RowsSettled, UnkeyedHeld, IssuerLock.Inv, TicketOk;
    assert IssuerLock.Inv(s.lock);
    LockAlone(s.lock, issuer);
  }

  function Positioned(s: State, p: Proc, pc: Pc): Proc {
    p.(ticket := |s.lock.tickets|, pc := pc)
  }

  lemma Arrives(s: State, w: World, p: Proc, batch: Batch)
    requires p.pc.Arriving? && Reachable(Plus(s, w, p, s.lock, batch))
    ensures Reachable(Plus(s, w, Positioned(s, p, AwaitingTurn), IssuerLock.Arrive(s.lock, p.issuer), batch))
  {
    hide IssuerLock.Arrive, Reachable;
    var n, s0 := |s.procs|, Plus(s, w, p, s.lock, batch);
    OneMoreEvent(s0, Event.Arrive(n));
    assert s0.procs[n := Positioned(s, p, AwaitingTurn)] == s.procs + [Positioned(s, p, AwaitingTurn)];
  }

  lemma Enters(s: State, w: World, p: Proc, lock: IssuerLock.Lock, batch: Batch)
    requires p.pc.AwaitingTurn? && Reachable(Plus(s, w, p, lock, batch)) && IssuerLock.CanEnter(lock, p.ticket)
    ensures Reachable(Plus(s, w, p.(pc := FirstInside(p)), IssuerLock.Enter(lock, p.ticket), batch))
  {
    hide IssuerLock.Enter, IssuerLock.CanEnter, Reachable;
    var n, s0 := |s.procs|, Plus(s, w, p, lock, batch);
    OneMoreEvent(s0, Event.Enter(n));
    assert s0.procs[n := p.(pc := FirstInside(p))] == s.procs + [p.(pc := FirstInside(p))];
  }

  lemma ArrivesAndEnters(s: State, w: World, p: Proc, batch: Batch)
    requires Reachable(s) && IssuerFree(s.lock, p.issuer)
    requires p.pc.Arriving? && Reachable(Plus(s, w, p, s.lock, batch))
    ensures Reachable(Plus(s, w, Positioned(s, p, FirstInside(p)), Entered(s.lock, p.issuer), batch))
  {
    FreeLock(s, p.issuer);
    hide Reachable, IssuerFree, Entered, IssuerLock.Arrive, IssuerLock.Enter, IssuerLock.CanEnter, IssuerLock.CanLeave,
         IssuerLock.Leave, Left;
    Arrives(s, w, p, batch);
    Enters(s, w, Positioned(s, p, AwaitingTurn), IssuerLock.Arrive(s.lock, p.issuer), batch);
  }

  function BatchOnceEnded(batch: Batch, p: Proc, answer: Answer): Batch {
    if p.job.Retry? then AfterRetry(batch, answer) else batch
  }

  lemma Leaves(s: State, w: World, p: Proc, batch: Batch)
    requires Reachable(s) && IssuerFree(s.lock, p.issuer) && p.ticket == |s.lock.tickets| && p.pc.Leaving?
    requires Reachable(Plus(s, w, p, Entered(s.lock, p.issuer), batch))
    ensures Reachable(Plus(s, w, p.(pc := Ended(p.pc.answer)), Left(s.lock, p.issuer),
                           BatchOnceEnded(batch, p, p.pc.answer)))
    ensures IssuerFree(Left(s.lock, p.issuer), p.issuer)
  {
    FreeLock(s, p.issuer);
    hide Reachable, IssuerFree, Entered, IssuerLock.Arrive, IssuerLock.Enter, IssuerLock.CanEnter, IssuerLock.CanLeave,
         IssuerLock.Leave, Left, AfterRetry;
    var n, s0 := |s.procs|, Plus(s, w, p, Entered(s.lock, p.issuer), batch);
    var q := p.(pc := Ended(p.pc.answer));
    OneMoreEvent(s0, Event.Leave(n));
    assert s0.procs[n := q] == s.procs + [q];
  }

  // Steps inside ------------------------------------------------------------------------------------

  lemma Works(s: State, w: World, p: Proc, lock: IssuerLock.Lock, batch: Batch)
    requires Reachable(Plus(s, w, p, lock, batch)) && CanAct(w, p)
    ensures Reachable(Plus(s, Act(w, p).0, p.(pc := Act(w, p).1), lock,
                           if Act(w, p).1.Ended? then BatchOnceEnded(batch, p, Act(w, p).1.answer) else batch))
  {
    hide Act, CanAct, Reachable, AfterRetry;
    var n, s0 := |s.procs|, Plus(s, w, p, lock, batch);
    OneMoreEvent(s0, Work(n));
    var q := p.(pc := Act(w, p).1);
    assert s0.procs[n := q] == s.procs + [q];
  }

  lemma Talks(s: State, w: World, p: Proc, lock: IssuerLock.Lock, batch: Batch, o: Outcome)
    requires Reachable(Plus(s, w, p, lock, batch)) && CanTalk(p) && Possible(w.ledger, CallAt(w, p), o)
    ensures Reachable(Plus(s, Talk(w, p, o).0, p.(pc := Talk(w, p, o).1), lock, batch))
  {
    assert !Talk(w, p, o).1.Ended?;
    hide Talk, CanTalk, CallAt, Possible, Reachable;
    var n, s0 := |s.procs|, Plus(s, w, p, lock, batch);
    OneMoreEvent(s0, Exchange(n, o));
    var q := p.(pc := Talk(w, p, o).1);
    assert s0.procs[n := q] == s.procs + [q];
  }

  // What ARCA may answer ----------------------------------------------------------------------------

  lemma TalkAuthenticated(w: World, p: Proc)
    requires p.pc == Attempting(Authenticating)
    ensures CanTalk(p) && Possible(w.ledger, CallAt(w, p), Replied(Authenticated))
    ensures Talk(w, p, Replied(Authenticated)) == (w, Attempting(AskingLast))
  {}

  lemma TalkLast(w: World, p: Proc)
    requires p.pc == Attempting(AskingLast)
    ensures CanTalk(p) && Possible(w.ledger, CallAt(w, p), Replied(Last(LastNumber(w, p))))
    ensures Talk(w, p, Replied(Last(LastNumber(w, p)))) == (w, Attempting(Requesting(LastNumber(w, p) + 1)))
  {}

  /** ARCA authorizes the next number of the series for the process's sale. */
  function Authorized(w: World, p: Proc, cae: string): World {
    w.(ledger := Append(w.ledger, ProcSeries(w.cuits, p), Entry(DetailOf(p.input), cae, Some(p.submission))))
  }

  lemma TalkGranted(w: World, p: Proc, cae: string)
    requires p.pc == Attempting(Requesting(LastNumber(w, p) + 1)) && cae != ""
    ensures CanTalk(p) && Possible(w.ledger, CallAt(w, p), Replied(Granted(cae)))
    ensures Talk(w, p, Replied(Granted(cae))) == (Authorized(w, p, cae), Recording(LastNumber(w, p) + 1, cae, false))
  {}

  /** ... and the reply is lost. */
  lemma TalkLost(w: World, p: Proc, cae: string)
    requires p.pc == Attempting(Requesting(LastNumber(w, p) + 1)) && cae != ""
    ensures CanTalk(p) && Possible(w.ledger, CallAt(w, p), Lost(Some(cae)))
    ensures Talk(w, p, Lost(Some(cae)))
         == (Authorized(w, p, cae), if p.job.Retry? then Bumping else Enqueuing(Some(LastNumber(w, p) + 1)))
  {}

  lemma AsksForTheNext(s: State, w: World, p: Proc, lock: IssuerLock.Lock, batch: Batch)
    requires p.pc == Attempting(Authenticating) && Reachable(Plus(s, w, p, lock, batch))
    ensures Reachable(Plus(s, w, p.(pc := Attempting(Requesting(LastNumber(w, p) + 1))), lock, batch))
  {
    hide Reachable, Talk, CanTalk, CallAt, Possible;
    TalkAuthenticated(w, p);
    Talks(s, w, p, lock, batch, Replied(Authenticated));
    var p1 := p.(pc := Attempting(AskingLast));
    TalkLast(w, p1);
    Talks(s, w, p1, lock, batch, Replied(Last(LastNumber(w, p1))));
  }

  lemma IsGranted(s: State, w: World, p: Proc, lock: IssuerLock.Lock, batch: Batch, cae: string)
    requires p.pc == Attempting(Authenticating) && cae != "" && Reachable(Plus(s, w, p, lock, batch))
    ensures Reachable(Plus(s, Authorized(w, p, cae), p.(pc := Recording(LastNumber(w, p) + 1, cae, false)), lock, batch))
  {
    hide Reachable, Talk, CanTalk, CallAt, Possible, Authorized;
    AsksForTheNext(s, w, p, lock, batch);
    var p2 := p.(pc := Attempting(Requesting(LastNumber(w, p) + 1)));
    assert Authorized(w, p2, cae) == Authorized(w, p, cae) by { AnyPc(w, p, p2, cae); }
    TalkGranted(w, p2, cae);
    Talks(s, w, p2, lock, batch, Replied(Granted(cae)));
  }

  lemma LosesTheReply(s: State, w: World, p: Proc, lock: IssuerLock.Lock, batch: Batch, cae: string)
    requires p.pc == Attempting(Authenticating) && cae != "" && Reachable(Plus(s, w, p, lock, batch))
    ensures Reachable(Plus(s, Authorized(w, p, cae),
                           p.(pc := if p.job.Retry? then Bumping else Enqueuing(Some(LastNumber(w, p) + 1))), lock, batch))
  {
    hide Reachable, Talk, CanTalk, CallAt, Possible, Authorized;
    AsksForTheNext(s, w, p, lock, batch);
    var p2 := p.(pc := Attempting(Requesting(LastNumber(w, p) + 1)));
    assert Authorized(w, p2, cae) == Authorized(w, p, cae) by { AnyPc(w, p, p2, cae); }
    TalkLost(w, p2, cae);
    Talks(s, w, p2, lock, batch, Lost(Some(cae)));
  }

  lemma AnyPc(w: World, p: Proc, q: Proc, cae: string)
    requires q == p.(pc := q.pc)
    ensures Authorized(w, q, cae) == Authorized(w, p, cae)
  {}

  // A call ------------------------------------------------------------------------------------------

  function Caller(s: State, issuer: string, input: Input, key: Option<string>, pc: Pc): Proc {
    Proc(Request, issuer, input, key, s.world.calls, |s.lock.tickets|, pc)
  }

  function Called(s: State): World {
    s.world.(calls := s.world.calls + 1)
  }

  /** Nothing answers a call under this key: no record, and no row still waiting. */
  predicate Unanswered(w: World, issuer: string, key: Option<string>) {
    HasText(key) ==>
      && (issuer, key.value) !in w.records
      && ((issuer, key.value) in w.table.byKey && w.table.byKey[(issuer, key.value)] in w.table.rows ==>
            w.table.rows[w.table.byKey[(issuer, key.value)]].status == FAILED)
  }

  lemma CallArrives(s: State, issuer: string, input: Input, key: Option<string>)
    requires Reachable(s) && Unanswered(s.world, issuer, key)
    ensures Reachable(Plus(s, Called(s), NewCall(s.world, issuer, input, key).(pc := Arriving), s.lock, s.batch))
  {
    hide Reachable;
    var p := NewCall(s.world, issuer, input, key);
    OneMoreEvent(s, Call(issuer, input, key));
    assert Apply(s, Call(issuer, input, key)) == Plus(s, Called(s), p, s.lock, s.batch);
    if HasText(key) {
      Works(s, Called(s), p, s.lock, s.batch);
      Works(s, Called(s), p.(pc := ReplayingPending), s.lock, s.batch);
    }
  }

  /** A call that nothing answers comes as far as its first word to ARCA. */
  lemma CallEnters(s: State, issuer: string, input: Input, key: Option<string>)
    requires Reachable(s) && IssuerFree(s.lock, issuer) && Unanswered(s.world, issuer, key)
    ensures Reachable(Plus(s, Called(s), Caller(s, issuer, input, key, Attempting(Authenticating)),
                           Entered(s.lock, issuer), s.batch))
  {
    hide Reachable, IssuerFree, Entered;
    CallArrives(s, issuer, input, key);
    var p := NewCall(s.world, issuer, input, key).(pc := Arriving);
    ArrivesAndEnters(s, Called(s), p, s.batch);
    if HasText(key) {
      var q := Caller(s, issuer, input, key, ReplayingRecordInside);
      assert Positioned(s, p, FirstInside(p)) == q;
      Works(s, Called(s), q, Entered(s.lock, issuer), s.batch);
      Works(s, Called(s), q.(pc := ReplayingPendingInside), Entered(s.lock, issuer), s.batch);
    }
  }

  // A retry -----------------------------------------------------------------------------------------

  lemma TakesTheRow(s: State, due: seq<Row>)
    requires Reachable(s) && s.batch == Idle && due != [] && IsDueBatch(s.world.table, s.world.now, due)
    ensures Reachable(Plus(s, s.world, NewRetry(due[0]), s.lock, Active(due[1..], Some(|s.procs|))))
  {
    hide Reachable, IsDueBatch;
    OneMoreEvent(s, StartBatch(due));
    OneMoreEvent(s.(batch := Active(due, None)), NextRow);
  }

  lemma FindsItsIssuer(s: State, row: Row, batch: Batch, found: bool)
    requires Reachable(Plus(s, s.world, NewRetry(row), s.lock, batch))
    ensures Reachable(Plus(s, s.world, NewRetry(row).(pc := if found then Arriving else FailingOrphan), s.lock, batch))
  {
    hide Reachable;
    var n, s0 := |s.procs|, Plus(s, s.world, NewRetry(row), s.lock, batch);
    var q := NewRetry(row).(pc := if found then Arriving else FailingOrphan);
    OneMoreEvent(s0, FindIssuer(n, found));
    assert s0.procs[n := q] == s.procs + [q];
  }

  function Retrier(s: State, row: Row, pc: Pc): Proc {
    Positioned(s, NewRetry(row), pc)
  }

  lemma RetryEnters(s: State, due: seq<Row>)
    requires Reachable(s) && due != [] && Resting(s, due[0].issuer) && IsDueBatch(s.world.table, s.world.now, due)
    ensures Reachable(Plus(s, s.world, Retrier(s, due[0], FirstInside(NewRetry(due[0]))), Entered(s.lock, due[0].issuer),
                           Active(due[1..], Some(|s.procs|))))
  {
    hide Reachable, IsDueBatch, IssuerFree, Entered;
    TakesTheRow(s, due);
    FindsItsIssuer(s, due[0], Active(due[1..], Some(|s.procs|)), true);
    ArrivesAndEnters(s, s.world, NewRetry(due[0]).(pc := Arriving), Active(due[1..], Some(|s.procs|)));
  }

  /** A retry finds nothing to adopt: no attempted number, no voucher at it, or one that is not the row's. */
  predicate FindsNothing(w: World, row: Row) {
    || row.attemptedNumber.None?
    || !Has(w.ledger, RowSeries(w.cuits, row), row.attemptedNumber.value)
    || !Matches(At(w.ledger, RowSeries(w.cuits, row), row.attemptedNumber.value).detail, DetailOf(row.payload))
  }

  /** ... nor will any later one: no attempted number, or somebody else's voucher at it. */
  predicate NothingToRecover(w: World, row: Row) {
    FindsNothing(w, row)
    && (row.attemptedNumber.Some? ==> Has(w.ledger, RowSeries(w.cuits, row), row.attemptedNumber.value))
  }

  lemma PointOfTheRow(s: State, row: Row)
    requires Reachable(s) && row.id in s.world.table.rows && s.world.table.rows[row.id] == row
    ensures row.attemptedNumber.Some? ==> row.attemptedSalesPoint == Some(row.payload.salesPoint)
  {
    ReachableInv(s);
    hide Reachable, LockOk, AllLocal, BatchOk, LiveDistinct, RowsSettled, UnkeyedHeld;
    var w := s.world;
    assert RowsOk(w.table, w.queued, w.now, w.policy) && QueuedOk(w.queued, w.calls);
    assert SameOrigin(row, w.queued[row.id]);
  }

  lemma TalkRecovers(w: World, p: Proc)
    requires CanRecover(p) && p.pc == RecoverConsulting && RecoverySeries(w, p) == ProcSeries(w.cuits, p)
    requires Has(w.ledger, ProcSeries(w.cuits, p), p.job.row.attemptedNumber.value)
    ensures var e := At(w.ledger, ProcSeries(w.cuits, p), p.job.row.attemptedNumber.value);
            && CanTalk(p) && Possible(w.ledger, CallAt(w, p), Replied(Found(e.detail, e.cae)))
            && Talk(w, p, Replied(Found(e.detail, e.cae)))
               == (w, if Matches(e.detail, DetailOf(p.input)) then Recording(p.job.row.attemptedNumber.value, e.cae, true)
                      else Attempting(Authenticating))
  {}

  /** A retry consults the attempted number, finds a voucher there, and adopts it if it matches. */
  lemma Consults(s: State, row: Row, lock: IssuerLock.Lock, batch: Batch)
    requires row.attemptedNumber.Some? && row.attemptedSalesPoint == Some(row.payload.salesPoint)
    requires Has(s.world.ledger, RowSeries(s.world.cuits, row), row.attemptedNumber.value)
    requires Reachable(Plus(s, s.world, Retrier(s, row, FirstInside(NewRetry(row))), lock, batch))
    ensures var e := At(s.world.ledger, RowSeries(s.world.cuits, row), row.attemptedNumber.value);
            Reachable(Plus(s, s.world,
                           Retrier(s, row, if Matches(e.detail, DetailOf(row.payload))
                                           then Recording(row.attemptedNumber.value, e.cae, true)
                                           else Attempting(Authenticating)), lock, batch))
  {
    hide Reachable, Matches;
    var p := Retrier(s, row, RecoverAuthenticating);
    assert Retrier(s, row, FirstInside(NewRetry(row))) == p;
    Talks(s, s.world, p, lock, batch, Replied(Authenticated));
    var p1 := p.(pc := RecoverConsulting);
    TalkRecovers(s.world, p1);
    var e := At(s.world.ledger, RowSeries(s.world.cuits, row), row.attemptedNumber.value);
    hide Talk, CanTalk, CallAt, Possible;
    Talks(s, s.world, p1, lock, batch, Replied(Found(e.detail, e.cae)));
  }

  lemma TalkMisses(w: World, p: Proc)
    requires CanRecover(p) && p.pc == RecoverConsulting && RecoverySeries(w, p) == ProcSeries(w.cuits, p)
    requires !Has(w.ledger, ProcSeries(w.cuits, p), p.job.row.attemptedNumber.value)
    ensures CanTalk(p) && Possible(w.ledger, CallAt(w, p), Replied(NotFound))
    ensures Talk(w, p, Replied(NotFound)) == (w, Attempting(Authenticating))
  {}

  lemma ConsultsInVain(s: State, row: Row, lock: IssuerLock.Lock, batch: Batch)
    requires row.attemptedNumber.Some? && row.attemptedSalesPoint == Some(row.payload.salesPoint)
    requires !Has(s.world.ledger, RowSeries(s.world.cuits, row), row.attemptedNumber.value)
    requires Reachable(Plus(s, s.world, Retrier(s, row, FirstInside(NewRetry(row))), lock, batch))
    ensures Reachable(Plus(s, s.world, Retrier(s, row, Attempting(Authenticating)), lock, batch))
  {
    hide Reachable;
    var p := Retrier(s, row, RecoverAuthenticating);
    assert Retrier(s, row, FirstInside(NewRetry(row))) == p;
    Talks(s, s.world, p, lock, batch, Replied(Authenticated));
    var p1 := p.(pc := RecoverConsulting);
    TalkMisses(s.world, p1);
    hide Talk, CanTalk, CallAt, Possible;
    Talks(s, s.world, p1, lock, batch, Replied(NotFound));
  }

  lemma RecoversNothing(s: State, row: Row, lock: IssuerLock.Lock, batch: Batch)
    requires Reachable(s) && row.id in s.world.table.rows && s.world.table.rows[row.id] == row
    requires FindsNothing(s.world, row)
    requires Reachable(Plus(s, s.world, Retrier(s, row, FirstInside(NewRetry(row))), lock, batch))
    ensures Reachable(Plus(s, s.world, Retrier(s, row, Attempting(Authenticating)), lock, batch))
  {
    PointOfTheRow(s, row);
    hide Reachable, Matches;
    if row.attemptedNumber.Some? {
      if Has(s.world.ledger, RowSeries(s.world.cuits, row), row.attemptedNumber.value) { Consults(s, row, lock, batch); }
      else { ConsultsInVain(s, row, lock, batch); }
    }
  }

  // Due batches -------------------------------------------------------------------------------------

  ghost predicate DueRow(w: World, row: Row) {
    row.id in w.table.rows && w.table.rows[row.id] == row && Due(row, w.now)
  }

  lemma {:induction false} FillBatch(t: Table, now: int, batch: seq<Row>, left: set<nat>)
    requires Consistent(t) && |batch| <= RETRY_BATCH_SIZE
    requires forall i | 0 <= i < |batch| :: batch[i].id in t.rows && t.rows[batch[i].id] == batch[i] && Due(batch[i], now)
    requires forall i, j | 0 <= i < j < |batch| :: batch[i].id != batch[j].id
    requires forall id | id in t.rows && Due(t.rows[id], now) :: t.rows[id] in batch || id in left
    requires forall id | id in left :: id in t.rows && Due(t.rows[id], now) && t.rows[id] !in batch
    ensures exists due :: IsDueBatch(t, now, due) && batch <= due
    decreases left
  {
    if |batch| == RETRY_BATCH_SIZE || left == {} {
      assert IsDueBatch(t, now, batch);
    } else {
      var id :| id in left;
      var more := batch + [t.rows[id]];
      forall i | 0 <= i < |batch| ensures batch[i].id != id { assert t.rows[batch[i].id] in batch; }
      forall other | other in left - {id} ensures t.rows[other] !in more { assert t.rows[other].id == other; }
      FillBatch(t, now, more, left - {id});
      var due :| IsDueBatch(t, now, due) && more <= due;
      assert batch <= more;
    }
  }

  /** Any due row can be the first of a batch. */
  lemma HeadsABatch(s: State, row: Row)
    requires Reachable(s) && DueRow(s.world, row)
    ensures exists due: seq<Row> :: due != [] && due[0] == row && IsDueBatch(s.world.table, s.world.now, due)
  {
    ReachableInv(s);
    assert Consistent(s.world.table);
    hide Inv, Reachable, Consistent;
    var left := set id | id in s.world.table.rows && Due(s.world.table.rows[id], s.world.now) && id != row.id;
    assert forall id | id in left :: s.world.table.rows[id].id == id by { RowIds(s.world.table); }
    RowIds(s.world.table);
    FillBatch(s.world.table, s.world.now, [row], left);
    var due :| IsDueBatch(s.world.table, s.world.now, due) && [row] <= due;
    assert due[0] == row;
  }

  lemma RowIds(t: Table)
    requires Consistent(t)
    ensures forall id | id in t.rows :: t.rows[id].id == id
  {}

  /** The table once the issuers of these rows were not found. */
  function FailAll(t: Table, rest: seq<Row>): Table
    decreases |rest|
  {
    if rest == [] then t
    else FailAll(if rest[0].id in t.rows then FailRow(t, rest[0]) else t, rest[1..])
  }

  lemma {:induction false} FailAllKeeps(t: Table, rest: seq<Row>, id: nat)
    requires forall i | 0 <= i < |rest| :: rest[i].id != id
    ensures id in FailAll(t, rest).rows <==> id in t.rows
    ensures id in t.rows ==> FailAll(t, rest).rows[id] == t.rows[id]
    decreases |rest|
  {
    if rest != [] { FailAllKeeps(if rest[0].id in t.rows then FailRow(t, rest[0]) else t, rest[1..], id); }
  }

  lemma RestOfBatch(s: State)
    requires Reachable(s) && s.batch.Active?
    ensures forall i | 0 <= i < |s.batch.remaining| :: s.batch.remaining[i].id in s.world.table.rows
  {
    ReachableInv(s);
    hide WorldOk, LockOk, AllLocal, RowsSettled, UnkeyedHeld;
  }

  /** The rest of a batch may come to nothing and leave everything but those rows as it is. */
  lemma {:induction false} SkipsTheRest(s: State)
    requires Reachable(s) && s.batch.Active? && s.batch.current.None?
    ensures exists s' :: Reachable(s') && s'.batch == Idle && s'.lock == s.lock
              && s'.world == s.world.(table := FailAll(s.world.table, s.batch.remaining))
    decreases |s.batch.remaining|
  {
    hide Reachable;
    var rest := s.batch.remaining;
    if rest == [] {
      OneMoreEvent(s, EndBatch);
      assert Reachable(s.(batch := Idle));
    } else {
      RestOfBatch(s);
      SkipsOne(s);
      var q := NewRetry(rest[0]).(pc := Ended(Deferred));
      var s1 := Plus(s, s.world.(table := FailRow(s.world.table, rest[0])), q, s.lock, Active(rest[1..], None));
      SkipsTheRest(s1);
      var s' :| Reachable(s') && s'.batch == Idle && s'.lock == s.lock
                && s'.world == s1.world.(table := FailAll(s1.world.table, rest[1..]));
    }
  }

  lemma SkipsOne(s: State)
    requires Reachable(s) && s.batch.Active? && s.batch.current.None? && s.batch.remaining != []
    requires s.batch.remaining[0].id in s.world.table.rows
    ensures var rest := s.batch.remaining;
            Reachable(Plus(s, s.world.(table := FailRow(s.world.table, rest[0])),
                           NewRetry(rest[0]).(pc := Ended(Deferred)), s.lock, Active(rest[1..], None)))
  {
    hide Reachable, FailRow;
    var row, batch := s.batch.remaining[0], Active(s.batch.remaining[1..], Some(|s.procs|));
    OneMoreEvent(s, NextRow);
    FindsItsIssuer(s, row, batch, false);
    Works(s, s.world, NewRetry(row).(pc := FailingOrphan), s.lock, batch);
  }

  lemma Ticks(s: State, to: int)
    requires Reachable(s) && to >= s.world.now
    ensures Reachable(s.(world := s.world.(now := to)))
  {
    hide Reachable;
    OneMoreEvent(s, Tick(to));
  }
}
