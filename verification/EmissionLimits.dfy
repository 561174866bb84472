/**
 * How far exactly-once does not go: a queued row that has nothing to recover (no attempted number,
 * or a stranger's voucher at it) is requested anew on every retry, and each lost reply may hide one
 * more voucher.
 */
module EmissionLimits {
  import opened Common
  import opened Arca
  import opened CaeRequest
  import opened PendingQueue
  import opened Emission
  import opened EmissionInvariant
  import opened EmissionRuns
  import IssuerLock

  // One lost retry ----------------------------------------------------------------------------------

  /** ARCA authorizes the next number for the row's sale and the reply is lost. */
  function Reissued(w: World, row: Row, cae: string): World {
    w.(ledger := Append(w.ledger, RowSeries(w.cuits, row), Entry(DetailOf(row.payload), cae, Some(row.submission))))
  }

  lemma RetryReissues(s: State, w: World, row: Row, pc: Pc, cae: string)
    ensures Authorized(w, Retrier(s, row, pc), cae) == Reissued(w, row, cae)
    ensures Reissued(w, row, cae) == w.(ledger := Reissued(w, row, cae).ledger)
  {}

  lemma RetryBumps(s: State, w: World, row: Row)
    requires row.id in w.table.rows
    ensures CanAct(w, Retrier(s, row, Bumping))
    ensures Act(w, Retrier(s, row, Bumping)) == (w.(table := BumpRow(w.table, row, w.now, w.policy)), Leaving(Deferred))
  {}

  /** From any reachable state in which the scheduler is idle and the issuer's lock free, and for any due
      row at the head of a batch for which there is nothing to adopt: it can be requested once more, the entry
      appended and the reply lost, and the row bumped as if nothing had happened. */
  lemma LostRetryAddsAnEntry(s: State, due: seq<Row>, cae: string)
    requires Reachable(s) && due != [] && Resting(s, due[0].issuer) && IsDueBatch(s.world.table, s.world.now, due)
    requires FindsNothing(s.world, due[0]) && cae != ""
    ensures due[0].id in s.world.table.rows
    ensures exists s' :: Reachable(s') && s'.batch == Active(due[1..], None) && IssuerFree(s'.lock, due[0].issuer)
              && s'.world == Reissued(s.world, due[0], cae).(
                   table := BumpRow(s.world.table, due[0], s.world.now, s.world.policy))
  {
    var row, batch := due[0], Active(due[1..], Some(|s.procs|));
    assert row.id in s.world.table.rows && s.world.table.rows[row.id] == row;
    hide Reachable, Reissued, Authorized, FindsNothing, BumpRow, IsDueBatch, IssuerFree, Entered, Left, Act, CanAct;
    RetryEnters(s, due);
    RecoversNothing(s, row, Entered(s.lock, row.issuer), batch);
    var p := Retrier(s, row, Attempting(Authenticating));
    LosesTheReply(s, s.world, p, Entered(s.lock, row.issuer), batch, cae);
    RetryReissues(s, s.world, row, p.pc, cae);
    var w := Reissued(s.world, row, cae);
    RetryBumps(s, w, row);
    Works(s, w, p.(pc := Bumping), Entered(s.lock, row.issuer), batch);
    var w' := w.(table := BumpRow(w.table, row, w.now, w.policy));
    Leaves(s, w', p.(pc := Leaving(Deferred)), batch);
    assert Reachable(Plus(s, w', p.(pc := Ended(Deferred)), Left(s.lock, row.issuer), Active(due[1..], None)));
  }

  // Many of them ------------------------------------------------------------------------------------

  function Bumped(w: World, row: Row): Row
    requires row.id in w.table.rows
  {
    BumpRow(w.table, row, w.now, w.policy).rows[row.id]
  }

  /** The row as the next retry will find it, once its time has come. */
  ghost predicate AfterLostRetry(w: World, w1: World, row: Row)
    requires row.id in w.table.rows
  {
    && w1.queued == w.queued && w1.cuits == w.cuits && w1.policy == w.policy
    && w1.ledger == Reissued(w, row, "CAE").ledger
    && DueRow(w1, Bumped(w, row)) && NothingToRecover(w1, Bumped(w, row))
  }

  lemma BumpedRow(w: World, row: Row)
    requires DueRow(w, row) && row.retryCount + 1 < w.policy.maxRetries
    ensures SameOrigin(Bumped(w, row), row) && Bumped(w, row).retryCount == row.retryCount + 1
    ensures Bumped(w, row).status == PENDING && Bumped(w, row).nextRetryAt >= w.now
  {}

  lemma StillNothingToRecover(w: World, w1: World, row: Row, row1: Row)
    requires NothingToRecover(w, row) && w1.ledger == Reissued(w, row, "CAE").ledger && w1.cuits == w.cuits
    requires SameOrigin(row1, row)
    ensures NothingToRecover(w1, row1)
  {}

  /** One lost retry, the rest of its batch, and the clock moves on to the next. */
  lemma LostRetryThenWait(s: State, row: Row)
    requires Reachable(s) && Resting(s, row.issuer) && DueRow(s.world, row) && NothingToRecover(s.world, row)
    requires row.retryCount + 1 < s.world.policy.maxRetries
    ensures exists s1 :: Reachable(s1) && Resting(s1, row.issuer) && AfterLostRetry(s.world, s1.world, row)
  {
    hide Reachable, IssuerFree, NothingToRecover, Reissued, BumpRow, FailAll;
    HeadsABatch(s, row);
    var due: seq<Row> :| due != [] && due[0] == row && IsDueBatch(s.world.table, s.world.now, due);
    DistinctRest(s.world, due);
    hide IsDueBatch;
    assert FindsNothing(s.world, row) by { NothingIsFound(s.world, row); }
    LostRetryAddsAnEntry(s, due, "CAE");
    var table := BumpRow(s.world.table, row, s.world.now, s.world.policy);
    var s0 :| Reachable(s0) && s0.batch == Active(due[1..], None) && IssuerFree(s0.lock, row.issuer)
              && s0.world == Reissued(s.world, row, "CAE").(table := table);
    RetryReissues(s, s.world, row, Bumping, "CAE");
    SkipsTheRest(s0);
    var s2 :| Reachable(s2) && s2.batch == Idle && s2.lock == s0.lock
              && s2.world == s0.world.(table := FailAll(s0.world.table, due[1..]));
    BumpedRow(s.world, row);
    assert row.id in table.rows && table.rows[row.id] == Bumped(s.world, row) by { BumpsInPlace(s.world, row); }
    FailAllKeeps(table, due[1..], row.id);
    var row1 := Bumped(s.world, row);
    Ticks(s2, row1.nextRetryAt);
    var s1 := s2.(world := s2.world.(now := row1.nextRetryAt));
    StillNothingToRecover(s.world, s1.world, row, row1);
    assert AfterLostRetry(s.world, s1.world, row);
  }

  lemma NothingIsFound(w: World, row: Row)
    requires NothingToRecover(w, row)
    ensures FindsNothing(w, row)
  {}

  lemma DistinctRest(w: World, due: seq<Row>)
    requires due != [] && IsDueBatch(w.table, w.now, due)
    ensures forall i | 0 <= i < |due[1..]| :: due[1..][i].id != due[0].id
  {}

  lemma BumpsInPlace(w: World, row: Row)
    requires row.id in w.table.rows
    ensures row.id in BumpRow(w.table, row, w.now, w.policy).rows
  {}

  /** What k lost retries leave: k more entries of the row, one after the other. */
  ghost predicate PiledUp(w: World, w': World, row: Row, k: nat) {
    var series := RowSeries(w.cuits, row);
    && w'.queued == w.queued && w'.cuits == w.cuits && Extends(w.ledger, w'.ledger)
    && |Numbering(w'.ledger, series)| == |Numbering(w.ledger, series)| + k
    && forall n | |Numbering(w.ledger, series)| < n <= |Numbering(w.ledger, series)| + k ::
         Own(w'.ledger, series, n, row.submission)
  }

  lemma ReissuedPilesUp(w: World, w1: World, w2: World, row: Row, row1: Row, k: nat)
    requires w1.queued == w.queued && w1.cuits == w.cuits && w1.ledger == Reissued(w, row, "CAE").ledger
    requires SameOrigin(row1, row) && PiledUp(w1, w2, row1, k)
    ensures PiledUp(w, w2, row, k + 1)
  {
    var series := RowSeries(w.cuits, row);
    var last := |Numbering(w.ledger, series)|;
    assert Extends(w.ledger, w1.ledger);
    forall n | last < n <= last + k + 1 ensures Own(w2.ledger, series, n, row.submission) {
      if n == last + 1 { assert Own(w1.ledger, series, n, row.submission); }
    }
  }

  /** There is no bound but the retry policy's on how many vouchers such a row can get: k retries can each
      lose their reply and leave k entries more. */
  lemma {:induction false} LostRetriesPileUp(s: State, row: Row, k: nat)
    requires Reachable(s) && Resting(s, row.issuer) && DueRow(s.world, row) && NothingToRecover(s.world, row)
    requires row.retryCount + k < s.world.policy.maxRetries
    ensures exists s' :: Reachable(s') && Resting(s', row.issuer) && PiledUp(s.world, s'.world, row, k)
    decreases k
  {
    hide Reachable, IssuerFree, NothingToRecover, Reissued, BumpRow;
    if k == 0 {
      assert PiledUp(s.world, s.world, row, 0);
    } else {
      LostRetryThenWait(s, row);
      BumpedRow(s.world, row);
      var row1 := Bumped(s.world, row);
      hide Bumped, PiledUp, DueRow;
      var s1 :| Reachable(s1) && Resting(s1, row.issuer) && AfterLostRetry(s.world, s1.world, row);
      LostRetriesPileUp(s1, row1, k - 1);
      var s2 :| Reachable(s2) && Resting(s2, row1.issuer) && PiledUp(s1.world, s2.world, row1, k - 1);
      ReissuedPilesUp(s.world, s1.world, s2.world, row, row1, k - 1);
    }
  }

  // Two concrete ways there -------------------------------------------------------------------------

  const START := State(
    World(0, map[], Policy(5, 1), map[], Table(map[], map[]), [], {}, map[], [], map[], {}, {}, 0, {}),
    [], IssuerLock.EMPTY, Idle)
  const SALE := Input(1, 6, 99, "0", Amounts(100, 21, 121))
  const SERIES := Series("", 1, 6)
  const STRANGER := Entry(Detail(80, "20111111112", 999), "X", None)

  /** The row a first call leaves, and the world it is queued in. */
  function FirstRow(key: Option<string>, attempted: Option<int>): Row {
    NewRow(0, "i", key, SALE, attempted, 0, 0, Policy(5, 1))
  }

  function Waiting(key: Option<string>, attempted: Option<int>): World {
    var row := FirstRow(key, attempted);
    Called(START).(table := Insert(Table(map[], map[]), row), queued := [row])
  }

  lemma FirstCallEnters(key: Option<string>)
    ensures Reachable(START) && IssuerFree(START.lock, "i")
    ensures Reachable(Plus(START, Called(START), Caller(START, "i", SALE, key, Attempting(Authenticating)),
                           Entered(START.lock, "i"), Idle))
  {
    Started(START);
    CallEnters(START, "i", SALE, key);
  }

  lemma FirstCallEnqueues(key: Option<string>, attempted: Option<int>)
    ensures var p := Caller(START, "i", SALE, key, Enqueuing(attempted));
            CanAct(Called(START), p) && Act(Called(START), p) == (Waiting(key, attempted), Leaving(Queued(0)))
  {
    var p := Caller(START, "i", SALE, key, Enqueuing(attempted));
    assert RowOf(Called(START), p) == FirstRow(key, attempted);
    assert [] + [FirstRow(key, attempted)] == [FirstRow(key, attempted)];
  }

  lemma FirstCallIsQueued(key: Option<string>, attempted: Option<int>)
    requires Reachable(START) && IssuerFree(START.lock, "i")
    requires Reachable(Plus(START, Called(START), Caller(START, "i", SALE, key, Enqueuing(attempted)),
                            Entered(START.lock, "i"), Idle))
    ensures exists s :: Reachable(s) && Resting(s, "i") && s.world == Waiting(key, attempted)
  {
    FirstCallEnqueues(key, attempted);
    hide Reachable, IssuerFree, Entered, Left, Act, CanAct, Waiting;
    var p := Caller(START, "i", SALE, key, Enqueuing(attempted));
    Works(START, Called(START), p, Entered(START.lock, "i"), Idle);
    Leaves(START, Waiting(key, attempted), p.(pc := Leaving(Queued(0))), Idle);
  }

  /** One call to ARCA fails without a trace before any number was chosen. */
  lemma AuthenticationFails(key: Option<string>)
    ensures exists s :: Reachable(s) && Resting(s, "i") && s.world == Waiting(key, None)
  {
    FirstCallEnters(key);
    hide Reachable, IssuerFree, Entered;
    Talks(START, Called(START), Caller(START, "i", SALE, key, Attempting(Authenticating)), Entered(START.lock, "i"), Idle,
          Lost(None));
    FirstCallIsQueued(key, None);
  }

  /** The request itself is lost, before it took effect. */
  lemma RequestIsLost(key: Option<string>)
    ensures exists s :: Reachable(s) && Resting(s, "i") && s.world == Waiting(key, Some(1))
  {
    FirstCallEnters(key);
    hide Reachable, IssuerFree, Entered;
    var p := Caller(START, "i", SALE, key, Attempting(Authenticating));
    AsksForTheNext(START, Called(START), p, Entered(START.lock, "i"), Idle);
    Talks(START, Called(START), p.(pc := Attempting(Requesting(1))), Entered(START.lock, "i"), Idle, Lost(None));
    FirstCallIsQueued(key, Some(1));
  }

  /** Queued without an attempted number, one sale is authorized four times. */
  lemma WithoutANumberOneSaleBecomesFour()
    ensures exists s :: Reachable(s)
              && s.world.queued == [FirstRow(None, None)]
              && forall n | 1 <= n <= 4 :: Own(s.world.ledger, SERIES, n, FirstRow(None, None).submission)
  {
    AuthenticationFails(None);
    hide Reachable, IssuerFree;
    var s0 :| Reachable(s0) && Resting(s0, "i") && s0.world == Waiting(None, None);
    Ticks(s0, 1);
    var s1 := s0.(world := s0.world.(now := 1));
    LostRetriesPileUp(s1, FirstRow(None, None), 4);
    var s2 :| Reachable(s2) && Resting(s2, "i") && PiledUp(s1.world, s2.world, FirstRow(None, None), 4);
    assert RowSeries(s1.world.cuits, FirstRow(None, None)) == SERIES;
  }

  /** Queued with attempted number 1, which a stranger's voucher then takes, it still is. */
  lemma WithTheNumberTakenOneSaleBecomesFour()
    ensures exists s :: Reachable(s)
              && s.world.queued == [FirstRow(None, Some(1))]
              && forall n | 2 <= n <= 5 :: Own(s.world.ledger, SERIES, n, FirstRow(None, Some(1)).submission)
  {
    RequestIsLost(None);
    hide Reachable, IssuerFree;
    var s0 :| Reachable(s0) && Resting(s0, "i") && s0.world == Waiting(None, Some(1));
    Ticks(s0, 1);
    var s1 := s0.(world := s0.world.(now := 1));
    OneMoreEvent(s1, ForeignVoucher(SERIES, STRANGER.detail, STRANGER.cae));
    var s2 := s1.(world := s1.world.(ledger := Append(map[], SERIES, STRANGER)));
    TakenNumber(s2.world);
    LostRetriesPileUp(s2, FirstRow(None, Some(1)), 4);
    var s3 :| Reachable(s3) && Resting(s3, "i") && PiledUp(s2.world, s3.world, FirstRow(None, Some(1)), 4);
  }

  lemma TakenNumber(w: World)
    requires w == Waiting(None, Some(1)).(now := 1, ledger := Append(map[], SERIES, STRANGER))
    ensures DueRow(w, FirstRow(None, Some(1))) && NothingToRecover(w, FirstRow(None, Some(1)))
    ensures RowSeries(w.cuits, FirstRow(None, Some(1))) == SERIES && |Numbering(w.ledger, SERIES)| == 1
  {}
}
