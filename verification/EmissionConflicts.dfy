/**
 * Runs in which two sales get in each other's way: a stranger's voucher is issued as the sale's own, a
 * queued row can never be completed, one key gets any number of vouchers, an authorization is lost.
 */
module EmissionConflicts {
  import opened Common
  import opened Arca
  import opened CaeRequest
  import opened PendingQueue
  import opened Emission
  import opened EmissionInvariant
  import opened EmissionTalk
  import opened EmissionSafety
  import opened EmissionRuns
  import opened EmissionLimits
  import IssuerLock

  // Somebody else's voucher -------------------------------------------------------------------------

  const STRANGERS_NUMBER := IssuedVoucher(0, 6, 1, 1, "X", 100, 21, 121)

  /** Between the last number and the request a stranger takes the next one: the sale is told "duplicate",
      finds the stranger's voucher and is issued with it, though total and recipient are other ones; the
      sale itself is authorized nowhere. */
  lemma AStrangersVoucherIsIssued()
    ensures exists s :: Reachable(s)
              && |s.procs| == 1 && s.procs[0].input == SALE && s.procs[0].pc == Ended(Issued(STRANGERS_NUMBER))
              && s.world.ledger == map[SERIES := [STRANGER]] && STRANGER.origin == None
              && !Matches(STRANGER.detail, DetailOf(SALE))
  {
    NotALookalike();
    hide Matches, Reachable, Stored, Left;
    ACallTakesTheStrangers();
    var p := Caller(START, "i", SALE, None, Recording(1, "X", false));
    var w := Called(START).(ledger := map[SERIES := [STRANGER]]);
    StoresNoEntry(w, p);
    var s := Plus(START, Stored(w, p), p.(pc := Ended(Issued(STRANGERS_NUMBER))), Left(START.lock, "i"), Idle);
    assert s.procs == [p.(pc := Ended(Issued(STRANGERS_NUMBER)))];
  }

  lemma NotALookalike()
    ensures !Matches(STRANGER.detail, DetailOf(SALE))
  {}

  lemma ACallTakesTheStrangers()
    ensures var p := Caller(START, "i", SALE, None, Recording(1, "X", false));
            var w := Called(START).(ledger := map[SERIES := [STRANGER]]);
            Reachable(Plus(START, Stored(w, p), p.(pc := Ended(Issued(STRANGERS_NUMBER))), Left(START.lock, "i"), Idle))
  {
    ACallIsToldDuplicate();
    hide Reachable, IssuerFree, Entered, Left;
    var p, lock := Caller(START, "i", SALE, None, Attempting(ConsultingDuplicate(1))), Entered(START.lock, "i");
    var w := Called(START).(ledger := map[SERIES := [STRANGER]]);
    TalkAdopts(w, p);
    StoresAStrangers(w, p.(pc := Recording(1, "X", false)));
    hide Talk, CanTalk, CallAt, Possible, Act, CanAct, Stored;
    Talks(START, w, p, lock, Idle, Replied(Found(STRANGER.detail, "X")));
    Works(START, w, p.(pc := Recording(1, "X", false)), lock, Idle);
    var w' := Stored(w, p.(pc := Recording(1, "X", false)));
    Leaves(START, w', p.(pc := Leaving(Issued(STRANGERS_NUMBER))), Idle);
  }

  lemma StoresNoEntry(w: World, p: Proc)
    requires p.pc.Recording?
    ensures Stored(w, p).ledger == w.ledger
  {}

  lemma ACallIsToldDuplicate()
    ensures Reachable(START) && IssuerFree(START.lock, "i")
    ensures Reachable(Plus(START, Called(START).(ledger := map[SERIES := [STRANGER]]),
                           Caller(START, "i", SALE, None, Attempting(ConsultingDuplicate(1))),
                           Entered(START.lock, "i"), Idle))
  {
    FirstCallEnters(None);
    hide Reachable, IssuerFree, Entered, Left;
    var p, lock := Caller(START, "i", SALE, None, Attempting(Authenticating)), Entered(START.lock, "i");
    var w := Called(START).(ledger := map[SERIES := [STRANGER]]);
    AsksForTheNext(START, Called(START), p, lock, Idle);
    AStrangerComesIn(p.(pc := Attempting(Requesting(1))), lock);
    Talks(START, w, p.(pc := Attempting(Requesting(1))), lock, Idle, Replied(Rejected({DUPLICATE_NUMBER})));
  }

  lemma AStrangerComesIn(p: Proc, lock: IssuerLock.Lock)
    requires Reachable(Plus(START, Called(START), p, lock, Idle))
    ensures Reachable(Plus(START, Called(START).(ledger := map[SERIES := [STRANGER]]), p, lock, Idle))
  {
    hide Reachable;
    var s0, e := Plus(START, Called(START), p, lock, Idle), ForeignVoucher(SERIES, STRANGER.detail, STRANGER.cae);
    OneMoreEvent(s0, e);
    assert [] + [STRANGER] == [STRANGER];
    assert Apply(s0, e) == Plus(START, Called(START).(ledger := map[SERIES := [STRANGER]]), p, lock, Idle);
  }

  lemma TalkAdopts(w: World, p: Proc)
    requires p == Caller(START, "i", SALE, None, Attempting(ConsultingDuplicate(1)))
    requires w == Called(START).(ledger := map[SERIES := [STRANGER]])
    ensures var o := Replied(Found(STRANGER.detail, "X"));
            CanTalk(p) && Possible(w.ledger, CallAt(w, p), o) && Talk(w, p, o) == (w, Recording(1, "X", false))
  {
    assert ProcSeries(w.cuits, p) == SERIES && At(w.ledger, SERIES, 1) == STRANGER;
  }

  /** The world once a call without a key has stored its voucher. */
  function Stored(w: World, p: Proc): World
    requires p.pc.Recording?
  {
    var v := VoucherOf(w, p);
    w.(vouchers := w.vouchers + [v], numbers := w.numbers + {NumberKey(v)})
  }

  lemma StoresAStrangers(w: World, p: Proc)
    requires p == Caller(START, "i", SALE, None, Recording(1, "X", false))
    requires w == Called(START).(ledger := map[SERIES := [STRANGER]])
    ensures CanAct(w, p) && Act(w, p) == (Stored(w, p), Leaving(Issued(STRANGERS_NUMBER)))
  {}

  // Retries that end with an exception --------------------------------------------------------------

  /** An exception ends the batch, whatever was left of it. */
  lemma CrashEnds(s: State, w: World, row: Row, rest: seq<Row>)
    requires Reachable(s) && IssuerFree(s.lock, row.issuer)
    requires Reachable(Plus(s, w, Retrier(s, row, Leaving(Crashed)), Entered(s.lock, row.issuer),
                            Active(rest, Some(|s.procs|))))
    ensures Reachable(Plus(s, w, Retrier(s, row, Ended(Crashed)), Left(s.lock, row.issuer), Idle))
    ensures IssuerFree(Left(s.lock, row.issuer), row.issuer)
  {
    hide Reachable, IssuerFree, Entered, Left;
    Leaves(s, w, Retrier(s, row, Leaving(Crashed)), Active(rest, Some(|s.procs|)));
    OneMoreEvent(Plus(s, w, Retrier(s, row, Ended(Crashed)), Left(s.lock, row.issuer), Active([], None)), EndBatch);
  }

  /** k more retries of the row have come to an end, all with an exception. */
  ghost predicate CrashedRetries(s: State, s': State, row: Row, k: nat) {
    && s.procs <= s'.procs && |s'.procs| == |s.procs| + k
    && forall p | |s.procs| <= p < |s'.procs| :: s'.procs[p].job == Retry(row) && s'.procs[p].pc == Ended(Crashed)
  }

  lemma OneMoreCrash(s: State, s1: State, s2: State, row: Row, k: nat)
    requires CrashedRetries(s, s1, row, 1) && CrashedRetries(s1, s2, row, k)
    ensures CrashedRetries(s, s2, row, k + 1)
  {
    forall p | |s.procs| <= p < |s2.procs| ensures s2.procs[p].job == Retry(row) && s2.procs[p].pc == Ended(Crashed) {
      if p < |s1.procs| { assert s2.procs[p] == s1.procs[p]; }
    }
  }

  /** ARCA holds a voucher at the row's attempted number that looks like the row's, and the issuer has
      stored a voucher with that number already. */
  ghost predicate NumberTaken(w: World, row: Row) {
    && row.attemptedNumber.Some?
    && Has(w.ledger, RowSeries(w.cuits, row), row.attemptedNumber.value)
    && Matches(At(w.ledger, RowSeries(w.cuits, row), row.attemptedNumber.value).detail, DetailOf(row.payload))
    && (row.issuer, row.payload.salesPoint, row.payload.voucherType, row.attemptedNumber.value) in w.numbers
  }

  lemma TakenNumberCrashes(s: State, row: Row, cae: string)
    requires NumberTaken(s.world, row)
    ensures var p := Retrier(s, row, Recording(row.attemptedNumber.value, cae, true));
            CanAct(s.world, p) && Act(s.world, p) == (s.world, Leaving(Crashed))
  {}

  lemma OneTakenNumber(s: State, row: Row)
    requires Reachable(s) && Resting(s, row.issuer) && DueRow(s.world, row) && NumberTaken(s.world, row)
    ensures exists s' :: Reachable(s') && Resting(s', row.issuer) && s'.world == s.world && CrashedRetries(s, s', row, 1)
  {
    hide Reachable, IssuerFree, Entered, Left, Matches, IsDueBatch;
    HeadsABatch(s, row);
    var due: seq<Row> :| due != [] && due[0] == row && IsDueBatch(s.world.table, s.world.now, due);
    PointOfTheRow(s, row);
    RetryEnters(s, due);
    var batch := Active(due[1..], Some(|s.procs|));
    Consults(s, row, Entered(s.lock, row.issuer), batch);
    var cae := At(s.world.ledger, RowSeries(s.world.cuits, row), row.attemptedNumber.value).cae;
    TakenNumberCrashes(s, row, cae);
    hide Act, CanAct, NumberTaken;
    Works(s, s.world, Retrier(s, row, Recording(row.attemptedNumber.value, cae, true)), Entered(s.lock, row.issuer), batch);
    CrashEnds(s, s.world, row, due[1..]);
    var s' := Plus(s, s.world, Retrier(s, row, Ended(Crashed)), Left(s.lock, row.issuer), Idle);
    assert CrashedRetries(s, s', row, 1);
  }

  /** Such a row can be processed any number of times: each processing ends with an exception and leaves
      the whole world as it was, the row waiting with the same count of retries. */
  lemma {:induction false} TakenNumberNeverCompletes(s: State, row: Row, k: nat)
    requires Reachable(s) && Resting(s, row.issuer) && DueRow(s.world, row) && NumberTaken(s.world, row)
    ensures exists s' :: Reachable(s') && Resting(s', row.issuer) && s'.world == s.world && CrashedRetries(s, s', row, k)
    decreases k
  {
    hide Reachable, IssuerFree, DueRow, NumberTaken;
    if k == 0 {
      assert CrashedRetries(s, s, row, 0);
    } else {
      OneTakenNumber(s, row);
      var s1 :| Reachable(s1) && Resting(s1, row.issuer) && s1.world == s.world && CrashedRetries(s, s1, row, 1);
      TakenNumberNeverCompletes(s1, row, k - 1);
      var s2 :| Reachable(s2) && Resting(s2, row.issuer) && s2.world == s1.world && CrashedRetries(s1, s2, row, k - 1);
      OneMoreCrash(s, s1, s2, row, k - 1);
    }
  }

  // Second vouchers ---------------------------------------------------------------------------------

  function SecondVoucher(w: World, row: Row, cae: string): Voucher {
    Voucher(|w.vouchers|, row.issuer, row.payload, |Numbering(w.ledger, RowSeries(w.cuits, row))| + 1, cae, false,
            row.key, Some(row.id), row.submission)
  }

  /** The row's sale is authorized and stored once more, and nothing else happens. */
  function WithSecondVoucher(w: World, row: Row, cae: string): World {
    var v := SecondVoucher(w, row, cae);
    Reissued(w, row, cae).(vouchers := w.vouchers + [v], numbers := w.numbers + {NumberKey(v)})
  }

  lemma NextNumberIsFree(s: State, row: Row, cae: string)
    requires Reachable(s)
    ensures NumberKey(SecondVoucher(s.world, row, cae)) !in s.world.numbers
    ensures |s.world.vouchers| !in s.world.unkeyed
  {
    ReachableInv(s);
    hide Reachable, AllLocal, LockOk, BatchOk, LiveDistinct, RowsSettled, UnkeyedHeld;
    var w := s.world;
    assert VouchersOk(w.vouchers, w.ledger, w.cuits, w.queued) && IndexOk(w.vouchers, w.numbers);
    assert RecordsOk(w.records, w.vouchers, w.unkeyed);
    hide WorldOk;
    var p := Retrier(s, row, Bumping);
    NextNumberIsUnused(w, p);
    assert NumberUnused(w.vouchers, p, |Numbering(w.ledger, RowSeries(w.cuits, row))| + 1);
  }

  lemma RecordsAgain(s: State, row: Row, cae: string)
    requires HasText(row.key) && NumberKey(SecondVoucher(s.world, row, cae)) !in s.world.numbers
    ensures var w, v := Reissued(s.world, row, cae), SecondVoucher(s.world, row, cae);
            var p := Retrier(s, row, Recording(v.number, cae, false));
            && CanAct(w, p)
            && Act(w, p) == (WithSecondVoucher(s.world, row, cae).(unkeyed := s.world.unkeyed + {v.id}), Keying(v.id))
  {}

  lemma FindsItsKeyRecorded(s: State, row: Row, cae: string)
    requires KeyRecorded(s.world.records, row.issuer, row.key) && |s.world.vouchers| !in s.world.unkeyed
    ensures var w := WithSecondVoucher(s.world, row, cae).(unkeyed := s.world.unkeyed + {|s.world.vouchers|});
            var p := Retrier(s, row, Keying(|s.world.vouchers|));
            CanAct(w, p) && Act(w, p) == (WithSecondVoucher(s.world, row, cae), Leaving(Crashed))
  {
    assert s.world.unkeyed + {|s.world.vouchers|} - {|s.world.vouchers|} == s.world.unkeyed;
  }

  /** From any reachable state in which the scheduler is idle and the issuer's lock free: a due row whose
      key is recorded, and for which there is nothing to adopt, can get a voucher on its next retry, which then
      ends with an exception and leaves the table, the records and the row's retry count as they were. */
  lemma RecordedKeyGetsASecondVoucher(s: State, row: Row)
    requires Reachable(s) && Resting(s, row.issuer) && DueRow(s.world, row) && FindsNothing(s.world, row)
    requires KeyRecorded(s.world.records, row.issuer, row.key)
    ensures exists s' :: Reachable(s') && Resting(s', row.issuer)
              && s'.world == WithSecondVoucher(s.world, row, "CAE") && CrashedRetries(s, s', row, 1)
  {
    hide Reachable, IssuerFree, Entered, Left, FindsNothing, IsDueBatch, Reissued, Authorized, Act, CanAct;
    hide WithSecondVoucher, KeyRecorded, SecondVoucher;
    HeadsABatch(s, row);
    var due: seq<Row> :| due != [] && due[0] == row && IsDueBatch(s.world.table, s.world.now, due);
    RetryEnters(s, due);
    var lock, batch := Entered(s.lock, row.issuer), Active(due[1..], Some(|s.procs|));
    RecoversNothing(s, row, lock, batch);
    var p := Retrier(s, row, Attempting(Authenticating));
    IsGranted(s, s.world, p, lock, batch, "CAE");
    RetryReissues(s, s.world, row, p.pc, "CAE");
    NextNumberIsFree(s, row, "CAE");
    TextOfKey(s, row);
    RecordsAgain(s, row, "CAE");
    var w := Reissued(s.world, row, "CAE");
    assert SecondVoucher(s.world, row, "CAE").number == LastNumber(s.world, p) + 1
           && SecondVoucher(s.world, row, "CAE").id == |s.world.vouchers| by { SecondNumber(s, row); }
    Works(s, w, p.(pc := Recording(LastNumber(s.world, p) + 1, "CAE", false)), lock, batch);
    FindsItsKeyRecorded(s, row, "CAE");
    var w1 := WithSecondVoucher(s.world, row, "CAE").(unkeyed := s.world.unkeyed + {|s.world.vouchers|});
    Works(s, w1, p.(pc := Keying(|s.world.vouchers|)), lock, batch);
    CrashEnds(s, WithSecondVoucher(s.world, row, "CAE"), row, due[1..]);
    var s' := Plus(s, WithSecondVoucher(s.world, row, "CAE"), Retrier(s, row, Ended(Crashed)),
                   Left(s.lock, row.issuer), Idle);
    assert CrashedRetries(s, s', row, 1);
  }

  lemma TextOfKey(s: State, row: Row)
    requires KeyRecorded(s.world.records, row.issuer, row.key)
    ensures HasText(row.key)
  {}

  lemma SecondNumber(s: State, row: Row)
    ensures SecondVoucher(s.world, row, "CAE").number == LastNumber(s.world, Retrier(s, row, Attempting(Authenticating))) + 1
    ensures SecondVoucher(s.world, row, "CAE").id == |s.world.vouchers|
  {}

  /** k more vouchers of one row, all under its key, and otherwise the same tables. */
  ghost predicate MoreVouchers(w: World, w': World, row: Row, k: nat) {
    && w'.table == w.table && w'.records == w.records && w'.now == w.now && w'.cuits == w.cuits
    && Extends(w.ledger, w'.ledger)
    && w.vouchers <= w'.vouchers && |w'.vouchers| == |w.vouchers| + k
    && forall v | |w.vouchers| <= v < |w'.vouchers| ::
         UnderKey(w'.vouchers[v], row.issuer, row.key) && w'.vouchers[v].source == Some(row.id)
  }

  lemma OneMoreVoucher(w: World, row: Row)
    ensures MoreVouchers(w, WithSecondVoucher(w, row, "CAE"), row, 1)
    ensures NothingToRecover(w, row) ==> NothingToRecover(WithSecondVoucher(w, row, "CAE"), row)
  {}

  lemma VouchersAddUp(w: World, w1: World, w2: World, row: Row, k: nat)
    requires MoreVouchers(w, w1, row, 1) && MoreVouchers(w1, w2, row, k)
    ensures MoreVouchers(w, w2, row, k + 1)
  {
    forall v | |w.vouchers| <= v < |w2.vouchers|
      ensures UnderKey(w2.vouchers[v], row.issuer, row.key) && w2.vouchers[v].source == Some(row.id)
    {
      if v < |w1.vouchers| { assert w2.vouchers[v] == w1.vouchers[v]; }
    }
  }

  /** ... and so on every later retry: any number of vouchers under one key, not even bounded by the retry
      policy, for the row goes on waiting with the same count. */
  lemma {:induction false} SecondVouchersPileUp(s: State, row: Row, k: nat)
    requires Reachable(s) && Resting(s, row.issuer) && DueRow(s.world, row) && NothingToRecover(s.world, row)
    requires KeyRecorded(s.world.records, row.issuer, row.key)
    ensures exists s' :: Reachable(s') && Resting(s', row.issuer) && MoreVouchers(s.world, s'.world, row, k)
              && CrashedRetries(s, s', row, k)
    decreases k
  {
    hide Reachable, IssuerFree, NothingToRecover, KeyRecorded, CrashedRetries, WithSecondVoucher;
    if k == 0 {
      assert MoreVouchers(s.world, s.world, row, 0);
      assert CrashedRetries(s, s, row, 0) by { NoCrash(s, row); }
    } else {
      assert FindsNothing(s.world, row) by { NothingIsFound(s.world, row); }
      RecordedKeyGetsASecondVoucher(s, row);
      var s1 :| Reachable(s1) && Resting(s1, row.issuer)
                && s1.world == WithSecondVoucher(s.world, row, "CAE") && CrashedRetries(s, s1, row, 1);
      OneMoreVoucher(s.world, row);
      assert DueRow(s1.world, row);
      SecondVouchersPileUp(s1, row, k - 1);
      hide MoreVouchers, DueRow;
      var s2 :| Reachable(s2) && Resting(s2, row.issuer) && MoreVouchers(s1.world, s2.world, row, k - 1)
                && CrashedRetries(s1, s2, row, k - 1);
      VouchersAddUp(s.world, s1.world, s2.world, row, k - 1);
      OneMoreCrash(s, s1, s2, row, k - 1);
    }
  }

  lemma NoCrash(s: State, row: Row)
    ensures CrashedRetries(s, s, row, 0)
  {}

  // How they come about -----------------------------------------------------------------------------

  /** The second call's submission, and what it leaves when it succeeds at once. */
  function SecondCaller(s: State, key: Option<string>, pc: Pc): Proc {
    Caller(s, "i", SALE, key, pc)
  }

  const FIRST := Entry(DetailOf(SALE), "CAE", Some(1))

  function FirstVoucher(key: Option<string>): Voucher {
    Voucher(0, "i", SALE, 1, "CAE", false, key, None, 1)
  }

  /** A world in which nothing has been authorized or stored yet. */
  predicate Blank(w: World) {
    w.ledger == map[] && w.vouchers == [] && w.numbers == {} && w.records == map[] && w.unkeyed == {} && w.cuits == map[]
  }

  /** ... and one in which the second call's sale has. */
  function IssuedFirst(w: World, key: Option<string>): World {
    w.(ledger := map[SERIES := [FIRST]], vouchers := [FirstVoucher(key)], numbers := {("i", 1, 6, 1)},
       records := if HasText(key) then map[("i", key.value) := 0] else map[])
  }

  lemma SecondIsAuthorized(s: State, w: World, key: Option<string>)
    requires Blank(w) && s.world.calls == 1
    ensures var p := SecondCaller(s, key, Attempting(Authenticating));
            LastNumber(w, p) == 0 && Authorized(w, p, "CAE") == w.(ledger := map[SERIES := [FIRST]])
  {
    assert [] + [FIRST] == [FIRST];
  }

  lemma SecondIsStored(s: State, w: World, key: Option<string>)
    requires Blank(w) && s.world.calls == 1
    ensures var w1, p := w.(ledger := map[SERIES := [FIRST]]), SecondCaller(s, key, Recording(1, "CAE", false));
            && CanAct(w1, p)
            && Act(w1, p) == (IssuedFirst(w, key).(records := map[], unkeyed := if HasText(key) then {0} else {}),
                              if HasText(key) then Keying(0) else Leaving(Issued(ToIssued(FirstVoucher(key)))))
  {
    var p := SecondCaller(s, key, Recording(1, "CAE", false));
    assert VoucherOf(w, p) == FirstVoucher(key) && NumberKey(FirstVoucher(key)) == ("i", 1, 6, 1);
    assert [] + [FirstVoucher(key)] == [FirstVoucher(key)] && {} + {("i", 1, 6, 1)} == {("i", 1, 6, 1)};
    assert {} + {0} == {0};
  }

  lemma SecondIsKeyed(s: State, w: World, key: Option<string>)
    requires Blank(w) && HasText(key)
    ensures var w2, p := IssuedFirst(w, key).(records := map[], unkeyed := {0}), SecondCaller(s, key, Keying(0));
            CanAct(w2, p) && Act(w2, p) == (IssuedFirst(w, key), Leaving(Issued(ToIssued(FirstVoucher(key)))))
  {
    var unkeyed: set<nat> := {0};
    assert unkeyed - {0} == {};
  }

  /** A second call that is inside and has nothing in its way is issued number 1. */
  lemma SecondCallSucceeds(s: State, w: World, key: Option<string>)
    requires Reachable(s) && Resting(s, "i") && Blank(w) && s.world.calls == 1
    requires Reachable(Plus(s, w, SecondCaller(s, key, Attempting(Authenticating)), Entered(s.lock, "i"), Idle))
    ensures exists s' :: Reachable(s') && Resting(s', "i") && s'.world == IssuedFirst(w, key)
  {
    hide Reachable, IssuerFree, Entered, Left, Authorized, Act, CanAct, Blank, IssuedFirst;
    var lock, p := Entered(s.lock, "i"), SecondCaller(s, key, Attempting(Authenticating));
    IsGranted(s, w, p, lock, Idle, "CAE");
    SecondIsAuthorized(s, w, key);
    SecondIsStored(s, w, key);
    Works(s, w.(ledger := map[SERIES := [FIRST]]), p.(pc := Recording(1, "CAE", false)), lock, Idle);
    if HasText(key) {
      SecondIsKeyed(s, w, key);
      Works(s, IssuedFirst(w, key).(records := map[], unkeyed := {0}), p.(pc := Keying(0)), lock, Idle);
    } else {
      assert IssuedFirst(w, key).(records := map[], unkeyed := {}) == IssuedFirst(w, key) by { PlainIssued(w, key); }
    }
    Leaves(s, IssuedFirst(w, key), p.(pc := Leaving(Issued(ToIssued(FirstVoucher(key))))), Idle);
  }

  lemma PlainIssued(w: World, key: Option<string>)
    requires Blank(w) && !HasText(key)
    ensures IssuedFirst(w, key).(records := map[], unkeyed := {}) == IssuedFirst(w, key)
  {}

  /** Two equal sales (same total, no identified recipient).  The first one's request is lost before it takes
      effect; the second gets the number and is stored; from then on the first finds the second's voucher at
      its number and takes it for its own.  Without any manual action, it is processed any number of times,
      with an exception each time, and never gets a voucher. */
  lemma EqualSalesBlockEachOther(k: nat)
    ensures exists s0, s :: Reachable(s0) && Reachable(s) && s.world == s0.world
              && CrashedRetries(s0, s, FirstRow(None, Some(1)), k)
              && s.world.clashed == {} && s.world.vouchers == [FirstVoucher(None)]
              && s.world.queued == [FirstRow(None, Some(1))]
              && s.world.table.rows == map[0 := FirstRow(None, Some(1))]
  {
    RequestIsLost(None);
    hide Reachable, IssuerFree;
    var s1 :| Reachable(s1) && Resting(s1, "i") && s1.world == Waiting(None, Some(1));
    CallEnters(s1, "i", SALE, None);
    SecondCallSucceeds(s1, Called(s1), None);
    var s2 :| Reachable(s2) && Resting(s2, "i") && s2.world == IssuedFirst(Called(s1), None);
    Ticks(s2, 1);
    var s0 := s2.(world := s2.world.(now := 1));
    FirstIsTaken(s0.world);
    TakenNumberNeverCompletes(s0, FirstRow(None, Some(1)), k);
  }

  lemma FirstIsTaken(w: World)
    requires w == IssuedFirst(Waiting(None, Some(1)), None).(now := 1, calls := w.calls)
    ensures DueRow(w, FirstRow(None, Some(1))) && NumberTaken(w, FirstRow(None, Some(1)))
  {
    assert RowSeries(w.cuits, FirstRow(None, Some(1))) == SERIES;
  }

  const KEY: Option<string> := Some("k")

  /** A keyed row whose issuer was not found when its time came. */
  function FailedWorld(): World {
    var w := Waiting(KEY, None).(now := 1);
    w.(table := FailRow(w.table, FirstRow(KEY, None)))
  }

  lemma KeyedRowFails()
    ensures exists s :: Reachable(s) && Resting(s, "i") && s.world == FailedWorld()
  {
    AuthenticationFails(KEY);
    hide Reachable, IssuerFree;
    var s0 :| Reachable(s0) && Resting(s0, "i") && s0.world == Waiting(KEY, None);
    Ticks(s0, 1);
    var s1 := s0.(world := s0.world.(now := 1));
    var row := FirstRow(KEY, None);
    assert IsDueBatch(s1.world.table, 1, [row]);
    hide IsDueBatch;
    OneMoreEvent(s1, StartBatch([row]));
    SkipsTheRest(s1.(batch := Active([row], None)));
    FailsAlone(s1.world.table, row);
  }

  lemma FailsAlone(t: Table, row: Row)
    requires row.id in t.rows
    ensures FailAll(t, [row]) == FailRow(t, row)
  {
    assert [row][1..] == [];
  }

  /** The row once it has been re-armed. */
  function RearmedRow(): Row {
    FirstRow(KEY, None).(nextRetryAt := 1)
  }

  predicate Conflicting(w: World) {
    && w.records == map[("i", "k") := 0] && w.vouchers == [FirstVoucher(KEY)] && w.queued == [FirstRow(KEY, None)]
    && w.table.rows == map[0 := RearmedRow()] && w.now == 1
  }

  /** The key is resubmitted and issued, and then the failed row is put back ... */
  lemma RearmedBesideAVoucher()
    ensures exists s :: Reachable(s) && Resting(s, "i") && Conflicting(s.world)
  {
    KeyedRowFails();
    hide Reachable, IssuerFree;
    var s1 :| Reachable(s1) && Resting(s1, "i") && s1.world == FailedWorld();
    CallEnters(s1, "i", SALE, KEY);
    SecondCallSucceeds(s1, Called(s1), KEY);
    var s2 :| Reachable(s2) && Resting(s2, "i") && s2.world == IssuedFirst(Called(s1), KEY);
    OneMoreEvent(s2, RearmFailed(0));
    assert Apply(s2, RearmFailed(0)) == s2.(world := Rearmed(s2, 0));
    RearmConflicts(s2);
  }

  lemma RearmConflicts(s: State)
    requires s.world == IssuedFirst(FailedWorld(), KEY).(calls := s.world.calls)
    ensures Conflicting(Rearmed(s, 0))
  {
    hide Contended;
  }

  /** ... or the failed row is put back while the resubmission is still on its way: nothing was stored under
      the key at that moment. */
  lemma RearmedMidCall()
    ensures exists s, s' :: Reachable(s) && s.world.vouchers == [] && s.world.table.rows == map[0 := RearmedRow()]
              && |s.procs| > 0 && Obtaining(s.procs[|s.procs| - 1], "i", KEY)
              && Reachable(s') && Resting(s', "i") && Conflicting(s'.world)
  {
    KeyedRowFails();
    hide Reachable, IssuerFree, Entered;
    var s1 :| Reachable(s1) && Resting(s1, "i") && s1.world == FailedWorld();
    CallEnters(s1, "i", SALE, KEY);
    var s2 := Plus(s1, Called(s1), SecondCaller(s1, KEY, Attempting(Authenticating)), Entered(s1.lock, "i"), Idle);
    OneMoreEvent(s2, RearmFailed(0));
    var w := Rearmed(s2, 0);
    var s := Plus(s1, w, SecondCaller(s1, KEY, Attempting(Authenticating)), Entered(s1.lock, "i"), Idle);
    assert Apply(s2, RearmFailed(0)) == s;
    RearmStays(s2);
    SecondCallSucceeds(s1, w, KEY);
    var s' :| Reachable(s') && Resting(s', "i") && s'.world == IssuedFirst(w, KEY);
    assert Conflicting(s'.world);
  }

  lemma RearmStays(s: State)
    requires s.world == FailedWorld().(calls := s.world.calls)
    ensures Blank(Rearmed(s, 0)) && Rearmed(s, 0).table.rows == map[0 := RearmedRow()]
    ensures Rearmed(s, 0).queued == [FirstRow(KEY, None)] && Rearmed(s, 0).now == 1
  {
    hide Contended;
  }

  /** From either: k more vouchers under the key, one at each retry of the row, which waits on. */
  lemma AnyNumberOfVouchersUnderOneKey(k: nat)
    ensures exists s :: Reachable(s) && |s.world.vouchers| == k + 1
              && (forall v | 0 <= v <= k :: UnderKey(s.world.vouchers[v], "i", KEY))
              && s.world.table.rows == map[0 := RearmedRow()]
  {
    RearmedBesideAVoucher();
    hide Reachable, IssuerFree;
    var s0 :| Reachable(s0) && Resting(s0, "i") && Conflicting(s0.world);
    SecondVouchersPileUp(s0, RearmedRow(), k);
    var s :| Reachable(s) && Resting(s, "i") && MoreVouchers(s0.world, s.world, RearmedRow(), k)
             && CrashedRetries(s0, s, RearmedRow(), k);
    forall v | 0 <= v <= k ensures UnderKey(s.world.vouchers[v], "i", KEY) {
      if v == 0 { assert s.world.vouchers[0] == s0.world.vouchers[0]; }
    }
  }

  /** A resubmission under a failed row's key that has to be queued in turn is answered with that other row:
      its own authorization, whose reply was lost, is in no row and in no voucher. */
  lemma AnAuthorizationIsForgotten()
    ensures exists s :: Reachable(s)
              && Own(s.world.ledger, SERIES, 1, 1)
              && s.world.queued == [FirstRow(KEY, None)] && FirstRow(KEY, None).submission != 1
              && s.world.vouchers == []
              && |s.procs| > 0 && s.procs[|s.procs| - 1].submission == 1 && s.procs[|s.procs| - 1].pc == Ended(Queued(0))
  {
    KeyedRowFails();
    hide Reachable, IssuerFree, Entered, Left, Act, CanAct;
    var s1 :| Reachable(s1) && Resting(s1, "i") && s1.world == FailedWorld();
    CallEnters(s1, "i", SALE, KEY);
    var p, lock := SecondCaller(s1, KEY, Attempting(Authenticating)), Entered(s1.lock, "i");
    LosesTheReply(s1, Called(s1), p, lock, Idle, "CAE");
    SecondIsAuthorized(s1, Called(s1), KEY);
    var w := Called(s1).(ledger := map[SERIES := [FIRST]]);
    SecondIsTurnedAway(s1, w);
    Works(s1, w, p.(pc := Enqueuing(Some(1))), lock, Idle);
    Leaves(s1, w, p.(pc := Leaving(Queued(0))), Idle);
    assert Reachable(Plus(s1, w, p.(pc := Ended(Queued(0))), Left(s1.lock, "i"), Idle));
  }

  lemma SecondIsTurnedAway(s: State, w: World)
    requires w == FailedWorld().(calls := w.calls, ledger := w.ledger)
    ensures var p := SecondCaller(s, KEY, Enqueuing(Some(1)));
            CanAct(w, p) && Act(w, p) == (w, Leaving(Queued(0)))
  {}

  // An empty key ------------------------------------------------------------------------------------

  const EMPTY_KEY: Option<string> := Some("")

  /** Two calls under the empty key that both have to be queued: the second one ends with an exception. */
  lemma AnEmptyKeyCrashesACall()
    ensures exists s :: Reachable(s)
              && s.world.queued == [FirstRow(EMPTY_KEY, None)]
              && |s.procs| > 0 && s.procs[|s.procs| - 1].job == Request && s.procs[|s.procs| - 1].submission == 1
              && s.procs[|s.procs| - 1].key == EMPTY_KEY && s.procs[|s.procs| - 1].pc == Ended(Crashed)
  {
    AuthenticationFails(EMPTY_KEY);
    hide Reachable, IssuerFree, Entered, Left;
    var s1 :| Reachable(s1) && Resting(s1, "i") && s1.world == Waiting(EMPTY_KEY, None);
    CallEnters(s1, "i", SALE, EMPTY_KEY);
    var p, lock := SecondCaller(s1, EMPTY_KEY, Attempting(Authenticating)), Entered(s1.lock, "i");
    Talks(s1, Called(s1), p, lock, Idle, Lost(None));
    EmptyKeyClashes(s1);
    hide Act, CanAct;
    Works(s1, Called(s1), p.(pc := Enqueuing(None)), lock, Idle);
    Leaves(s1, Called(s1), p.(pc := Leaving(Crashed)), Idle);
    assert Reachable(Plus(s1, Called(s1), p.(pc := Ended(Crashed)), Left(s1.lock, "i"), Idle));
  }

  lemma EmptyKeyClashes(s: State)
    requires s.world == Waiting(EMPTY_KEY, None)
    ensures var p := SecondCaller(s, EMPTY_KEY, Enqueuing(None));
            CanAct(Called(s), p) && Act(Called(s), p) == (Called(s), Leaving(Crashed))
  {}

  // A stranger's look-alike -------------------------------------------------------------------------

  /** A stranger's voucher with the total and the recipient of the sale. */
  const LOOKALIKE := Entry(DetailOf(SALE), "X", None)

  function Adopted(): Voucher {
    Voucher(0, "i", SALE, 1, "X", true, None, Some(0), 0)
  }

  /** The queued row's request never took effect, a stranger got the number, and the retry completes the row
      with the stranger's voucher: the sale is authorized nowhere. */
  lemma ARowCompletesWithAStrangersVoucher()
    ensures exists s :: Reachable(s)
              && s.world.ledger == map[SERIES := [LOOKALIKE]] && s.world.queued == [FirstRow(None, Some(1))]
              && s.world.vouchers == [Adopted()] && s.world.completed == map[0 := 0]
  {
    RequestIsLost(None);
    hide Reachable, IssuerFree, Entered, Left, Matches;
    var s0 :| Reachable(s0) && Resting(s0, "i") && s0.world == Waiting(None, Some(1));
    Ticks(s0, 1);
    var s1 := s0.(world := s0.world.(now := 1));
    OneMoreEvent(s1, ForeignVoucher(SERIES, LOOKALIKE.detail, LOOKALIKE.cae));
    assert [] + [LOOKALIKE] == [LOOKALIKE];
    var s := s1.(world := s1.world.(ledger := map[SERIES := [LOOKALIKE]]));
    assert Apply(s1, ForeignVoucher(SERIES, LOOKALIKE.detail, LOOKALIKE.cae)) == s;
    var row := FirstRow(None, Some(1));
    LooksAlike(s);
    OnlyRowIsDue(s.world.table, row);
    var batch, lock := Active([], Some(|s.procs|)), Entered(s.lock, "i");
    assert [row][1..] == [];
    hide IsDueBatch;
    RetryEnters(s, [row]);
    Consults(s, row, lock, batch);
    AdoptsTheLookalike(s);
    hide Act, CanAct;
    Works(s, s.world, Retrier(s, row, Recording(1, "X", true)), lock, batch);
    var w := s.world.(vouchers := [Adopted()], numbers := {("i", 1, 6, 1)});
    Works(s, w, Retrier(s, row, Completing(0)), lock, batch);
    Leaves(s, w.(table := Remove(w.table, 0), completed := map[0 := 0]),
           Retrier(s, row, Leaving(Issued(ToIssued(Adopted())))), batch);
  }

  lemma OnlyRowIsDue(t: Table, row: Row)
    requires t.rows == map[row.id := row] && Due(row, 1)
    ensures IsDueBatch(t, 1, [row])
  {}

  lemma LooksAlike(s: State)
    requires s.world == Waiting(None, Some(1)).(now := 1, ledger := map[SERIES := [LOOKALIKE]])
    ensures var row := FirstRow(None, Some(1));
            && RowSeries(s.world.cuits, row) == SERIES && Has(s.world.ledger, SERIES, 1)
            && At(s.world.ledger, SERIES, 1) == LOOKALIKE && Matches(LOOKALIKE.detail, DetailOf(row.payload))
            && s.world.table.rows == map[0 := row] && Due(row, 1)
            && row.attemptedSalesPoint == Some(row.payload.salesPoint)
  {}

  lemma AdoptsTheLookalike(s: State)
    requires s.world == Waiting(None, Some(1)).(now := 1, ledger := map[SERIES := [LOOKALIKE]])
    ensures var row, w := FirstRow(None, Some(1)), s.world.(vouchers := [Adopted()], numbers := {("i", 1, 6, 1)});
            && CanAct(s.world, Retrier(s, row, Recording(1, "X", true)))
            && Act(s.world, Retrier(s, row, Recording(1, "X", true))) == (w, Completing(0))
            && CanAct(w, Retrier(s, row, Completing(0)))
            && Act(w, Retrier(s, row, Completing(0)))
               == (w.(table := Remove(w.table, 0), completed := map[0 := 0]), Leaving(Issued(ToIssued(Adopted()))))
  {
    var row := FirstRow(None, Some(1));
    assert VoucherOf(s.world, Retrier(s, row, Recording(1, "X", true))) == Adopted();
    assert NumberKey(Adopted()) == ("i", 1, 6, 1);
    assert [] + [Adopted()] == [Adopted()] && {} + {("i", 1, 6, 1)} == {("i", 1, 6, 1)};
    var none: map<nat, nat> := map[];
    assert none[0 := 0] == map[0 := 0];
  }
}
