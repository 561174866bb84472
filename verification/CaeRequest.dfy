/**
 * Asking ARCA for a CAE: authenticate, take the next number, request, and on "duplicate number"
 * adopt what is there or try once more with a fresh number.
 *
 * `Next` is the conversation as a machine (the form the step system runs, one call per step);
 * `CaeRequestService` is the same conversation as straight-line code.
 */
module CaeRequest {
  import opened Common
  import opened Arca

  datatype Attempt =
    | Authenticating
    | AskingLast
    | Requesting(number: int)
    | ConsultingDuplicate(number: int)
    | AskingLastAgain(number: int)
    | RequestingAgain(number: int)
    | Obtained(number: int, cae: string)
    | Refused
    | Interrupted(attemptedNumber: Option<int>)

  predicate Finished(a: Attempt) {
    a.Obtained? || a.Refused? || a.Interrupted?
  }

  function CallOf(a: Attempt, series: Series, detail: Detail): Call
    requires !Finished(a)
  {
    match a
    case Authenticating => Authenticate
    case AskingLast => LastAuthorized(series)
    case Requesting(n) => Call.RequestCae(series, n, detail)
    case ConsultingDuplicate(n) => Consult(series, n)
    case AskingLastAgain(_) => LastAuthorized(series)
    case RequestingAgain(n) => Call.RequestCae(series, n, detail)
  }

  /** The number last announced through `onNumberChosen`. */
  function Announced(a: Attempt): Option<int> {
    match a
    case Requesting(n) => Some(n)
    case ConsultingDuplicate(n) => Some(n)
    case AskingLastAgain(n) => Some(n)
    case RequestingAgain(n) => Some(n)
    case _ => None
  }

  function Next(a: Attempt, reply: Reply): Attempt
    requires !Finished(a)
  {
    match (a, reply)
    case (Requesting(n), Rejected(codes)) =>
      if DUPLICATE_NUMBER in codes then ConsultingDuplicate(n) else Refused
    case (_, Rejected(_)) => Refused
    case (Authenticating, Authenticated) => AskingLast
    case (AskingLast, Last(n)) => Requesting(n + 1)
    case (Requesting(n), Granted(cae)) => Obtained(n, cae)
    case (ConsultingDuplicate(n), Found(_, cae)) => Obtained(n, cae)
    case (ConsultingDuplicate(n), NotFound) => AskingLastAgain(n)
    case (AskingLastAgain(_), Last(n)) => RequestingAgain(n + 1)
    case (RequestingAgain(n), Granted(cae)) => Obtained(n, cae)
    case _ => Interrupted(Announced(a))
  }

  /** Where the conversation stands after these replies; once finished it stays finished. */
  function Converse(a: Attempt, replies: seq<Reply>): Attempt
    decreases |replies|
  {
    if replies == [] || Finished(a) then a else Converse(Next(a, replies[0]), replies[1..])
  }

  lemma {:induction false} ConverseOneMore(a: Attempt, replies: seq<Reply>, reply: Reply)
    ensures Converse(a, replies + [reply])
         == if Finished(Converse(a, replies)) then Converse(a, replies) else Next(Converse(a, replies), reply)
    decreases |replies|
  {
    if replies == [] {
      assert [reply][1..] == [];
    } else if !Finished(a) {
      assert (replies + [reply])[1..] == replies[1..] + [reply];
      ConverseOneMore(Next(a, replies[0]), replies[1..], reply);
    }
  }

  /** One more reply takes the conversation heard since `from` one step further. */
  lemma HearOne(start: Attempt, heard: seq<Reply>, from: nat, a: Attempt, reply: Reply)
    requires from <= |heard| && Converse(start, heard[from..]) == a && !Finished(a)
    ensures Converse(start, (heard + [reply])[from..]) == Next(a, reply)
  {
    assert (heard + [reply])[from..] == heard[from..] + [reply];
    ConverseOneMore(start, heard[from..], reply);
  }

  // What is asked and what is concluded -------------------------------------------------------------

  /** The k-th call of an attempt, given the replies before it. */
  predicate AsksAt(series: Series, detail: Detail, heard: seq<Reply>, k: nat, call: Call) {
    match k
    case 0 => call == Authenticate
    case 1 => call == LastAuthorized(series)
    case 2 => |heard| > 1 && heard[1].Last? && call == Call.RequestCae(series, heard[1].number + 1, detail)
    case 3 => |heard| > 1 && heard[1].Last? && call == Consult(series, heard[1].number + 1)
    case 4 => call == LastAuthorized(series)
    case 5 => |heard| > 4 && heard[4].Last? && call == Call.RequestCae(series, heard[4].number + 1, detail)
    case _ => false
  }

  /** The only reply to the k-th call after which there is another. */
  predicate GoesOn(k: nat, reply: Reply) {
    match k
    case 0 => reply.Authenticated?
    case 1 => reply.Last?
    case 2 => reply.Rejected? && DUPLICATE_NUMBER in reply.codes
    case 3 => reply.NotFound?
    case 4 => reply.Last?
    case _ => false
  }

  ghost predicate WellAsked(series: Series, detail: Detail, asked: seq<Call>, heard: seq<Reply>) {
    && |asked| == |heard|
    && forall k | 0 <= k < |asked| ::
         AsksAt(series, detail, heard, k, asked[k]) && (k + 1 < |asked| ==> GoesOn(k, heard[k]))
  }

  /** The attempt goes on with its next call. */
  ghost predicate InProgress(series: Series, detail: Detail, asked: seq<Call>, heard: seq<Reply>, k: nat) {
    WellAsked(series, detail, asked, heard) && |heard| == k && (k > 0 ==> GoesOn(k - 1, heard[k - 1]))
  }

  /** The number last asked a CAE for. */
  function LastRequested(asked: seq<Call>): Option<int> {
    if asked == [] then None
    else if asked[|asked| - 1].RequestCae? then Some(asked[|asked| - 1].number)
    else LastRequested(asked[..|asked| - 1])
  }

  /** The attempt is over, and the last reply is its result: a rejection refuses it, a CAE granted or found
      is obtained at the number last requested, and anything else interrupts it at that number. */
  ghost predicate Concluded(series: Series, detail: Detail, asked: seq<Call>, heard: seq<Reply>, result: Attempt) {
    && WellAsked(series, detail, asked, heard) && heard != [] && !GoesOn(|heard| - 1, heard[|heard| - 1])
    && var last := heard[|heard| - 1];
       && (result.Refused? <==> last.Rejected?)
       && (result.Obtained? <==> last.Granted? || last.Found?)
       && (result.Obtained? ==> result.cae == last.cae && LastRequested(asked) == Some(result.number))
       && (result.Interrupted? <==> !last.Rejected? && !last.Granted? && !last.Found?)
       && (result.Interrupted? ==> result.attemptedNumber == LastRequested(asked))
  }

  /** In particular: nothing at the number refused as a duplicate means one more request, with the number after
      the one then reported as the last. */
  lemma AFreshNumberIsTried(
      series: Series, detail: Detail, asked: seq<Call>, heard: seq<Reply>, result: Attempt, last: int)
    requires Concluded(series, detail, asked, heard, result) && |heard| > 4 && heard[4] == Last(last)
    ensures heard[2].Rejected? && DUPLICATE_NUMBER in heard[2].codes && heard[3] == NotFound
    ensures |heard| == 6 && asked[4] == LastAuthorized(series) && asked[5] == Call.RequestCae(series, last + 1, detail)
    ensures forall cae :: heard[5] == Granted(cae) ==> result == Obtained(last + 1, cae)
  {
    assert AsksAt(series, detail, heard, 4, asked[4]) && GoesOn(2, heard[2]) && GoesOn(3, heard[3]);
    assert !GoesOn(5, Last(0));
  }

  lemma MoreHeard(series: Series, detail: Detail, heard: seq<Reply>, reply: Reply, k: nat, call: Call)
    requires AsksAt(series, detail, heard, k, call)
    ensures AsksAt(series, detail, heard + [reply], k, call)
  {}

  lemma OneCallMore(series: Series, detail: Detail, asked: seq<Call>, heard: seq<Reply>, call: Call, reply: Reply)
    requires InProgress(series, detail, asked, heard, |heard|) && AsksAt(series, detail, heard, |heard|, call)
    ensures WellAsked(series, detail, asked + [call], heard + [reply])
    ensures GoesOn(|heard|, reply) ==> InProgress(series, detail, asked + [call], heard + [reply], |heard| + 1)
    ensures LastRequested(asked + [call]) == if call.RequestCae? then Some(call.number) else LastRequested(asked)
  {
    hide AsksAt, GoesOn;
    var n, asked', heard' := |heard|, asked + [call], heard + [reply];
    assert asked'[..n] == asked;
    forall k: nat | k <= n ensures AsksAt(series, detail, heard', k, asked'[k]) && (k < n ==> GoesOn(k, heard'[k])) {
      if k < n {
        assert asked'[k] == asked[k] && heard'[k] == heard[k];
        assert k == n - 1 || k + 1 < |asked|;
      }
      MoreHeard(series, detail, heard, reply, k, asked'[k]);
    }
  }

  lemma AskOne(series: Series, detail: Detail, asked: seq<Call>, heard: seq<Reply>, from: nat, call: Call, reply: Reply)
    requires from <= |asked| == |heard|
    requires InProgress(series, detail, asked[from..], heard[from..], |heard| - from)
    requires AsksAt(series, detail, heard[from..], |heard| - from, call)
    ensures var asked', heard' := (asked + [call])[from..], (heard + [reply])[from..];
            && WellAsked(series, detail, asked', heard')
            && asked' == asked[from..] + [call] && heard' == heard[from..] + [reply]
            && (GoesOn(|heard| - from, reply) ==> InProgress(series, detail, asked', heard', |heard| - from + 1))
            && LastRequested(asked') == if call.RequestCae? then Some(call.number) else LastRequested(asked[from..])
  {
    hide InProgress, WellAsked, AsksAt, GoesOn, LastRequested;
    OneCallMore(series, detail, asked[from..], heard[from..], call, reply);
    assert (asked + [call])[from..] == asked[from..] + [call] && (heard + [reply])[from..] == heard[from..] + [reply];
  }

  /** The entries this submission gained between two ledgers all carry one of the allowed numbers. */
  ghost predicate GainedOnlyAt(l: Ledger, l': Ledger, submission: nat, series: Series, allowed: set<int>) {
    forall s, n | Own(l', s, n, submission) && !Own(l, s, n, submission) :: s == series && n in allowed
  }

  /** Which numbers a finished attempt admits it may have used. */
  function Admitted(a: Attempt): set<int> {
    match a
    case Obtained(n, _) => {n}
    case Interrupted(Some(n)) => {n}
    case _ => {}
  }

  /** What one attempt guarantees about ARCA's ledger, whatever replies were lost and whatever other
      emitters did meanwhile.  In particular it appends at most one entry of this submission, a
      refusal means it appended none, and an interruption reports the number it may have used. */
  ghost predicate Faithful(l: Ledger, l': Ledger, submission: nat, series: Series, detail: Detail, a: Attempt) {
    && Extends(l, l')
    && GainedOnlyAt(l, l', submission, series, Admitted(a))
    && (forall s, n | Own(l', s, n, submission) && !Own(l, s, n, submission) :: At(l', s, n).detail == detail)
    && (a.Obtained? ==> Has(l', series, a.number) && At(l', series, a.number).cae == a.cae)
    && (a.Interrupted? && a.attemptedNumber.Some? ==>
          a.attemptedNumber.value <= |Numbering(l', series)| + 1)
  }

  lemma FaithfulAfterQuiet(
      l: Ledger, l1: Ledger, l2: Ledger, submission: nat, series: Series, detail: Detail, a: Attempt)
    requires GrownByOthers(l, l1, submission) && Faithful(l1, l2, submission, series, detail, a)
    ensures Faithful(l, l2, submission, series, detail, a)
  {}

  /** A CAE request is itself a faithful attempt: granted, lost with or without effect, or refused. */
  lemma RequestIsFaithful(
      l: Ledger, before: Ledger, o: Outcome, submission: nat, series: Series, number: int, detail: Detail, a: Attempt)
    requires GrownByOthers(l, before, submission)
    requires Possible(before, Call.RequestCae(series, number, detail), o)
    requires number <= |Numbering(before, series)| + 1
    requires match Seen(o)
             case Granted(cae) => a == Obtained(number, cae)
             case Rejected(_) => a == Refused
             case _ => a == Interrupted(Some(number))
    ensures Faithful(l, Effect(before, Call.RequestCae(series, number, detail), o, submission),
                     submission, series, detail, a)
  {
    var call := Call.RequestCae(series, number, detail);
    var after := Effect(before, call, o, submission);
    EffectExtends(before, call, o, submission);
    assert Extends(before, after);
    forall s, n | Has(l, s, n) ensures Has(after, s, n) && At(after, s, n) == At(l, s, n) {
      assert Has(before, s, n);
    }
    forall s ensures |Numbering(l, s)| <= |Numbering(after, s)| {
      assert |Numbering(l, s)| <= |Numbering(before, s)|;
    }
    forall s, n | Own(after, s, n, submission) && !Own(l, s, n, submission)
      ensures s == series && n in Admitted(a) && At(after, s, n).detail == detail
    {
      assert !Own(before, s, n, submission);
      assert Applied(call, o) && s == series && n == number;
    }
  }

  /** A conversation that requested nothing is faithful when it gives up, or adopts what it consulted. */
  lemma QuietIsFaithful(l: Ledger, l': Ledger, submission: nat, series: Series, detail: Detail, a: Attempt)
    requires GrownByOthers(l, l', submission)
    requires a.Interrupted? && a.attemptedNumber.Some? ==> a.attemptedNumber.value <= |Numbering(l', series)| + 1
    requires a.Obtained? ==> Has(l', series, a.number) && At(l', series, a.number).cae == a.cae
    ensures Faithful(l, l', submission, series, detail, a)
  {}

  /** What `recoverAlreadyAuthorized` can conclude about a queued voucher. */
  datatype Recovery = NothingToAdopt | Adopted(number: int, cae: string) | RecoveryRefused | RecoveryInterrupted

  class CaeRequestService {
    const wsfe: Gateway

    constructor (wsfe: Gateway)
      ensures this.wsfe == wsfe
    {
      this.wsfe := wsfe;
    }

    /** `recoverAlreadyAuthorized`: before retrying, look at the number that was in flight.  It never
        requests anything, and it cannot overlook a voucher that is there with the queued detail.  With no
        number it asks nothing; otherwise its last reply is its result. */
    method RecoverAlreadyAuthorized(
        cuit: string, voucherType: int, attemptedNumber: Option<int>, attemptedSalesPoint: Option<int>,
        detail: Detail, submission: nat)
      returns (result: Recovery)
      requires wsfe.Valid()
      modifies wsfe
      ensures wsfe.Valid() && old(wsfe.asked) <= wsfe.asked && old(wsfe.heard) <= wsfe.heard
      ensures GrownByOthers(old(wsfe.ledger), wsfe.ledger, submission)
      ensures attemptedNumber.None? || attemptedSalesPoint.None? ==>
                result == NothingToAdopt && wsfe.heard == old(wsfe.heard)
      ensures attemptedNumber.Some? && attemptedSalesPoint.Some? ==>
                var asked, heard := wsfe.asked[|old(wsfe.asked)|..], wsfe.heard[|old(wsfe.heard)|..];
                var series := Series(cuit, attemptedSalesPoint.value, voucherType);
                && 1 <= |heard| <= 2 && asked[0] == Authenticate && (|heard| == 2 <==> heard[0].Authenticated?)
                && (|heard| == 2 ==> asked[1] == Consult(series, attemptedNumber.value))
                && var last := heard[|heard| - 1];
                   && (result.RecoveryRefused? <==> last.Rejected?)
                   && (result.Adopted? <==> last.Found? && Matches(last.detail, detail))
                   && (result.Adopted? ==> result.number == attemptedNumber.value && result.cae == last.cae)
                   && (result.NothingToAdopt? <==> last.NotFound? || (last.Found? && !Matches(last.detail, detail)))
      ensures result.Adopted? ==>
                && attemptedNumber == Some(result.number) && attemptedSalesPoint.Some?
                && var series := Series(cuit, attemptedSalesPoint.value, voucherType);
                   && Has(wsfe.ledger, series, result.number)
                   && Matches(At(wsfe.ledger, series, result.number).detail, detail)
                   && At(wsfe.ledger, series, result.number).cae == result.cae
      ensures attemptedNumber.Some? && attemptedSalesPoint.Some?
              && Has(old(wsfe.ledger), Series(cuit, attemptedSalesPoint.value, voucherType), attemptedNumber.value)
              && Matches(At(old(wsfe.ledger), Series(cuit, attemptedSalesPoint.value, voucherType),
                            attemptedNumber.value).detail, detail)
              ==> !result.NothingToAdopt?
    {
      if attemptedNumber.None? || attemptedSalesPoint.None? { return NothingToAdopt; }
      ghost var l0 := wsfe.ledger;
      var reply, _, _ := wsfe.Exchange(Authenticate, submission);
      if reply.Rejected? { return RecoveryRefused; }
      if !reply.Authenticated? { return RecoveryInterrupted; }

      ghost var l1 := wsfe.ledger;
      var number := attemptedNumber.value;
      var series := Series(cuit, attemptedSalesPoint.value, voucherType);
      var authorized, before, _ := wsfe.Exchange(Consult(series, number), submission);
      GrowthComposes(l0, l1, wsfe.ledger, submission);
      if authorized.NotFound? { return NothingToAdopt; }
      if !authorized.Found? { return RecoveryInterrupted; }
      if !Matches(authorized.detail, detail) { return NothingToAdopt; }
      return Adopted(number, authorized.cae);
    }

    /** `requestCae`: one attempt from authentication to CAE. */
    method RequestCae(series: Series, detail: Detail, submission: nat) returns (result: Attempt)
      requires wsfe.Valid()
      modifies wsfe
      ensures wsfe.Valid() && old(wsfe.asked) <= wsfe.asked && old(wsfe.heard) <= wsfe.heard
      ensures Faithful(old(wsfe.ledger), wsfe.ledger, submission, series, detail, result)
      ensures Concluded(series, detail, wsfe.asked[|old(wsfe.asked)|..], wsfe.heard[|old(wsfe.heard)|..], result)
      ensures Finished(result) && result == Converse(Authenticating, wsfe.heard[|old(wsfe.heard)|..])
    {
      ghost var l0, a0, h0, from := wsfe.ledger, wsfe.asked, wsfe.heard, |wsfe.heard|;
      var reply, _, _ := wsfe.Exchange(Authenticate, submission);
      HearOne(Authenticating, h0, from, Authenticating, reply);
      AskOne(series, detail, a0, h0, from, Authenticate, reply);
      if reply.Rejected? { return Refused; }
      if !reply.Authenticated? { return Interrupted(None); }

      ghost var l1 := wsfe.ledger;
      result := RequestCaeAttempt(series, detail, submission, from);
      FaithfulAfterQuiet(l0, l1, wsfe.ledger, submission, series, detail, result);
    }

    /** `requestCaeAttempt` inside `requestCaeWithRecovery`: `attempted` is what the callback saw.
        `from` says where in the log this attempt began. */
    method RequestCaeAttempt(series: Series, detail: Detail, submission: nat, ghost from: nat)
      returns (result: Attempt)
      requires wsfe.Valid() && from <= |wsfe.heard|
      requires Converse(Authenticating, wsfe.heard[from..]) == AskingLast
      requires InProgress(series, detail, wsfe.asked[from..], wsfe.heard[from..], 1)
      requires LastRequested(wsfe.asked[from..]) == None
      modifies wsfe
      ensures wsfe.Valid() && old(wsfe.asked) <= wsfe.asked && old(wsfe.heard) <= wsfe.heard
      ensures Faithful(old(wsfe.ledger), wsfe.ledger, submission, series, detail, result)
      ensures Concluded(series, detail, wsfe.asked[from..], wsfe.heard[from..], result)
      ensures Finished(result) && result == Converse(Authenticating, wsfe.heard[from..])
    {
      hide WellAsked, Converse, Faithful, GrownByOthers, LastRequested;
      ghost var l0, a0, h0 := wsfe.ledger, wsfe.asked, wsfe.heard;
      var last, _, _ := wsfe.Exchange(LastAuthorized(series), submission);
      HearOne(Authenticating, h0, from, AskingLast, last);
      AskOne(series, detail, a0, h0, from, LastAuthorized(series), last);
      if !last.Last? {
        result := if last.Rejected? then Refused else Interrupted(None);
        QuietIsFaithful(l0, wsfe.ledger, submission, series, detail, result);
        return;
      }
      var number := last.number + 1;
      var attempted := Some(number);

      ghost var l1, a1, h1 := wsfe.ledger, wsfe.asked, wsfe.heard;
      var granted, before, o := wsfe.Exchange(Call.RequestCae(series, number, detail), submission);
      GrowthComposes(l0, l1, before, submission);
      HearOne(Authenticating, h1, from, Requesting(number), granted);
      AskOne(series, detail, a1, h1, from, Call.RequestCae(series, number, detail), granted);
      if granted.Granted? {
        result := Obtained(number, granted.cae);
        RequestIsFaithful(l0, before, o, submission, series, number, detail, result);
        return;
      }
      if !granted.Rejected? || DUPLICATE_NUMBER !in granted.codes {
        result := if granted.Rejected? then Refused else Interrupted(attempted);
        RequestIsFaithful(l0, before, o, submission, series, number, detail, result);
        return;
      }

      ghost var l2 := wsfe.ledger;
      result := RecoverDuplicate(series, detail, submission, number, from);
      FaithfulAfterQuiet(l0, l2, wsfe.ledger, submission, series, detail, result);
    }

    /** The duplicate-number branch of `requestCaeAttempt`. */
    method RecoverDuplicate(series: Series, detail: Detail, submission: nat, number: int, ghost from: nat)
      returns (result: Attempt)
      requires |Numbering(wsfe.ledger, series)| + 1 >= number
      requires wsfe.Valid() && from <= |wsfe.heard|
      requires Converse(Authenticating, wsfe.heard[from..]) == ConsultingDuplicate(number)
      requires InProgress(series, detail, wsfe.asked[from..], wsfe.heard[from..], 3)
      requires wsfe.heard[from + 1] == Last(number - 1) && LastRequested(wsfe.asked[from..]) == Some(number)
      modifies wsfe
      ensures wsfe.Valid() && old(wsfe.asked) <= wsfe.asked && old(wsfe.heard) <= wsfe.heard
      ensures Faithful(old(wsfe.ledger), wsfe.ledger, submission, series, detail, result)
      ensures Concluded(series, detail, wsfe.asked[from..], wsfe.heard[from..], result)
      ensures Finished(result) && result == Converse(Authenticating, wsfe.heard[from..])
    {
      ghost var l0, a0, h0 := wsfe.ledger, wsfe.asked, wsfe.heard;
      var existing, _, _ := wsfe.Exchange(Consult(series, number), submission);
      HearOne(Authenticating, h0, from, ConsultingDuplicate(number), existing);
      AskOne(series, detail, a0, h0, from, Consult(series, number), existing);
      if !existing.NotFound? {
        result := if existing.Found? then Obtained(number, existing.cae) else Interrupted(Some(number));
        QuietIsFaithful(l0, wsfe.ledger, submission, series, detail, result);
        return;
      }

      ghost var l1 := wsfe.ledger;
      result := AskAgain(series, detail, submission, number, from);
      FaithfulAfterQuiet(l0, l1, wsfe.ledger, submission, series, detail, result);
    }

    /** Nothing at the refused number: ask for the last number again and request the next one. */
    method AskAgain(series: Series, detail: Detail, submission: nat, number: int, ghost from: nat)
      returns (result: Attempt)
      requires |Numbering(wsfe.ledger, series)| + 1 >= number
      requires wsfe.Valid() && from <= |wsfe.heard|
      requires Converse(Authenticating, wsfe.heard[from..]) == AskingLastAgain(number)
      requires InProgress(series, detail, wsfe.asked[from..], wsfe.heard[from..], 4)
      requires LastRequested(wsfe.asked[from..]) == Some(number)
      modifies wsfe
      ensures wsfe.Valid() && old(wsfe.asked) <= wsfe.asked && old(wsfe.heard) <= wsfe.heard
      ensures Faithful(old(wsfe.ledger), wsfe.ledger, submission, series, detail, result)
      ensures Concluded(series, detail, wsfe.asked[from..], wsfe.heard[from..], result)
      ensures Finished(result) && result == Converse(Authenticating, wsfe.heard[from..])
    {
      ghost var l0, a0, h0 := wsfe.ledger, wsfe.asked, wsfe.heard;
      var newest, _, _ := wsfe.Exchange(LastAuthorized(series), submission);
      HearOne(Authenticating, h0, from, AskingLastAgain(number), newest);
      AskOne(series, detail, a0, h0, from, LastAuthorized(series), newest);
      if !newest.Last? {
        result := if newest.Rejected? then Refused else Interrupted(Some(number));
        QuietIsFaithful(l0, wsfe.ledger, submission, series, detail, result);
        return;
      }
      ghost var l1 := wsfe.ledger;
      result := RequestOnceMore(series, detail, submission, newest.number + 1, from);
      FaithfulAfterQuiet(l0, l1, wsfe.ledger, submission, series, detail, result);
    }

    /** Its last call: with the fresh number, and this time every rejection is final. */
    method RequestOnceMore(series: Series, detail: Detail, submission: nat, number: int, ghost from: nat)
      returns (result: Attempt)
      requires number <= |Numbering(wsfe.ledger, series)| + 1
      requires wsfe.Valid() && from <= |wsfe.heard|
      requires Converse(Authenticating, wsfe.heard[from..]) == RequestingAgain(number)
      requires InProgress(series, detail, wsfe.asked[from..], wsfe.heard[from..], 5)
      requires wsfe.heard[from + 4] == Last(number - 1)
      modifies wsfe
      ensures wsfe.Valid() && old(wsfe.asked) <= wsfe.asked && old(wsfe.heard) <= wsfe.heard
      ensures Faithful(old(wsfe.ledger), wsfe.ledger, submission, series, detail, result)
      ensures Concluded(series, detail, wsfe.asked[from..], wsfe.heard[from..], result)
      ensures Finished(result) && result == Converse(Authenticating, wsfe.heard[from..])
    {
      ghost var l0, a0, h0 := wsfe.ledger, wsfe.asked, wsfe.heard;
      var second, before, o := wsfe.Exchange(Call.RequestCae(series, number, detail), submission);
      HearOne(Authenticating, h0, from, RequestingAgain(number), second);
      AskOne(series, detail, a0, h0, from, Call.RequestCae(series, number, detail), second);
      result := match second
        case Granted(cae) => Obtained(number, cae)
        case Rejected(_) => Refused
        case _ => Interrupted(Some(number));
      RequestIsFaithful(l0, before, o, submission, series, number, detail, result);
    }
  }
}
