/** Every call to ARCA, answered or lost, keeps the invariant too. */
module EmissionTalk {
  import opened Common
  import opened Arca
  import opened CaeRequest
  import opened PendingQueue
  import opened Emission
  import opened EmissionInvariant

  // One more entry in the ledger --------------------------------------------------------------------

  lemma AppendLedger(ledger: Ledger, calls: nat, s: Series, e: Entry)
    requires LedgerOk(ledger, calls) && e.cae != "" && (e.origin.Some? ==> e.origin.value < calls)
    ensures LedgerOk(Append(ledger, s, e), calls)
  {
    var after := Append(ledger, s, e);
    forall t, n | Has(after, t, n)
      ensures At(after, t, n).cae != "" && (At(after, t, n).origin.Some? ==> At(after, t, n).origin.value < calls)
    {
      AppendedAt(ledger, s, e, t, n);
      if Has(ledger, t, n) && At(ledger, t, n).origin.Some? { assert Own(ledger, t, n, At(ledger, t, n).origin.value); }
    }
  }

  /** Appending lands a row only at the number it attempted, which is then the newest. */
  lemma LandsAtTheEnd(ledger: Ledger, cuits: map<string, string>, row: Row, s: Series, e: Entry)
    ensures Landed(ledger, cuits, row) ==> Landed(Append(ledger, s, e), cuits, row)
    ensures Landed(Append(ledger, s, e), cuits, row) && !Landed(ledger, cuits, row) ==>
              s == RowSeries(cuits, row) && e.origin == Some(row.submission)
              && row.attemptedNumber == Some(|Numbering(ledger, s)| + 1)
  {}

  lemma AppendNumbers(ledger: Ledger, cuits: map<string, string>, row: Row, s: Series, e: Entry)
    requires NumbersOk(ledger, cuits, row)
    requires e.origin == Some(row.submission) ==>
               && s == RowSeries(cuits, row) && e.detail == DetailOf(row.payload)
               && (row.attemptedNumber.Some? ==> !Landed(ledger, cuits, row))
    ensures NumbersOk(Append(ledger, s, e), cuits, row)
  {
    LandsAtTheEnd(ledger, cuits, row, s, e);
    forall t, n | Own(Append(ledger, s, e), t, n, row.submission)
      ensures t == RowSeries(cuits, row) && At(Append(ledger, s, e), t, n).detail == DetailOf(row.payload)
      ensures row.attemptedNumber.Some? ==>
                row.attemptedNumber.value <= n
                && (Landed(Append(ledger, s, e), cuits, row) ==> n == row.attemptedNumber.value)
    {
      AppendedAt(ledger, s, e, t, n);
      if Has(ledger, t, n) { assert Own(ledger, t, n, row.submission) || e.origin == Some(row.submission); }
    }
  }

  lemma AppendVouchers(
      vouchers: seq<Voucher>, ledger: Ledger, cuits: map<string, string>, queued: seq<Row>, s: Series, e: Entry)
    requires VouchersOk(vouchers, ledger, cuits, queued)
    ensures VouchersOk(vouchers, Append(ledger, s, e), cuits, queued)
  {}

  /** An entry somebody else got, inside or outside this service. */
  lemma AppendAllNumbers(ledger: Ledger, cuits: map<string, string>, queued: seq<Row>, s: Series, e: Entry)
    requires AllNumbersOk(ledger, cuits, queued)
    requires forall i | 0 <= i < |queued| && e.origin == Some(queued[i].submission) ::
               && s == RowSeries(cuits, queued[i]) && e.detail == DetailOf(queued[i].payload)
               && (queued[i].attemptedNumber.Some? ==> !Landed(ledger, cuits, queued[i]))
    ensures AllNumbersOk(Append(ledger, s, e), cuits, queued)
  {
    hide NumbersOk, Landed;
    forall i | 0 <= i < |queued| ensures NumbersOk(Append(ledger, s, e), cuits, queued[i]) {
      AppendNumbers(ledger, cuits, queued[i], s, e);
    }
  }

  lemma AppendWorld(w: World, s: Series, e: Entry)
    requires WorldOk(w) && e.cae != "" && (e.origin.Some? ==> e.origin.value < w.calls)
    requires forall i | 0 <= i < |w.queued| && e.origin == Some(w.queued[i].submission) ::
               && s == RowSeries(w.cuits, w.queued[i]) && e.detail == DetailOf(w.queued[i].payload)
               && (w.queued[i].attemptedNumber.Some? ==> !Landed(w.ledger, w.cuits, w.queued[i]))
    ensures WorldOk(w.(ledger := Append(w.ledger, s, e)))
  {
    hide RowsOk, QueuedOk, LedgerOk, AllNumbersOk, VouchersOk, IndexOk, AccountsOk, RecordsOk;
    hide OnePerKey, Recorded, WaitingAlone, RowVouchersOk, CompletedOk, Landed;
    AppendLedger(w.ledger, w.calls, s, e);
    AppendAllNumbers(w.ledger, w.cuits, w.queued, s, e);
    AppendVouchers(w.vouchers, w.ledger, w.cuits, w.queued, s, e);
  }

  // The world after a call ---------------------------------------------------------------------------

  function OwnEntry(p: Proc, o: Outcome): Entry {
    Entry(DetailOf(p.input), GrantedCae(o), Some(p.submission))
  }

  /** An effect is one entry of the process's own, at the number it announced. */
  lemma AppliedAppends(w: World, p: Proc, o: Outcome)
    requires CanTalk(p) && Possible(w.ledger, CallAt(w, p), o) && Applied(CallAt(w, p), o)
    ensures p.pc.Attempting? && (p.pc.attempt.Requesting? || p.pc.attempt.RequestingAgain?)
    ensures p.pc.attempt.number == |Numbering(w.ledger, ProcSeries(w.cuits, p))| + 1
    ensures GrantedCae(o) != ""
            && Talk(w, p, o).0 == w.(ledger := Append(w.ledger, ProcSeries(w.cuits, p), OwnEntry(p, o)))
  {}

  lemma SubmissionIsItsRow(w: World, p: Proc, i: nat)
    requires QueuedOk(w.queued, w.calls) && Local(w, p) && p.pc.Attempting?
    requires i < |w.queued| && w.queued[i].submission == p.submission
    ensures p.job.Retry? && p.job.row.id == i && SameOrigin(p.job.row, w.queued[i])
  {}

  lemma TalkWorld(w: World, p: Proc, o: Outcome)
    requires WorldOk(w) && Local(w, p) && CanTalk(p) && Possible(w.ledger, CallAt(w, p), o)
    ensures WorldOk(Talk(w, p, o).0)
  {
    if Applied(CallAt(w, p), o) {
      AppliedAppends(w, p, o);
      forall i | 0 <= i < |w.queued| && w.queued[i].submission == p.submission
        ensures ProcSeries(w.cuits, p) == RowSeries(w.cuits, w.queued[i])
        ensures DetailOf(p.input) == DetailOf(w.queued[i].payload)
        ensures w.queued[i].attemptedNumber.Some? ==> !Landed(w.ledger, w.cuits, w.queued[i])
      {
        SubmissionIsItsRow(w, p, i);
      }
      hide AtPc;
      hide Talk;
      AppendWorld(w, ProcSeries(w.cuits, p), OwnEntry(p, o));
    }
  }

  // The process after a call -------------------------------------------------------------------------

  /** What a retry knows of its own row's numbers. */
  lemma ItsRowsNumbers(w: World, p: Proc)
    requires AllNumbersOk(w.ledger, w.cuits, w.queued) && OriginOk(w.queued, w.calls, p) && p.job.Retry?
    ensures NumbersOk(w.ledger, w.cuits, p.job.row)
  {}

  /** Consulting the attempted number cannot overlook the row's own voucher. */
  lemma ConsultMissesNothing(w: World, p: Proc, o: Outcome)
    requires p.pc.RecoverConsulting? && CanTalk(p) && Possible(w.ledger, CallAt(w, p), o)
    requires QueuedOk(w.queued, w.calls) && OriginOk(w.queued, w.calls, p) && NumbersOk(w.ledger, w.cuits, p.job.row)
    ensures RecoverySeries(w, p) == ProcSeries(w.cuits, p)
    ensures AfterReply(p, Seen(o)).Attempting? ==> Unlanded(w, p, None)
  {}

  lemma RecoverAuthenticated(w: World, p: Proc, o: Outcome)
    requires AtPc(w, p) && p.pc.RecoverAuthenticating?
    requires Possible(w.ledger, CallAt(w, p), o)
    ensures AtPc(w, p.(pc := AfterReply(p, Seen(o))))
  {}

  lemma RecoverConsulted(w: World, p: Proc, o: Outcome)
    requires AtPc(w, p) && p.pc.RecoverConsulting?
    requires Possible(w.ledger, CallAt(w, p), o) && RecoverySeries(w, p) == ProcSeries(w.cuits, p)
    requires AfterReply(p, Seen(o)).Attempting? ==> Unlanded(w, p, None)
    ensures AtPc(w, p.(pc := AfterReply(p, Seen(o))))
  {}

  lemma RecoverLocal(w: World, p: Proc, o: Outcome)
    requires WorldOk(w) && Local(w, p) && (p.pc.RecoverAuthenticating? || p.pc.RecoverConsulting?)
    requires CanTalk(p) && Possible(w.ledger, CallAt(w, p), o)
    ensures AtPc(w, p.(pc := AfterReply(p, Seen(o)))) && Talk(w, p, o).0 == w
  {
    if p.pc.RecoverAuthenticating? {
      RecoverAuthenticated(w, p, o);
    } else {
      ItsRowsNumbers(w, p);
      ConsultMissesNothing(w, p, o);
      RecoverConsulted(w, p, o);
    }
  }

  function LastNumber(w: World, p: Proc): nat {
    |Numbering(w.ledger, ProcSeries(w.cuits, p))|
  }

  /** Stored vouchers have numbers ARCA has given out, so none has the next one. */
  lemma NextNumberIsUnused(w: World, p: Proc)
    requires VouchersOk(w.vouchers, w.ledger, w.cuits, w.queued)
    ensures NumberUnused(w.vouchers, p, LastNumber(w, p) + 1)
  {
    forall i | 0 <= i < |w.vouchers|
      ensures w.vouchers[i].number <= |Numbering(w.ledger, VoucherSeries(w.cuits, w.vouchers[i]))|
    {
      assert VoucherOk(w.vouchers[i], w.ledger, w.cuits, w.queued);
    }
  }

  /** A process whose row or call got no entry of its own keeps its stance. */
  lemma QuietAttemptLocal(w: World, p: Proc, o: Outcome)
    requires Local(w, p) && p.pc.Attempting? && (p.job.Retry? ==> NumbersOk(w.ledger, w.cuits, p.job.row))
    requires CanTalk(p) && Possible(w.ledger, CallAt(w, p), o) && !Applied(CallAt(w, p), o)
    requires NumberUnused(w.vouchers, p, LastNumber(w, p) + 1)
    ensures AtPc(w, p.(pc := AfterReply(p, Seen(o))))
  {
    if p.job.Retry? { QuietRetry(w, p, o); } else { QuietRequest(w, p, o); }
  }

  lemma QuietRetry(w: World, p: Proc, o: Outcome)
    requires Local(w, p) && p.pc.Attempting? && p.job.Retry? && NumbersOk(w.ledger, w.cuits, p.job.row)
    requires CanTalk(p) && Possible(w.ledger, CallAt(w, p), o) && !Applied(CallAt(w, p), o)
    requires NumberUnused(w.vouchers, p, LastNumber(w, p) + 1)
    ensures AtPc(w, p.(pc := AfterReply(p, Seen(o))))
  {
    assert Waits(w, p);
    hide Waits, Owns, KeyFree, OriginOk, NumberUnused;
  }

  lemma QuietRequest(w: World, p: Proc, o: Outcome)
    requires Local(w, p) && p.pc.Attempting? && p.job.Request?
    requires CanTalk(p) && Possible(w.ledger, CallAt(w, p), o) && !Applied(CallAt(w, p), o)
    requires NumberUnused(w.vouchers, p, LastNumber(w, p) + 1)
    ensures AtPc(w, p.(pc := AfterReply(p, Seen(o))))
  {}

  /** A process that just got its entry stands at that entry's number. */
  lemma AppliedRequest(w: World, p: Proc, o: Outcome)
    requires Local(w, p) && p.pc.Attempting? && p.job.Request?
    requires CanTalk(p) && Possible(w.ledger, CallAt(w, p), o) && Applied(CallAt(w, p), o)
    requires NumberUnused(w.vouchers, p, LastNumber(w, p) + 1)
    ensures AtPc(Talk(w, p, o).0, p.(pc := Talk(w, p, o).1))
  {
    AppliedAppends(w, p, o);
    var s, e := ProcSeries(w.cuits, p), OwnEntry(p, o);
    var w' := Talk(w, p, o).0;
    forall t, n | Own(w'.ledger, t, n, p.submission) ensures t == s && n == p.pc.attempt.number {
      AppendedAt(w.ledger, s, e, t, n);
    }
    assert Owns(w', p, Some(p.pc.attempt.number));
  }

  lemma AppliedRetry(w: World, p: Proc, o: Outcome)
    requires Local(w, p) && p.pc.Attempting? && p.job.Retry?
    requires CanTalk(p) && Possible(w.ledger, CallAt(w, p), o) && Applied(CallAt(w, p), o)
    requires NumberUnused(w.vouchers, p, LastNumber(w, p) + 1)
    ensures AtPc(Talk(w, p, o).0, p.(pc := Talk(w, p, o).1))
  {
    AppliedAppends(w, p, o);
    var n := p.pc.attempt.number;
    LandsAtTheEnd(w.ledger, w.cuits, p.job.row, ProcSeries(w.cuits, p), OwnEntry(p, o));
    assert NumberRespects(n, Talk(w, p, o).0.ledger, w.cuits, p.job.row);
  }

  lemma TalkLocal(w: World, p: Proc, o: Outcome)
    requires WorldOk(w) && Local(w, p) && CanTalk(p) && Possible(w.ledger, CallAt(w, p), o)
    ensures AtPc(Talk(w, p, o).0, p.(pc := Talk(w, p, o).1))
  {
    if p.job.Retry? { ItsRowsNumbers(w, p); }
    NextNumberIsUnused(w, p);
    hide RowsOk, QueuedOk, LedgerOk, AllNumbersOk, VouchersOk, IndexOk, AccountsOk, RecordsOk;
    hide OnePerKey, Recorded, WaitingAlone, RowVouchersOk, CompletedOk, OriginOk, AtPc, NumbersOk;
    hide NumberUnused, CallAt, AfterReply;
    if !p.pc.Attempting? { RecoverLocal(w, p, o); }
    else if !Applied(CallAt(w, p), o) {
      QuietAttemptLocal(w, p, o);
    }
    else if p.job.Request? { AppliedRequest(w, p, o); }
    else { AppliedRetry(w, p, o); }
  }

  lemma TalkGuarantee(w: World, p: Proc, o: Outcome)
    requires CanTalk(p) && Possible(w.ledger, CallAt(w, p), o)
    ensures Guarantee(w, Talk(w, p, o).0, p)
  {
    EffectExtends(w.ledger, CallAt(w, p), o, p.submission);
  }
}
