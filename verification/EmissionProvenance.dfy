/** Whose entry at ARCA a stored voucher is, over every run: its own, or one that was adopted. */
module EmissionProvenance {
  import opened Common
  import opened Arca
  import opened CaeRequest
  import opened PendingQueue
  import opened Emission
  import opened EmissionInvariant
  import opened EmissionTalk
  import opened EmissionSafety
  import opened EmissionEvents
  import opened EmissionTheorems
  import Text

  // How a number was obtained -----------------------------------------------------------------------

  /** In this step the sale takes over the entry it found at a number refused as a duplicate. */
  ghost predicate AdoptsFor(s: State, e: Event, issuer: string, input: Input, submission: nat, number: int, cae: string) {
    && e.Exchange? && e.p < |s.procs| && s.procs[e.p].pc == Attempting(ConsultingDuplicate(number))
    && s.procs[e.p].issuer == issuer && s.procs[e.p].input == input && s.procs[e.p].submission == submission
    && e.o.Replied? && e.o.reply.Found? && e.o.reply.cae == cae
  }

  ghost predicate Adopts(s: State, e: Event, v: Voucher) {
    AdoptsFor(s, e, v.issuer, v.input, v.submission, v.number, v.cae)
  }

  ghost predicate AdoptedBefore(states: seq<State>, events: seq<Event>, j: nat, v: Voucher)
    requires j <= |events| <= |states|
  {
    exists i :: 0 <= i < j && Adopts(states[i], events[i], v)
  }

  predicate OwnsEntry(w: World, v: Voucher) {
    Own(w.ledger, VoucherSeries(w.cuits, v), v.number, v.submission)
  }

  /** The entry is the sale's own and says what the sale says; or it is one that a retry found at the
      attempted number, with the sale's total and recipient; or one found at a refused number, which then
      is not the sale's, whatever it says. */
  ghost predicate Provenance(states: seq<State>, events: seq<Event>, j: nat, v: Voucher)
    requires j <= |events| <= |states| && j < |states|
  {
    var w := states[j].world;
    && Has(w.ledger, VoucherSeries(w.cuits, v), v.number)
    && var detail := At(w.ledger, VoucherSeries(w.cuits, v), v.number).detail;
       if v.recovered then
         && v.source.Some? && v.source.value < |w.queued|
         && w.queued[v.source.value].attemptedNumber == Some(v.number)
         && detail.total == v.input.amounts.total && detail.docType == v.input.docType
         && Text.OnlyDigits(detail.docNumber) == Text.OnlyDigits(v.input.docNumber)
       else
         || (OwnsEntry(w, v) && detail == DetailOf(v.input))
         || (!OwnsEntry(w, v) && AdoptedBefore(states, events, j, v))
  }

  /** One call after which a process holds a number: granted, found where it was refused, or recovered. */
  lemma TalkObtains(w: World, p: Proc, o: Outcome)
    requires QueuedOk(w.queued, w.calls) && AllNumbersOk(w.ledger, w.cuits, w.queued) && Local(w, p)
    requires CanTalk(p) && Possible(w.ledger, CallAt(w, p), o) && Talk(w, p, o).1.Recording?
    ensures var (w', pc) := Talk(w, p, o);
            var series, n := ProcSeries(w.cuits, p), pc.number;
            && Has(w'.ledger, series, n)
            && if pc.recovered then
                 && p.job.Retry? && p.job.row.attemptedNumber == Some(n)
                 && Matches(At(w'.ledger, series, n).detail, DetailOf(p.input))
               else
                 || (Own(w'.ledger, series, n, p.submission) && At(w'.ledger, series, n).detail == DetailOf(p.input))
                 || (!Own(w'.ledger, series, n, p.submission) && p.pc == Attempting(ConsultingDuplicate(n))
                     && o.Replied? && o.reply.Found? && o.reply.cae == pc.cae)
  {
    if p.pc.RecoverConsulting? {
      ItsRowsNumbers(w, p);
      ConsultMissesNothing(w, p, o);
    }
  }

  lemma OnlyTalkObtains(s: State, e: Event, p: nat)
    requires Enabled(s, e) && p < |Apply(s, e).procs| && Apply(s, e).procs[p].pc.Recording?
    ensures p < |s.procs|
    ensures Apply(s, e).procs[p] == s.procs[p]
            || (e.Exchange? && e.p == p
                && Apply(s, e).procs[p] == s.procs[p].(pc := Talk(s.world, s.procs[p], e.o).1)
                && Apply(s, e).world == Talk(s.world, s.procs[p], e.o).0)
  {
    hide Talk, CanTalk, CallAt, Possible, Rearmed, Remove;
    if e.Work? {
      ActObtainsNothing(s.world, s.procs[e.p]);
      hide Act, CanAct;
    }
  }

  lemma ActObtainsNothing(w: World, p: Proc)
    requires CanAct(w, p)
    ensures !Act(w, p).1.Recording?
  {}

  /** What would be stored for a process that has obtained its number. */
  lemma VoucherOfFields(w: World, p: Proc)
    requires p.pc.Recording?
    ensures var v := VoucherOf(w, p);
            && v.issuer == p.issuer && v.input == p.input && v.submission == p.submission && v.number == p.pc.number
            && v.cae == p.pc.cae && v.recovered == p.pc.recovered
            && VoucherSeries(w.cuits, v) == ProcSeries(w.cuits, p)
            && (v.source == if p.job.Retry? then Some(p.job.row.id) else None)
  {}

  lemma ProvenanceStays(states: seq<State>, events: seq<Event>, i: nat, j: nat, v: Voucher)
    requires i <= j <= |events| && |states| == |events| + 1
    requires Grows(states[i].world, states[j].world) && Provenance(states, events, i, v)
    ensures Provenance(states, events, j, v)
  {
    var w, w' := states[i].world, states[j].world;
    assert At(w'.ledger, VoucherSeries(w.cuits, v), v.number) == At(w.ledger, VoucherSeries(w.cuits, v), v.number);
    if AdoptedBefore(states, events, i, v) {
      var k :| 0 <= k < i && Adopts(states[k], events[k], v);
      assert AdoptedBefore(states, events, j, v);
    }
  }

  /** A process about to store its voucher has obtained its number in one of the three ways. */
  lemma {:induction false} RecordingHasProvenance(states: seq<State>, events: seq<Event>, j: nat, p: nat)
    requires IsRun(states, events) && j < |states| && p < |states[j].procs| && states[j].procs[p].pc.Recording?
    ensures Provenance(states, events, j, VoucherOf(states[j].world, states[j].procs[p]))
    decreases j
  {
    hide Inv, Grows, Apply, Enabled, Talk, Provenance;
    if j > 0 {
      RunStep(states, events, j - 1);
      OnlyTalkObtains(states[j - 1], events[j - 1], p);
      if states[j].procs[p] == states[j - 1].procs[p] {
        RecordingHasProvenance(states, events, j - 1, p);
        ProvenanceStays(states, events, j - 1, j, VoucherOf(states[j - 1].world, states[j - 1].procs[p]));
        SameProvenance(states, events, j, VoucherOf(states[j - 1].world, states[j - 1].procs[p]),
                       VoucherOf(states[j].world, states[j].procs[p]));
      } else {
        JustObtained(states, events, j - 1, p);
      }
    }
  }

  /** The identifier a voucher will be stored under does not matter to where it came from. */
  lemma SameProvenance(states: seq<State>, events: seq<Event>, j: nat, v: Voucher, u: Voucher)
    requires j <= |events| && |states| == |events| + 1 && u == v.(id := u.id) && Provenance(states, events, j, v)
    ensures Provenance(states, events, j, u)
  {
    if AdoptedBefore(states, events, j, v) {
      var k :| 0 <= k < j && Adopts(states[k], events[k], v);
      assert Adopts(states[k], events[k], u);
    }
  }

  lemma JustObtained(states: seq<State>, events: seq<Event>, i: nat, p: nat)
    requires IsRun(states, events) && i < |events| && p < |states[i].procs|
    requires Inv(states[i]) && Enabled(states[i], events[i]) && events[i].Exchange? && events[i].p == p
    requires states[i + 1].world == Talk(states[i].world, states[i].procs[p], events[i].o).0
    requires p < |states[i + 1].procs|
    requires states[i + 1].procs[p] == states[i].procs[p].(pc := Talk(states[i].world, states[i].procs[p], events[i].o).1)
    requires states[i + 1].procs[p].pc.Recording?
    ensures Provenance(states, events, i + 1, VoucherOf(states[i + 1].world, states[i + 1].procs[p]))
  {
    var w, proc := states[i].world, states[i].procs[p];
    assert Local(w, proc);
    assert QueuedOk(w.queued, w.calls) && AllNumbersOk(w.ledger, w.cuits, w.queued);
    assert proc.job.Retry? ==> proc.job.row.id < |w.queued| && SameOrigin(proc.job.row, w.queued[proc.job.row.id]);
    assert states[i + 1].world == w.(ledger := states[i + 1].world.ledger) by { TalkStance(w, proc, events[i].o); }
    TalkObtains(w, proc, events[i].o);
    VoucherOfFields(states[i + 1].world, states[i + 1].procs[p]);
    hide Inv, Local, Talk, CanTalk, Possible, CallAt, Apply, IsRun, VoucherOf, VoucherSeries, ProcSeries;
    var v := VoucherOf(states[i + 1].world, states[i + 1].procs[p]);
    if proc.pc == Attempting(ConsultingDuplicate(v.number)) && events[i].o.Replied? && events[i].o.reply.Found? {
      assert events[i].o.reply.cae == v.cae ==> Adopts(states[i], events[i], v);
    }
  }

  /** A step stores a voucher only by the hands of a process that was about to. */
  lemma StoredByRecording(s: State, e: Event)
    requires Enabled(s, e)
    ensures Apply(s, e).world.vouchers == s.world.vouchers
            || (e.Work? && e.p < |s.procs| && s.procs[e.p].pc.Recording?
                && Apply(s, e).world.vouchers == s.world.vouchers + [VoucherOf(s.world, s.procs[e.p])])
  {
    hide Rearm, ClashOf, Remove, NewCall, NewRetry, FirstInside;
    if e.Work? {
      ActStores(s.world, s.procs[e.p]);
    } else if e.Exchange? {
      TalkStance(s.world, s.procs[e.p], e.o);
    }
    hide Act, CanAct, Talk, CanTalk, CallAt, Possible, VoucherOf;
  }

  lemma ActStores(w: World, p: Proc)
    requires CanAct(w, p)
    ensures Act(w, p).0.vouchers == w.vouchers
            || (p.pc.Recording? && Act(w, p).0.vouchers == w.vouchers + [VoucherOf(w, p)])
  {}

  /** Every stored voucher: on the fresh and second-number paths its entry is its own and says what it
      says; on the recovered path the entry has its total and recipient; on the duplicate path it is
      somebody else's. */
  lemma {:induction false} StoredVouchersHaveProvenance(states: seq<State>, events: seq<Event>, j: nat, v: nat)
    requires IsRun(states, events) && j < |states| && v < |states[j].world.vouchers|
    ensures Provenance(states, events, j, states[j].world.vouchers[v])
    decreases j
  {
    hide Inv, Grows, Apply, Enabled, Provenance;
    NothingAtFirst(states, events);
    if j > 0 {
      RunStep(states, events, j - 1);
      StoredByRecording(states[j - 1], events[j - 1]);
      if v < |states[j - 1].world.vouchers| {
        StoredVouchersHaveProvenance(states, events, j - 1, v);
      } else {
        RecordingHasProvenance(states, events, j - 1, events[j - 1].p);
      }
      ProvenanceStays(states, events, j - 1, j, states[j].world.vouchers[v]);
    }
  }

  lemma NothingAtFirst(states: seq<State>, events: seq<Event>)
    requires IsRun(states, events)
    ensures states[0].world.vouchers == []
  {}

  // When it is the sale's own -----------------------------------------------------------------------

  /** An adopted entry is never the adopter's. */
  lemma AdoptingTakesAStrangers(states: seq<State>, events: seq<Event>, i: nat, j: nat, v: Voucher)
    requires IsRun(states, events) && i < |events| && i <= j < |states| && Adopts(states[i], events[i], v)
    ensures Has(states[i].world.ledger, VoucherSeries(states[i].world.cuits, v), v.number)
    ensures !OwnsEntry(states[i].world, v) && !OwnsEntry(states[j].world, v)
  {
    hide WorldOk, LockOk, BatchOk, RowsSettled, UnkeyedHeld, LiveDistinct, Apply;
    RunStep(states, events, i);
    assert Local(states[i].world, states[i].procs[events[i].p]);
    hide AllLocal, Local, IsRun;
    RunGrows(states, events, i, j);
  }

  /** A voucher that no retry recovered is its sale's own authorization exactly when the sale took over no
      entry found at a refused number; a recovered one exactly when the request that was thought lost had
      been applied. */
  lemma OwnExactlyUnlessAdopted(states: seq<State>, events: seq<Event>, j: nat, v: nat)
    requires IsRun(states, events) && j < |states| && v < |states[j].world.vouchers|
    ensures var w, voucher := states[j].world, states[j].world.vouchers[v];
            && (!voucher.recovered ==> (OwnsEntry(w, voucher) <==> !AdoptedBefore(states, events, j, voucher)))
            && (voucher.recovered ==>
                  voucher.source.Some? && voucher.source.value < |w.queued|
                  && (OwnsEntry(w, voucher) <==> Landed(w.ledger, w.cuits, w.queued[voucher.source.value])))
  {
    StoredVouchersHaveProvenance(states, events, j, v);
    var w, voucher := states[j].world, states[j].world.vouchers[v];
    if voucher.recovered {
      RowOfVoucher(states, events, j, v);
    } else if AdoptedBefore(states, events, j, voucher) {
      hide IsRun, Adopts;
      var i :| 0 <= i < j && Adopts(states[i], events[i], voucher);
      AdoptingTakesAStrangers(states, events, i, j, voucher);
    }
  }

  lemma RowOfVoucher(states: seq<State>, events: seq<Event>, j: nat, v: nat)
    requires IsRun(states, events) && j < |states| && v < |states[j].world.vouchers|
    requires states[j].world.vouchers[v].source.Some?
    ensures var w, voucher := states[j].world, states[j].world.vouchers[v];
            voucher.source.value < |w.queued| && FromRow(voucher, w.queued[voucher.source.value])
  {
    hide Apply, Enabled, IsRun, LockOk, BatchOk, AllLocal, RowsSettled, UnkeyedHeld, LiveDistinct;
    RunKeepsInv(states, events, j);
    var w := states[j].world;
    assert VoucherOk(w.vouchers[v], w.ledger, w.cuits, w.queued);
  }

  // How a number comes to be taken ------------------------------------------------------------------

  /** In this step the process learns the last number, so that it will ask for the next one. */
  ghost predicate Announces(s: State, e: Event, p: nat, series: Series, number: int) {
    && e == Exchange(p, Replied(Last(number - 1))) && p < |s.procs| && s.procs[p].pc == Attempting(AskingLast)
    && |Numbering(s.world.ledger, series)| == number - 1
  }

  predicate AboutNumber(pc: Pc, number: int) {
    pc == Attempting(Requesting(number)) || pc == Attempting(ConsultingDuplicate(number))
  }

  lemma AboutNumberComesFrom(s: State, e: Event, p: nat, number: int)
    requires Enabled(s, e) && p < |Apply(s, e).procs| && AboutNumber(Apply(s, e).procs[p].pc, number)
    ensures p < |s.procs| && Apply(s, e).procs[p] == s.procs[p].(pc := Apply(s, e).procs[p].pc)
    ensures AboutNumber(s.procs[p].pc, number)
            || Announces(s, e, p, ProcSeries(s.world.cuits, s.procs[p]), number)
    ensures Apply(s, e).world.cuits == s.world.cuits
  {
    hide Rearm, ClashOf, Remove;
    if e.Work? {
      ActAnnouncesNothing(s.world, s.procs[e.p], number);
      hide Act, CanAct;
    } else if e.Exchange? {
      TalkStance(s.world, s.procs[e.p], e.o);
      if e.p == p && AboutNumber(Talk(s.world, s.procs[p], e.o).1, number) {
        TalkAnnounces(s.world, s.procs[p], e.o, number);
      }
      hide Talk, CanTalk, CallAt, Possible;
    }
  }

  lemma ActAnnouncesNothing(w: World, p: Proc, number: int)
    requires CanAct(w, p)
    ensures !AboutNumber(Act(w, p).1, number) && Act(w, p).0.cuits == w.cuits
  {}

  lemma TalkAnnounces(w: World, p: Proc, o: Outcome, number: int)
    requires CanTalk(p) && Possible(w.ledger, CallAt(w, p), o) && AboutNumber(Talk(w, p, o).1, number)
    ensures Talk(w, p, o).0.cuits == w.cuits
    ensures || AboutNumber(p.pc, number)
            || (p.pc == Attempting(AskingLast) && o == Replied(Last(number - 1))
                && |Numbering(w.ledger, ProcSeries(w.cuits, p))| == number - 1)
  {}

  lemma {:induction false} NumbersWereFreeWhenAnnounced(
      states: seq<State>, events: seq<Event>, j: nat, p: nat, number: int)
    requires IsRun(states, events) && j < |states| && p < |states[j].procs| && AboutNumber(states[j].procs[p].pc, number)
    ensures exists k :: 0 <= k < j
              && Announces(states[k], events[k], p, ProcSeries(states[j].world.cuits, states[j].procs[p]), number)
    decreases j
  {
    hide Apply, Enabled, AboutNumber, Announces;
    if j > 0 {
      assert Enabled(states[j - 1], events[j - 1]) && states[j] == Apply(states[j - 1], events[j - 1]);
      AboutNumberComesFrom(states[j - 1], events[j - 1], p, number);
      if AboutNumber(states[j - 1].procs[p].pc, number) { NumbersWereFreeWhenAnnounced(states, events, j - 1, p, number); }
    }
  }

  /** An entry is adopted in place of the sale's own only if somebody else entered the series, at that very
      number, after the sale was told the last one: the number was free then and is a stranger's now. */
  lemma AdoptedNumbersWereTakenMeanwhile(states: seq<State>, events: seq<Event>, i: nat, v: Voucher)
    requires IsRun(states, events) && i < |events| && Adopts(states[i], events[i], v)
    ensures exists k :: 0 <= k < i
              && Announces(states[k], events[k], events[i].p, VoucherSeries(states[i].world.cuits, v), v.number)
    ensures Has(states[i].world.ledger, VoucherSeries(states[i].world.cuits, v), v.number)
    ensures !OwnsEntry(states[i].world, v)
  {
    hide Apply, Enabled, Announces;
    AdoptingTakesAStrangers(states, events, i, i, v);
    NumbersWereFreeWhenAnnounced(states, events, i, events[i].p, v.number);
  }

  /** Nobody else has entered the number by this step, if the process announced it in an earlier one. */
  ghost predicate Undisturbed(states: seq<State>, events: seq<Event>, k: nat, i: nat, p: nat, series: Series, number: int,
                              submission: nat)
    requires k < i < |events| <= |states|
  {
    Announces(states[k], events[k], p, series, number) && Has(states[i].world.ledger, series, number) ==>
      Own(states[i].world.ledger, series, number, submission)
  }

  /** So a voucher that no retry recovered is its sale's own authorization, saying what the sale says, if
      nobody else entered the series between the announcement of its number and the request for it. */
  lemma UndisturbedSaleIsItsOwn(states: seq<State>, events: seq<Event>, j: nat, v: nat)
    requires IsRun(states, events) && j < |states| && v < |states[j].world.vouchers|
    requires !states[j].world.vouchers[v].recovered
    requires var voucher := states[j].world.vouchers[v];
             forall k, i, p | 0 <= k < i < j && 0 <= p ::
               Undisturbed(states, events, k, i, p, VoucherSeries(states[j].world.cuits, voucher), voucher.number,
                           voucher.submission)
    ensures OwnsEntry(states[j].world, states[j].world.vouchers[v])
    ensures var w, voucher := states[j].world, states[j].world.vouchers[v];
            At(w.ledger, VoucherSeries(w.cuits, voucher), voucher.number).detail == DetailOf(voucher.input)
  {
    hide Announces, Apply, Enabled;
    StoredVouchersHaveProvenance(states, events, j, v);
    var voucher, series := states[j].world.vouchers[v], VoucherSeries(states[j].world.cuits, states[j].world.vouchers[v]);
    if i :| 0 <= i < j && Adopts(states[i], events[i], voucher) {
      AdoptedNumbersWereTakenMeanwhile(states, events, i, voucher);
      RunGrows(states, events, i, j);
      var k :| 0 <= k < i && Announces(states[k], events[k], events[i].p, series, voucher.number);
      assert Undisturbed(states, events, k, i, events[i].p, series, voucher.number, voucher.submission);
    }
  }
}
