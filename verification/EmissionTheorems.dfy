/** What voucher emission promises, over every run of the system. */
module EmissionTheorems {
  import opened Common
  import opened Arca
  import opened CaeRequest
  import opened PendingQueue
  import opened Emission
  import opened EmissionInvariant
  import opened EmissionSteps
  import opened EmissionTalk
  import opened EmissionSafety
  import opened EmissionEvents

  // Histories only grow ---------------------------------------------------------------------------

  lemma GrowsComposes(w: World, w1: World, w2: World)
    requires Grows(w, w1) && Grows(w1, w2)
    ensures Grows(w, w2)
  {}

  lemma WorkGrows(s: State, p: nat)
    requires Inv(s) && p < |s.procs| && CanAct(s.world, s.procs[p])
    ensures Grows(s.world, Act(s.world, s.procs[p]).0)
  {
    assert Local(s.world, s.procs[p]);
    hide WorldOk, AllLocal, LockOk, BatchOk, RowsSettled, UnkeyedHeld, LiveDistinct, Local, Act, CanAct;
    ActGuarantee(s.world, s.procs[p]);
  }

  lemma StepGrows(s: State, e: Event)
    requires Inv(s) && Enabled(s, e)
    ensures Grows(s.world, Apply(s, e).world)
  {
    hide Inv, Remove, Rearm, NewCall, NewRetry, FirstInside, Act, CanAct, Talk, CanTalk, CallAt, Possible;
    if e.Work? { WorkGrows(s, e.p); }
    else if e.Exchange? { TalkGuarantee(s.world, s.procs[e.p], e.o); }
  }

  /** What holds around each step of a run. */
  lemma RunStep(states: seq<State>, events: seq<Event>, i: nat)
    requires IsRun(states, events) && i < |events|
    ensures Inv(states[i]) && Inv(states[i + 1])
    ensures Enabled(states[i], events[i]) && states[i + 1] == Apply(states[i], events[i])
    ensures Grows(states[i].world, states[i + 1].world)
  {
    hide Inv, Grows, Apply, Enabled;
    RunKeepsInv(states, events, i);
    RunKeepsInv(states, events, i + 1);
    StepGrows(states[i], events[i]);
  }

  lemma {:induction false} RunGrows(states: seq<State>, events: seq<Event>, i: nat, j: nat)
    requires IsRun(states, events) && i <= j < |states|
    ensures Grows(states[i].world, states[j].world)
    decreases j
  {
    hide Inv, Apply, Enabled;
    if i < j {
      RunGrows(states, events, i, j - 1);
      RunStep(states, events, j - 1);
      GrowsComposes(states[i].world, states[j - 1].world, states[j].world);
    }
  }

  // A lost reply whose request was applied ----------------------------------------------------------

  lemma LandedStays(w: World, w': World, id: nat)
    requires Grows(w, w') && id < |w.queued| && Landed(w.ledger, w.cuits, w.queued[id])
    ensures id < |w'.queued| && w'.queued[id] == w.queued[id] && Landed(w'.ledger, w'.cuits, w'.queued[id])
    ensures At(w'.ledger, RowSeries(w'.cuits, w'.queued[id]), w'.queued[id].attemptedNumber.value)
         == At(w.ledger, RowSeries(w.cuits, w.queued[id]), w.queued[id].attemptedNumber.value)
  {}

  ghost predicate OnlyEntry(l: Ledger, submission: nat, series: Series, number: int) {
    forall s, n :: Own(l, s, n, submission) <==> s == series && n == number
  }

  lemma LandedOwnsOne(w: World, id: nat)
    requires AllNumbersOk(w.ledger, w.cuits, w.queued) && id < |w.queued| && Landed(w.ledger, w.cuits, w.queued[id])
    ensures OnlyEntry(w.ledger, w.queued[id].submission, RowSeries(w.cuits, w.queued[id]),
                      w.queued[id].attemptedNumber.value)
  {}

  /** A row queued with an attempted number whose ledger entry is its own keeps that entry and never
      gets another, whatever emissions, lost replies, bumps and re-arms follow; and when it completes,
      it is with that number and that CAE. */
  lemma LandedRowKeepsItsVoucher(states: seq<State>, events: seq<Event>, i: nat, j: nat, id: nat)
    requires IsRun(states, events) && i <= j < |states|
    requires id < |states[i].world.queued|
    requires Landed(states[i].world.ledger, states[i].world.cuits, states[i].world.queued[id])
    ensures var row, w := states[i].world.queued[id], states[j].world;
            var series, number := RowSeries(states[i].world.cuits, row), row.attemptedNumber.value;
            && OnlyEntry(w.ledger, row.submission, series, number)
            && (id in w.completed ==>
                  && w.completed[id] < |w.vouchers|
                  && w.vouchers[w.completed[id]].number == number
                  && w.vouchers[w.completed[id]].cae == At(states[i].world.ledger, series, number).cae)
  {
    hide Apply, Enabled, IsRun, LockOk, BatchOk, AllLocal, RowsSettled, UnkeyedHeld, LiveDistinct;
    hide RowsOk, QueuedOk, LedgerOk, IndexOk, RecordsOk, OnePerKey, Recorded, WaitingAlone;
    RunGrows(states, events, i, j);
    RunKeepsInv(states, events, j);
    var w := states[j].world;
    LandedStays(states[i].world, w, id);
    LandedOwnsOne(w, id);
    if id in w.completed {
      assert VoucherOk(w.vouchers[w.completed[id]], w.ledger, w.cuits, w.queued);
    }
  }

  lemma NoRequestOnceLanded(w: World, p: Proc)
    requires Local(w, p) && p.job.Retry? && CanTalk(p)
    requires Landed(w.ledger, w.cuits, w.queued[p.job.row.id])
    ensures !CallAt(w, p).RequestCae?
  {}

  /** ... and no call to ARCA in any later retry of that row is a CAE request. */
  lemma LandedRowIsNeverRequestedAgain(
      states: seq<State>, events: seq<Event>, i: nat, j: nat, id: nat, p: nat, o: Outcome)
    requires IsRun(states, events) && i <= j < |events|
    requires id < |states[i].world.queued|
    requires Landed(states[i].world.ledger, states[i].world.cuits, states[i].world.queued[id])
    requires events[j] == Exchange(p, o) && p < |states[j].procs|
    requires states[j].procs[p].job.Retry? && states[j].procs[p].job.row.id == id
    ensures CanTalk(states[j].procs[p]) && !CallAt(states[j].world, states[j].procs[p]).RequestCae?
  {
    hide Apply, LockOk, BatchOk, WorldOk, RowsSettled, UnkeyedHeld, LiveDistinct;
    RunGrows(states, events, i, j);
    RunStep(states, events, j);
    LandedStays(states[i].world, states[j].world, id);
    assert Local(states[j].world, states[j].procs[p]);
    NoRequestOnceLanded(states[j].world, states[j].procs[p]);
  }

  // At most one entry per queued row --------------------------------------------------------------

  /** A queued row with an attempted number has two entries only if that number is somebody else's. */
  lemma TwoEntriesMeanTheNumberWasTaken(
      states: seq<State>, events: seq<Event>, j: nat, id: nat, s: Series, n: int, t: Series, m: int)
    requires IsRun(states, events) && j < |states| && id < |states[j].world.queued|
    requires states[j].world.queued[id].attemptedNumber.Some?
    requires var l, submission := states[j].world.ledger, states[j].world.queued[id].submission;
             Own(l, s, n, submission) && Own(l, t, m, submission) && (s != t || n != m)
    ensures var w, row := states[j].world, states[j].world.queued[id];
            && s == t == RowSeries(w.cuits, row)
            && Has(w.ledger, s, row.attemptedNumber.value)
            && At(w.ledger, s, row.attemptedNumber.value).origin != Some(row.submission)
            && row.attemptedNumber.value < n && row.attemptedNumber.value < m
  {
    hide Apply, Enabled, IsRun, LockOk, BatchOk, AllLocal, RowsSettled, UnkeyedHeld, LiveDistinct;
    hide RowsOk, QueuedOk, LedgerOk, IndexOk, RecordsOk, OnePerKey, Recorded, WaitingAlone, VouchersOk, AccountsOk;
    RunKeepsInv(states, events, j);
    var w := states[j].world;
    assert NumbersOk(w.ledger, w.cuits, w.queued[id]);
  }

  /** If nobody else entered the numbering from the attempted number on, however many times the row
      was retried and whichever replies were lost, the ledger holds at most one entry of it. */
  lemma AtMostOneEntryWithoutIntruders(
      states: seq<State>, events: seq<Event>, j: nat, id: nat, s: Series, n: int, t: Series, m: int)
    requires IsRun(states, events) && j < |states| && id < |states[j].world.queued|
    requires states[j].world.queued[id].attemptedNumber.Some?
    requires var w, row := states[j].world, states[j].world.queued[id];
             forall k | row.attemptedNumber.value <= k && Has(w.ledger, RowSeries(w.cuits, row), k) ::
               At(w.ledger, RowSeries(w.cuits, row), k).origin == Some(row.submission)
    requires var l, submission := states[j].world.ledger, states[j].world.queued[id].submission;
             Own(l, s, n, submission) && Own(l, t, m, submission)
    ensures s == t && n == m
  {
    hide IsRun, NumbersOk;
    if s != t || n != m { TwoEntriesMeanTheNumberWasTaken(states, events, j, id, s, n, t, m); }
  }

  /** A request about to be queued passes on everything it knows: every entry of its own is at the number
      the row is queued with, so at most one, and none if there is no number. */
  lemma QueuedWithItsOnlyEntry(states: seq<State>, events: seq<Event>, i: nat, p: nat, s: Series, n: int)
    requires IsRun(states, events) && i < |states| && p < |states[i].procs| && states[i].procs[p].pc.Enqueuing?
    requires Own(states[i].world.ledger, s, n, states[i].procs[p].submission)
    ensures s == ProcSeries(states[i].world.cuits, states[i].procs[p])
    ensures states[i].procs[p].pc.attemptedNumber == Some(n)
  {
    hide Apply, Enabled, IsRun, LockOk, BatchOk, WorldOk, RowsSettled, UnkeyedHeld, LiveDistinct;
    RunKeepsInv(states, events, i);
    assert Local(states[i].world, states[i].procs[p]);
    assert Owns(states[i].world, states[i].procs[p], states[i].procs[p].pc.attemptedNumber);
  }

  /** Nothing that is still at work or queued speaks for the submission, and no voucher stored since does. */
  ghost predicate Dropped(s: State, submission: nat, stored: nat) {
    && submission < s.world.calls
    && (forall p | 0 <= p < |s.procs| && Live(s.procs[p]) :: s.procs[p].submission != submission)
    && (forall i | 0 <= i < |s.world.queued| :: s.world.queued[i].submission != submission)
    && (forall v | stored <= v < |s.world.vouchers| :: s.world.vouchers[v].submission != submission)
  }

  lemma ActKeepsDropped(s: State, p: nat, submission: nat, stored: nat)
    requires Inv(s) && p < |s.procs| && CanAct(s.world, s.procs[p])
    requires Dropped(s, submission, stored) && stored <= |s.world.vouchers|
    ensures Dropped(Moved(s, p, Act(s.world, s.procs[p])), submission, stored)
  {
    assert Local(s.world, s.procs[p]);
    hide WorldOk, AllLocal, LockOk, BatchOk, RowsSettled, UnkeyedHeld, LiveDistinct, Local;
    ActStance(s.world, s.procs[p]);
    ActGuarantee(s.world, s.procs[p]);
    hide Act, CanAct, Inv;
    var w' := Act(s.world, s.procs[p]).0;
    forall v | stored <= v < |w'.vouchers| ensures w'.vouchers[v].submission != submission {
      if v >= |s.world.vouchers| { assert FromProc(w'.vouchers[v], s.procs[p]); }
    }
  }

  lemma NextRowIsNotDropped(s: State, submission: nat, stored: nat)
    requires Inv(s) && s.batch.Active? && s.batch.current.None? && s.batch.remaining != []
    requires Dropped(s, submission, stored)
    ensures s.batch.remaining[0].submission != submission
  {
    hide AllLocal, LockOk, RowsSettled, UnkeyedHeld, LiveDistinct;
    var row := s.batch.remaining[0];
    assert RowsOk(s.world.table, s.world.queued, s.world.now, s.world.policy);
    assert SameOrigin(row, s.world.queued[row.id]);
  }

  lemma StepKeepsDropped(s: State, e: Event, submission: nat, stored: nat)
    requires Inv(s) && Enabled(s, e) && Dropped(s, submission, stored) && stored <= |s.world.vouchers|
    ensures Dropped(Apply(s, e), submission, stored)
  {
    if e.NextRow? { NextRowIsNotDropped(s, submission, stored); }
    hide Inv, Act, CanAct, Talk, CanTalk, CallAt, Possible, Rearm, ClashOf, Remove, FirstInside, Dropped;
    match e
    case Work(p) => ActKeepsDropped(s, p, submission, stored);
    case Exchange(p, o) =>
      TalkStance(s.world, s.procs[p], o);
      MoveKeepsDropped(s, p, Apply(s, e), submission, stored);
    case Arrive(p) => MoveKeepsDropped(s, p, Apply(s, e), submission, stored);
    case Enter(p) => MoveKeepsDropped(s, p, Apply(s, e), submission, stored);
    case Leave(p) => MoveKeepsDropped(s, p, Apply(s, e), submission, stored);
    case FindIssuer(p, _) => MoveKeepsDropped(s, p, Apply(s, e), submission, stored);
    case Call(_, _, _) => JoinKeepsDropped(s, Apply(s, e), submission, stored);
    case NextRow => JoinKeepsDropped(s, Apply(s, e), submission, stored);
    case _ => OutsideKeepsDropped(s, Apply(s, e), submission, stored);
  }

  lemma MoveKeepsDropped(s: State, p: nat, s': State, submission: nat, stored: nat)
    requires Dropped(s, submission, stored) && p < |s.procs| == |s'.procs| && (Live(s'.procs[p]) ==> Live(s.procs[p]))
    requires s'.procs == s.procs[p := s'.procs[p]] && s'.procs[p].submission == s.procs[p].submission
    requires s'.world.queued == s.world.queued && s'.world.vouchers == s.world.vouchers && s'.world.calls == s.world.calls
    ensures Dropped(s', submission, stored)
  {}

  lemma JoinKeepsDropped(s: State, s': State, submission: nat, stored: nat)
    requires Dropped(s, submission, stored) && |s'.procs| == |s.procs| + 1 && s.procs <= s'.procs
    requires s'.procs[|s.procs|].submission != submission
    requires s'.world.queued == s.world.queued && s'.world.vouchers == s.world.vouchers && s'.world.calls >= s.world.calls
    ensures Dropped(s', submission, stored)
  {}

  lemma OutsideKeepsDropped(s: State, s': State, submission: nat, stored: nat)
    requires Dropped(s, submission, stored) && s'.procs == s.procs
    requires s'.world.queued == s.world.queued && s'.world.vouchers == s.world.vouchers && s'.world.calls == s.world.calls
    ensures Dropped(s', submission, stored)
  {}

  lemma {:induction false} StaysDropped(states: seq<State>, events: seq<Event>, i: nat, j: nat, submission: nat, stored: nat)
    requires IsRun(states, events) && i <= j < |states|
    requires Dropped(states[i], submission, stored) && stored <= |states[i].world.vouchers|
    ensures Dropped(states[j], submission, stored)
    decreases j
  {
    hide Inv, Dropped, Apply, Enabled;
    if i < j {
      StaysDropped(states, events, i, j - 1, submission, stored);
      RunGrows(states, events, i, j - 1);
      RunStep(states, events, j - 1);
      StepKeepsDropped(states[j - 1], events[j - 1], submission, stored);
    }
  }

  lemma TurnedAwayIsDropped(s: State, p: nat)
    requires Inv(s) && p < |s.procs| && s.procs[p].pc.Enqueuing? && Clashes(s.world.table, s.procs[p].issuer, s.procs[p].key)
    ensures CanAct(s.world, s.procs[p])
    ensures Dropped(Moved(s, p, Act(s.world, s.procs[p])), s.procs[p].submission, |s.world.vouchers|)
  {
    OnlyTheCallSpeaks(s, p);
    hide Inv, Clashes, Act, CanAct;
    TurnedAway(s.world, s.procs[p]);
  }

  /** Before it is queued, a call is the only one to speak for its submission. */
  lemma OnlyTheCallSpeaks(s: State, p: nat)
    requires Inv(s) && p < |s.procs| && s.procs[p].pc.Enqueuing?
    ensures s.procs[p].submission < s.world.calls
    ensures forall q | 0 <= q < |s.procs| && q != p && Live(s.procs[q]) :: s.procs[q].submission != s.procs[p].submission
    ensures forall i | 0 <= i < |s.world.queued| :: s.world.queued[i].submission != s.procs[p].submission
  {
    hide WorldOk, LockOk, BatchOk, RowsSettled, UnkeyedHeld;
    assert Local(s.world, s.procs[p]);
  }

  lemma TurnedAway(w: World, p: Proc)
    requires p.pc.Enqueuing? && Clashes(w.table, p.issuer, p.key)
    ensures CanAct(w, p) && Act(w, p).0 == w && Act(w, p).1.Leaving?
  {}

  /** A call that got no answer leaves a row with its number, and is answered with it, exactly when its key is
      free.  Otherwise it is answered with the row that has the key (or, under an empty key, with an exception),
      and what it may have been authorized is in no row, now or later, and in no voucher stored from then on. */
  lemma CallIsQueuedIffItsKeyIsFree(states: seq<State>, events: seq<Event>, i: nat, j: nat, p: nat)
    requires IsRun(states, events) && i < j < |states| && events[i] == Work(p)
    requires p < |states[i].procs| && states[i].procs[p].pc.Enqueuing?
    ensures p < |states[i + 1].procs|
    ensures var proc, w, w' := states[i].procs[p], states[i].world, states[j].world;
            var pc := states[i + 1].procs[p].pc;
            if Clashes(w.table, proc.issuer, proc.key) then
              && (forall r | 0 <= r < |w'.queued| :: w'.queued[r].submission != proc.submission)
              && (forall v | |w.vouchers| <= v < |w'.vouchers| :: w'.vouchers[v].submission != proc.submission)
              && (if HasText(proc.key) then
                    && pc.Leaving? && pc.answer.Queued? && pc.answer.row in w.table.rows
                    && w.table.rows[pc.answer.row].issuer == proc.issuer && w.table.rows[pc.answer.row].key == proc.key
                  else pc == Leaving(Crashed))
            else
              && |w.queued| < |w'.queued| && w'.queued[|w.queued|].submission == proc.submission
              && w'.queued[|w.queued|].attemptedNumber == proc.pc.attemptedNumber
              && pc == Leaving(Queued(|w.queued|))
  {
    hide Inv, Dropped, Clashes;
    RunStep(states, events, i);
    RunGrows(states, events, i + 1, j);
    hide IsRun;
    var s := states[i];
    assert Consistent(s.world.table) by { InvTable(s); }
    hide Consistent;
    QueueAnswers(s.world, s.procs[p]);
    assert p < |states[i + 1].procs| && states[i + 1].procs[p].pc == Act(s.world, s.procs[p]).1;
    assert states[i + 1].world == Act(s.world, s.procs[p]).0;
    if Clashes(s.world.table, s.procs[p].issuer, s.procs[p].key) {
      TurnedAwayIsDropped(s, p);
      hide Act, CanAct;
      StaysDropped(states, events, i + 1, j, s.procs[p].submission, |s.world.vouchers|);
      DroppedMeans(states[j], s.procs[p].submission, |s.world.vouchers|);
    }
  }

  lemma InvTable(s: State)
    requires Inv(s)
    ensures Consistent(s.world.table)
  {}

  lemma QueueAnswers(w: World, p: Proc)
    requires p.pc.Enqueuing? && CanAct(w, p) && Consistent(w.table)
    ensures var (w', pc) := Act(w, p);
            if Clashes(w.table, p.issuer, p.key) then
              if HasText(p.key) then
                && pc.Leaving? && pc.answer.Queued? && pc.answer.row in w.table.rows
                && w.table.rows[pc.answer.row].issuer == p.issuer && w.table.rows[pc.answer.row].key == p.key
              else pc == Leaving(Crashed)
            else
              && |w'.queued| == |w.queued| + 1 && w'.queued[|w.queued|].submission == p.submission
              && w'.queued[|w.queued|].attemptedNumber == p.pc.attemptedNumber && pc == Leaving(Queued(|w.queued|))
  {}

  lemma DroppedMeans(s: State, submission: nat, stored: nat)
    requires Dropped(s, submission, stored)
    ensures forall r | 0 <= r < |s.world.queued| :: s.world.queued[r].submission != submission
    ensures forall v | stored <= v < |s.world.vouchers| :: s.world.vouchers[v].submission != submission
  {}

  /** At any time at most one call or retry works under the lock of an issuer. */
  lemma OneEmissionPerIssuer(states: seq<State>, events: seq<Event>, i: nat, p: nat, q: nat)
    requires IsRun(states, events) && i < |states| && p < |states[i].procs| && q < |states[i].procs|
    requires Inside(states[i].procs[p].pc) && Inside(states[i].procs[q].pc)
    requires states[i].procs[p].issuer == states[i].procs[q].issuer
    ensures p == q
  {
    hide Apply, Enabled, IsRun, WorldOk, AllLocal, LockOk, BatchOk, RowsSettled, UnkeyedHeld, LiveDistinct;
    RunKeepsInv(states, events, i);
    if p != q { OneInside(states[i].procs, states[i].lock, p, q); }
  }

  // One voucher per idempotency key ----------------------------------------------------------------

  /** A failed row under the key is put back by hand although the key has a voucher, or a call is
      obtaining one. */
  ghost predicate ClashesAt(s: State, e: Event, issuer: string, key: Option<string>) {
    && e.RearmFailed? && e.id in s.world.table.rows
    && s.world.table.rows[e.id].issuer == issuer && s.world.table.rows[e.id].key == key
    && Contended(s, issuer, key)
  }

  lemma StepClashes(s: State, e: Event)
    requires Enabled(s, e)
    ensures Apply(s, e).world.clashed
         == s.world.clashed + if e.RearmFailed? then ClashOf(s, s.world.table.rows[e.id]) else {}
  {
    hide Contended, ClashOf, Remove, Rearm, NewCall, NewRetry, FirstInside, CanAct, Talk, CanTalk, CallAt, Possible;
    if e.Work? { ActClashes(s.world, s.procs[e.p]); }
    else if e.Exchange? { TalkClashes(s.world, s.procs[e.p], e.o); }
    hide Act;
  }

  lemma ActClashes(w: World, p: Proc)
    requires CanAct(w, p)
    ensures Act(w, p).0.clashed == w.clashed
  {}

  lemma TalkClashes(w: World, p: Proc, o: Outcome)
    requires CanTalk(p)
    ensures Talk(w, p, o).0.clashed == w.clashed
  {}

  lemma {:induction false} UnclashedIsClean(
      states: seq<State>, events: seq<Event>, j: nat, issuer: string, key: Option<string>)
    requires IsRun(states, events) && j < |states|
    requires forall i | 0 <= i < j :: !ClashesAt(states[i], events[i], issuer, key)
    ensures Clean(states[j].world.clashed, issuer, key)
    decreases j
  {
    hide Apply, Contended;
    if j > 0 {
      UnclashedIsClean(states, events, j - 1, issuer, key);
      assert !ClashesAt(states[j - 1], events[j - 1], issuer, key);
      assert Enabled(states[j - 1], events[j - 1]) && states[j] == Apply(states[j - 1], events[j - 1]);
      StepClashes(states[j - 1], events[j - 1]);
    }
  }

  /** At most one voucher per (issuer, key), in every interleaving of same-key requests, background
      retries and manual actions, unless a failed row under that key was put back while it had a
      voucher or a call was obtaining one. */
  lemma OneVoucherPerKey(states: seq<State>, events: seq<Event>, j: nat, v: nat, u: nat)
    requires IsRun(states, events) && j < |states|
    requires v < |states[j].world.vouchers| && u < |states[j].world.vouchers|
    requires var voucher, other := states[j].world.vouchers[v], states[j].world.vouchers[u];
             && HasText(voucher.key) && UnderKey(other, voucher.issuer, voucher.key)
             && forall i | 0 <= i < j :: !ClashesAt(states[i], events[i], voucher.issuer, voucher.key)
    ensures v == u
  {
    UnclashedIsClean(states, events, j, states[j].world.vouchers[v].issuer, states[j].world.vouchers[v].key);
    hide Apply, Enabled, IsRun, LockOk, BatchOk, AllLocal, RowsSettled, UnkeyedHeld, LiveDistinct, ClashesAt;
    hide RowsOk, QueuedOk, LedgerOk, AllNumbersOk, IndexOk, RecordsOk, Recorded, WaitingAlone, VouchersOk, AccountsOk;
    hide RowVouchersOk, CompletedOk;
    RunKeepsInv(states, events, j);
  }

  /** Two calls under one key that both got a voucher got the same one, re-arming or not. */
  lemma SameKeySameAnswer(states: seq<State>, events: seq<Event>, j: nat, p: nat, q: nat)
    requires IsRun(states, events) && j < |states|
    requires p < |states[j].procs| && q < |states[j].procs|
    requires states[j].procs[p].issuer == states[j].procs[q].issuer && states[j].procs[p].key == states[j].procs[q].key
    requires HasText(states[j].procs[p].key)
    requires states[j].procs[p].pc.Ended? && states[j].procs[p].pc.answer.Issued?
    requires states[j].procs[q].pc.Ended? && states[j].procs[q].pc.answer.Issued?
    ensures states[j].procs[p].pc.answer == states[j].procs[q].pc.answer
  {
    hide Apply, Enabled, LockOk, BatchOk, WorldOk, RowsSettled, UnkeyedHeld, LiveDistinct;
    RunKeepsInv(states, events, j);
    var w := states[j].world;
    assert Local(w, states[j].procs[p]) && Local(w, states[j].procs[q]);
    assert AnswerIsStored(w, states[j].procs[p], states[j].procs[p].pc.answer);
    assert AnswerIsStored(w, states[j].procs[q], states[j].procs[q].pc.answer);
  }

  /** A call that arrives once the key has its record only ever reads: it is about to look the record
      up, or has been answered with exactly the voucher recorded. */
  predicate Replays(p: Proc, v: Voucher) {
    p.pc == ReplayingRecord || p.pc == Ended(Issued(ToIssued(v)))
  }

  predicate CallsUnder(p: Proc, k: (string, string)) {
    p.job.Request? && p.issuer == k.0 && p.key == Some(k.1)
  }

  ghost predicate LaterCallsReplay(s: State, from: nat, k: (string, string), v: Voucher) {
    forall p | from <= p < |s.procs| && CallsUnder(s.procs[p], k) :: Replays(s.procs[p], v)
  }

  lemma ReplayFinds(w: World, p: Proc, k: (string, string))
    requires VouchersOk(w.vouchers, w.ledger, w.cuits, w.queued) && LedgerOk(w.ledger, w.calls)
    requires k in w.records && w.records[k] < |w.vouchers| && CallsUnder(p, k) && p.pc.ReplayingRecord?
    ensures CanAct(w, p) && Act(w, p) == (w, Ended(Issued(ToIssued(w.vouchers[w.records[k]]))))
  {}

  lemma WorkKeepsReplaying(s: State, p: nat, from: nat, k: (string, string))
    requires Inv(s) && p < |s.procs| && CanAct(s.world, s.procs[p])
    requires k in s.world.records && s.world.records[k] < |s.world.vouchers|
    requires LaterCallsReplay(s, from, k, s.world.vouchers[s.world.records[k]])
    ensures LaterCallsReplay(Moved(s, p, Act(s.world, s.procs[p])), from, k, s.world.vouchers[s.world.records[k]])
  {
    hide RowsOk, QueuedOk, AllNumbersOk, IndexOk, AccountsOk, RecordsOk, OnePerKey, Recorded, WaitingAlone;
    hide AllLocal, LockOk, BatchOk, LiveDistinct, RowsSettled, UnkeyedHeld;
    if p >= from && CallsUnder(s.procs[p], k) {
      assert Replays(s.procs[p], s.world.vouchers[s.world.records[k]]);
      ReplayFinds(s.world, s.procs[p], k);
    }
    hide Act, CanAct, VouchersOk, LedgerOk;
  }

  lemma StepKeepsReplaying(s: State, e: Event, from: nat, k: (string, string))
    requires Inv(s) && Enabled(s, e) && k in s.world.records && s.world.records[k] < |s.world.vouchers|
    requires k.1 != "" && from <= |s.procs|
    requires LaterCallsReplay(s, from, k, s.world.vouchers[s.world.records[k]])
    ensures LaterCallsReplay(Apply(s, e), from, k, s.world.vouchers[s.world.records[k]])
  {
    hide Inv, Act, CanAct, Talk, CallAt, Possible, Remove, Rearm, FirstInside;
    if e.Work? { WorkKeepsReplaying(s, e.p, from, k); }
  }

  lemma RecordIsStored(states: seq<State>, events: seq<Event>, i: nat, k: (string, string))
    requires IsRun(states, events) && i < |states| && k in states[i].world.records
    ensures k.1 != "" && states[i].world.records[k] < |states[i].world.vouchers|
  {
    hide Apply, Enabled, IsRun, LockOk, BatchOk, AllLocal, RowsSettled, UnkeyedHeld, LiveDistinct;
    hide RowsOk, QueuedOk, LedgerOk, AllNumbersOk, VouchersOk, IndexOk, AccountsOk, OnePerKey, Recorded, WaitingAlone;
    RunKeepsInv(states, events, i);
  }

  lemma RecordStays(w: World, w': World, k: (string, string))
    requires Grows(w, w') && k in w.records && w.records[k] < |w.vouchers|
    ensures k in w'.records && w'.records[k] == w.records[k] < |w'.vouchers|
    ensures w'.vouchers[w'.records[k]] == w.vouchers[w.records[k]]
  {}

  lemma {:induction false} RecordedKeyOnlyReplays(
      states: seq<State>, events: seq<Event>, i: nat, j: nat, k: (string, string))
    requires IsRun(states, events) && i <= j < |states| && k in states[i].world.records
    ensures states[i].world.records[k] < |states[i].world.vouchers| && |states[i].procs| <= |states[j].procs|
    ensures LaterCallsReplay(states[j], |states[i].procs|, k, states[i].world.vouchers[states[i].world.records[k]])
    decreases j
  {
    hide Inv, Grows, Apply, Enabled;
    RecordIsStored(states, events, i, k);
    if i < j {
      hide LaterCallsReplay;
      RecordedKeyOnlyReplays(states, events, i, j - 1, k);
      RunGrows(states, events, i, j - 1);
      RunStep(states, events, j - 1);
      RecordStays(states[i].world, states[j - 1].world, k);
      StepKeepsReplaying(states[j - 1], events[j - 1], |states[i].procs|, k);
      ProcsGrow(states[j - 1], events[j - 1]);
    }
  }

  lemma ProcsGrow(s: State, e: Event)
    requires Enabled(s, e)
    ensures |s.procs| <= |Apply(s, e).procs|
  {}

  /** After a call was issued a voucher, every later call with its key is answered with exactly that
      voucher, having only read: no call to ARCA, no change to any table. */
  lemma SuccessIsReplayed(states: seq<State>, events: seq<Event>, i: nat, j: nat, p: nat, q: nat)
    requires IsRun(states, events) && i <= j < |states|
    requires p < |states[i].procs| <= q < |states[j].procs|
    requires states[i].procs[p].pc.Ended? && states[i].procs[p].pc.answer.Issued? && HasText(states[i].procs[p].key)
    requires CallsUnder(states[j].procs[q], (states[i].procs[p].issuer, states[i].procs[p].key.value))
    ensures states[j].procs[q].pc == ReplayingRecord
            || states[j].procs[q].pc == Ended(Issued(states[i].procs[p].pc.answer.voucher))
    ensures !CanTalk(states[j].procs[q])
    ensures CanAct(states[j].world, states[j].procs[q]) ==> Act(states[j].world, states[j].procs[q]).0 == states[j].world
  {
    hide Apply, Enabled, LockOk, BatchOk, WorldOk, RowsSettled, UnkeyedHeld, LiveDistinct;
    RunKeepsInv(states, events, i);
    var proc := states[i].procs[p];
    assert Local(states[i].world, proc);
    assert AnswerIsStored(states[i].world, proc, proc.pc.answer);
    hide Local, AllLocal, AnswerIsStored, IsRun;
    RecordedKeyOnlyReplays(states, events, i, j, (proc.issuer, proc.key.value));
    assert Replays(states[j].procs[q], states[i].world.vouchers[proc.pc.answer.voucher.id]);
  }

  // What is recorded is what ARCA holds --------------------------------------------------------------

  /** On every path (fresh, adopted after a duplicate, second number, recovered), each recorded sales
      point, type, number and CAE is ARCA's entry at that number. */
  lemma RecordedIsWhatArcaHolds(states: seq<State>, events: seq<Event>, j: nat, v: nat)
    requires IsRun(states, events) && j < |states| && v < |states[j].world.vouchers|
    ensures var w, voucher := states[j].world, states[j].world.vouchers[v];
            var series := SeriesOf(w.cuits, voucher.issuer, voucher.input);
            Has(w.ledger, series, voucher.number) && At(w.ledger, series, voucher.number).cae == voucher.cae
  {
    hide Apply, Enabled, IsRun, LockOk, BatchOk, AllLocal, RowsSettled, UnkeyedHeld, LiveDistinct;
    RunKeepsInv(states, events, j);
    var w := states[j].world;
    assert VoucherOk(w.vouchers[v], w.ledger, w.cuits, w.queued);
  }
}
