/** What becomes of refused calls, and that the system cannot get stuck, over every run. */
module EmissionProgress {
  import opened Common
  import opened Arca
  import opened CaeRequest
  import opened PendingQueue
  import opened Emission
  import opened EmissionInvariant
  import opened EmissionTalk
  import opened EmissionSafety
  import opened EmissionEvents
  import opened EmissionTheorems
  import IssuerLock

  // A refused call ----------------------------------------------------------------------------------

  predicate Rejected(pc: Pc) {
    pc == Leaving(RejectedByArca) || pc == Ended(RejectedByArca)
  }

  ghost predicate OwnsNothing(l: Ledger, submission: nat) {
    forall s, n :: !Own(l, s, n, submission)
  }

  /** Nothing speaks for the submission, and ARCA holds nothing of it. */
  ghost predicate Withdrawn(s: State, submission: nat) {
    Dropped(s, submission, |s.world.vouchers|) && OwnsNothing(s.world.ledger, submission)
  }

  /** A step gives an entry to no submission but that of a live process. */
  lemma StepOwns(s: State, e: Event, submission: nat)
    requires Enabled(s, e) && OwnsNothing(s.world.ledger, submission)
    requires forall p | 0 <= p < |s.procs| && Live(s.procs[p]) :: s.procs[p].submission != submission
    ensures OwnsNothing(Apply(s, e).world.ledger, submission)
  {
    if e.Exchange? {
      TalkStance(s.world, s.procs[e.p], e.o);
      OthersOwn(s, e, submission);
    } else {
      if e.Work? { ActKeepsLedger(s.world, s.procs[e.p]); }
      if e.ForeignVoucher? { StrangersOwn(s.world.ledger, e.series, Entry(e.detail, e.cae, None), submission); }
      hide Act, CanAct, Rearm, ClashOf, Remove, FirstInside, OwnsNothing, Append;
    }
  }

  lemma StrangersOwn(l: Ledger, series: Series, entry: Entry, submission: nat)
    requires OwnsNothing(l, submission) && entry.origin != Some(submission)
    ensures OwnsNothing(Append(l, series, entry), submission)
  {
    forall s, n ensures !Own(Append(l, series, entry), s, n, submission) {
      if Has(Append(l, series, entry), s, n) {
        AppendedAt(l, series, entry, s, n);
        assert !Own(l, s, n, submission);
      }
    }
  }

  lemma OthersOwn(s: State, e: Event, submission: nat)
    requires Enabled(s, e) && e.Exchange? && s.procs[e.p].submission != submission
    requires OwnsNothing(s.world.ledger, submission)
    ensures OwnsNothing(Apply(s, e).world.ledger, submission)
  {
    EffectExtends(s.world.ledger, CallAt(s.world, s.procs[e.p]), e.o, s.procs[e.p].submission);
    hide CanTalk, Possible, Effect;
  }

  lemma ActKeepsLedger(w: World, p: Proc)
    requires CanAct(w, p)
    ensures Act(w, p).0.ledger == w.ledger
  {}

  lemma NoVouchersSince(s: State, s': State, submission: nat)
    requires Dropped(s', submission, |s.world.vouchers|) && |s.world.vouchers| <= |s'.world.vouchers|
    ensures Dropped(s', submission, |s'.world.vouchers|)
  {}

  lemma StepKeepsWithdrawn(s: State, e: Event, submission: nat)
    requires Inv(s) && Enabled(s, e) && Withdrawn(s, submission)
    ensures Withdrawn(Apply(s, e), submission)
  {
    LiveOthers(s, submission);
    hide Inv, Apply, Enabled, OwnsNothing, Dropped;
    StepKeepsDropped(s, e, submission, |s.world.vouchers|);
    StepOwns(s, e, submission);
    StepGrows(s, e);
    NoVouchersSince(s, Apply(s, e), submission);
  }

  lemma LiveOthers(s: State, submission: nat)
    requires Dropped(s, submission, |s.world.vouchers|)
    ensures forall p | 0 <= p < |s.procs| && Live(s.procs[p]) :: s.procs[p].submission != submission
  {}

  /** A process is refused by a call to ARCA, or has been before. */
  lemma RejectedComesFrom(s: State, e: Event, p: nat)
    requires Enabled(s, e) && p < |Apply(s, e).procs| && Rejected(Apply(s, e).procs[p].pc)
    ensures p < |s.procs| && Apply(s, e).procs[p].submission == s.procs[p].submission
    ensures Rejected(s.procs[p].pc)
            || (e.Exchange? && e.p == p && Talk(s.world, s.procs[p], e.o).1 == Leaving(RejectedByArca))
  {
    hide Talk, CanTalk, CallAt, Possible, Rearmed, Remove;
    if e.Work? {
      ActRejectsNothing(s.world, s.procs[e.p]);
      hide Act, CanAct;
    } else if e.Exchange? {
      TalkGoesOn(s.world, s.procs[e.p], e.o);
    }
  }

  lemma TalkGoesOn(w: World, p: Proc, o: Outcome)
    requires CanTalk(p)
    ensures !Talk(w, p, o).1.Ended?
  {}

  lemma ActRejectsNothing(w: World, p: Proc)
    requires CanAct(w, p)
    ensures !Rejected(Act(w, p).1)
  {}

  lemma TalkRejects(w: World, p: Proc, o: Outcome)
    requires CanTalk(p) && Possible(w.ledger, CallAt(w, p), o) && Talk(w, p, o).1 == Leaving(RejectedByArca)
    ensures p.job.Request? && p.pc.Attempting? && Talk(w, p, o).0 == w
  {}

  lemma JustRejected(s: State, p: nat, o: Outcome)
    requires Inv(s) && p < |s.procs| && CanTalk(s.procs[p])
    requires Possible(s.world.ledger, CallAt(s.world, s.procs[p]), o)
    requires Talk(s.world, s.procs[p], o).1 == Leaving(RejectedByArca)
    ensures Withdrawn(Moved(s, p, Talk(s.world, s.procs[p], o)), s.procs[p].submission)
  {
    TalkRejects(s.world, s.procs[p], o);
    hide Talk, CanTalk, CallAt, Possible;
    OnlyTheCallerSpeaks(s, p);
    hide Inv;
  }

  /** While a call talks to ARCA it is the only one to speak for its submission, which has no entry yet. */
  lemma OnlyTheCallerSpeaks(s: State, p: nat)
    requires Inv(s) && p < |s.procs| && s.procs[p].pc.Attempting? && s.procs[p].job.Request?
    ensures s.procs[p].submission < s.world.calls && OwnsNothing(s.world.ledger, s.procs[p].submission)
    ensures forall q | 0 <= q < |s.procs| && q != p && Live(s.procs[q]) :: s.procs[q].submission != s.procs[p].submission
    ensures forall i | 0 <= i < |s.world.queued| :: s.world.queued[i].submission != s.procs[p].submission
  {
    hide WorldOk, LockOk, BatchOk, RowsSettled, UnkeyedHeld;
    assert Local(s.world, s.procs[p]);
    assert Owns(s.world, s.procs[p], None);
  }

  lemma {:induction false} RejectedIsWithdrawn(states: seq<State>, events: seq<Event>, i: nat, p: nat)
    requires IsRun(states, events) && i < |states| && p < |states[i].procs| && Rejected(states[i].procs[p].pc)
    ensures Withdrawn(states[i], states[i].procs[p].submission)
    decreases i
  {
    hide Inv, Apply, Enabled, Withdrawn, Grows;
    if i > 0 {
      RunStep(states, events, i - 1);
      RejectedComesFrom(states[i - 1], events[i - 1], p);
      if Rejected(states[i - 1].procs[p].pc) {
        RejectedIsWithdrawn(states, events, i - 1, p);
        StepKeepsWithdrawn(states[i - 1], events[i - 1], states[i].procs[p].submission);
      } else {
        RejectedByExchange(states[i - 1], events[i - 1], p);
      }
    }
  }

  lemma RejectedByExchange(s: State, e: Event, p: nat)
    requires Inv(s) && Enabled(s, e) && e.Exchange? && e.p == p && p < |s.procs|
    requires Talk(s.world, s.procs[p], e.o).1 == Leaving(RejectedByArca)
    ensures Withdrawn(Apply(s, e), s.procs[p].submission)
  {
    hide Inv, Talk, CanTalk, CallAt, Possible, Withdrawn;
    JustRejected(s, p, e.o);
  }

  /** A call answered "rejected by ARCA" has no entry at ARCA, then or ever, and leaves no queued row. */
  lemma {:induction false} RejectedCallOwnsNothing(states: seq<State>, events: seq<Event>, i: nat, j: nat, p: nat)
    requires IsRun(states, events) && i <= j < |states| && p < |states[i].procs| && Rejected(states[i].procs[p].pc)
    ensures Withdrawn(states[j], states[i].procs[p].submission)
    ensures forall s, n :: !Own(states[j].world.ledger, s, n, states[i].procs[p].submission)
    ensures forall r | 0 <= r < |states[j].world.queued| ::
              states[j].world.queued[r].submission != states[i].procs[p].submission
    decreases j
  {
    hide Inv, Apply, Enabled, Grows;
    if i == j {
      RejectedIsWithdrawn(states, events, i, p);
    } else {
      RejectedCallOwnsNothing(states, events, i, j - 1, p);
      hide Withdrawn;
      RunStep(states, events, j - 1);
      StepKeepsWithdrawn(states[j - 1], events[j - 1], states[i].procs[p].submission);
    }
  }

  // Nobody is stuck ---------------------------------------------------------------------------------

  predicate StepOf(e: Event, p: nat) {
    (e.Work? || e.Exchange? || e.Arrive? || e.Enter? || e.Leave? || e.FindIssuer?) && e.p == p
  }

  ghost predicate CanStep(s: State, p: nat) {
    exists e :: Enabled(s, e) && StepOf(e, p)
  }

  /** At every program point but the wait for the lock, the next statement can run (a call to ARCA may at
      worst be lost). */
  lemma StepsOn(s: State, p: nat)
    requires Inv(s) && p < |s.procs| && !s.procs[p].pc.Ended? && !s.procs[p].pc.AwaitingTurn?
    ensures CanStep(s, p)
  {
    var proc := s.procs[p];
    InvAt(s, p);
    hide Inv, AtPc, TicketOk, CanAct, CanTalk, CanStep;
    if proc.pc.Arriving? || proc.pc.FindingIssuer? || proc.pc.Leaving? {
      Stands(s, p);
    } else {
      ActsOrTalks(s.world, proc);
      if CanTalk(proc) { MayTalk(s, p); } else { MayWork(s, p); }
    }
  }

  lemma MayTalk(s: State, p: nat)
    requires p < |s.procs| && CanTalk(s.procs[p])
    ensures CanStep(s, p)
  {
    hide CanTalk, CallAt;
    var e := Exchange(p, Lost(None));
    assert Enabled(s, e) && StepOf(e, p);
  }

  lemma MayWork(s: State, p: nat)
    requires p < |s.procs| && CanAct(s.world, s.procs[p])
    ensures CanStep(s, p)
  {
    hide CanAct;
    assert Enabled(s, Work(p)) && StepOf(Work(p), p);
  }

  lemma Stands(s: State, p: nat)
    requires p < |s.procs| && TicketOk(s.procs[p], s.lock)
    requires s.procs[p].pc.Arriving? || s.procs[p].pc.FindingIssuer? || s.procs[p].pc.Leaving?
    ensures CanStep(s, p)
  {
    var e := match s.procs[p].pc
      case Arriving => Event.Arrive(p)
      case FindingIssuer => FindIssuer(p, true)
      case _ => Event.Leave(p);
    assert Enabled(s, e) && StepOf(e, p);
  }

  lemma InvAt(s: State, p: nat)
    requires Inv(s) && p < |s.procs|
    ensures AtPc(s.world, s.procs[p]) && TicketOk(s.procs[p], s.lock)
  {
    hide WorldOk, BatchOk, RowsSettled, UnkeyedHeld, LiveDistinct, TicketsHeld, IssuerLock.Inv, AtPc, TicketOk;
    assert Local(s.world, s.procs[p]);
  }

  lemma ActsOrTalks(w: World, p: Proc)
    requires AtPc(w, p) && !p.pc.Arriving? && !p.pc.FindingIssuer? && !p.pc.Leaving? && !p.pc.Ended? && !p.pc.AwaitingTurn?
    ensures CanAct(w, p) || CanTalk(p)
  {}

  /** In the line of a key some unfinished ticket, this one or an earlier one, is running or may enter. */
  lemma {:induction false} SomebodyInLineMoves(lock: IssuerLock.Lock, t: nat)
    requires IssuerLock.Inv(lock) && t < |lock.tickets| && lock.tickets[t].phase != IssuerLock.Done
    ensures exists u :: 0 <= u <= t && IssuerLock.SameKey(lock, u, t)
              && (lock.tickets[u].phase == IssuerLock.Running || IssuerLock.CanEnter(lock, u))
    decreases t
  {
    hide IssuerLock.Inv, IssuerLock.CanEnter;
    IssuerLock.EntersExactlyInTurn(lock, t);
    if lock.tickets[t].phase == IssuerLock.Running || IssuerLock.CanEnter(lock, t) {
      assert IssuerLock.SameKey(lock, t, t);
    } else {
      var v :| 0 <= v < t && IssuerLock.SameKey(lock, v, t) && lock.tickets[v].phase != IssuerLock.Done;
      SomebodyInLineMoves(lock, v);
      var u :| 0 <= u <= v && IssuerLock.SameKey(lock, u, v)
               && (lock.tickets[u].phase == IssuerLock.Running || IssuerLock.CanEnter(lock, u));
      assert IssuerLock.SameKey(lock, u, t);
    }
  }

  /** q stands in the same line as p, and not behind it. */
  predicate NotBehind(q: Proc, p: Proc) {
    Queues(q) && q.issuer == p.issuer && q.ticket <= p.ticket
  }

  lemma WhoMoves(s: State, p: nat, u: nat)
    requires Inv(s) && p < |s.procs| && s.procs[p].pc.AwaitingTurn?
    requires u <= s.procs[p].ticket < |s.lock.tickets| && IssuerLock.SameKey(s.lock, u, s.procs[p].ticket)
    requires s.lock.tickets[u].phase == IssuerLock.Running || IssuerLock.CanEnter(s.lock, u)
    ensures exists q :: 0 <= q < |s.procs| && NotBehind(s.procs[q], s.procs[p]) && CanStep(s, q)
  {
    assert TicketsHeld(s.procs, s.lock) && TicketOk(s.procs[p], s.lock);
    assert s.lock.tickets[u].phase != IssuerLock.Done;
    var q :| 0 <= q < |s.procs| && Queues(s.procs[q]) && s.procs[q].ticket == u;
    assert TicketOk(s.procs[q], s.lock);
    hide LockOk, WorldOk, AllLocal, BatchOk, RowsSettled, UnkeyedHeld, LiveDistinct, TicketsHeld;
    hide CanStep, Inv;
    if s.procs[q].pc.AwaitingTurn? { MayEnter(s, q); } else { StepsOn(s, q); }
  }

  lemma MayEnter(s: State, q: nat)
    requires q < |s.procs| && s.procs[q].pc.AwaitingTurn? && IssuerLock.CanEnter(s.lock, s.procs[q].ticket)
    ensures CanStep(s, q)
  {
    hide IssuerLock.CanEnter;
    assert Enabled(s, Event.Enter(q)) && StepOf(Event.Enter(q), q);
  }

  /** In every reachable state, a process that has not ended can take its next step, or it awaits the lock of
      its issuer and some process in that line that is not behind it can. */
  lemma NobodyIsStuck(states: seq<State>, events: seq<Event>, j: nat, p: nat)
    requires IsRun(states, events) && j < |states| && p < |states[j].procs| && !states[j].procs[p].pc.Ended?
    ensures var s := states[j];
            || CanStep(s, p)
            || (s.procs[p].pc.AwaitingTurn?
                && exists q :: 0 <= q < |s.procs| && NotBehind(s.procs[q], s.procs[p]) && CanStep(s, q))
  {
    hide Apply, Enabled, IsRun, CanStep;
    RunKeepsInv(states, events, j);
    var s := states[j];
    if s.procs[p].pc.AwaitingTurn? {
      Standing(s, p);
      hide Inv, IssuerLock.Inv, IssuerLock.CanEnter;
      SomebodyInLineMoves(s.lock, s.procs[p].ticket);
      var u :| 0 <= u <= s.procs[p].ticket && IssuerLock.SameKey(s.lock, u, s.procs[p].ticket)
               && (s.lock.tickets[u].phase == IssuerLock.Running || IssuerLock.CanEnter(s.lock, u));
      WhoMoves(s, p, u);
    } else {
      hide Inv;
      StepsOn(s, p);
    }
  }

  lemma Standing(s: State, p: nat)
    requires Inv(s) && p < |s.procs| && s.procs[p].pc.AwaitingTurn?
    ensures IssuerLock.Inv(s.lock) && s.procs[p].ticket < |s.lock.tickets|
    ensures s.lock.tickets[s.procs[p].ticket].phase == IssuerLock.Waiting
  {
    hide WorldOk, AllLocal, BatchOk, RowsSettled, UnkeyedHeld, LiveDistinct, IssuerLock.Inv, TicketsHeld;
    assert TicketOk(s.procs[p], s.lock);
  }
}
