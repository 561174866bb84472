/** How far an issuer has come with ARCA, learned from the fate of each tracked call. */
module Onboarding {

  datatype Status = PENDING_CERTIFICATE | PENDING_DELEGATION | DELEGATION_CONFIRMED | ISSUING_CONFIRMED | BLOCKED_BY_ARCA

  datatype Confirmation = READ_ONLY | ISSUE

  /** How a tracked operation ends: it returns, ARCA rejects it with some codes, or it fails otherwise. */
  datatype Ending = Returned | RejectedWith(codes: set<string>) | FailedOtherwise

  const ARCA_TOKEN_RELATION_CODE := "600"

  predicate HasConfirmedDelegation(status: Status) {
    status in {DELEGATION_CONFIRMED, ISSUING_CONFIRMED, BLOCKED_BY_ARCA}
  }

  function ConfirmedStatus(confirmation: Confirmation): Status {
    match confirmation
    case READ_ONLY => DELEGATION_CONFIRMED
    case ISSUE => ISSUING_CONFIRMED
  }

  function StatusAfterRejection(current: Status): Status {
    if current in {PENDING_CERTIFICATE, PENDING_DELEGATION} then PENDING_DELEGATION else BLOCKED_BY_ARCA
  }

  // The machine ---------------------------------------------------------------------------------------

  datatype Event = Success(confirmation: Confirmation) | TokenRejection | OtherError | CertificateLoaded

  function EventOf(confirmation: Confirmation, ending: Ending): Event {
    match ending
    case Returned => Success(confirmation)
    case RejectedWith(codes) => if ARCA_TOKEN_RELATION_CODE in codes then TokenRejection else OtherError
    case FailedOtherwise => OtherError
  }

  function Next(status: Status, event: Event): Status {
    match event
    case Success(confirmation) => if status == ISSUING_CONFIRMED then status else ConfirmedStatus(confirmation)
    case TokenRejection => StatusAfterRejection(status)
    case OtherError => status
    case CertificateLoaded => if HasConfirmedDelegation(status) then status else PENDING_DELEGATION
  }

  function After(events: seq<Event>): Status {
    if events == [] then PENDING_CERTIFICATE else Next(After(events[..|events| - 1]), events[|events| - 1])
  }

  class Issuer {
    var onboardingStatus: Status

    constructor ()
      ensures onboardingStatus == PENDING_CERTIFICATE
    {
      onboardingStatus := PENDING_CERTIFICATE;
    }

    /** `track`, given how the operation ended; what is thrown is a delegation error exactly for the
        token-relation rejection. */
    method Track(confirmation: Confirmation, ending: Ending) returns (delegationError: bool)
      modifies this
      ensures onboardingStatus == Next(old(onboardingStatus), EventOf(confirmation, ending))
      ensures delegationError <==> ending.RejectedWith? && "600" in ending.codes
      ensures ending.Returned? && confirmation.ISSUE? ==> onboardingStatus == ISSUING_CONFIRMED
      ensures ending.Returned? && confirmation.READ_ONLY? ==>
                onboardingStatus == DELEGATION_CONFIRMED || onboardingStatus == old(onboardingStatus) == ISSUING_CONFIRMED
      ensures !ending.Returned? && !delegationError ==> onboardingStatus == old(onboardingStatus)
    {
      delegationError := false;
      match ending
      case Returned => Confirm(confirmation);
      case RejectedWith(codes) => delegationError := Diagnose(codes);
      case FailedOtherwise =>
    }

    method Confirm(confirmation: Confirmation)
      modifies this
      ensures onboardingStatus == Next(old(onboardingStatus), Success(confirmation))
    {
      var reached := ConfirmedStatus(confirmation);
      if onboardingStatus == ISSUING_CONFIRMED { return; }
      if onboardingStatus == reached { return; }
      onboardingStatus := reached;
    }

    method Diagnose(codes: set<string>) returns (delegationError: bool)
      modifies this
      ensures delegationError == (ARCA_TOKEN_RELATION_CODE in codes)
      ensures onboardingStatus == if delegationError then StatusAfterRejection(old(onboardingStatus)) else old(onboardingStatus)
    {
      if ARCA_TOKEN_RELATION_CODE !in codes { return false; }
      onboardingStatus := StatusAfterRejection(onboardingStatus);
      return true;
    }

    method MarkCertificateLoaded()
      modifies this
      ensures onboardingStatus == Next(old(onboardingStatus), CertificateLoaded)
    {
      if HasConfirmedDelegation(onboardingStatus) { return; }
      onboardingStatus := PENDING_DELEGATION;
    }
  }

  // What the status says about the past -------------------------------------------------------------------

  ghost predicate Succeeded(events: seq<Event>) {
    exists i :: 0 <= i < |events| && events[i].Success?
  }

  ghost predicate NoSuccessAfter(events: seq<Event>, i: nat) {
    forall j: nat | i < j < |events| :: !events[j].Success?
  }

  ghost predicate NoRejectionAfter(events: seq<Event>, i: nat) {
    forall j: nat | i < j < |events| :: !events[j].TokenRejection?
  }

  /** The latest success or token rejection was a rejection. */
  ghost predicate RejectedLast(events: seq<Event>) {
    exists i: nat :: i < |events| && events[i].TokenRejection? && NoSuccessAfter(events, i)
  }

  /** A voucher was issued and ARCA has not rejected the token since. */
  ghost predicate IssuedSince(events: seq<Event>) {
    exists i: nat :: i < |events| && events[i] == Success(ISSUE) && NoRejectionAfter(events, i)
  }

  ghost predicate Touched(events: seq<Event>) {
    exists i :: 0 <= i < |events| && (events[i].TokenRejection? || events[i].CertificateLoaded?)
  }

  lemma SucceededStep(events: seq<Event>, e: Event)
    ensures Succeeded(events + [e]) <==> Succeeded(events) || e.Success?
  {
    if i :| 0 <= i < |events| && events[i].Success? { assert (events + [e])[i].Success?; }
    if e.Success? { assert (events + [e])[|events|].Success?; }
    if i :| 0 <= i < |events + [e]| && (events + [e])[i].Success? {
      if i < |events| { assert events[i].Success?; }
    }
  }

  lemma TouchedStep(events: seq<Event>, e: Event)
    ensures Touched(events + [e]) <==> Touched(events) || e.TokenRejection? || e.CertificateLoaded?
  {
    var all := events + [e];
    if i :| 0 <= i < |events| && (events[i].TokenRejection? || events[i].CertificateLoaded?) { assert all[i] == events[i]; }
    if e.TokenRejection? || e.CertificateLoaded? { assert all[|events|] == e; }
    if i :| 0 <= i < |all| && (all[i].TokenRejection? || all[i].CertificateLoaded?) {
      if i < |events| { assert events[i] == all[i]; }
    }
  }

  lemma RejectedLastStep(events: seq<Event>, e: Event)
    ensures RejectedLast(events + [e]) <==> e.TokenRejection? || (RejectedLast(events) && !e.Success?)
  {
    var all := events + [e];
    if i: nat :| i < |events| && events[i].TokenRejection? && NoSuccessAfter(events, i) {
      assert all[i] == events[i];
      if !e.Success? { assert NoSuccessAfter(all, i); }
    }
    if e.TokenRejection? { assert all[|events|] == e && NoSuccessAfter(all, |events|); }
    if i: nat :| i < |all| && all[i].TokenRejection? && NoSuccessAfter(all, i) {
      if i < |events| {
        assert events[i] == all[i];
        forall j: nat | i < j < |events| ensures !events[j].Success? { assert all[j] == events[j]; }
        assert all[|events|] == e;
      }
    }
  }

  lemma IssuedSinceStep(events: seq<Event>, e: Event)
    ensures IssuedSince(events + [e]) <==> e == Success(ISSUE) || (IssuedSince(events) && !e.TokenRejection?)
  {
    var all := events + [e];
    if i: nat :| i < |events| && events[i] == Success(ISSUE) && NoRejectionAfter(events, i) {
      assert all[i] == events[i];
      if !e.TokenRejection? { assert NoRejectionAfter(all, i); }
    }
    if e == Success(ISSUE) { assert all[|events|] == e && NoRejectionAfter(all, |events|); }
    if i: nat :| i < |all| && all[i] == Success(ISSUE) && NoRejectionAfter(all, i) {
      if i < |events| {
        assert events[i] == all[i];
        forall j: nat | i < j < |events| ensures !events[j].TokenRejection? { assert all[j] == events[j]; }
        assert all[|events|] == e;
      }
    }
  }

  /** For every sequence of tracked calls and certificate loads, each status says exactly this of the past. */
  lemma {:induction false} StatusTellsThePast(events: seq<Event>)
    ensures HasConfirmedDelegation(After(events)) <==> Succeeded(events)
    ensures After(events) == ISSUING_CONFIRMED <==> IssuedSince(events)
    ensures After(events) == BLOCKED_BY_ARCA <==> Succeeded(events) && RejectedLast(events)
    ensures After(events) == PENDING_DELEGATION <==> !Succeeded(events) && Touched(events)
  {
    if events != [] {
      var n := |events| - 1;
      StatusTellsThePast(events[..n]);
      assert events == events[..n] + [events[n]];
      hide Succeeded, IssuedSince, RejectedLast, Touched;
      SucceededStep(events[..n], events[n]);
      IssuedSinceStep(events[..n], events[n]);
      RejectedLastStep(events[..n], events[n]);
      TouchedStep(events[..n], events[n]);
    }
  }
}
