/**
 * ARCA as its clients see it: one append-only numbering per (CUIT, sales point, voucher type), and
 * calls whose replies can be lost, before or after the request took effect.
 *
 * An entry remembers which submission appended it (`origin`, absent for emitters outside this
 * service).  ARCA does not report it: it is the history the properties are stated about.
 */
module Arca {
  import opened Common
  import Text

  datatype Series = Series(cuit: string, salesPoint: int, voucherType: int)

  /** What a voucher says about itself when it is consulted later; the total is in cents. */
  datatype Detail = Detail(docType: int, docNumber: string, total: int)

  datatype Entry = Entry(detail: Detail, cae: string, origin: Option<nat>)

  type Ledger = map<Series, seq<Entry>>

  function Numbering(l: Ledger, s: Series): seq<Entry> {
    if s in l then l[s] else []
  }

  predicate Has(l: Ledger, s: Series, number: int) {
    1 <= number <= |Numbering(l, s)|
  }

  function At(l: Ledger, s: Series, number: int): Entry
    requires Has(l, s, number)
  {
    Numbering(l, s)[number - 1]
  }

  predicate Own(l: Ledger, s: Series, number: int, submission: nat) {
    Has(l, s, number) && At(l, s, number).origin == Some(submission)
  }

  function Append(l: Ledger, s: Series, e: Entry): Ledger {
    l[s := Numbering(l, s) + [e]]
  }

  /** Entries are only ever added, at the end. */
  ghost predicate Extends(l: Ledger, l': Ledger) {
    && (forall s :: |Numbering(l, s)| <= |Numbering(l', s)|)
    && (forall s, n | Has(l, s, n) :: Has(l', s, n) && At(l', s, n) == At(l, s, n))
  }

  ghost predicate GrownByOthers(l: Ledger, l': Ledger, submission: nat) {
    Extends(l, l') && forall s, n | Own(l', s, n, submission) :: Own(l, s, n, submission)
  }

  /** The test the service applies before adopting a consulted voucher: totals less than one cent
      apart, same document type, same document digits. */
  predicate Matches(reported: Detail, sent: Detail) {
    && -1 < reported.total - sent.total < 1
    && reported.docType == sent.docType
    && Text.OnlyDigits(reported.docNumber) == Text.OnlyDigits(sent.docNumber)
  }

  /** What ARCA may report for a voucher it stores. */
  predicate Echoes(reported: Detail, stored: Detail) {
    && reported.total == stored.total
    && reported.docType == stored.docType
    && Text.OnlyDigits(reported.docNumber) == Text.OnlyDigits(stored.docNumber)
  }

  /** The test accepts exactly what ARCA may report of a voucher with the data sent. */
  lemma MatchesWhatItWouldEcho(reported: Detail, sent: Detail)
    ensures Matches(reported, sent) <==> Echoes(reported, sent)
  {}

  const DUPLICATE_NUMBER := "10016"

  datatype Call =
    | Authenticate
    | LastAuthorized(series: Series)
    | RequestCae(series: Series, number: int, detail: Detail)
    | Consult(series: Series, number: int)

  datatype Reply =
    | Authenticated
    | Last(number: int)
    | Granted(cae: string)
    | Found(detail: Detail, cae: string)
    | NotFound
    | Rejected(codes: set<string>)
    | NoAnswer

  /** What happens to one call: a reply arrives, or none does and a CAE request may still have
      been applied, with the CAE it got. */
  datatype Outcome = Replied(reply: Reply) | Lost(applied: Option<string>)

  function Seen(o: Outcome): Reply {
    if o.Replied? then o.reply else NoAnswer
  }

  /** ARCA authorizes only the next number of the series; a rejection appends nothing; an answered
      consultation is exact. */
  predicate Possible(l: Ledger, call: Call, o: Outcome) {
    match o
    case Lost(None) => true
    case Lost(Some(cae)) => Authorizes(l, call, cae)
    case Replied(Granted(cae)) => Authorizes(l, call, cae)
    case Replied(Authenticated) => call.Authenticate?
    case Replied(Last(n)) => call.LastAuthorized? && n == |Numbering(l, call.series)|
    case Replied(Found(detail, cae)) =>
      && call.Consult? && Has(l, call.series, call.number)
      && Echoes(detail, At(l, call.series, call.number).detail)
      && cae == At(l, call.series, call.number).cae
    case Replied(NotFound) => call.Consult? && !Has(l, call.series, call.number)
    case Replied(Rejected(_)) => !call.Consult?
    case Replied(NoAnswer) => false
  }

  predicate Authorizes(l: Ledger, call: Call, cae: string) {
    call.RequestCae? && call.number == |Numbering(l, call.series)| + 1 && cae != ""
  }

  predicate Applied(call: Call, o: Outcome) {
    call.RequestCae? && (match o case Replied(Granted(_)) => true case Lost(Some(_)) => true case _ => false)
  }

  function GrantedCae(o: Outcome): string {
    match o case Replied(Granted(cae)) => cae case Lost(Some(cae)) => cae case _ => ""
  }

  function Effect(l: Ledger, call: Call, o: Outcome, submission: nat): Ledger {
    if !Applied(call, o) then l
    else Append(l, call.series, Entry(call.detail, GrantedCae(o), Some(submission)))
  }

  /** After an append there is the new entry at the end, and what was there before. */
  lemma AppendedAt(l: Ledger, s: Series, e: Entry, t: Series, n: int)
    requires Has(Append(l, s, e), t, n)
    ensures if t == s && n == |Numbering(l, s)| + 1 then At(Append(l, s, e), t, n) == e
            else Has(l, t, n) && At(l, t, n) == At(Append(l, s, e), t, n)
  {}

  lemma GrowthComposes(l: Ledger, l1: Ledger, l2: Ledger, submission: nat)
    requires GrownByOthers(l, l1, submission) && GrownByOthers(l1, l2, submission)
    ensures GrownByOthers(l, l2, submission)
  {}

  lemma EffectExtends(l: Ledger, call: Call, o: Outcome, submission: nat)
    requires Possible(l, call, o)
    ensures Extends(l, Effect(l, call, o, submission))
    ensures forall s, n, other | other != submission && Own(Effect(l, call, o, submission), s, n, other) ::
              Own(l, s, n, other)
    ensures forall s, n | Own(Effect(l, call, o, submission), s, n, submission) ::
              || Own(l, s, n, submission)
              || (Applied(call, o) && s == call.series && n == call.number)
  {}

  // A scripted ARCA ---------------------------------------------------------------------------

  /** What happens around one call: vouchers other emitters get first, then the call's own fate. */
  datatype Turn = Turn(foreign: seq<(Series, Detail, string)>, outcome: Outcome)

  function AppendForeign(l: Ledger, foreign: seq<(Series, Detail, string)>): Ledger
    decreases |foreign|
  {
    if foreign == [] then l
    else AppendForeign(Append(l, foreign[0].0, Entry(foreign[0].1, foreign[0].2, None)), foreign[1..])
  }

  lemma {:induction false} ForeignGrowth(l: Ledger, foreign: seq<(Series, Detail, string)>, submission: nat)
    ensures GrownByOthers(l, AppendForeign(l, foreign), submission)
    decreases |foreign|
  {
    if foreign != [] {
      var next := Append(l, foreign[0].0, Entry(foreign[0].1, foreign[0].2, None));
      assert GrownByOthers(l, next, submission);
      ForeignGrowth(next, foreign[1..], submission);
    }
  }

  /** The gateway to ARCA, behaving as its script says: every behaviour of the real one is some
      script, and a turn that ARCA's rules forbid reads as a lost call. */
  class Gateway {
    var ledger: Ledger
    var script: seq<Turn>
    var asked: seq<Call>
    var heard: seq<Reply>

    /** Every call made was answered, if only by silence. */
    ghost predicate Valid() reads this {
      |asked| == |heard|
    }

    constructor (ledger: Ledger, script: seq<Turn>)
      ensures Valid() && this.ledger == ledger && this.script == script && heard == []
    {
      this.ledger, this.script, asked, heard := ledger, script, [], [];
    }

    method Exchange(call: Call, submission: nat) returns (reply: Reply, ghost before: Ledger, ghost o: Outcome)
      requires Valid()
      modifies this
      ensures Valid()
      ensures GrownByOthers(old(ledger), before, submission)
      ensures Possible(before, call, o) && reply == Seen(o)
      ensures ledger == Effect(before, call, o, submission)
      ensures Extends(old(ledger), ledger)
      ensures !Applied(call, o) ==> GrownByOthers(old(ledger), ledger, submission)
      ensures asked == old(asked) + [call] && heard == old(heard) + [reply]
    {
      var turn := Turn([], Lost(None));
      if script != [] {
        turn, script := script[0], script[1..];
      }
      ForeignGrowth(ledger, turn.foreign, submission);
      ledger := AppendForeign(ledger, turn.foreign);
      before := ledger;
      var outcome := if Possible(ledger, call, turn.outcome) then turn.outcome else Lost(None);
      o := outcome;
      EffectExtends(ledger, call, outcome, submission);
      ledger := Effect(ledger, call, outcome, submission);
      reply := Seen(outcome);
      asked, heard := asked + [call], heard + [reply];
    }
  }
}
