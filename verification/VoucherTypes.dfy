/** The voucher types of ARCA and what each one implies. */
module VoucherTypes {
  import opened Common

  const FACTURA_A := 1
  const NOTA_DEBITO_A := 2
  const NOTA_CREDITO_A := 3
  const FACTURA_B := 6
  const NOTA_DEBITO_B := 7
  const NOTA_CREDITO_B := 8
  const FACTURA_C := 11
  const NOTA_DEBITO_C := 12
  const NOTA_CREDITO_C := 13
  const FACTURA_E := 19
  const NOTA_DEBITO_E := 20
  const NOTA_CREDITO_E := 21
  const FACTURA_M := 51
  const NOTA_DEBITO_M := 52
  const NOTA_CREDITO_M := 53
  const FCE_FACTURA_A := 201
  const FCE_NOTA_DEBITO_A := 202
  const FCE_NOTA_CREDITO_A := 203
  const FCE_FACTURA_B := 206
  const FCE_NOTA_DEBITO_B := 207
  const FCE_NOTA_CREDITO_B := 208
  const FCE_FACTURA_C := 211
  const FCE_NOTA_DEBITO_C := 212
  const FCE_NOTA_CREDITO_C := 213

  datatype Letter = A | B | C | E | M | NoLetter

  function VoucherTypeName(voucherType: int): string {
    match voucherType
    case 1 => "Factura A"
    case 2 => "Nota de Débito A"
    case 3 => "Nota de Crédito A"
    case 6 => "Factura B"
    case 7 => "Nota de Débito B"
    case 8 => "Nota de Crédito B"
    case 19 => "Factura E"
    case 20 => "Nota de Débito E"
    case 21 => "Nota de Crédito E"
    case 11 => "Factura C"
    case 12 => "Nota de Débito C"
    case 13 => "Nota de Crédito C"
    case 51 => "Factura M"
    case 52 => "Nota de Débito M"
    case 53 => "Nota de Crédito M"
    case 201 => "Factura de Crédito MiPyME A"
    case 202 => "Nota de Débito MiPyME A"
    case 203 => "Nota de Crédito MiPyME A"
    case 206 => "Factura de Crédito MiPyME B"
    case 207 => "Nota de Débito MiPyME B"
    case 208 => "Nota de Crédito MiPyME B"
    case 211 => "Factura de Crédito MiPyME C"
    case 212 => "Nota de Débito MiPyME C"
    case 213 => "Nota de Crédito MiPyME C"
    case _ => ""
  }

  /** A name that ends in a blank and a known letter. */
  function LetterAtEnd(name: string): Letter {
    if |name| < 2 || name[|name| - 2] != ' ' then NoLetter
    else match name[|name| - 1]
      case 'A' => A
      case 'B' => B
      case 'C' => C
      case 'E' => E
      case 'M' => M
      case _ => NoLetter
  }

  function VoucherLetter(voucherType: int): Letter {
    if voucherType in {FACTURA_A, NOTA_DEBITO_A, NOTA_CREDITO_A, FCE_FACTURA_A, FCE_NOTA_DEBITO_A, FCE_NOTA_CREDITO_A} then A
    else if voucherType in {FACTURA_B, NOTA_DEBITO_B, NOTA_CREDITO_B, FCE_FACTURA_B, FCE_NOTA_DEBITO_B, FCE_NOTA_CREDITO_B} then B
    else if voucherType in {FACTURA_C, NOTA_DEBITO_C, NOTA_CREDITO_C, FCE_FACTURA_C, FCE_NOTA_DEBITO_C, FCE_NOTA_CREDITO_C} then C
    else if voucherType in {FACTURA_E, NOTA_DEBITO_E, NOTA_CREDITO_E} then E
    else if voucherType in {FACTURA_M, NOTA_DEBITO_M, NOTA_CREDITO_M} then M
    else NoLetter
  }

  /** The letter of a type is the one its name ends in. */
  lemma LetterEndsTheName(voucherType: int)
    ensures VoucherLetter(voucherType) == LetterAtEnd(VoucherTypeName(voucherType))
  {}

  predicate IsCreditInvoice(voucherType: int) {
    voucherType in {
      FCE_FACTURA_A, FCE_NOTA_DEBITO_A, FCE_NOTA_CREDITO_A, FCE_FACTURA_B, FCE_NOTA_DEBITO_B, FCE_NOTA_CREDITO_B,
      FCE_FACTURA_C, FCE_NOTA_DEBITO_C, FCE_NOTA_CREDITO_C}
  }

  predicate RequiresRecipientCuit(voucherType: int) {
    || voucherType in {FACTURA_A, NOTA_DEBITO_A, NOTA_CREDITO_A, FACTURA_M, NOTA_DEBITO_M, NOTA_CREDITO_M}
    || IsCreditInvoice(voucherType)
  }

  predicate IsCreditDebitNote(voucherType: int) {
    voucherType in {
      NOTA_DEBITO_A, NOTA_CREDITO_A, NOTA_DEBITO_B, NOTA_CREDITO_B, NOTA_DEBITO_C, NOTA_CREDITO_C,
      NOTA_DEBITO_M, NOTA_CREDITO_M, NOTA_DEBITO_E, NOTA_CREDITO_E, FCE_NOTA_DEBITO_A, FCE_NOTA_CREDITO_A,
      FCE_NOTA_DEBITO_B, FCE_NOTA_CREDITO_B, FCE_NOTA_DEBITO_C, FCE_NOTA_CREDITO_C}
  }

  predicate IsCreditNote(voucherType: int) {
    voucherType in {
      NOTA_CREDITO_A, NOTA_CREDITO_B, NOTA_CREDITO_C, NOTA_CREDITO_M, NOTA_CREDITO_E,
      FCE_NOTA_CREDITO_A, FCE_NOTA_CREDITO_B, FCE_NOTA_CREDITO_C}
  }

  predicate DiscriminatesIva(voucherType: int) {
    VoucherLetter(voucherType) in {A, M}
  }

  predicate ReportsIvaToArca(voucherType: int) {
    voucherType in {
      FACTURA_A, NOTA_DEBITO_A, NOTA_CREDITO_A, FACTURA_B, NOTA_DEBITO_B, NOTA_CREDITO_B,
      FACTURA_M, NOTA_DEBITO_M, NOTA_CREDITO_M, FCE_FACTURA_A, FCE_NOTA_DEBITO_A, FCE_NOTA_CREDITO_A,
      FCE_FACTURA_B, FCE_NOTA_DEBITO_B, FCE_NOTA_CREDITO_B}
  }

  function CreditNoteTypeFor(voucherType: int): Option<int> {
    if voucherType in {FACTURA_A, NOTA_DEBITO_A} then Some(NOTA_CREDITO_A)
    else if voucherType in {FACTURA_B, NOTA_DEBITO_B} then Some(NOTA_CREDITO_B)
    else if voucherType in {FACTURA_C, NOTA_DEBITO_C} then Some(NOTA_CREDITO_C)
    else if voucherType in {FACTURA_M, NOTA_DEBITO_M} then Some(NOTA_CREDITO_M)
    else if voucherType in {FCE_FACTURA_A, FCE_NOTA_DEBITO_A} then Some(FCE_NOTA_CREDITO_A)
    else if voucherType in {FCE_FACTURA_B, FCE_NOTA_DEBITO_B} then Some(FCE_NOTA_CREDITO_B)
    else if voucherType in {FCE_FACTURA_C, FCE_NOTA_DEBITO_C} then Some(FCE_NOTA_CREDITO_C)
    else None
  }

  /** The voucher types whose IVA ARCA is told are exactly those whose IVA the books break down. */
  lemma ReportingTypesBearIva(voucherType: int)
    ensures ReportsIvaToArca(voucherType) <==> VoucherLetter(voucherType) in {A, B, M}
  {}

  /** "Nota de C..." and "Nota de D..." tell each other apart, and from the rest, by two letters ... */
  ghost predicate IsCalledNote(name: string, initial: char) {
    |name| > 8 && name[0] == 'N' && name[8] == initial
  }

  /** ... and so does "... MiPyME" before the type's letter. */
  ghost predicate IsCalledMiPyME(name: string) {
    |name| > 8 && name[|name| - 8] == 'M' && name[|name| - 6] == 'P'
  }

  /** The lists of types agree with the names: credit and debit notes are those called so, electronic credit
      invoices those named after MiPyME, and of the others those of letters A and M need the recipient's CUIT. */
  lemma ListsAgreeWithNames(voucherType: int)
    ensures var name := VoucherTypeName(voucherType);
            && (IsCreditNote(voucherType) <==> IsCalledNote(name, 'C'))
            && (IsCreditDebitNote(voucherType) <==> IsCalledNote(name, 'C') || IsCalledNote(name, 'D'))
            && (IsCreditInvoice(voucherType) <==> IsCalledMiPyME(name))
    ensures RequiresRecipientCuit(voucherType) <==>
              IsCreditInvoice(voucherType) || VoucherLetter(voucherType) in {A, M}
  {}

  /** A voucher's credit note is a credit note of the same letter and the same kind, and has none itself. */
  lemma CreditNoteMatchesItsVoucher(voucherType: int)
    requires CreditNoteTypeFor(voucherType).Some?
    ensures var note := CreditNoteTypeFor(voucherType).value;
            && IsCreditNote(note) && IsCreditDebitNote(note) && !IsCreditNote(voucherType)
            && CreditNoteTypeFor(note).None?
            && VoucherLetter(note) == VoucherLetter(voucherType)
            && (IsCreditInvoice(note) <==> IsCreditInvoice(voucherType))
            && (RequiresRecipientCuit(note) <==> RequiresRecipientCuit(voucherType))
            && (ReportsIvaToArca(note) <==> ReportsIvaToArca(voucherType))
  {}

  /** Every voucher with a name has one, but the credit notes and those for export. */
  lemma CreditNotesExistFor(voucherType: int)
    ensures CreditNoteTypeFor(voucherType).Some? <==>
              && VoucherTypeName(voucherType) != "" && VoucherLetter(voucherType) != E && !IsCreditNote(voucherType)
  {}
}
