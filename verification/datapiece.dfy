/** Field and terminator encoders: how one value of a command is wrapped according to
    its separator, and how a command's closing code is written. */
module DataPiece {
  import opened Wrappers
  import opened Errors
  import opened Numerals
  import opened Text

  /** The separator of a field. Go declares it as an open string type, so any text can
      appear; only the five constants below are understood. */
  type SeparatorType = string

  const SeparatorValue: SeparatorType := "H"
  const SeparatorDecimal: SeparatorType := "."
  const SeparatorMultiply: SeparatorType := "*"
  const SeparatorDescription: SeparatorType := "\""
  const SeparatorDescriptionDoubleHeight: SeparatorType := "~\""

  /** One value of a command and the separator that says how to wrap it. */
  datatype Data = Data(variable: string, separator: SeparatorType)

  /** Separators whose value must be an integer; the separator itself follows it. */
  predicate IsNumericSeparator(s: SeparatorType) {
    s == SeparatorValue || s == SeparatorMultiply
  }

  /** The condition under which a field can be encoded: integer text for Value and
      Multiply, text containing '.' for Decimal, anything for the two descriptions, and
      nothing for an unknown separator. */
  predicate WellFormed(d: Data) {
    if IsNumericSeparator(d.separator) then
      SignedDigits(d.variable) && Int64Min <= SignedValue(d.variable) <= Int64Max
    else if d.separator == SeparatorDecimal then
      '.' in d.variable
    else
      d.separator == SeparatorDescription || d.separator == SeparatorDescriptionDoubleHeight
  }

  /** Data.get: the wire form of one field. */
  function EncodeField(d: Data): (r: Result<string, Error>)
    ensures r.Success? <==> WellFormed(d)
    ensures IsNumericSeparator(d.separator) && r.Failure? ==> r.error == NotAnInteger(d.variable)
    ensures d.separator == SeparatorDecimal && r.Failure? ==> r.error == MissingDecimalPoint(d.variable)
    ensures !IsNumericSeparator(d.separator) && d.separator != SeparatorDecimal
            && d.separator != SeparatorDescription && d.separator != SeparatorDescriptionDoubleHeight
            ==> r == Failure(UnsupportedSeparator(d.separator))
    ensures r.Success? && IsNumericSeparator(d.separator) ==> r.value == d.variable + d.separator
    ensures r.Success? && d.separator == SeparatorDecimal ==> r.value == d.variable
    ensures d.separator == SeparatorDescription ==> r == Success("\"" + d.variable + "\"")
    ensures d.separator == SeparatorDescriptionDoubleHeight ==> r == Success("~\"" + d.variable + "\"")
  {
    if IsNumericSeparator(d.separator) then
      if Atoi(d.variable).Some? then Success(d.variable + d.separator)
      else Failure(NotAnInteger(d.variable))
    else if d.separator == SeparatorDecimal then
      if '.' in d.variable then Success(d.variable)
      else Failure(MissingDecimalPoint(d.variable))
    else if d.separator == SeparatorDescription then
      Success(d.separator + d.variable + d.separator)
    else if d.separator == SeparatorDescriptionDoubleHeight then
      Success(d.separator + d.variable + SeparatorDescription)
    else
      Failure(UnsupportedSeparator(d.separator))
  }

  /** Recovers a field's value from its wire form under a given separator: the inverse
      of `EncodeField`. */
  function Unwrap(sep: SeparatorType, wire: string): Option<string> {
    if IsNumericSeparator(sep) then
      if 1 <= |wire| && wire[|wire| - 1..] == sep then Some(wire[..|wire| - 1]) else None
    else if sep == SeparatorDecimal then
      Some(wire)
    else if sep == SeparatorDescription then
      if 2 <= |wire| && wire[0] == '"' && wire[|wire| - 1] == '"' then Some(wire[1..|wire| - 1]) else None
    else if sep == SeparatorDescriptionDoubleHeight then
      if 3 <= |wire| && wire[..2] == "~\"" && wire[|wire| - 1] == '"' then Some(wire[2..|wire| - 1]) else None
    else
      None
  }

  /** Unwrapping an encoded field gives back its value. */
  lemma UnwrapEncodeField(d: Data)
    requires EncodeField(d).Success?
    ensures Unwrap(d.separator, EncodeField(d).value) == Some(d.variable)
  {
    var w := EncodeField(d).value;
    if IsNumericSeparator(d.separator) {
      assert w[..|w| - 1] == d.variable;
      assert w[|w| - 1..] == d.separator;
    } else if d.separator == SeparatorDescription {
      assert w[1..|w| - 1] == d.variable;
    } else if d.separator == SeparatorDescriptionDoubleHeight {
      assert w[..2] == "~\"";
      assert w[2..|w| - 1] == d.variable;
    }
  }

  /** Conversely, wire text that unwraps to an encodable value is that value's encoding:
      a field's encoding is determined by, and determines, its value. */
  lemma EncodeFieldUnwrap(sep: SeparatorType, wire: string)
    requires Unwrap(sep, wire).Some?
    requires WellFormed(Data(Unwrap(sep, wire).value, sep))
    ensures EncodeField(Data(Unwrap(sep, wire).value, sep)) == Success(wire)
  {
    var v := Unwrap(sep, wire).value;
    if IsNumericSeparator(sep) {
      assert wire == wire[..|wire| - 1] + wire[|wire| - 1..];
    } else if sep == SeparatorDescription {
      assert wire == [wire[0]] + wire[1..|wire| - 1] + [wire[|wire| - 1]];
    } else if sep == SeparatorDescriptionDoubleHeight {
      assert wire == wire[..2] + wire[2..|wire| - 1] + [wire[|wire| - 1]];
    }
  }

  /** The closing code of a command. Go declares it as an open string type: the table
      below lists the codes the device documents, and custom payment codes are built
      at run time by `PaymentLight`. */
  type TerminatorType = string

  /** The closing part of a command: an optional value written before the code. */
  datatype Terminator = Terminator(variable: Option<string>, terminatorType: TerminatorType)

  /** Terminator.get: never fails; the value, if any, then the code. */
  function EncodeTerminator(t: Terminator): (r: string)
    ensures |t.terminatorType| <= |r| && r[|r| - |t.terminatorType|..] == t.terminatorType
    ensures t.variable.None? ==> r == t.terminatorType
    ensures t.variable.Some? ==> |r| == |t.variable.value| + |t.terminatorType|
                                 && r[..|t.variable.value|] == t.variable.value
  {
    match t.variable
    case Some(v) => v + t.terminatorType
    case None => t.terminatorType
  }

  /** GetTerminatorTypePaymentLight: a custom payment code is three characters followed
      by 'T'. */
  function PaymentLight(code: string): (r: Result<TerminatorType, Error>)
    ensures r.Success? <==> |code| == 3
    ensures r.Success? ==> |r.value| == 4 && r.value[..3] == code && EndsWith(r.value, 'T')
    ensures r.Failure? ==> r.error == BadPaymentCodeLength(code)
  {
    if |code| != 3 then Failure(BadPaymentCodeLength(code))
    else Success(code + "T")
  }

  const Sold: TerminatorType := "R"
  const DiscountDepartment: TerminatorType := "r"
  const SoldPLU: TerminatorType := "P"
  const Cancellation: TerminatorType := "0M"
  const DiscountPercentTransaction: TerminatorType := "1M"
  const DiscountPercentSubtotal: TerminatorType := "2M"
  const DiscountValueTransaction: TerminatorType := "3M"
  const DiscountValueSubtotal: TerminatorType := "4M"
  const IncreasePercentTransaction: TerminatorType := "5M"
  const IncreasePercentSubtotal: TerminatorType := "6M"
  const IncreaseValueTransaction: TerminatorType := "7M"
  const IncreaseValueSubtotal: TerminatorType := "8M"
  const Return: TerminatorType := "9M"  // deprecated on the device
  const CashIncome: TerminatorType := "10M"
  const CashOutflow: TerminatorType := "11M"
  const PaymentWithCredit: TerminatorType := "12M"  // same meaning as 4T
  const CashCreditRecovery: TerminatorType := "13M"
  const AdvancePayment: TerminatorType := "16M"
  const Gift: TerminatorType := "17M"
  const OneTimeCoupon: TerminatorType := "18M"
  const DirectInvoice: TerminatorType := "101M"
  const OpenCreditNote: TerminatorType := "102M"  // deprecated on the device
  const OpenReturnDocumentCommercial: TerminatorType := "104M"
  const OpenCancellationDocumentCommercial: TerminatorType := "105M"
  const OpenReturnDocumentPOS: TerminatorType := "106M"
  const OpenCancellationDocumentPOS: TerminatorType := "107M"
  const InvoiceCommercialDocument: TerminatorType := "111M"
  const CancelDocumentOrInvoice: TerminatorType := "k"
  const Subtotal: TerminatorType := "="
  const PaymentCash: TerminatorType := "1T"
  const PaymentCheck: TerminatorType := "2T"
  const PaymentCards: TerminatorType := "3T"
  const PaymentCredit: TerminatorType := "4T"
  const PaymentTicket: TerminatorType := "5T"
  const PaymentCash2: TerminatorType := "6T"  // same meaning as 1T
  const PaymentUncollectedAssets: TerminatorType := "7T"
  const PaymentTicket2: TerminatorType := "20T"  // same meaning as 5T
  const PaymentTicket3: TerminatorType := "21T"  // same meaning as 5T
  const PaymentTicket4: TerminatorType := "22T"  // same meaning as 5T
  const PaymentUncollectedServices: TerminatorType := "50T"
  const PaymentUncollectedInvoice: TerminatorType := "51T"
  const PaymentUncollectedSSN: TerminatorType := "52T"
  const PaymentDiscountGeneric: TerminatorType := "53T"
  const PaymentOneTimeCoupon: TerminatorType := "54T"
  const AdditionalDescription: TerminatorType := "@"
  const LotteryCode: TerminatorType := "@37F"  // no constructor emits it
  const InvoiceCustomerDetails: TerminatorType := "@38F"
  const PrintCustomerIdentifier: TerminatorType := "@39F"
  const PrintCourtesyMessage: TerminatorType := "@40F"
  const PrintTrailerAfterLogo: TerminatorType := "@41F"
  const PrintBarcodeEAN13: TerminatorType := "1Z"
  const PrintBarcodeEAN8: TerminatorType := "2Z"
  const PrintBarcodeCODE39: TerminatorType := "3Z"
  const PrintNotCalculated: TerminatorType := "#"
  const OpenCashRegister: TerminatorType := "a"
  const Clear: TerminatorType := "K"
  const SelectOperator: TerminatorType := "O"
  const LockKeyboard: TerminatorType := "y"
  const UnlockKeyboard: TerminatorType := "Y"
  const OpenManagementDocument: TerminatorType := "j"
  const PrintTextLine: TerminatorType := "@"
  const CloseManagementDocument: TerminatorType := "J"
  const ViewDescriptionOnDisplayFirstLine: TerminatorType := "1%"
  const ViewDescriptionOnDisplaySecondLine: TerminatorType := "2%"
  const FinancialReportNoZeroing: TerminatorType := "1f"
  const DepartmentReportNoZeroing: TerminatorType := "2f"
  const PLUReportNoZeroing: TerminatorType := "3f"
  const OperatorsReportNoZeroing: TerminatorType := "4f"
  const FinancialReportZeroing: TerminatorType := "1F"
  const DepartmentReportZeroing: TerminatorType := "2F"
  const PLUReportZeroing: TerminatorType := "3F"
  const OperatorsReportZeroing: TerminatorType := "4F"
  const FinancialReportAndFiscalClosureZeroing: TerminatorType := "8F"
  const ResetInvoiceNumber: TerminatorType := "9F"
  const PrintFiscalMemoryAll: TerminatorType := "1w"
  const PrintFiscalMemoryByDate: TerminatorType := "2w"
  const PrintFiscalMemoryByClosureNumber: TerminatorType := "3w"
  const PrintDetailsMemoryAll: TerminatorType := "4w"
  const PrintDetailsMemoryByDate: TerminatorType := "5w"
  const PrintDetailsMemoryByClosureNumber: TerminatorType := "6w"
  const SetDateTime: TerminatorType := "D"
  const DisableXonXoff: TerminatorType := "E"
  const DisableXonXoff2: TerminatorType := "1492E"
}
