/** Commands: an ordered list of fields closed by one terminator, and the catalog of
    constructors that fix each instruction's field layout, defaults, widths and
    length checks. */
module Commands {
  import opened Wrappers
  import opened Errors
  import opened Numerals
  import opened Text
  import opened Calendar
  import opened DataPiece

  /** CommandGeneric (NewCommandGeneric builds one from its two parts). The typed Go
      wrappers around it only keep their constructor arguments, which nothing reads
      back, so every command is this one shape. */
  datatype Command = Command(data: seq<Data>, terminator: Terminator)

  /** Joins encodings left to right: the first failure is the result, and otherwise
      the texts are concatenated in order. */
  function Join(rs: seq<Result<string, Error>>): (r: Result<string, Error>)
    ensures r.Success? <==> forall i | 0 <= i < |rs| :: rs[i].Success?
  {
    if |rs| == 0 then Success("")
    else
      match Join(rs[..|rs| - 1])
      case Failure(e) => Failure(e)
      case Success(prefix) =>
        match rs[|rs| - 1]
        case Failure(e) => Failure(e)
        case Success(last) => Success(prefix + last)
  }

  /** Joining two lists one after the other: the first list's error wins, then the
      second's, and otherwise the two texts are concatenated. */
  lemma {:induction false} JoinConcat(a: seq<Result<string, Error>>, b: seq<Result<string, Error>>)
    ensures Join(a + b) ==
      if Join(a).Failure? then Join(a)
      else if Join(b).Failure? then Join(b)
      else Success(Join(a).value + Join(b).value)
    decreases |b|
  {
    if |b| == 0 {
      assert a + b == a;
      if Join(a).Success? {
        assert Join(a).value + "" == Join(a).value;
      }
    } else {
      var ab := a + b;
      var front := b[..|b| - 1];
      assert ab[..|ab| - 1] == a + front;
      assert ab[|ab| - 1] == b[|b| - 1];
      JoinConcat(a, front);
      var ra, rf := Join(a), Join(front);
      if ra.Success? && rf.Success? && b[|b| - 1].Success? {
        var rl := b[|b| - 1].value;
        assert (ra.value + rf.value) + rl == ra.value + (rf.value + rl);
      }
    }
  }

  /** A single encoding joins to itself. */
  lemma JoinOne(r: Result<string, Error>)
    ensures Join([r]) == r
  {
    assert [r][..0] == [];
    if r.Success? {
      assert "" + r.value == r.value;
    }
  }

  /** The encoding of each field, in order. */
  function Encodings(data: seq<Data>): (rs: seq<Result<string, Error>>)
    ensures |rs| == |data|
    ensures forall i | 0 <= i < |data| :: rs[i] == EncodeField(data[i])
  {
    seq(|data|, i requires 0 <= i < |data| => EncodeField(data[i]))
  }

  /** The fields encoded left to right and joined; the first field that cannot be
      encoded stops everything and its error is the result. */
  function EncodeFields(data: seq<Data>): (r: Result<string, Error>)
    ensures r.Success? <==> forall i | 0 <= i < |data| :: WellFormed(data[i])
  {
    Join(Encodings(data))
  }

  /** CommandGeneric.get, as a definition: all fields, then the terminator. */
  function Serialize(c: Command): (r: Result<string, Error>)
    ensures r.Success? <==> forall i | 0 <= i < |c.data| :: WellFormed(c.data[i])
    ensures r.Success? ==> (|EncodeTerminator(c.terminator)| <= |r.value|
      && r.value[|r.value| - |EncodeTerminator(c.terminator)|..] == EncodeTerminator(c.terminator))
  {
    var fields :- EncodeFields(c.data);
    Success(fields + EncodeTerminator(c.terminator))
  }

  /** Encoding two field lists one after the other: the first list's error wins, then
      the second's, and otherwise the two encodings are joined. */
  lemma EncodeFieldsConcat(a: seq<Data>, b: seq<Data>)
    ensures EncodeFields(a + b) ==
      if EncodeFields(a).Failure? then EncodeFields(a)
      else if EncodeFields(b).Failure? then Failure(EncodeFields(b).error)
      else Success(EncodeFields(a).value + EncodeFields(b).value)
  {
    assert Encodings(a + b) == Encodings(a) + Encodings(b);
    JoinConcat(Encodings(a), Encodings(b));
  }

  /** A single field encodes as that field. */
  lemma EncodeOneField(d: Data)
    ensures EncodeFields([d]) == EncodeField(d)
  {
    assert Encodings([d]) == [EncodeField(d)];
    JoinOne(EncodeField(d));
  }

  /** The error reported is the one of the first field that cannot be encoded. */
  lemma FirstFailureReported(data: seq<Data>, i: nat)
    requires i < |data| && !WellFormed(data[i])
    requires forall j | 0 <= j < i :: WellFormed(data[j])
    ensures EncodeFields(data) == Failure(EncodeField(data[i]).error)
  {
    assert data == data[..i] + [data[i]] + data[i + 1..];
    EncodeOneField(data[i]);
    EncodeFieldsConcat(data[..i], [data[i]]);
    EncodeFieldsConcat(data[..i] + [data[i]], data[i + 1..]);
  }

  /** Encoding one more field: the first i + 1 fields fail with the first i fields'
      error, else with field i's, and otherwise encode to the first i fields' text
      followed by field i's. */
  lemma EncodeFieldsSnoc(data: seq<Data>, i: nat)
    requires i < |data|
    ensures EncodeFields(data[..i + 1]) ==
      if EncodeFields(data[..i]).Failure? then EncodeFields(data[..i])
      else if EncodeField(data[i]).Failure? then Failure(EncodeField(data[i]).error)
      else Success(EncodeFields(data[..i]).value + EncodeField(data[i]).value)
  {
    assert data[..i + 1] == data[..i] + [data[i]];
    EncodeOneField(data[i]);
    EncodeFieldsConcat(data[..i], [data[i]]);
  }

  /** CommandGeneric.get as the source writes it: a loop that appends each field's
      encoding and returns the first error without partial output. */
  method Get(c: Command) returns (r: Result<string, Error>)
    ensures r == Serialize(c)
  {
    var command := "";
    var i := 0;
    while i < |c.data|
      invariant 0 <= i <= |c.data|
      invariant EncodeFields(c.data[..i]) == Success(command)
    {
      var s := EncodeField(c.data[i]);
      if s.Failure? {
        FirstFailureReported(c.data, i);
        return Failure(s.error);
      }
      EncodeFieldsSnoc(c.data, i);
      command := command + s.value;
      i := i + 1;
    }
    assert c.data[..i] == c.data;
    r := Success(command + EncodeTerminator(c.terminator));
  }

  /** The one-field command `"text"` closed by a bare code. */
  function DescriptionCommand(text: string, code: TerminatorType): (c: Command)
    ensures Serialize(c) == Success("\"" + text + "\"" + code)
  {
    EncodeOneField(Data(text, SeparatorDescription));
    Command([Data(text, SeparatorDescription)], Terminator(None, code))
  }

  const ProductDescriptionWidth: nat := 38
  const DefaultDepartment: string := "1"

  /** NewCommandProduct: the description cut to 38 characters, the quantity, the unit
      price (left out when 0), each only when given, then the department (default
      "1") before the Sold code. */
  function Product(unitPrice: Int64, product: Option<string>, quantity: Option<Int64>,
                   department: Option<Int64>): (c: Command)
    ensures c.terminator.terminatorType == Sold
    ensures |c.data| == (if product.Some? then 1 else 0) + (if quantity.Some? then 1 else 0)
                        + (if unitPrice != 0 then 1 else 0)
  {
    var description := if product.Some? then [Data(Truncate(product.value, ProductDescriptionWidth), SeparatorDescription)] else [];
    var times := if quantity.Some? then [Data(Itoa(quantity.value), SeparatorMultiply)] else [];
    var price := if unitPrice != 0 then [Data(Itoa(unitPrice), SeparatorValue)] else [];
    var dept := if department.Some? then Itoa(department.value) else DefaultDepartment;
    Command(description + times + price, Terminator(Some(dept), Sold))
  }

  /** An integer printed by Itoa always makes a valid numeric field. */
  lemma NumericFieldOfInt(n: Int64, sep: SeparatorType)
    requires IsNumericSeparator(sep)
    ensures EncodeFields([Data(Itoa(n), sep)]) == Success(Itoa(n) + sep)
  {
    AtoiItoa(n);
    EncodeOneField(Data(Itoa(n), sep));
  }

  /** A field that is present or absent: one encoding or none. */
  lemma OptionalField(present: bool, d: Data, text: string)
    requires present ==> EncodeField(d) == Success(text)
    ensures EncodeFields(if present then [d] else []) == Success(if present then text else "")
  {
    if present {
      EncodeOneField(d);
    } else {
      assert Encodings([]) == [];
    }
  }

  /** Three field lists that each encode, encode one after the other. */
  lemma ThreeParts(x: seq<Data>, y: seq<Data>, z: seq<Data>, sx: string, sy: string, sz: string)
    requires EncodeFields(x) == Success(sx)
    requires EncodeFields(y) == Success(sy)
    requires EncodeFields(z) == Success(sz)
    ensures EncodeFields(x + y + z) == Success(sx + sy + sz)
  {
    EncodeFieldsConcat(x, y);
    EncodeFieldsConcat(x + y, z);
  }

  /** String concatenation is associative. */
  lemma AppendAssoc(a: string, b: string, c: string)
    ensures a + b + c == a + (b + c)
  {
  }

  /** The wire text of a product: it never fails, and is the quoted (cut) description,
      the quantity with '*', the price with 'H', the department and 'R', each part
      present exactly when its input is. */
  lemma ProductWire(unitPrice: Int64, product: Option<string>, quantity: Option<Int64>,
                    department: Option<Int64>)
    ensures Serialize(Product(unitPrice, product, quantity, department)) == Success(
      (if product.Some? then "\"" + Truncate(product.value, ProductDescriptionWidth) + "\"" else "")
      + (if quantity.Some? then Itoa(quantity.value) + "*" else "")
      + (if unitPrice != 0 then Itoa(unitPrice) + "H" else "")
      + (if department.Some? then Itoa(department.value) else "1") + "R")
  {
    var name := if product.Some? then Truncate(product.value, ProductDescriptionWidth) else "";
    var count := if quantity.Some? then quantity.value else 0;
    var description := Data(name, SeparatorDescription);
    var times := Data(Itoa(count), SeparatorMultiply);
    var price := Data(Itoa(unitPrice), SeparatorValue);
    AtoiItoa(count);
    AtoiItoa(unitPrice);
    OptionalField(product.Some?, description, "\"" + name + "\"");
    OptionalField(quantity.Some?, times, Itoa(count) + "*");
    OptionalField(unitPrice != 0, price, Itoa(unitPrice) + "H");
    var d := if product.Some? then "\"" + name + "\"" else "";
    var t := if quantity.Some? then Itoa(count) + "*" else "";
    var p := if unitPrice != 0 then Itoa(unitPrice) + "H" else "";
    ThreeParts(if product.Some? then [description] else [], if quantity.Some? then [times] else [],
               if unitPrice != 0 then [price] else [], d, t, p);
    var c := Product(unitPrice, product, quantity, department);
    var dept := if department.Some? then Itoa(department.value) else "1";
    assert EncodeTerminator(c.terminator) == dept + "R";
    AppendAssoc(d + t + p, dept, "R");
  }

  /** With no description, quantity or department, a product prints its price (when
      not 0) and the default department: `750H1R` for a price of 750. */
  lemma ProductDefaults(unitPrice: Int64)
    ensures Serialize(Product(unitPrice, None, None, None)) ==
      Success((if unitPrice != 0 then Itoa(unitPrice) + "H" else "") + "1R")
  {
    ProductWire(unitPrice, None, None, None);
    DefaultsText(if unitPrice != 0 then Itoa(unitPrice) + "H" else "");
  }

  /** Empty parts vanish from a concatenation, and "1" followed by "R" is "1R". */
  lemma DefaultsText(p: string)
    ensures "" + "" + p + "1" + "R" == p + "1R"
  {
  }

  const TrailerMinWidth: nat := 39
  const TrailerMaxWidth: nat := 46

  /** NewCommandTrailer: one description forced to a width between 39 and 46, closed
      by the courtesy-message code. */
  function Trailer(trailer: string): (c: Command)
    ensures Serialize(c) ==
      Success("\"" + ClampWidth(trailer, TrailerMinWidth, TrailerMaxWidth) + "\"" + PrintCourtesyMessage)
  {
    DescriptionCommand(ClampWidth(trailer, TrailerMinWidth, TrailerMaxWidth), PrintCourtesyMessage)
  }

  /** NewCommandPayment: only codes ending in 'T' are payment methods; the amount
      (with 'H') and the quoted description follow when given, and the method's code
      closes the command. */
  function Payment(paymentMethod: TerminatorType, amount: Option<Int64>,
                   paymentMethodDescription: Option<string>): (r: Result<Command, Error>)
    ensures r.Success? <==> EndsWith(paymentMethod, 'T')
    ensures r.Failure? ==> r.error == NotAPaymentMethod(paymentMethod)
    ensures r.Success? ==> r.value.terminator == Terminator(None, paymentMethod)
  {
    if !EndsWith(paymentMethod, 'T') then Failure(NotAPaymentMethod(paymentMethod))
    else
      var value := if amount.Some? then [Data(Itoa(amount.value), SeparatorValue)] else [];
      var description := if paymentMethodDescription.Some? then [Data(paymentMethodDescription.value, SeparatorDescription)] else [];
      Success(Command(value + description, Terminator(None, paymentMethod)))
  }

  /** The wire text of an accepted payment: amount and 'H', quoted description, code. */
  lemma PaymentWire(paymentMethod: TerminatorType, amount: Option<Int64>,
                    paymentMethodDescription: Option<string>)
    requires EndsWith(paymentMethod, 'T')
    ensures Serialize(Payment(paymentMethod, amount, paymentMethodDescription).value) == Success(
      (if amount.Some? then Itoa(amount.value) + "H" else "")
      + (if paymentMethodDescription.Some? then "\"" + paymentMethodDescription.value + "\"" else "")
      + paymentMethod)
  {
    var value := if amount.Some? then [Data(Itoa(amount.value), SeparatorValue)] else [];
    var description := if paymentMethodDescription.Some? then [Data(paymentMethodDescription.value, SeparatorDescription)] else [];
    if amount.Some? {
      NumericFieldOfInt(amount.value, SeparatorValue);
    }
    if paymentMethodDescription.Some? {
      EncodeOneField(Data(paymentMethodDescription.value, SeparatorDescription));
    }
    EncodeFieldsConcat(value, description);
  }

  /** Every custom payment code built by GetTerminatorTypePaymentLight is accepted as a
      payment method. */
  lemma PaymentLightIsPayment(code: string, amount: Option<Int64>, description: Option<string>)
    requires PaymentLight(code).Success?
    ensures Payment(PaymentLight(code).value, amount, description).Success?
  {
  }

  /** NewCommandCustomerIdentifier: a tax code (16), VAT number (11) or lottery code (8),
      quoted and closed by @39F; any other length is refused. */
  function CustomerIdentifier(customerIdentifier: string): (r: Result<Command, Error>)
    ensures r.Success? <==> |customerIdentifier| in {16, 11, 8}
    ensures r.Failure? ==> r.error == BadCustomerIdentifierLength(|customerIdentifier|)
    ensures r.Success? ==>
      Serialize(r.value) == Success("\"" + customerIdentifier + "\"" + PrintCustomerIdentifier)
  {
    if |customerIdentifier| != 16 && |customerIdentifier| != 11 && |customerIdentifier| != 8 then
      Failure(BadCustomerIdentifierLength(|customerIdentifier|))
    else
      Success(DescriptionCommand(customerIdentifier, PrintCustomerIdentifier))
  }

  /** NewCommandGeneric with no fields: the command is its code alone. */
  function BareCommand(code: TerminatorType): (c: Command)
    ensures Serialize(c) == Success(code)
  {
    assert Encodings([]) == [];
    assert "" + code == code;
    Command([], Terminator(None, code))
  }

  /** NewCommandDiscountPercentage, taking the percentage in hundredths: one Decimal
      field closed by 1M. */
  function DiscountPercentage(hundredths: Int64): (c: Command)
    ensures c.terminator == Terminator(None, DiscountPercentTransaction)
    ensures |c.data| == 1 && c.data[0].separator == SeparatorDecimal
  {
    Command([Data(TwoDecimals(hundredths), SeparatorDecimal)], Terminator(None, DiscountPercentTransaction))
  }

  /** A percentage discount never fails: the two-decimal text then 1M, with no 'H'. */
  lemma DiscountPercentageWire(hundredths: Int64)
    ensures Serialize(DiscountPercentage(hundredths)) == Success(TwoDecimals(hundredths) + "1M")
  {
    var s := TwoDecimals(hundredths);
    TwoDecimalsHasPoint(hundredths);
    EncodeOneField(Data(s, SeparatorDecimal));
    AppendAssoc(s, "", "1M");
  }

  /** NewCommandDiscountAmount: one Value field closed by 3M. */
  function DiscountAmount(discountAmount: Int64): (c: Command)
    ensures c.terminator == Terminator(None, DiscountValueTransaction)
    ensures |c.data| == 1 && c.data[0].separator == SeparatorValue
  {
    Command([Data(Itoa(discountAmount), SeparatorValue)], Terminator(None, DiscountValueTransaction))
  }

  /** An amount discount never fails: Itoa of the amount, then H3M. */
  lemma DiscountAmountWire(discountAmount: Int64)
    ensures Serialize(DiscountAmount(discountAmount)) == Success(Itoa(discountAmount) + "H3M")
  {
    NumericFieldOfInt(discountAmount, SeparatorValue);
    assert Itoa(discountAmount) + "H" + "3M" == Itoa(discountAmount) + "H3M";
  }

  /** NewCommandBarcode: 13 characters print as EAN13 (1Z), 8 as EAN8 (2Z), and any
      other length is refused. */
  function Barcode(barcode: string): (r: Result<Command, Error>)
    ensures r.Success? <==> |barcode| == 13 || |barcode| == 8
    ensures r.Failure? ==> r.error == BadBarcodeLength(|barcode|)
    ensures |barcode| == 13 ==> Serialize(r.value) == Success("\"" + barcode + "\"" + PrintBarcodeEAN13)
    ensures |barcode| == 8 ==> Serialize(r.value) == Success("\"" + barcode + "\"" + PrintBarcodeEAN8)
  {
    if |barcode| == 13 then Success(DescriptionCommand(barcode, PrintBarcodeEAN13))
    else if |barcode| == 8 then Success(DescriptionCommand(barcode, PrintBarcodeEAN8))
    else Failure(BadBarcodeLength(|barcode|))
  }

  /** NewCommandOpenDocumentCommercialReturn: the document identifier, quoted, then 104M. */
  function OpenCommercialReturn(id: string): (c: Command)
    ensures Serialize(c) == Success("\"" + id + "\"" + OpenReturnDocumentCommercial)
  {
    DescriptionCommand(id, OpenReturnDocumentCommercial)
  }

  /** NewCommandOpenDocumentCommercialCancellation: the identifier, quoted, then 105M. */
  function OpenCommercialCancellation(id: string): (c: Command)
    ensures Serialize(c) == Success("\"" + id + "\"" + OpenCancellationDocumentCommercial)
  {
    DescriptionCommand(id, OpenCancellationDocumentCommercial)
  }

  /** The description of a POS document: the date as MM-DD-YY, then "/POS". */
  function PosReference(date: Date): string {
    MonthDayYear(date) + "/POS"
  }

  /** The POS reference is the MM-DD-YY date followed by "/POS": twelve characters
      whose first eight read back as the month, the day and the short year. */
  lemma PosReferenceFields(date: Date)
    ensures var s := PosReference(date);
      && |s| == 12 && s[8..] == "/POS"
      && DateText(s[..8], date.month, date.day, ShortYear(date.year))
  {
    var m := MonthDayYear(date);
    MonthDayYearFields(date);
    assert (m + "/POS")[..8] == m;
    assert (m + "/POS")[8..] == "/POS";
  }

  /** NewCommandOpenDocumentPOSReturn: the POS reference, quoted, then 106M. */
  function OpenPosReturn(date: Date): (c: Command)
    ensures Serialize(c) == Success("\"" + PosReference(date) + "\"" + OpenReturnDocumentPOS)
  {
    DescriptionCommand(PosReference(date), OpenReturnDocumentPOS)
  }

  /** NewCommandOpenDocumentPOSCancellation: the POS reference, quoted, then 107M. */
  function OpenPosCancellation(date: Date): (c: Command)
    ensures Serialize(c) == Success("\"" + PosReference(date) + "\"" + OpenCancellationDocumentPOS)
  {
    DescriptionCommand(PosReference(date), OpenCancellationDocumentPOS)
  }

  /** The invoice number field: always five digits, the number itself when it is in
      1..99999 and 00000 (numbering left to the printer) otherwise. */
  function InvoiceNumberText(invoiceNumber: Option<Int64>): (s: string)
    ensures |s| == 5 && AllDigits(s)
    ensures DigitsValue(s) == if invoiceNumber.Some? && 0 < invoiceNumber.value < 100000
                              then invoiceNumber.value else 0
  {
    if invoiceNumber.Some? && 0 < invoiceNumber.value < 100000 then
      assert Pow10(5) == 100000;
      FixedWidth(invoiceNumber.value, 5);
      ZeroPad(Itoa(invoiceNumber.value), 5)
    else
      ZerosValue(5);
      assert Repeat('0', 5) == "00000";
      "00000"
  }

  /** NewCommandOpenInvoice: the invoice number field, quoted, then 101M. */
  function OpenInvoice(invoiceNumber: Option<Int64>): (c: Command)
    ensures Serialize(c) == Success("\"" + InvoiceNumberText(invoiceNumber) + "\"" + DirectInvoice)
  {
    DescriptionCommand(InvoiceNumberText(invoiceNumber), DirectInvoice)
  }

  /** NewCommandOpenInvoiceCommercialDocument: the same field, then 111M. */
  function OpenInvoiceCommercialDocument(invoiceNumber: Option<Int64>): (c: Command)
    ensures Serialize(c) == Success("\"" + InvoiceNumberText(invoiceNumber) + "\"" + InvoiceCommercialDocument)
  {
    DescriptionCommand(InvoiceNumberText(invoiceNumber), InvoiceCommercialDocument)
  }

  const InvoiceDetailsMinWidth: nat := 40
  const InvoiceDetailsMaxWidth: nat := 46

  /** NewCommandInvoiceDetails: one description forced to a width between 40 and 46,
      then @38F. */
  function InvoiceDetails(details: string): (c: Command)
    ensures Serialize(c) ==
      Success("\"" + ClampWidth(details, InvoiceDetailsMinWidth, InvoiceDetailsMaxWidth) + "\"" + InvoiceCustomerDetails)
  {
    DescriptionCommand(ClampWidth(details, InvoiceDetailsMinWidth, InvoiceDetailsMaxWidth), InvoiceCustomerDetails)
  }

  /** NewCommandDisplayMessage: the quoted message, then 2% for a line above 1 and 1%
      for any other line number. */
  function DisplayMessage(message: string, line: int): (c: Command)
    ensures line > 1 ==> Serialize(c) == Success("\"" + message + "\"" + ViewDescriptionOnDisplaySecondLine)
    ensures line <= 1 ==> Serialize(c) == Success("\"" + message + "\"" + ViewDescriptionOnDisplayFirstLine)
  {
    var lineTerminator := if line > 1 then ViewDescriptionOnDisplaySecondLine else ViewDescriptionOnDisplayFirstLine;
    DescriptionCommand(message, lineTerminator)
  }
}
