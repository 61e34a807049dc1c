/** Documents: the ordered command lists the printer receives for a receipt, a
    management (non-fiscal) print, a return or cancellation, or an invoice, and the
    identifier that names an earlier receipt. */
module Documents {
  import opened Wrappers
  import opened Errors
  import opened Numerals
  import opened Text
  import opened Calendar
  import opened DataPiece
  import opened Commands

  /** A document and the commands it prints, in order (DocumentGeneric.get). A
      commercial document with invoice also keeps the receipt it refers to, which is
      not part of what it prints. */
  datatype Document =
    | Generic(commands: seq<Command>)
    | WithInvoice(commands: seq<Command>, commercialDocument: Document)

  /** The command list of an optional command: empty when it is not given. */
  function Given(o: Option<Command>): seq<Command> {
    if o.Some? then [o.value] else []
  }

  /** The commands that are given, in order; the ones not given are skipped. */
  function Present(opts: seq<Option<Command>>): (cs: seq<Command>)
    ensures |cs| <= |opts|
    ensures forall i | 0 <= i < |opts| && opts[i].Some? :: opts[i].value in cs
    ensures forall c | c in cs :: Some(c) in opts
  {
    if |opts| == 0 then []
    else
      var rest := Present(opts[1..]);
      assert forall c | c in rest :: Some(c) in opts[1..];
      if opts[0].Some? then [opts[0].value] + rest else rest
  }

  /** Skipping absent commands one option at a time is the same as skipping them from
      the whole list. */
  lemma {:induction false} PresentConcat(a: seq<Option<Command>>, b: seq<Option<Command>>)
    ensures Present(a + b) == Present(a) + Present(b)
    decreases |a|
  {
    if |a| == 0 {
      assert a + b == b;
    } else {
      assert (a + b)[1..] == a[1..] + b;
      PresentConcat(a[1..], b);
    }
  }

  /** A single option contributes its command when given and nothing otherwise. */
  lemma PresentOne(o: Option<Command>)
    ensures Present([o]) == Given(o)
  {
    assert [o][1..] == [];
  }

  /** The four optional commands of a receipt, one at a time. */
  lemma PresentFour(a: Option<Command>, b: Option<Command>, c: Option<Command>, d: Option<Command>)
    ensures Present([a, b, c, d]) == Given(a) + Given(b) + Given(c) + Given(d)
  {
    PresentOne(a);
    PresentOne(b);
    PresentOne(c);
    PresentOne(d);
    assert [a, b, c, d] == [a] + [b] + [c] + [d];
    PresentConcat([a], [b]);
    PresentConcat([a] + [b], [c]);
    PresentConcat([a] + [b] + [c], [d]);
  }

  /** Where the three parts of a concatenation end up. */
  lemma ThreeSlices<T>(x: seq<T>, y: seq<T>, z: seq<T>)
    ensures var s := x + y + z;
      && s[..|x|] == x && s[|x|..|x| + |y|] == y && s[|x| + |y|..] == z
  {
    var s := x + y + z;
    assert s[..|x|] == x;
    assert s[|x|..|x| + |y|] == y;
    assert s[|x| + |y|..] == z;
  }

  /** Where the groups of an invoice end up: a list, one element, two more lists. */
  lemma GroupSlices<T>(w: seq<T>, x: T, y: seq<T>, z: seq<T>)
    ensures var s := w + [x] + y + z;
      && |s| == |w| + 1 + |y| + |z| && s[..|w|] == w && s[|w|] == x
      && s[|w| + 1..|w| + 1 + |y|] == y && s[|w| + 1 + |y|..] == z
  {
    var s := w + [x] + y + z;
    assert s[..|w|] == w;
    assert s[|w| + 1..|w| + 1 + |y|] == y;
    assert s[|w| + 1 + |y|..] == z;
  }

  // ---------------------------------------------------------------------------
  // Document identifier

  const UnknownNumber: string := "9999"
  const UnknownDate: string := "30-01-20"

  /** A closure or document number as the identifier prints it: %04d when it is in
      1..9999, and 9999 for anything else. */
  function NumberField(n: int): (s: string)
    ensures |s| == 4
    ensures DigitsOf(s, if 0 < n < 10000 then n else 9999)
  {
    if 0 < n < 10000 then
      assert Pow10(4) == 10000;
      FixedWidth(n, 4);
      ZeroPad(Itoa(n), 4)
    else
      assert "9999"[..3] == "999" && "999"[..2] == "99" && "99"[..1] == "9" && "9"[..0] == "";
      UnknownNumber
  }

  /** The identifier's date: DD-MM-YY for a positive year, and the fixed 30-01-20
      otherwise. */
  function DateField(date: Date): (s: string)
    ensures date.year > 0 ==> DateText(s, date.day, date.month, ShortYear(date.year))
    ensures date.year <= 0 ==> s == UnknownDate && DateText(s, 30, 1, 20)
  {
    if date.year > 0 then
      DayMonthYearFields(date);
      DayMonthYear(date)
    else
      var s := UnknownDate;
      assert s[0..2] == "30" && s[3..5] == "01" && s[6..8] == "20";
      assert "30"[..1] == "3" && "01"[..1] == "0" && "20"[..1] == "2";
      assert "3"[..0] == "" && "0"[..0] == "" && "2"[..0] == "";
      s
  }

  /** The tail that names the printer: '-' and the serial number, when one is given. */
  function SerialSuffix(printerSerialNumber: Option<string>): string {
    if printerSerialNumber.Some? then "-" + printerSerialNumber.value else ""
  }

  /** Where the parts of an identifier end up. */
  lemma IdentifierSlices(a: string, b: string, date: string, tail: string)
    requires |a| == 4 && |b| == 4 && |date| == 8
    ensures var id := a + "-" + b + "-" + date + tail;
      && |id| == 18 + |tail| && id[4] == '-' && id[9] == '-'
      && id[0..4] == a && id[5..9] == b && id[10..18] == date && id[18..] == tail
  {
    var id := a + "-" + b + "-" + date + tail;
    assert id[0..4] == a;
    assert id[5..9] == b;
    assert id[10..18] == date;
    assert id[18..] == tail;
  }

  /** NewDocumentId: closure number, '-', document number, '-', date, then the
      optional serial. Both numbers are four digits that read back as the number when
      it is in 1..9999 and as 9999 otherwise; the date reads back as the day, the month
      and the short year, or is 30-01-20 for a year that is not positive. */
  function NewDocumentId(dailyClosureNumber: int, documentNumber: int, documentDate: Date,
                         printerSerialNumber: Option<string>): (id: string)
    ensures |id| == 18 + |SerialSuffix(printerSerialNumber)|
    ensures id[4] == '-' && id[9] == '-'
    ensures DigitsOf(id[0..4], if 0 < dailyClosureNumber < 10000 then dailyClosureNumber else 9999)
    ensures DigitsOf(id[5..9], if 0 < documentNumber < 10000 then documentNumber else 9999)
    ensures documentDate.year > 0 ==>
      DateText(id[10..18], documentDate.day, documentDate.month, ShortYear(documentDate.year))
    ensures documentDate.year <= 0 ==> id[10..18] == UnknownDate
    ensures printerSerialNumber.None? ==> |id| == 18
    ensures printerSerialNumber.Some? ==> id[18] == '-' && id[19..] == printerSerialNumber.value
  {
    var a, b := NumberField(dailyClosureNumber), NumberField(documentNumber);
    var date, tail := DateField(documentDate), SerialSuffix(printerSerialNumber);
    IdentifierSlices(a, b, date, tail);
    var id := a + "-" + b + "-" + date + tail;
    assert printerSerialNumber.Some? ==> id[19..] == tail[1..];
    id
  }

  // ---------------------------------------------------------------------------
  // Document constructors

  /** NewDocumentCommercial: the products, then the discount amount, the discount
      percentage, the customer identifier and the trailer when each is given, then the
      payments. */
  function Commercial(products: seq<Command>, payments: seq<Command>,
                      discountAmount: Option<Command>, discountPercentage: Option<Command>,
                      customerIdentifier: Option<Command>, trailer: Option<Command>): (d: Document)
    ensures d.Generic?
    ensures var given := Present([discountAmount, discountPercentage, customerIdentifier, trailer]);
      && |d.commands| == |products| + |given| + |payments|
      && d.commands[..|products|] == products
      && d.commands[|products|..|products| + |given|] == given
      && d.commands[|products| + |given|..] == payments
  {
    var middle := Given(discountAmount) + Given(discountPercentage) + Given(customerIdentifier) + Given(trailer);
    PresentFour(discountAmount, discountPercentage, customerIdentifier, trailer);
    var commands := products + middle + payments;
    ThreeSlices(products, middle, payments);
    Generic(commands)
  }

  const ManagementRowWidth: nat := 46

  /** One row of a management document: the text cut to 46 characters, as an
      additional-description line. */
  function ManagementRow(row: string): (c: Command)
    ensures Serialize(c) == Success("\"" + Truncate(row, ManagementRowWidth) + "\"" + AdditionalDescription)
  {
    DescriptionCommand(Truncate(row, ManagementRowWidth), AdditionalDescription)
  }

  /** The rows of a management document, one command each. */
  function ManagementRows(rows: seq<string>): (cs: seq<Command>)
    ensures |cs| == |rows|
    ensures forall i | 0 <= i < |rows| ::
      Serialize(cs[i]) == Success("\"" + Truncate(rows[i], ManagementRowWidth) + "\"" + AdditionalDescription)
  {
    seq(|rows|, i requires 0 <= i < |rows| => ManagementRow(rows[i]))
  }

  /** NewDocumentManagement: the opening code j, one line per row, and the closing
      code J. */
  function Management(rows: seq<string>): (d: Document)
    ensures d.Generic? && |d.commands| == |rows| + 2
    ensures Serialize(d.commands[0]) == Success(OpenManagementDocument)
    ensures Serialize(d.commands[|rows| + 1]) == Success(CloseManagementDocument)
    ensures d.commands[1..|rows| + 1] == ManagementRows(rows)
  {
    var lines := ManagementRows(rows);
    var commands := [BareCommand(OpenManagementDocument)] + lines + [BareCommand(CloseManagementDocument)];
    ThreeSlices([BareCommand(OpenManagementDocument)], lines, [BareCommand(CloseManagementDocument)]);
    Generic(commands)
  }

  /** Row i of a management document prints as the row cut to 46 characters, quoted,
      then the additional-description code. */
  lemma ManagementRowWire(rows: seq<string>, i: nat)
    requires i < |rows|
    ensures Serialize(Management(rows).commands[i + 1]) ==
      Success("\"" + Truncate(rows[i], ManagementRowWidth) + "\"" + AdditionalDescription)
  {
    var d := Management(rows);
    assert d.commands[i + 1] == d.commands[1..|rows| + 1][i];
  }

  /** The shape shared by the return and cancellation documents: the opening command,
      then the product and the payment, each when given. */
  function OpenedDocument(open: Command, product: Option<Command>, payment: Option<Command>): (d: Document)
    ensures d.Generic? && 1 <= |d.commands| <= 3
    ensures d.commands[0] == open
    ensures d.commands[1..] == Present([product, payment])
  {
    PresentOne(product);
    PresentOne(payment);
    PresentConcat([product], [payment]);
    assert [product] + [payment] == [product, payment];
    var commands := [open] + Given(product) + Given(payment);
    assert commands[1..] == Given(product) + Given(payment);
    Generic(commands)
  }

  /** NewDocumentCommercialReturn, given the identifier of the returned receipt: the
      104M opening, then the product and the payment when given. */
  function CommercialReturn(id: string, product: Option<Command>, payment: Option<Command>): (d: Document)
    ensures d.Generic? && 1 <= |d.commands| <= 3
    ensures Serialize(d.commands[0]) == Success("\"" + id + "\"" + OpenReturnDocumentCommercial)
    ensures d.commands[1..] == Present([product, payment])
  {
    OpenedDocument(OpenCommercialReturn(id), product, payment)
  }

  /** NewDocumentCommercialCancellation: the 105M opening, then product and payment. */
  function CommercialCancellation(id: string, product: Option<Command>, payment: Option<Command>): (d: Document)
    ensures d.Generic? && 1 <= |d.commands| <= 3
    ensures Serialize(d.commands[0]) == Success("\"" + id + "\"" + OpenCancellationDocumentCommercial)
    ensures d.commands[1..] == Present([product, payment])
  {
    OpenedDocument(OpenCommercialCancellation(id), product, payment)
  }

  /** NewDocumentPOSReturn, given the date of the POS receipt: the 106M opening, then
      product and payment. */
  function PosReturn(date: Date, product: Option<Command>, payment: Option<Command>): (d: Document)
    ensures d.Generic? && 1 <= |d.commands| <= 3
    ensures Serialize(d.commands[0]) == Success("\"" + PosReference(date) + "\"" + OpenReturnDocumentPOS)
    ensures d.commands[1..] == Present([product, payment])
  {
    OpenedDocument(OpenPosReturn(date), product, payment)
  }

  /** NewDocumentPOSCancellation: the 107M opening, then product and payment. */
  function PosCancellation(date: Date, product: Option<Command>, payment: Option<Command>): (d: Document)
    ensures d.Generic? && 1 <= |d.commands| <= 3
    ensures Serialize(d.commands[0]) == Success("\"" + PosReference(date) + "\"" + OpenCancellationDocumentPOS)
    ensures d.commands[1..] == Present([product, payment])
  {
    OpenedDocument(OpenPosCancellation(date), product, payment)
  }

  const MaxCustomerDetails: nat := 5

  /** One customer-details command per line of text. */
  function DetailsCommands(customerDetails: seq<string>): (cs: seq<Command>)
    ensures |cs| == |customerDetails|
    ensures forall i | 0 <= i < |cs| :: Serialize(cs[i]) == Success(
      "\"" + ClampWidth(customerDetails[i], InvoiceDetailsMinWidth, InvoiceDetailsMaxWidth) + "\""
      + InvoiceCustomerDetails)
  {
    seq(|customerDetails|, i requires 0 <= i < |customerDetails| => InvoiceDetails(customerDetails[i]))
  }

  /** NewDocumentInvoice: refused unless there are 1 to 5 customer-detail lines, at
      least one product and at least one payment, checked in that order; otherwise the
      details, the 101M opening, the products and the payments, none dropped or
      reordered. */
  function Invoice(invoiceNumber: Option<Int64>, customerDetails: seq<string>,
                   products: seq<Command>, payments: seq<Command>): (r: Result<Document, Error>)
    ensures r.Success? <==>
      1 <= |customerDetails| <= MaxCustomerDetails && |products| > 0 && |payments| > 0
    ensures !(1 <= |customerDetails| <= MaxCustomerDetails) ==>
      r == Failure(BadCustomerDetailsCount(|customerDetails|))
    ensures 1 <= |customerDetails| <= MaxCustomerDetails && |products| == 0 ==> r == Failure(NoProducts)
    ensures 1 <= |customerDetails| <= MaxCustomerDetails && |products| > 0 && |payments| == 0 ==>
      r == Failure(NoPayments)
    ensures r.Success? ==> var cs, k := r.value.commands, |customerDetails|;
      && r.value.Generic?
      && |cs| == k + 1 + |products| + |payments|
      && cs[..k] == DetailsCommands(customerDetails)
      && Serialize(cs[k]) == Success("\"" + InvoiceNumberText(invoiceNumber) + "\"" + DirectInvoice)
      && cs[k + 1..k + 1 + |products|] == products
      && cs[k + 1 + |products|..] == payments
  {
    if |customerDetails| == 0 || |customerDetails| > MaxCustomerDetails then
      Failure(BadCustomerDetailsCount(|customerDetails|))
    else if |products| == 0 then Failure(NoProducts)
    else if |payments| == 0 then Failure(NoPayments)
    else
      var details := DetailsCommands(customerDetails);
      var k := |details|;
      var open := OpenInvoice(invoiceNumber);
      GroupSlices(details, open, products, payments);
      Success(Generic(details + [open] + products + payments))
  }

  /** NewDocumentCommercialWithInvoice: the details then the 111M opening are what it
      prints; the receipt it refers to is kept beside them, unprinted. */
  function CommercialWithInvoice(invoiceNumber: Option<Int64>, customerDetails: seq<string>,
                                 commercialDocument: Document): (d: Document)
    ensures d.WithInvoice? && d.commercialDocument == commercialDocument
    ensures |d.commands| == |customerDetails| + 1
    ensures d.commands[..|customerDetails|] == DetailsCommands(customerDetails)
    ensures Serialize(d.commands[|customerDetails|]) ==
      Success("\"" + InvoiceNumberText(invoiceNumber) + "\"" + InvoiceCommercialDocument)
  {
    var details := DetailsCommands(customerDetails);
    var commands := details + [OpenInvoiceCommercialDocument(invoiceNumber)];
    assert commands[..|details|] == details;
    WithInvoice(commands, commercialDocument)
  }
}
