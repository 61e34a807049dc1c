# Epson fiscal-printer command encoder, modelled in Dafny

The Go library `gongoff` drives Epson fiscal printers. It turns sale operations into
the printer's text protocol. A **field** (`Data`) is one value wrapped according to
its separator:

- `H` or `*` after an integer;
- decimal text passed through unchanged;
- `"…"` around a description;
- `~"…"` around a double-height description.

A **terminator** is the code that closes a command, such as `R` (sold), `3T` (card
payment) or `104M` (open a return document). It may be preceded by a value.

A **command** is its fields followed by its terminator. A **document** is an ordered
list of commands: a receipt, a management print, a return or cancellation, or an
invoice. The printer serialises a document's commands one after the other and stops
at the first one that cannot be encoded.

The Dafny project models this engine as pure functions on strings. A character stands
for one byte, so `|s|` is Go's `len(s)`. Each piece is proved against a partner:

- field encoding against its inverse (`Unwrap`);
- the command loop against a functional fold (`Serialize`);
- number formatting against reading the digits back (`DigitsValue`);
- document constructors against the positions their commands end up in.

Modules, one file each:

| file | module | models |
|---|---|---|
| `wrappers.dfy` | `Wrappers`, `Errors` | Option/Result, and one error per failure cause |
| `text.dfy` | `Text` | `strings.Repeat`, truncation, and the pad-or-cut width clamp |
| `numerals.dfy` | `Numerals` | `strconv.Itoa`/`Atoi` on 64-bit `int`, zero padding, two-decimal text |
| `calendar.dfy` | `Calendar` | dates and the `02-01-06` / `01-02-06` layouts |
| `datapiece.dfy` | `DataPiece` | `Data.get`, `Terminator.get`, the separator and terminator tables, `GetTerminatorTypePaymentLight` |
| `command.dfy` | `Commands` | `CommandGeneric.get` and every `NewCommand…` constructor |
| `document.dfy` | `Documents` | `NewDocumentId` and every `NewDocument…` constructor |
| `printer.dfy` | `Printer` | which command texts `PrintCommands` / `PrintDocument` hand to the writer |

Where the repository's comments or tests disagree with its code, the model follows
the code:

- A product with no department is closed by `1R`: the code defaults the department to
  `"1"`. The test at command_test.go:28 expects `750HR`, but the code gives `750H1R`
  (`Commands.ProductDefaults`).
- Barcodes are closed by `1Z` (13 characters) or `2Z` (8 characters). The comment at
  command.go:209 says `@39F`.
- A commercial cancellation opens with `105M`. The comment at command.go:253 says
  `104M`.

## Model

| member | source | states |
|---|---|---|
| `DataPiece.EncodeField` | datapiece.go:18-38 | A field succeeds iff it is well formed. A Value/Multiply field needs text Atoi accepts (optional sign, at least one digit, 64-bit range); on success its output is the text then `H` or `*`, and otherwise the error is NotAnInteger. A Decimal field fails iff the text has no '.'; otherwise its output is exactly the text. A Description gives `"text"` and a double-height description gives `~"text"`, for any text. Any other separator is refused. |
| `DataPiece.UnwrapEncodeField` | datapiece.go:18-38 | Stripping the wrapping from an encoded field gives back its value, for every separator. |
| `DataPiece.EncodeFieldUnwrap` | datapiece.go:18-38 | Conversely, wire text that unwraps to an encodable value is exactly that value's encoding, so encoding is injective. |
| `DataPiece.EncodeTerminator` | datapiece.go:55-61 | Never fails. The code is always a suffix. With no value the output is the code alone; with a value it is the value followed by the code. |
| `DataPiece.PaymentLight` | datapiece.go:153-158 | Succeeds iff the code is exactly three characters; the result is then four characters, the code followed by 'T'. Otherwise the error names the code. |
| `Numerals.AtoiItoa` | datapiece.go:21 | Every 64-bit integer printed by Itoa is read back by Atoi as the same number, so integer fields built from ints never fail. |
| `Numerals.NatToDigits` | command.go:69 | Itoa's digits are never empty, are all digits, have no leading zero unless the number is 0, and read back as the number. |
| `Numerals.FixedWidth` | command.go:316-317 | Zero-padding the digits of a number below 10^w gives exactly w digits that read back as the number. |
| `Numerals.TwoDecimalsReadBack` | command.go:179 | The two-decimal text of a percentage, given in hundredths, has a '-' exactly when it is negative. Then come integer digits, which are never empty and have no leading zero unless the integer part is `0`, as strconv prints them. Then a '.' and two fractional digits. The digits read back as the magnitude. |
| `Numerals.TwoDecimalsHasPoint` | command.go:179 | Two-decimal text always contains the '.' that a Decimal field requires. |
| `Calendar.DayMonthYearFields` | document.go:37 | The `02-01-06` text is eight characters with dashes at positions 2 and 5. Its groups read back as the day, the month and the year modulo 100. |
| `Calendar.MonthDayYearFields` | command.go:278 | The `01-02-06` text has the month first, then the day, then the short year. |
| `Text.ClampWidth` | command.go:100-105 | Text shorter than lo is padded with spaces to exactly lo characters, keeping the text as a prefix. Text longer than hi is cut to its first hi characters. Text already in [lo, hi] is unchanged. |
| `Commands.Join` | command.go:24-30 | Joining field encodings succeeds iff every one succeeds. |
| `Commands.JoinConcat` | command.go:24-30 | Joining two lists in sequence: the first list's error wins, then the second's, and otherwise the texts are concatenated. |
| `Commands.EncodeFields` | command.go:24-30 | The fields of a command encode iff every field is well formed. |
| `Commands.EncodeFieldsConcat` | command.go:24-30 | Encoding two field lists in sequence: the first list's error wins, then the second's, and otherwise the encodings are concatenated. |
| `Commands.FirstFailureReported` | command.go:25-28 | When field i is the first ill-formed field, the command's error is exactly field i's error. |
| `Commands.Serialize` | command.go:22-37 | A command serialises iff all its fields are well formed. On success the output ends with the terminator's encoding. |
| `Commands.EncodeFieldsSnoc` | command.go:24-30 | One more iteration of the field loop: the first i + 1 fields fail with the first i fields' error if there is one, else with field i's error, and otherwise encode to the first i fields' text followed by field i's encoding. |
| `Commands.Get` | command.go:22-37 | The source's loop, which accumulates fields and returns on the first error, computes the same result as the fold `Serialize`. |
| `Commands.Product` | command.go:49-85 | A product command is closed by the Sold code. It holds one field per given part, and the price field only when the price is not 0. |
| `Commands.ProductWire` | command.go:49-85 | A product never fails. Its text is the quoted description (cut to 38 characters), `qty*`, `priceH` and the department (default `1`) followed by `R`; each part is present exactly when given. This is the `"BREAD"2*750H3R` layout. |
| `Commands.ProductDefaults` | command.go:72-82 | A product with only a price prints the price, `H`, then `1R` (`750H1R` for 750), and with price 0 it prints `1R` alone. |
| `Commands.Trailer` | command.go:95-111 | The trailer is one quoted field clamped to between 39 and 46 characters, closed by `@40F`. |
| `Commands.Payment` | command.go:122-140 | A payment is accepted iff the method code ends in 'T'; otherwise the error names the code. The method code becomes the terminator. |
| `Commands.PaymentWire` | command.go:131-138 | An accepted payment prints `amountH` and the quoted description, each when given, then the method code, e.g. `100H"test"3T`. |
| `Commands.PaymentLightIsPayment` | datapiece.go:153-158 | Every custom payment code built from three characters is accepted as a payment method. |
| `Commands.CustomerIdentifier` | command.go:152-165 | Accepted iff the length is 16, 11 or 8; otherwise the error carries the length. On success the output is `"id"@39F`. |
| `Commands.DiscountPercentage` | command.go:174-183 | One Decimal field, closed by `1M`. |
| `Commands.DiscountPercentageWire` | command.go:174-183 | A percentage discount never fails and prints the two-decimal text then `1M`, with no `H` (e.g. `50.121M`). |
| `Commands.DiscountAmount` | command.go:192-201 | One Value field, closed by `3M`. |
| `Commands.DiscountAmountWire` | command.go:192-201 | An amount discount never fails and prints Itoa(amount) then `H3M` (e.g. `1126H3M`). |
| `Commands.Barcode` | command.go:211-226 | Accepted iff the length is 13 or 8; otherwise the error carries the length. Length 13 prints `"code"1Z` and length 8 prints `"code"2Z`. |
| `Commands.OpenCommercialReturn` | command.go:235-245 | Prints the document identifier verbatim and quoted, then `104M`. |
| `Commands.OpenCommercialCancellation` | command.go:254-264 | Prints the document identifier verbatim and quoted, then `105M`. |
| `Commands.PosReferenceFields` | command.go:278 | The POS reference is 12 characters: an `MM-DD-YY` date that reads back as month, day and short year, then `/POS`. |
| `Commands.OpenPosReturn` | command.go:273-282 | Prints the quoted POS reference, then `106M`. |
| `Commands.OpenPosCancellation` | command.go:291-300 | Prints the quoted POS reference, then `107M`. |
| `Commands.InvoiceNumberText` | command.go:314-318 | The invoice-number field is always exactly five digits. It reads as the number when the number is in 1..99999, and as 0 (`00000`) otherwise or when no number is given. |
| `Commands.OpenInvoice` | command.go:310-324 | Prints the quoted five-digit field, then `101M`. |
| `Commands.OpenInvoiceCommercialDocument` | command.go:334-348 | Prints the quoted five-digit field, then `111M`. |
| `Commands.InvoiceDetails` | command.go:358-372 | One quoted field clamped to between 40 and 46 characters, closed by `@38F`. |
| `Commands.DisplayMessage` | command.go:382-396 | Prints the quoted message, then `2%` when the line is above 1 and `1%` for any other line value. |
| `Commands.BareCommand` | document.go:96 | A command with no fields prints its code alone. |
| `Documents.NumberField` | document.go:27-34 | A closure or document number prints as four digits. They read as the number when it is in 1..9999, and as 9999 otherwise. |
| `Documents.DateField` | document.go:35-38 | For a positive year the identifier's date reads back as day, month and short year. For any other year it is `30-01-20`. |
| `Documents.NewDocumentId` | document.go:25-46 | The identifier is 18 characters, plus '-' and the serial when a serial is given. Its parts are the two four-digit numbers (each defaulting to 9999), the dashes at positions 4 and 9, and the date at positions 10-17. |
| `Documents.Present` | document.go:65-76 | Skipping absent optional commands keeps every given command and introduces no other. |
| `Documents.PresentConcat` | document.go:65-76 | Skipping absent commands distributes over concatenation. |
| `Documents.Commercial` | document.go:53-85 | A receipt holds the products, then the given optional commands in the order discount amount, discount percentage, customer identifier, trailer, then the payments. Nothing is dropped or reordered, and the length is products + given optionals + payments. |
| `Documents.Management` | document.go:93-118 | Has rows + 2 commands. The first prints `j` and the last prints `J`. |
| `Documents.ManagementRowWire` | document.go:97-110 | Row i prints as the row cut to 46 characters, quoted, then `@`. |
| `Documents.OpenedDocument` | document.go:131-139 | The opening command comes first, then the product and the payment, each when given, for 1 to 3 commands. |
| `Documents.CommercialReturn` | document.go:126-145 | A commercial return opens with `"id"104M`, followed by the given product and payment. |
| `Documents.CommercialCancellation` | document.go:152-171 | A commercial cancellation opens with `"id"105M`, followed by the given product and payment. |
| `Documents.PosReturn` | document.go:180-199 | A POS return opens with `"MM-DD-YY/POS"106M`, followed by the given product and payment. |
| `Documents.PosCancellation` | document.go:207-226 | A POS cancellation opens with `"MM-DD-YY/POS"107M`, followed by the given product and payment. |
| `Documents.Invoice` | document.go:233-266 | An invoice is refused unless it has 1 to 5 customer-detail lines, at least one product and at least one payment, checked in that order, each with its own error. Otherwise it holds the details, the `101M` opening, the products and the payments, none dropped or reordered. |
| `Documents.CommercialWithInvoice` | document.go:273-290 | Prints the details followed by the `111M` opening, and nothing else. The receipt it refers to is kept beside them, unchanged. |
| `Printer.PrintCommands` | printer.go:39-55 | The texts written are the serialisations of a prefix of the commands, in order. There is no error iff every command was written. On an error it is the error of the first command that failed, and nothing after that command is written. `flushed` is true iff the explicit flush after the loop (printer.go:50) ran, which happens iff there was no error, since the error path returns before it. |
| `Printer.PrintedStep` | printer.go:40-49 | Handing the next command's text to the writer keeps the written texts equal to the serialisations of a prefix of the commands, in order. |
| `Printer.PrintDocument` | printer.go:33-35 | Printing a document prints exactly the commands its get() returns, with the same error and the same record of whether the explicit flush ran. |

## Left out

- Device I/O is not modelled. That covers opening and closing the TCP or serial connection, the `bufio` buffer's contents, and port enumeration (printer.go:57-145). `Printer.PrintCommands` treats every write and the flush as succeeding, so write and flush errors are not represented. It records only which texts were handed to the writer and whether the explicit flush at printer.go:50 ran, which happens only on a run with no error. The writer is a `bufio.Writer` with its default 4096-byte buffer (printer.go:75, 123), and its own behaviour is not modelled. A write that overflows the buffer passes bytes on to the device at once, so on the error path earlier texts may already have reached the printer. The bytes still buffered on the error path are sent by the next flush on the same connection, or dropped when `Close` sets the writer to nil without flushing (printer.go:87, 138).
- `strconv.FormatFloat` is floating-point formatting. `Commands.DiscountPercentage` takes the percentage as an integer count of hundredths instead of a `float64`. Float rounding, and the NaN/Inf texts (which contain no '.' and would fail the Decimal field), are not represented.
- `time.Time` is reduced to the (year, month, day) it reports. Time zones, clocks and Go's general layout engine are out of scope; only the two layouts the library uses are modelled. The `06` element is taken as the last two digits of the absolute year.
- The typed wrapper structs (`CommandProduct`, `CommandTrailer`, …) are not modelled as separate types. Their extra fields store the constructor's arguments and are never read by `get()`. Every command is the generic (fields, terminator) pair.
- Documents take products and payments as generic commands, and their opening commands by their constructor inputs: the identifier, the POS date or the invoice number. Go's zero-value structs, which would encode with no fields and an empty terminator, are not considered.
- `Documents.Invoice` and `Documents.CommercialWithInvoice` take the customer details as their text lines, and build each `InvoiceDetails` command themselves. The source takes already-built `CommandInvoiceDetails` values.
- Aliasing is not modelled. Go documents hold pointers into the caller's slices and structs: the products, payments and customer details (document.go:63, 78, 251, 255, 258), and the optional commands (document.go:65-76). In Go, changing one of them after construction changes what `get()` returns. The model's documents hold copies of the commands, fixed when they are built.
- Go's `int` is taken to be 64 bits wide (`Numerals.Int64`). Go's distinction between a nil slice and an empty slice is not represented.
- The terminator codes that no constructor emits (reports, memory operations, `3Z`, `@37F`, …) are declared as constants only, since they carry no behaviour.
- Commands.DiscountPercentage: states only the command's shape, one Decimal field and `1M`. Its full output is stated by `Commands.DiscountPercentageWire`.
- Commands.DiscountAmount: states only the command's shape, one Value field and `3M`. Its full output is stated by `Commands.DiscountAmountWire`.
- Commands.Product: states only the Sold code and the field count. Its full output is stated by `Commands.ProductWire`.
