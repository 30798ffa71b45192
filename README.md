# Sales taxes kata, modelled in Dafny

The `Subscribe` library turns a shopping basket into a sales-tax receipt. A basket is text with one
item per line, each line written as `<quantity> <product> at <price>`.

- **Parsing and classifying a line** (`Subscribe::Line`). A line is parsed against one regular
  expression. A product is *exempt* (books, food, medicine) when its name, with one leading
  `imported ` removed, is one of four listed names. It is *imported* when its name contains
  `imported`.
- **Taxing a line** (`Subscribe::SaleTaxes`). The basic sales tax is 10% and does not apply to exempt
  goods. Imported goods pay 5% on top. The line's tax is rounded up to the next multiple of 0.05.
- **The receipt** (`Subscribe::Receipt`, `Subscribe.call`). The basket is split into lines, every line
  is parsed and taxed, and the receipt sums the taxes and totals and prints them.

The model is pure, like the library: datatypes for the records, functions for the operations, and
lemmas for what the code and its examples promise. The modules are:

- `Results` (`results.dfy`): the two error kinds and `Result`/`Option`.
- `Text` (`text.dfy`): the Ruby string operations the library uses. These are `\d`, `\s`,
  `String#to_i`, `Integer#to_s`, `format("%.2f")`, `include?`, `split(/\n/)` and `join("\n")`.
- `Lines` (`line.dfy`), `SalesTax` (`sale_taxes.dfy`) and `Subscribe` (`subscribe.dfy`): one module
  per source file.

Money is exact:

- **Parsed prices** are exact decimals, a mantissa with a count of fractional digits. `12.49` becomes
  `Decimal(1249, 2)`.
- **Tax and receipt functions** take two-digit prices, so amounts are whole cents.
- **Rates** are whole percentages in {0, 5, 10, 15}.
- **The tax on a line** in cents is `5 * ceil(subtotal * rate / 500)`: the least multiple of 5 cents
  at or above `subtotal * rate / 100`.

Where the code and its documentation differ, the model follows the code:

- **Quantities.** The pattern takes any digit run, so a quantity of `0` is accepted.
- **Exemption.** The whole product name must be one of the listed names, after one leading
  `imported` and a whitespace character are removed. Containing a listed name is not enough.
- **`"\n"` as a basket.** It is not empty, so it is not rejected. Ruby's `split` drops trailing empty
  fields, so it gives an empty receipt; an empty field between lines raises `ArgumentError`.

## Model

| member | source | states |
|---|---|---|
| Text.NatToDigitsValue | lib/subscribe.rb:26 | a quantity or amount written in decimal reads back as the same number |
| Text.Format2Value | lib/subscribe.rb:26 | the digits of a `%.2f` amount in cents, dot left out, read back as the amount |
| Text.HasSubstringIff | lib/subscribe/line.rb:21-23 | `include?` holds exactly when the substring occurs at some index |
| Text.SubstringCharacters | lib/subscribe/line.rb:21-23 | every character of an included substring occurs in the string |
| Text.JoinFields | lib/subscribe.rb:53 | joining the line-feed-separated fields of a string gives the string back |
| Text.FieldsJoin | lib/subscribe.rb:33 | splitting a `join("\n")` of line-feed-free pieces gives the pieces back |
| Text.JoinLinesAppend | lib/subscribe.rb:24-27 | joining two lists with a line feed between them is joining their concatenation |
| Text.Split | lib/subscribe.rb:53 | `split(/\n/)` gives the line-feed-free fields with the trailing empty ones removed, in order, and only empty fields are removed |
| Lines.Parse | lib/subscribe/line.rb:6-11 | a line that does not match raises `ArgumentError` and nothing else |
| Lines.ParseMatch | lib/subscribe/line.rb:3-11 | any decomposition the pattern admits is accepted and parsed into its quantity's value, its product and its exact price |
| Lines.ParseSound | lib/subscribe/line.rb:3-11 | every accepted line decomposes by the pattern, and the result is built from that decomposition |
| Lines.ParseFailsIffNoMatch | lib/subscribe/line.rb:3-8 | `ArgumentError` is raised exactly when no decomposition matches the pattern |
| Lines.MatchUnique | lib/subscribe/line.rb:3 | the decomposition is unique: the quantity is the whole leading digit run, the price the whole last token, the product everything in between |
| Lines.ParsedProduct | lib/subscribe/line.rb:3-8 | a parsed product is non-empty and a single line |
| Lines.ParseRoundTrip | lib/subscribe/line.rb:3-11 | `q + " " + name + " at " + i + "." + f` parses to value(q), name and the decimal i.f, even when the name contains ` at ` |
| Lines.ParseRoundTripValues | lib/subscribe/line.rb:3-11 | the same, with the quantity and the price mantissa given as numbers |
| Lines.ParseRejectsQuotes | spec/subscribe/line_spec.rb:5-7 | the line `''` raises `ArgumentError` |
| Lines.ParseRejectsBlank | lib/subscribe/line.rb:8 | the empty line raises `ArgumentError` |
| Lines.ParseBookLine | spec/subscribe/line_spec.rb:12 | `2 book at 12.49` parses to 2, `book`, 12.49 |
| Lines.ParseMusicLine | spec/subscribe/line_spec.rb:13 | `1 music CD at 14.99` parses to 1, `music CD`, 14.99 |
| Lines.ParseChocolateLine | spec/subscribe/line_spec.rb:14 | `1 chocolate bar at 0.85` parses to 1, `chocolate bar`, 0.85 |
| Lines.ParseHeadachePillsLine | spec/subscribe/receipt_spec.rb:10 | the pills line of the receipt example parses to 1, its product, 9.75 |
| Lines.ParseImportedBoxLine | spec/subscribe/receipt_spec.rb:11 | the imported chocolates line of the receipt example parses to 1, its product, 10.00 |
| Lines.ParseInnerAt | lib/subscribe/line.rb:3 | a product containing ` at ` is kept whole, because the price is the last token |
| Lines.Format2ParsesBack | lib/subscribe/line.rb:3 | a printed two-decimal amount parses back as the same price |
| Lines.Total | lib/subscribe/line.rb:13-15 | the line total is price times quantity, at the price's scale |
| Lines.ToH | lib/subscribe/line.rb:25-31 | the hash passes product and quantity through and reports the line total, not the unit price, under `price` |
| Lines.RemoveImportedFrom | lib/subscribe/line.rb:18 | `gsub(/^imported\s/, '')` only deletes characters: the result is no longer than the text; the partner lemmas below fix what it removes |
| Lines.RemoveImportedSingleLine | lib/subscribe/line.rb:18 | on a single-line name, `gsub(/^imported\s/, '')` removes exactly one leading `imported` and a whitespace character |
| Lines.RemoveImportedNoLineStart | lib/subscribe/line.rb:18 | past the start, with no line feed ahead, the substitution changes nothing |
| Lines.Exempt | lib/subscribe/line.rb:17-19 | `exempt?` as written, list membership of the product after the `gsub`; characterised by `Lines.ExemptIff` and `Lines.ExemptSingleLine` |
| Lines.ExemptIff | lib/subscribe/line.rb:17-19 | exempt exactly when the name, or the name after `imported` and one whitespace character, is one of the four listed names |
| Lines.ExemptSingleLine | lib/subscribe/line.rb:17-19 | on a single-line name, `exempt?` is list membership of the name with its import prefix stripped |
| Lines.StrippedExempt | lib/subscribe/line.rb:17-19 | a stripped name is listed exactly when the name itself is, or it is `imported` and one whitespace character before a listed name |
| Lines.Imported | lib/subscribe/line.rb:21-23 | `imported?` as written, `include?` of `imported`; characterised by `Lines.ImportedIff` |
| Lines.ImportedIff | lib/subscribe/line.rb:21-23 | imported exactly when `imported` occurs in the product |
| Lines.NotImportedWithout | lib/subscribe/line.rb:21-23 | a product missing any letter of `imported` is not imported |
| Lines.ClassificationByProduct | lib/subscribe/line.rb:17-23 | both classifications depend on the product only, not on quantity or price |
| Lines.StripImportedOf | lib/subscribe/line.rb:18 | `imported ` followed by a rest strips to the rest |
| Lines.BookExempt | spec/subscribe/line_spec.rb:30 | a book is exempt |
| Lines.ChocolateBarExempt | spec/subscribe/line_spec.rb:31 | a chocolate bar is exempt |
| Lines.HeadachePillsExempt | spec/subscribe/line_spec.rb:32 | a packet of headache pills is exempt |
| Lines.ImportedBoxExempt | lib/subscribe/line.rb:17-19 | an imported box of chocolates is exempt, because the import prefix is stripped |
| Lines.GeneralNamesUnlisted | lib/subscribe/line.rb:4 | `music CD` and `bottle of perfume` are not listed |
| Lines.MusicCDNotExempt | spec/subscribe/line_spec.rb:46 | a music CD is not exempt |
| Lines.PerfumeNotExempt | spec/subscribe/line_spec.rb:47 | a bottle of perfume is not exempt |
| Lines.ImportedPerfumeNotExempt | lib/subscribe/line.rb:17-19 | an imported bottle of perfume is not exempt |
| Lines.ImportedBoxImported | spec/subscribe/line_spec.rb:62 | an imported box of chocolates is imported |
| Lines.ImportedPerfumeImported | lib/subscribe/line.rb:21-23 | an imported bottle of perfume is imported |
| Lines.BoxNotImported | spec/subscribe/line_spec.rb:66 | a box of chocolates is not imported |
| Lines.BookNotImported | lib/subscribe/line.rb:21-23 | a book is not imported |
| Lines.ChocolateBarNotImported | lib/subscribe/line.rb:21-23 | a chocolate bar is not imported |
| Lines.HeadachePillsNotImported | lib/subscribe/line.rb:21-23 | a packet of headache pills is not imported |
| Lines.MusicCDNotImported | lib/subscribe/line.rb:21-23 | a music CD is not imported |
| Lines.PerfumeNotImported | lib/subscribe/line.rb:21-23 | a bottle of perfume is not imported |
| SalesTax.For | lib/subscribe/sale_taxes.rb:8-13 | the taxed line wraps the given line, at one of the rates 0, 5, 10 or 15 percent |
| SalesTax.RateCases | lib/subscribe/sale_taxes.rb:3-13 | the rate is 0 for exempt domestic, 5 for exempt imported, 10 for other domestic and 15 for other imported goods, each an if-and-only-if |
| SalesTax.Subtotal | lib/subscribe/line.rb:13-15 | the line subtotal in cents is the line total times 100 |
| SalesTax.CeilDiv | lib/subscribe/sale_taxes.rb:41 | the rounded-up quotient is the least `r` with `b * r >= a` |
| SalesTax.Taxes | lib/subscribe/sale_taxes.rb:40-42 | the tax is a multiple of 5 cents, at least subtotal times rate, and less than that plus 5 cents |
| SalesTax.TaxesIsLeast | lib/subscribe/sale_taxes.rb:40-42 | the tax is the least multiple of 5 cents at or above subtotal times rate |
| SalesTax.TotalPrice | lib/subscribe/sale_taxes.rb:24-26 | the line's total price is the line total plus its tax |
| SalesTax.ToH | lib/subscribe/sale_taxes.rb:15-34 | the hash passes product and quantity through and reports the tax and the taxed total |
| SalesTax.ExemptDomesticUntaxed | lib/subscribe/sale_taxes.rb:8-26 | an exempt, domestic line pays no tax and costs its subtotal |
| SalesTax.ExemptImportedFivePercent | lib/subscribe/sale_taxes.rb:9-10 | an exempt, imported line is taxed at the import rate and at least 5% of its subtotal |
| SalesTax.RoundsUp | spec/subscribe/sale_taxes_spec.rb:8-55 | 14.99 and 18.99 at 10% give 1.50 and 1.90, 47.50 at 15% gives 7.15, 10.00 at 5% gives 0.50 |
| SalesTax.RatedHash | lib/subscribe/sale_taxes.rb:15-22 | the hash of a line at a known rate holds its tax and its subtotal plus that tax |
| SalesTax.UntaxedHash | lib/subscribe/sale_taxes.rb:15-22 | the hash of an exempt, domestic line holds no tax and its subtotal |
| SalesTax.MusicCDTaxed | spec/subscribe/sale_taxes_spec.rb:8-10 | a music CD at 14.99 costs 16.49 with 1.50 tax |
| SalesTax.PerfumeTaxed | spec/subscribe/sale_taxes_spec.rb:11-13 | a bottle of perfume at 18.99 costs 20.89 with 1.90 tax |
| SalesTax.BookUntaxed | spec/subscribe/sale_taxes_spec.rb:28-30 | a book at 12.49 costs 12.49 with no tax |
| SalesTax.ChocolateBarUntaxed | spec/subscribe/sale_taxes_spec.rb:31-33 | a chocolate bar at 0.85 costs 0.85 with no tax |
| SalesTax.HeadachePillsUntaxed | spec/subscribe/sale_taxes_spec.rb:34-36 | a packet of headache pills at 9.75 costs 9.75 with no tax |
| SalesTax.ImportedBoxTaxed | spec/subscribe/sale_taxes_spec.rb:50-52 | an imported box of chocolates at 10.00 costs 10.50 with 0.50 tax |
| SalesTax.ImportedPerfumeTaxed | spec/subscribe/sale_taxes_spec.rb:53-55 | an imported bottle of perfume at 47.50 costs 54.65 with 7.15 tax |
| Subscribe.ReceiptFor | lib/subscribe.rb:10-14 | the receipt holds one taxed line per line, in order: entry k is the taxed form of line k |
| Subscribe.SumTaxes | lib/subscribe.rb:40-42 | the receipt's sales taxes are a multiple of 5 cents |
| Subscribe.SumTaxesBounds | lib/subscribe.rb:40-42 | the summed taxes are at least the summed raw taxes, and less than that plus 5 cents per line |
| Subscribe.SumTotals | lib/subscribe.rb:40-46 | the grand total is the sum of the line subtotals plus the summed sales taxes |
| Subscribe.HashAll | lib/subscribe.rb:18 | the products of the receipt hash are the hashes of its taxed lines, in order |
| Subscribe.ToH | lib/subscribe.rb:16-22 | the receipt hash lists the hash of each taxed line in order, its sales taxes are the summed line taxes (a multiple of 5 cents) and its total is the summed line totals, which is the subtotals plus the sales taxes |
| Subscribe.HashAllSums | lib/subscribe.rb:16-22 | adding up the taxes and the total prices listed in the line hashes gives the summed taxes and the grand total |
| Subscribe.ReceiptReportAddsUp | lib/subscribe.rb:16-22 | a receipt hash is consistent: its sales taxes and its total are the sums of the taxes and totals it lists |
| Subscribe.Display | lib/subscribe.rb:33 | a printed product line is a single line when the product name is |
| Subscribe.DisplayReadsBack | lib/subscribe.rb:33 | a printed product line is quantity, product and taxed total, and the quantity and the two-decimal total read back as the numbers printed |
| Subscribe.DisplayAll | lib/subscribe.rb:33 | one printed line per taxed line, in order |
| Subscribe.TaxesLine | lib/subscribe.rb:26 | the sales-taxes line is a single line |
| Subscribe.TotalLine | lib/subscribe.rb:27 | the total line is a single line |
| Subscribe.TotalLineReadsBack | lib/subscribe.rb:27 | the total line shows the grand total with two decimals, and that amount reads back as the grand total |
| Subscribe.FloatToS | lib/subscribe.rb:27 | `Float#to_s` of an exact cent amount is a single line |
| Subscribe.FloatToSShort | lib/subscribe.rb:27 | for a whole number of dimes, `to_s` prints one character fewer than `%.2f` |
| Subscribe.TotalAsWritten | lib/subscribe.rb:27 | the total as interpolated: `0` for an empty receipt (the Integer sum of no lines), otherwise the float's `to_s`; it is shorter than the two-decimal form exactly when the receipt is empty or the total is a whole number of dimes |
| Subscribe.PrintAsWritten | lib/subscribe.rb:24-28 | `Receipt#print` as written, with the interpolated total; compared with `Subscribe.Print` by `Subscribe.PrintAsWrittenDiffers` |
| Subscribe.PrintAsWrittenDiffers | lib/subscribe.rb:24-27 | the receipt as written prints the same as the two-decimal printout exactly when it has lines and its grand total is not a whole number of dimes |
| Subscribe.PrintAsWrittenEmpty | lib/subscribe.rb:27 | as written, the empty receipt of the basket `"\n"` prints `Total: 0` |
| Subscribe.ImportedBoxReceiptAsWritten | lib/subscribe.rb:24-27 | the one-line basket of an imported box of chocolates at 10.00 totals 10.50, and its receipt as written differs from the two-decimal printout |
| Subscribe.TenFifty | lib/subscribe.rb:27 | 10.50 prints as `10.5` with `to_s` and as `10.50` with `%.2f` |
| Subscribe.PrintProducts | lib/subscribe.rb:32-34 | the printed product lines joined by line feeds; `Subscribe.PrintLines` recovers them from the printout |
| Subscribe.Print | lib/subscribe.rb:24-28 | the product lines, the sales-taxes line and the two-decimal total line, separated by line feeds with none at the end; characterised by `Subscribe.PrintLines`, `Subscribe.PrintAsJoin` and `Subscribe.TotalLineReadsBack` |
| Subscribe.PrintAsJoin | lib/subscribe.rb:24-34 | the printout is the product lines, the sales-taxes line and the total line joined by line feeds |
| Subscribe.RowsSingleLine | lib/subscribe.rb:24-34 | with single-line product names, every row of the printout is a single line |
| Subscribe.PrintLines | lib/subscribe.rb:24-34 | splitting the printout at line feeds gives the product lines, then the sales-taxes line, then the total line, with no trailing line feed |
| Subscribe.PrintEmpty | lib/subscribe.rb:24-34 | an empty receipt prints an empty line, `Sales Taxes: 0.00` and `Total: 0.00` |
| Subscribe.ParseAll | lib/subscribe.rb:53-55 | parsing all lines fails only with `ArgumentError`, and succeeds with one line per input line |
| Subscribe.ParseAllOkIff | lib/subscribe.rb:53-55 | parsing all lines succeeds exactly when every line parses: no line is skipped |
| Subscribe.ParseAllValues | lib/subscribe.rb:53-55 | after success, entry k is the parse of line k |
| Subscribe.ParseAllSpec | lib/subscribe.rb:53-55 | both of the above together |
| Subscribe.ParseAllOk | lib/subscribe.rb:53-55 | lines that each parse give exactly their parses, in order |
| Subscribe.Call | lib/subscribe.rb:50-58 | `InvalidBasket` exactly when the basket is nil or empty, otherwise only `ArgumentError` or a receipt with one entry per split line |
| Subscribe.CallSpec | lib/subscribe.rb:50-58 | a non-empty basket gives a receipt exactly when every split line parses, and entry k is the taxed parse of split line k |
| Subscribe.CallLineFeedOnly | lib/subscribe.rb:51-53 | the basket `"\n"` gives an empty receipt |
| Subscribe.SplitJoin | lib/subscribe.rb:53 | splitting joined single-line pieces whose last piece is non-empty gives the pieces back |
| Subscribe.SplitEmpty | lib/subscribe.rb:53 | splitting the empty string gives no lines |
| Subscribe.CallBlankLine | lib/subscribe.rb:53-55 | a basket with an empty line before its last line raises `ArgumentError` |
| Subscribe.CallThree | lib/subscribe.rb:50-58 | a three-line basket gives the receipt of its three parsed lines, in order |
| Subscribe.SplitThree | lib/subscribe.rb:53 | a basket of three lines splits into those three lines |
| Subscribe.SumsCons | lib/subscribe.rb:40-46 | the sums of taxes and totals take the first line's amount plus the sums of the rest |
| Subscribe.FiveLines | lib/subscribe.rb:16-46 | for five lines, the hash lists the five hashes and the sums are the five amounts added |
| Subscribe.FiveLineReport | spec/subscribe/receipt_spec.rb:18-26 | five taxed lines with the example's amounts report sales taxes 2.00 and total 62.57 |
| Subscribe.FiveLineTaxes | spec/subscribe/receipt_spec.rb:18-24 | each line of the five-line example is taxed as in the example |
| Subscribe.FiveLineReceiptOf | spec/subscribe/receipt_spec.rb:18-26 | the receipt of lines with the example's hashes reports 2.00 and 62.57 |
| Subscribe.FiveLineReceipt | spec/subscribe/receipt_spec.rb:7-26 | the five-line receipt lists the example's products, with sales taxes 2.00 and total 62.57 |
| Subscribe.ThreeLines | lib/subscribe.rb:32-46 | for three lines, the printed lines and the sums are taken line by line |
| Subscribe.PrintProductsThree | lib/subscribe.rb:32-34 | the product lines of a three-line receipt are its three printed lines joined by line feeds |
| Subscribe.BookLinePrinted | spec/subscribe_spec.rb:10 | two books at 12.49 print as `2 book: 24.98` |
| Subscribe.MusicCDLinePrinted | spec/subscribe_spec.rb:11 | a music CD at 14.99 prints as `1 music CD: 16.49` |
| Subscribe.ChocolateBarLinePrinted | spec/subscribe_spec.rb:12 | a chocolate bar at 0.85 prints as `1 chocolate bar: 0.85` |
| Subscribe.ThreeLineSums | spec/subscribe_spec.rb:13-14 | with the example's amounts, the receipt prints `Sales Taxes: 1.50` and `Total: 42.32` |
| Subscribe.ThreeLinePrintOf | spec/subscribe_spec.rb:10-14 | lines printing as in the example give the example's printout |
| Subscribe.ThreeLinePrint | spec/subscribe_spec.rb:10-14 | the receipt of the three example lines prints exactly as expected |
| Subscribe.ThreeLineBasket | spec/subscribe_spec.rb:8-20 | calling with the three-line basket gives a receipt that prints exactly as expected |

## Left out

- Binary floating point is not modelled: `to_f`, float multiplication, `ceil` after division by
  0.05, `"%.2f"` rounding of arbitrary floats and float summation. Prices are exact decimals and
  amounts are whole cents. The source computes in floats, which can differ by a rounding error from
  the exact result this model proves things about.
- SalesTax.Taxes: defined only for prices with exactly two fractional digits. The parser accepts any
  number of fractional digits and keeps them exactly. The other tax and receipt functions carry the
  same restriction, because with it every `"%.2f"` step in `SaleTaxes` is the identity.
- Subscribe.Display: `SaleTaxes` defines no `display`, so the source falls back to Ruby's
  `Object#display`, which writes to standard output and returns nil. The per-line format
  `<quantity> <product>: <total with two decimals>` is taken from the expected output in
  spec/subscribe_spec.rb:10-12, not from the library.
- Subscribe.Print: prints the total with two decimals, the format lib/subscribe.rb:26 gives the
  sales taxes just above it. The source interpolates the sum as it is (lib/subscribe.rb:27); that
  version is `Subscribe.PrintAsWritten` (see Findings).
- Lines.Parse: requires a single-line string. Ruby's `^` and `$` match at every line boundary, and
  the multi-line behaviour of `scan(...).first` is not modelled. `Subscribe.call` only ever passes it
  lines without line feeds.
- The exception classes are reduced to two error values, `InvalidBasket` and `ArgumentError`, which
  the functions return rather than raise.
- `basket.to_s` is modelled for nil (`None`) and strings only. Other objects Ruby would convert
  with `to_s` are not.
- Ruby's `Struct` and `keyword_init` machinery are replaced by datatypes.
- The RSpec files are not modelled as tests. Their examples appear as lemmas.
- The unused `SaleTaxes#price` accessor (lib/subscribe/sale_taxes.rb:36-38) is not modelled. It
  returns the wrapped line's unit price.
- `Subscribe::Receipt#products` (lib/subscribe.rb:36-38) is the `linesWithTaxes` field itself, so it
  has no member of its own.

## Findings

| source | as written | input that shows it | evidently intended | confidence | as-written member | corrected member |
|---|---|---|---|---|---|---|
| lib/subscribe.rb:27 | `Total: #{total_price}` interpolates the sum with `to_s`, so a trailing zero in the cents is dropped, and an empty receipt, whose sum is the Integer `0`, prints `Total: 0` | a basket `1 imported box of chocolates at 10.00` totals 10.50 and prints `Total: 10.5` | the total printed with two decimals, like the sales taxes formatted with `%.2f` on lib/subscribe.rb:26 | medium, not executed | Subscribe.ImportedBoxReceiptAsWritten | Subscribe.TotalLineReadsBack |
