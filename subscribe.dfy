/**
 * The receipt and the entry point: `Subscribe::Receipt` and `Subscribe.call`. Amounts are whole
 * cents, so receipts are summed exactly; their lines must have prices with two fractional digits.
 */
module Subscribe {
  import opened Results
  import Text
  import Lines
  import SalesTax

  /** `Subscribe::Receipt`: the taxed lines of a basket, in basket order. */
  datatype Receipt = Receipt(linesWithTaxes: seq<SalesTax.SaleTaxes>)

  /** What `Receipt#to_h` reports; amounts in cents. */
  datatype ReceiptHash = ReceiptHash(products: seq<SalesTax.SaleTaxesHash>, saleTaxes: nat, total: nat)

  /** Every taxed line has a price with two fractional digits, so all its amounts are whole cents. */
  predicate TwoDigitPrices(ts: seq<SalesTax.SaleTaxes>) {
    forall k :: 0 <= k < |ts| ==> ts[k].line.price.scale == 2
  }

  /** No product name holds a line feed, so each taxed line prints as one line. */
  predicate SingleLineProducts(ts: seq<SalesTax.SaleTaxes>) {
    forall k :: 0 <= k < |ts| ==> '\n' !in ts[k].line.product
  }

  /** `Receipt.for`: every line taxed by `SaleTaxes.for`, in the same order. */
  function ReceiptFor(lines: seq<Lines.Line>): (r: Receipt)
    ensures |r.linesWithTaxes| == |lines|
    ensures forall k :: 0 <= k < |lines| ==> r.linesWithTaxes[k] == SalesTax.For(lines[k])
    decreases |lines|
  {
    if lines == [] then Receipt([])
    else Receipt([SalesTax.For(lines[0])] + ReceiptFor(lines[1..]).linesWithTaxes)
  }

  /** The raw taxes of the lines, subtotal times rate, in hundredths of a cent. */
  function SumRawTaxes(ts: seq<SalesTax.SaleTaxes>): nat
    requires TwoDigitPrices(ts)
    decreases |ts|
  {
    if ts == [] then 0 else SalesTax.Subtotal(ts[0].line) * ts[0].tax + SumRawTaxes(ts[1..])
  }

  /** The lines' subtotals, price times quantity, before tax. */
  function SumSubtotals(ts: seq<SalesTax.SaleTaxes>): nat
    requires TwoDigitPrices(ts)
    decreases |ts|
  {
    if ts == [] then 0 else SalesTax.Subtotal(ts[0].line) + SumSubtotals(ts[1..])
  }

  /** `Receipt#total_sale_taxes`: the sum of the lines' taxes, a multiple of 0.05. */
  function SumTaxes(ts: seq<SalesTax.SaleTaxes>): (c: nat)
    requires TwoDigitPrices(ts)
    ensures c % SalesTax.PrecisionRate == 0
    decreases |ts|
  {
    if ts == [] then 0 else SalesTax.Taxes(ts[0]) + SumTaxes(ts[1..])
  }

  /** The total tax covers the raw taxes and exceeds them by less than 0.05 per line. */
  lemma {:induction false} SumTaxesBounds(ts: seq<SalesTax.SaleTaxes>)
    requires TwoDigitPrices(ts)
    ensures 100 * SumTaxes(ts) >= SumRawTaxes(ts)
    ensures ts != [] ==> 100 * SumTaxes(ts) < SumRawTaxes(ts) + 100 * SalesTax.PrecisionRate * |ts|
    decreases |ts|
  {
    if ts != [] {
      var t, rest := ts[0], ts[1..];
      SumTaxesBounds(rest);
      assert SumTaxes(ts) == SalesTax.Taxes(t) + SumTaxes(rest);
      assert SumRawTaxes(ts) == SalesTax.Subtotal(t.line) * t.tax + SumRawTaxes(rest);
    }
  }

  /** `Receipt#total_price`: the sum of the lines' totals, which is the subtotals plus the taxes. */
  function SumTotals(ts: seq<SalesTax.SaleTaxes>): (c: nat)
    requires TwoDigitPrices(ts)
    ensures c == SumSubtotals(ts) + SumTaxes(ts)
    decreases |ts|
  {
    if ts == [] then 0 else SalesTax.TotalPrice(ts[0]) + SumTotals(ts[1..])
  }

  /** `products.map(&:to_h)`: one report per taxed line, in order. */
  function HashAll(ts: seq<SalesTax.SaleTaxes>): (hs: seq<SalesTax.SaleTaxesHash>)
    requires TwoDigitPrices(ts)
    ensures |hs| == |ts|
    ensures forall k :: 0 <= k < |ts| ==> hs[k] == SalesTax.ToH(ts[k])
    decreases |ts|
  {
    if ts == [] then [] else [SalesTax.ToH(ts[0])] + HashAll(ts[1..])
  }

  /** `Receipt#to_h`: the line reports, the total tax and the grand total. */
  function ToH(r: Receipt): (h: ReceiptHash)
    requires TwoDigitPrices(r.linesWithTaxes)
    ensures |h.products| == |r.linesWithTaxes|
    ensures forall k :: 0 <= k < |h.products| ==> h.products[k] == SalesTax.ToH(r.linesWithTaxes[k])
    ensures h.saleTaxes == SumTaxes(r.linesWithTaxes) && h.saleTaxes % SalesTax.PrecisionRate == 0
    ensures h.total == SumTotals(r.linesWithTaxes) && h.total == SumSubtotals(r.linesWithTaxes) + h.saleTaxes
  {
    ReceiptHash(HashAll(r.linesWithTaxes), SumTaxes(r.linesWithTaxes), SumTotals(r.linesWithTaxes))
  }

  /** The taxes listed in a sequence of line reports, added up. */
  function SumReportedTaxes(hs: seq<SalesTax.SaleTaxesHash>): nat
    decreases |hs|
  {
    if hs == [] then 0 else hs[0].taxes + SumReportedTaxes(hs[1..])
  }

  /** The total prices listed in a sequence of line reports, added up. */
  function SumReportedTotals(hs: seq<SalesTax.SaleTaxesHash>): nat
    decreases |hs|
  {
    if hs == [] then 0 else hs[0].totalPrice + SumReportedTotals(hs[1..])
  }

  /** Adding up the line reports gives the summed taxes and the grand total. */
  lemma {:induction false} HashAllSums(ts: seq<SalesTax.SaleTaxes>)
    requires TwoDigitPrices(ts)
    ensures SumReportedTaxes(HashAll(ts)) == SumTaxes(ts)
    ensures SumReportedTotals(HashAll(ts)) == SumTotals(ts)
    decreases |ts|
  {
    if ts != [] {
      var hs := HashAll(ts);
      HashAllSums(ts[1..]);
      assert hs[1..] == HashAll(ts[1..]);
      assert hs[0] == SalesTax.ToH(ts[0]);
    }
  }

  /** A receipt report is consistent: its sales taxes and its total are the sums of the taxes and totals it lists. */
  lemma ReceiptReportAddsUp(r: Receipt)
    requires TwoDigitPrices(r.linesWithTaxes)
    ensures ToH(r).saleTaxes == SumReportedTaxes(ToH(r).products)
    ensures ToH(r).total == SumReportedTotals(ToH(r).products)
  {
    HashAllSums(r.linesWithTaxes);
  }

  /** One printed receipt line, `"<quantity> <product>: <total price to two decimals>"`. */
  function Display(t: SalesTax.SaleTaxes): (s: string)
    requires t.line.price.scale == 2
    ensures '\n' !in t.line.product ==> '\n' !in s
  {
    Text.NatToDigits(t.line.quantity) + " " + t.line.product + ": " + Text.Format2(SalesTax.TotalPrice(t))
  }

  /** The quantity and the total of a printed line read back as the line's quantity and total price. */
  lemma DisplayReadsBack(t: SalesTax.SaleTaxes)
    requires t.line.price.scale == 2
    ensures Display(t) == Text.NatToDigits(t.line.quantity) + " " + t.line.product + ": " + Text.Format2(SalesTax.TotalPrice(t))
    ensures Text.DigitsValue(Text.NatToDigits(t.line.quantity)) == t.line.quantity
    ensures Lines.ParsePrice(Text.Format2(SalesTax.TotalPrice(t))) == Some(Lines.Decimal(SalesTax.TotalPrice(t), 2))
  {
    Text.NatToDigitsValue(t.line.quantity);
    Lines.Format2ParsesBack(SalesTax.TotalPrice(t));
  }

  /** One printed line per taxed line, in order. */
  function DisplayAll(ts: seq<SalesTax.SaleTaxes>): (ds: seq<string>)
    requires TwoDigitPrices(ts)
    ensures |ds| == |ts|
    ensures forall k :: 0 <= k < |ts| ==> ds[k] == Display(ts[k])
    decreases |ts|
  {
    if ts == [] then [] else [Display(ts[0])] + DisplayAll(ts[1..])
  }

  /** `Receipt#print_products`: the printed lines joined by line feeds. */
  function PrintProducts(r: Receipt): string
    requires TwoDigitPrices(r.linesWithTaxes)
  {
    Text.JoinLines(DisplayAll(r.linesWithTaxes))
  }

  /** The summary line for the taxes. */
  function TaxesLine(r: Receipt): (s: string)
    requires TwoDigitPrices(r.linesWithTaxes)
    ensures '\n' !in s
  {
    "Sales Taxes: " + Text.Format2(SumTaxes(r.linesWithTaxes))
  }

  /** The summary line for the grand total. */
  function TotalLine(r: Receipt): (s: string)
    requires TwoDigitPrices(r.linesWithTaxes)
    ensures '\n' !in s
  {
    "Total: " + Text.Format2(SumTotals(r.linesWithTaxes))
  }

  /** `Receipt#print`: the product lines, then the taxes, then the total; no trailing line feed. */
  function Print(r: Receipt): string
    requires TwoDigitPrices(r.linesWithTaxes)
  {
    PrintProducts(r) + "\n" + TaxesLine(r) + "\n" + TotalLine(r)
  }

  /** The total line reads back as the grand total with two fractional digits. */
  lemma TotalLineReadsBack(r: Receipt)
    requires TwoDigitPrices(r.linesWithTaxes)
    ensures TotalLine(r) == "Total: " + Text.Format2(SumTotals(r.linesWithTaxes))
    ensures Lines.ParsePrice(Text.Format2(SumTotals(r.linesWithTaxes))) == Some(Lines.Decimal(SumTotals(r.linesWithTaxes), 2))
  {
    Lines.Format2ParsesBack(SumTotals(r.linesWithTaxes));
  }

  /**
   * Ruby's `Float#to_s` for an amount of `cents` hundredths held exactly: at least one fractional
   * digit, and a trailing zero in the hundredths dropped.
   */
  function FloatToS(cents: nat): (s: string)
    ensures '\n' !in s
  {
    Text.NatToDigits(cents / 100) + "." +
    (if cents % 10 == 0 then [Text.DigitChar(cents % 100 / 10)] else Text.TwoDigitString(cents % 100))
  }

  /**
   * The total as `Receipt#print` interpolates it: an empty receipt sums to the Integer `0`, which
   * prints as `0`; otherwise the sum is a Float and prints with `to_s`.
   */
  function TotalAsWritten(r: Receipt): (s: string)
    requires TwoDigitPrices(r.linesWithTaxes)
    ensures '\n' !in s
    ensures |s| < |Text.Format2(SumTotals(r.linesWithTaxes))| <==> r.linesWithTaxes == [] || SumTotals(r.linesWithTaxes) % 10 == 0
  {
    if r.linesWithTaxes == [] then "0" else FloatToS(SumTotals(r.linesWithTaxes))
  }

  /** `Receipt#print` as written: the total is interpolated as it is, not formatted with `%.2f`. */
  function PrintAsWritten(r: Receipt): (s: string)
    requires TwoDigitPrices(r.linesWithTaxes)
  {
    PrintProducts(r) + "\n" + TaxesLine(r) + "\n" + "Total: " + TotalAsWritten(r)
  }

  /** A grand total that is a whole number of dimes prints one digit short of two decimals, e.g. `10.5`. */
  lemma FloatToSShort(cents: nat)
    requires cents % 10 == 0
    ensures |FloatToS(cents)| + 1 == |Text.Format2(cents)|
  {
  }

  /**
   * The printout as written agrees with the two-decimal one exactly when the receipt has lines and its
   * grand total is not a whole number of dimes.
   */
  lemma PrintAsWrittenDiffers(r: Receipt)
    requires TwoDigitPrices(r.linesWithTaxes)
    ensures PrintAsWritten(r) == Print(r) <==> r.linesWithTaxes != [] && SumTotals(r.linesWithTaxes) % 10 != 0
  {
    var c := SumTotals(r.linesWithTaxes);
    var front := PrintProducts(r) + "\n" + TaxesLine(r) + "\n" + "Total: ";
    assert Print(r) == front + Text.Format2(c);
    assert PrintAsWritten(r) == front + TotalAsWritten(r);
    if r.linesWithTaxes != [] && c % 10 != 0 {
      assert TotalAsWritten(r) == Text.Format2(c);
    } else {
      assert |PrintAsWritten(r)| < |Print(r)|;
    }
  }

  /** As written, the empty receipt of the basket `"\n"` prints its total as `0`. */
  lemma PrintAsWrittenEmpty()
    ensures PrintAsWritten(Receipt([])) == "\n" + "Sales Taxes: 0.00" + "\n" + "Total: 0"
  {
  }

  /** A total of 10.50 prints as `10.5` as written, and as `10.50` with two decimals. */
  lemma TenFifty()
    ensures FloatToS(1050) == "10.5" && Text.Format2(1050) == "10.50"
  {
  }

  /** The one-line basket of an imported box of chocolates at 10.00 totals 10.50, which the receipt as written misprints. */
  lemma ImportedBoxReceiptAsWritten(l: Lines.Line)
    requires l.quantity == 1 && l.product == "imported box of chocolates" && l.price == Lines.Decimal(1000, 2)
    ensures TwoDigitPrices(ReceiptFor([l]).linesWithTaxes)
    ensures SumTotals(ReceiptFor([l]).linesWithTaxes) == 1050
    ensures PrintAsWritten(ReceiptFor([l])) != Print(ReceiptFor([l]))
  {
    var r := ReceiptFor([l]);
    var ts := r.linesWithTaxes;
    assert ts == [SalesTax.For(l)];
    SalesTax.ImportedBoxTaxed(l);
    SumsCons(ts);
    assert ts[1..] == [];
    PrintAsWrittenDiffers(r);
    assert SumTotals(ts) % 10 == 0;
  }

  /** The rows of a printout: the product lines (one empty row when there are none), then the two summary lines. */
  lemma PrintAsJoin(r: Receipt, xs: seq<string>)
    requires TwoDigitPrices(r.linesWithTaxes)
    requires xs == if r.linesWithTaxes == [] then [""] else DisplayAll(r.linesWithTaxes)
    ensures Print(r) == Text.JoinLines(xs + [TaxesLine(r), TotalLine(r)])
  {
    var products, taxes, total := PrintProducts(r), TaxesLine(r), TotalLine(r);
    var tail := [taxes, total];
    assert tail[1..] == [total];
    assert Text.JoinLines(tail) == taxes + "\n" + total;
    assert Text.JoinLines(xs) == products;
    Text.JoinLinesAppend(xs, tail);
    PrintOf(r, products, taxes, total);
    JoinAssoc(products, taxes, total);
  }

  /** Proof helper: regrouping a three-part line-feed join. */
  lemma JoinAssoc(a: string, b: string, c: string)
    ensures a + "\n" + b + "\n" + c == a + "\n" + (b + "\n" + c)
  {
  }

  /** No row of a printout holds a line feed when no product name does. */
  lemma RowsSingleLine(r: Receipt, xs: seq<string>)
    requires TwoDigitPrices(r.linesWithTaxes) && SingleLineProducts(r.linesWithTaxes)
    requires xs == if r.linesWithTaxes == [] then [""] else DisplayAll(r.linesWithTaxes)
    ensures forall k :: 0 <= k < |xs + [TaxesLine(r), TotalLine(r)]| ==> '\n' !in (xs + [TaxesLine(r), TotalLine(r)])[k]
  {
    var ys := xs + [TaxesLine(r), TotalLine(r)];
    forall k | 0 <= k < |ys| ensures '\n' !in ys[k] {
      if k < |xs| {
        assert ys[k] == xs[k];
      }
    }
  }

  /**
   * Split at its line feeds, a printed receipt gives one line per taxed line, in order, then the
   * taxes line and the total line; an empty receipt starts with one empty line.
   */
  lemma PrintLines(r: Receipt)
    requires TwoDigitPrices(r.linesWithTaxes) && SingleLineProducts(r.linesWithTaxes)
    ensures r.linesWithTaxes != [] ==>
      Text.Fields(Print(r)) == DisplayAll(r.linesWithTaxes) + [TaxesLine(r), TotalLine(r)]
    ensures r.linesWithTaxes == [] ==> Text.Fields(Print(r)) == ["", TaxesLine(r), TotalLine(r)]
  {
    var xs := if r.linesWithTaxes == [] then [""] else DisplayAll(r.linesWithTaxes);
    PrintAsJoin(r, xs);
    RowsSingleLine(r, xs);
    Text.FieldsJoin(xs + [TaxesLine(r), TotalLine(r)]);
  }

  /** Parses every line in order; the first line that does not match makes the whole parse fail. */
  function ParseAll(ps: seq<string>): (r: Result<seq<Lines.Line>>)
    requires forall k :: 0 <= k < |ps| ==> '\n' !in ps[k]
    ensures r.Err? ==> r.error == ArgumentError
    ensures r.Ok? ==> |r.value| == |ps|
    decreases |ps|
  {
    if ps == [] then Ok([])
    else
      match Lines.Parse(ps[0])
      case Err(e) => Err(e)
      case Ok(l) =>
        match ParseAll(ps[1..])
        case Err(e) => Err(e)
        case Ok(ls) => Ok([l] + ls)
  }

  /** The parse of all lines succeeds exactly when every line parses. */
  lemma {:induction false} ParseAllOkIff(ps: seq<string>)
    requires forall k :: 0 <= k < |ps| ==> '\n' !in ps[k]
    ensures ParseAll(ps).Ok? <==> forall k :: 0 <= k < |ps| ==> Lines.Parse(ps[k]).Ok?
    decreases |ps|
  {
    if ps != [] {
      var rest := ps[1..];
      ParseAllOkIff(rest);
      assert forall k :: 1 <= k < |ps| ==> ps[k] == rest[k - 1];
      if !ParseAll(ps).Ok? && Lines.Parse(ps[0]).Ok? {
        var j :| 0 <= j < |rest| && !Lines.Parse(rest[j]).Ok?;
        assert ps[j + 1] == rest[j];
      }
    }
  }

  /** A successful parse of all lines holds the parse of each line, in order. */
  lemma {:induction false} ParseAllValues(ps: seq<string>)
    requires forall k :: 0 <= k < |ps| ==> '\n' !in ps[k]
    ensures ParseAll(ps).Ok? ==> forall k :: 0 <= k < |ps| ==> Lines.Parse(ps[k]) == Ok(ParseAll(ps).value[k])
    decreases |ps|
  {
    if ps != [] && ParseAll(ps).Ok? {
      var rest := ps[1..];
      ParseAllValues(rest);
      var ls := ParseAll(ps).value;
      assert ls == [Lines.Parse(ps[0]).value] + ParseAll(rest).value;
      forall k | 0 <= k < |ps| ensures Lines.Parse(ps[k]) == Ok(ls[k]) {
        if k > 0 {
          assert ps[k] == rest[k - 1] && ls[k] == ParseAll(rest).value[k - 1];
        }
      }
    }
  }

  /** Proof helper: `ParseAllOkIff` and `ParseAllValues` together, the form `CallSpec` and `ParseAllOk` use. */
  lemma ParseAllSpec(ps: seq<string>)
    requires forall k :: 0 <= k < |ps| ==> '\n' !in ps[k]
    ensures ParseAll(ps).Ok? <==> forall k :: 0 <= k < |ps| ==> Lines.Parse(ps[k]).Ok?
    ensures ParseAll(ps).Ok? ==> forall k :: 0 <= k < |ps| ==> Lines.Parse(ps[k]) == Ok(ParseAll(ps).value[k])
  {
    ParseAllOkIff(ps);
    ParseAllValues(ps);
  }

  /**
   * `Subscribe.call`: an absent or empty basket raises `InvalidBasket`; otherwise the basket is split
   * into lines, every line is parsed, and the parsed lines are taxed into a receipt.
   */
  function Call(basket: Option<string>): (r: Result<Receipt>)
    ensures r == Err(InvalidBasket) <==> basket == None || basket == Some("")
    ensures r.Err? ==> r == Err(InvalidBasket) || r == Err(ArgumentError)
    ensures r.Ok? ==> basket.Some? && |r.value.linesWithTaxes| == |Text.Split(basket.value)|
  {
    if basket == None || basket == Some("") then Err(InvalidBasket)
    else
      match ParseAll(Text.Split(basket.value))
      case Err(e) => Err(e)
      case Ok(lines) => Ok(ReceiptFor(lines))
  }

  /**
   * A non-empty basket gives a receipt exactly when every one of its lines parses, and then the
   * receipt's entry `k` is line `k` parsed and taxed; no line is skipped.
   */
  lemma CallSpec(basket: string)
    requires basket != ""
    ensures Call(Some(basket)).Ok? <==> forall k :: 0 <= k < |Text.Split(basket)| ==> Lines.Parse(Text.Split(basket)[k]).Ok?
    ensures Call(Some(basket)).Ok? ==> forall k :: 0 <= k < |Text.Split(basket)| ==>
      Lines.Parse(Text.Split(basket)[k]).Ok? &&
      Call(Some(basket)).value.linesWithTaxes[k] == SalesTax.For(Lines.Parse(Text.Split(basket)[k]).value)
  {
    ParseAllSpec(Text.Split(basket));
  }

  /** A basket holding only a line feed splits into no lines and gives an empty receipt. */
  lemma CallLineFeedOnly()
    ensures Call(Some("\n")) == Ok(Receipt([]))
  {
    assert Text.Fields("\n") == ["", ""] by {
      assert "\n"[1..] == "";
    }
    assert Text.Split("\n") == [];
  }

  /** An empty receipt prints an empty first line, then zero taxes and a zero total. */
  lemma PrintEmpty()
    ensures Print(Receipt([])) == "\n" + "Sales Taxes: 0.00" + "\n" + "Total: 0.00"
  {
    assert Text.Format2(0) == "0.00";
    PrintOf(Receipt([]), "", "Sales Taxes: 0.00", "Total: 0.00");
  }

  /** Splitting the join of line-feed-free lines, the last one non-empty, gives the lines back. */
  lemma SplitJoin(xs: seq<string>)
    requires |xs| >= 1 && xs[|xs| - 1] != ""
    requires forall k :: 0 <= k < |xs| ==> '\n' !in xs[k]
    ensures Text.Split(Text.JoinLines(xs)) == xs
  {
    Text.FieldsJoin(xs);
  }

  /** An empty basket text has no lines. */
  lemma SplitEmpty()
    ensures Text.Split("") == []
  {
    assert Text.Fields("") == [""];
  }

  /** A blank line anywhere but at the end of a basket makes the call raise `ArgumentError`. */
  lemma CallBlankLine(xs: seq<string>, k: nat)
    requires |xs| >= 1 && xs[|xs| - 1] != ""
    requires forall j :: 0 <= j < |xs| ==> '\n' !in xs[j]
    requires k < |xs| && xs[k] == ""
    ensures Call(Some(Text.JoinLines(xs))) == Err(ArgumentError)
  {
    var basket := Text.JoinLines(xs);
    SplitJoin(xs);
    SplitEmpty();
    assert basket != "";
    Lines.ParseRejectsBlank();
    CallSpec(basket);
    assert !Lines.Parse(Text.Split(basket)[k]).Ok?;
  }

  /** The sums of a receipt, one taxed line at a time. */
  lemma SumsCons(ts: seq<SalesTax.SaleTaxes>)
    requires TwoDigitPrices(ts) && ts != []
    ensures SumTaxes(ts) == SalesTax.Taxes(ts[0]) + SumTaxes(ts[1..])
    ensures SumTotals(ts) == SalesTax.TotalPrice(ts[0]) + SumTotals(ts[1..])
  {
  }

  /** The report of a five-line receipt, line by line. */
  lemma FiveLines(ts: seq<SalesTax.SaleTaxes>)
    requires |ts| == 5 && TwoDigitPrices(ts)
    ensures HashAll(ts) == [SalesTax.ToH(ts[0]), SalesTax.ToH(ts[1]), SalesTax.ToH(ts[2]), SalesTax.ToH(ts[3]), SalesTax.ToH(ts[4])]
    ensures SumTaxes(ts) == SalesTax.Taxes(ts[0]) + SalesTax.Taxes(ts[1]) + SalesTax.Taxes(ts[2]) + SalesTax.Taxes(ts[3]) + SalesTax.Taxes(ts[4])
    ensures SumTotals(ts) == SalesTax.TotalPrice(ts[0]) + SalesTax.TotalPrice(ts[1]) + SalesTax.TotalPrice(ts[2])
                           + SalesTax.TotalPrice(ts[3]) + SalesTax.TotalPrice(ts[4])
  {
    var t1 := ts[1..];
    var t2 := t1[1..];
    var t3 := t2[1..];
    var t4 := t3[1..];
    assert t1[0] == ts[1] && t2[0] == ts[2] && t3[0] == ts[3] && t4[0] == ts[4] && |t4| == 1;
    SumsCons(ts);
    SumsCons(t1);
    SumsCons(t2);
    SumsCons(t3);
    SumsCons(t4);
  }

  /** A five-line receipt whose lines report the given taxes and totals. */
  lemma FiveLineReport(ts: seq<SalesTax.SaleTaxes>)
    requires |ts| == 5 && TwoDigitPrices(ts)
    requires SalesTax.ToH(ts[0]) == SalesTax.SaleTaxesHash(ts[0].line.product, 2498, 2, 0)
    requires SalesTax.ToH(ts[1]) == SalesTax.SaleTaxesHash(ts[1].line.product, 1649, 1, 150)
    requires SalesTax.ToH(ts[2]) == SalesTax.SaleTaxesHash(ts[2].line.product, 85, 1, 0)
    requires SalesTax.ToH(ts[3]) == SalesTax.SaleTaxesHash(ts[3].line.product, 975, 1, 0)
    requires SalesTax.ToH(ts[4]) == SalesTax.SaleTaxesHash(ts[4].line.product, 1050, 1, 50)
    ensures ToH(Receipt(ts)).products ==
      [SalesTax.SaleTaxesHash(ts[0].line.product, 2498, 2, 0), SalesTax.SaleTaxesHash(ts[1].line.product, 1649, 1, 150),
       SalesTax.SaleTaxesHash(ts[2].line.product, 85, 1, 0), SalesTax.SaleTaxesHash(ts[3].line.product, 975, 1, 0),
       SalesTax.SaleTaxesHash(ts[4].line.product, 1050, 1, 50)]
    ensures ToH(Receipt(ts)).saleTaxes == 200 && ToH(Receipt(ts)).total == 6257
  {
    FiveLines(ts);
  }

  /** The lines of the five-line receipt, taxed one by one. */
  lemma FiveLineTaxes(l0: Lines.Line, l1: Lines.Line, l2: Lines.Line, l3: Lines.Line, l4: Lines.Line)
    requires l0.quantity == 2 && l0.product == "book" && l0.price == Lines.Decimal(1249, 2)
    requires l1.quantity == 1 && l1.product == "music CD" && l1.price == Lines.Decimal(1499, 2)
    requires l2.quantity == 1 && l2.product == "chocolate bar" && l2.price == Lines.Decimal(85, 2)
    requires l3.quantity == 1 && l3.product == "packet of headache pills" && l3.price == Lines.Decimal(975, 2)
    requires l4.quantity == 1 && l4.product == "imported box of chocolates" && l4.price == Lines.Decimal(1000, 2)
    ensures SalesTax.ToH(SalesTax.For(l0)) == SalesTax.SaleTaxesHash(l0.product, 2498, 2, 0)
    ensures SalesTax.ToH(SalesTax.For(l1)) == SalesTax.SaleTaxesHash(l1.product, 1649, 1, 150)
    ensures SalesTax.ToH(SalesTax.For(l2)) == SalesTax.SaleTaxesHash(l2.product, 85, 1, 0)
    ensures SalesTax.ToH(SalesTax.For(l3)) == SalesTax.SaleTaxesHash(l3.product, 975, 1, 0)
    ensures SalesTax.ToH(SalesTax.For(l4)) == SalesTax.SaleTaxesHash(l4.product, 1050, 1, 50)
  {
    Lines.BookExempt(l0);
    Lines.BookNotImported(l0);
    SalesTax.UntaxedHash(l0);
    SalesTax.MusicCDTaxed(l1);
    SalesTax.ChocolateBarUntaxed(l2);
    SalesTax.HeadachePillsUntaxed(l3);
    SalesTax.ImportedBoxTaxed(l4);
  }

  /** The receipt of five lines that report the given taxes and totals. */
  lemma FiveLineReceiptOf(l0: Lines.Line, l1: Lines.Line, l2: Lines.Line, l3: Lines.Line, l4: Lines.Line)
    requires l0.price.scale == 2 && l1.price.scale == 2 && l2.price.scale == 2 && l3.price.scale == 2 && l4.price.scale == 2
    requires SalesTax.ToH(SalesTax.For(l0)) == SalesTax.SaleTaxesHash(l0.product, 2498, 2, 0)
    requires SalesTax.ToH(SalesTax.For(l1)) == SalesTax.SaleTaxesHash(l1.product, 1649, 1, 150)
    requires SalesTax.ToH(SalesTax.For(l2)) == SalesTax.SaleTaxesHash(l2.product, 85, 1, 0)
    requires SalesTax.ToH(SalesTax.For(l3)) == SalesTax.SaleTaxesHash(l3.product, 975, 1, 0)
    requires SalesTax.ToH(SalesTax.For(l4)) == SalesTax.SaleTaxesHash(l4.product, 1050, 1, 50)
    ensures TwoDigitPrices(ReceiptFor([l0, l1, l2, l3, l4]).linesWithTaxes)
    ensures ToH(ReceiptFor([l0, l1, l2, l3, l4])).products ==
      [SalesTax.SaleTaxesHash(l0.product, 2498, 2, 0), SalesTax.SaleTaxesHash(l1.product, 1649, 1, 150),
       SalesTax.SaleTaxesHash(l2.product, 85, 1, 0), SalesTax.SaleTaxesHash(l3.product, 975, 1, 0),
       SalesTax.SaleTaxesHash(l4.product, 1050, 1, 50)]
    ensures ToH(ReceiptFor([l0, l1, l2, l3, l4])).saleTaxes == 200
    ensures ToH(ReceiptFor([l0, l1, l2, l3, l4])).total == 6257
  {
    var ts := ReceiptFor([l0, l1, l2, l3, l4]).linesWithTaxes;
    assert ts[0] == SalesTax.For(l0) && ts[1] == SalesTax.For(l1) && ts[2] == SalesTax.For(l2);
    assert ts[3] == SalesTax.For(l3) && ts[4] == SalesTax.For(l4);
    FiveLineReport(ts);
  }

  /**
   * The five-line receipt: two books, a music CD, a chocolate bar, headache pills and imported
   * chocolates pay 2.00 in taxes and 62.57 in all.
   */
  lemma FiveLineReceipt(l0: Lines.Line, l1: Lines.Line, l2: Lines.Line, l3: Lines.Line, l4: Lines.Line)
    requires l0.quantity == 2 && l0.product == "book" && l0.price == Lines.Decimal(1249, 2)
    requires l1.quantity == 1 && l1.product == "music CD" && l1.price == Lines.Decimal(1499, 2)
    requires l2.quantity == 1 && l2.product == "chocolate bar" && l2.price == Lines.Decimal(85, 2)
    requires l3.quantity == 1 && l3.product == "packet of headache pills" && l3.price == Lines.Decimal(975, 2)
    requires l4.quantity == 1 && l4.product == "imported box of chocolates" && l4.price == Lines.Decimal(1000, 2)
    ensures TwoDigitPrices(ReceiptFor([l0, l1, l2, l3, l4]).linesWithTaxes)
    ensures ToH(ReceiptFor([l0, l1, l2, l3, l4])).products ==
      [SalesTax.SaleTaxesHash("book", 2498, 2, 0), SalesTax.SaleTaxesHash("music CD", 1649, 1, 150),
       SalesTax.SaleTaxesHash("chocolate bar", 85, 1, 0), SalesTax.SaleTaxesHash("packet of headache pills", 975, 1, 0),
       SalesTax.SaleTaxesHash("imported box of chocolates", 1050, 1, 50)]
    ensures ToH(ReceiptFor([l0, l1, l2, l3, l4])).saleTaxes == 200
    ensures ToH(ReceiptFor([l0, l1, l2, l3, l4])).total == 6257
  {
    FiveLineTaxes(l0, l1, l2, l3, l4);
    FiveLineReceiptOf(l0, l1, l2, l3, l4);
  }

  /** Proof helper: three lines joined by line feeds. */
  lemma JoinThree(xs: seq<string>)
    requires |xs| == 3
    ensures Text.JoinLines(xs) == xs[0] + "\n" + (xs[1] + "\n" + xs[2])
  {
    assert xs[1..][1..] == [xs[2]];
    assert Text.JoinLines(xs[1..]) == xs[1] + "\n" + xs[2];
  }

  /** The printed lines and the sums of a three-line receipt, line by line. */
  lemma ThreeLines(ts: seq<SalesTax.SaleTaxes>)
    requires |ts| == 3 && TwoDigitPrices(ts)
    ensures DisplayAll(ts) == [Display(ts[0]), Display(ts[1]), Display(ts[2])]
    ensures SumTaxes(ts) == SalesTax.Taxes(ts[0]) + SalesTax.Taxes(ts[1]) + SalesTax.Taxes(ts[2])
    ensures SumTotals(ts) == SalesTax.TotalPrice(ts[0]) + SalesTax.TotalPrice(ts[1]) + SalesTax.TotalPrice(ts[2])
  {
    SumsCons(ts);
    SumsCons(ts[1..]);
    SumsCons(ts[2..]);
    assert ts[1..][1..] == ts[2..];
  }

  /** Three line-feed-free lines joined by line feeds split back into those lines. */
  lemma SplitThree(s0: string, s1: string, s2: string, basket: string)
    requires '\n' !in s0 && '\n' !in s1 && '\n' !in s2 && s2 != ""
    requires basket == s0 + "\n" + s1 + "\n" + s2
    ensures Text.Split(basket) == [s0, s1, s2]
  {
    var xs := [s0, s1, s2];
    JoinThree(xs);
    assert s0 + "\n" + (s1 + "\n" + s2) == basket;
    SplitJoin(xs);
  }

  /** Lines that all parse give the list of their parses. */
  lemma ParseAllOk(ps: seq<string>, ls: seq<Lines.Line>)
    requires forall k :: 0 <= k < |ps| ==> '\n' !in ps[k]
    requires |ps| == |ls| && forall k :: 0 <= k < |ps| ==> Lines.Parse(ps[k]) == Ok(ls[k])
    ensures ParseAll(ps) == Ok(ls)
  {
    ParseAllSpec(ps);
    var r := ParseAll(ps);
    assert r.Ok? && |r.value| == |ls|;
    forall k | 0 <= k < |ls| ensures r.value[k] == ls[k] {
      assert Lines.Parse(ps[k]) == Ok(r.value[k]);
    }
    assert r.value == ls;
  }

  /** A basket of three lines that parse gives the receipt of the three parsed lines. */
  lemma CallThree(s0: string, s1: string, s2: string, basket: string, l0: Lines.Line, l1: Lines.Line, l2: Lines.Line)
    requires '\n' !in s0 && '\n' !in s1 && '\n' !in s2 && s2 != ""
    requires basket == s0 + "\n" + s1 + "\n" + s2
    requires Lines.Parse(s0) == Ok(l0) && Lines.Parse(s1) == Ok(l1) && Lines.Parse(s2) == Ok(l2)
    ensures Call(Some(basket)) == Ok(ReceiptFor([l0, l1, l2]))
  {
    SplitThree(s0, s1, s2, basket);
    ParseAllOk([s0, s1, s2], [l0, l1, l2]);
  }

  /** The product lines of a three-line receipt. */
  lemma PrintProductsThree(ts: seq<SalesTax.SaleTaxes>)
    requires |ts| == 3 && TwoDigitPrices(ts)
    ensures PrintProducts(Receipt(ts)) == Display(ts[0]) + "\n" + (Display(ts[1]) + "\n" + Display(ts[2]))
  {
    ThreeLines(ts);
    JoinThree(DisplayAll(ts));
  }

  /** Proof helper: a printed line from its quantity digits and its total, both already written out. */
  lemma DisplayOf(t: SalesTax.SaleTaxes, qs: string, ps: string)
    requires t.line.price.scale == 2
    requires Text.NatToDigits(t.line.quantity) == qs && Text.Format2(SalesTax.TotalPrice(t)) == ps
    ensures Display(t) == qs + " " + t.line.product + ": " + ps
  {
  }

  /** Two books at 12.49 print as `2 book: 24.98`, untaxed. */
  lemma BookLinePrinted(l: Lines.Line)
    requires l.quantity == 2 && l.product == "book" && l.price == Lines.Decimal(1249, 2)
    ensures SalesTax.Taxes(SalesTax.For(l)) == 0 && SalesTax.TotalPrice(SalesTax.For(l)) == 2498
    ensures Display(SalesTax.For(l)) == "2 book: 24.98"
  {
    Lines.BookExempt(l);
    Lines.BookNotImported(l);
    SalesTax.UntaxedHash(l);
    assert Text.Format2(2498) == "24.98" && Text.NatToDigits(2) == "2";
    DisplayOf(SalesTax.For(l), "2", "24.98");
    BookText(l.product);
  }

  /** Proof helper: the literal text of the printed book line. */
  lemma BookText(p: string)
    requires p == "book"
    ensures "2" + " " + p + ": " + "24.98" == "2 book: 24.98"
  {
  }

  /** A music CD at 14.99 prints as `1 music CD: 16.49`, with 1.50 of tax. */
  lemma MusicCDLinePrinted(l: Lines.Line)
    requires l.quantity == 1 && l.product == "music CD" && l.price == Lines.Decimal(1499, 2)
    ensures SalesTax.Taxes(SalesTax.For(l)) == 150 && SalesTax.TotalPrice(SalesTax.For(l)) == 1649
    ensures Display(SalesTax.For(l)) == "1 music CD: 16.49"
  {
    SalesTax.MusicCDTaxed(l);
    assert Text.Format2(1649) == "16.49" && Text.NatToDigits(1) == "1";
    DisplayOf(SalesTax.For(l), "1", "16.49");
    MusicCDText(l.product);
  }

  /** Proof helper: the literal text of the printed music CD line. */
  lemma MusicCDText(p: string)
    requires p == "music CD"
    ensures "1" + " " + p + ": " + "16.49" == "1 music CD: 16.49"
  {
  }

  /** A chocolate bar at 0.85 prints as `1 chocolate bar: 0.85`, untaxed. */
  lemma ChocolateBarLinePrinted(l: Lines.Line)
    requires l.quantity == 1 && l.product == "chocolate bar" && l.price == Lines.Decimal(85, 2)
    ensures SalesTax.Taxes(SalesTax.For(l)) == 0 && SalesTax.TotalPrice(SalesTax.For(l)) == 85
    ensures Display(SalesTax.For(l)) == "1 chocolate bar: 0.85"
  {
    SalesTax.ChocolateBarUntaxed(l);
    assert Text.Format2(85) == "0.85" && Text.NatToDigits(1) == "1";
    DisplayOf(SalesTax.For(l), "1", "0.85");
    ChocolateBarText(l.product);
  }

  /** Proof helper: the literal text of the printed chocolate bar line. */
  lemma ChocolateBarText(p: string)
    requires p == "chocolate bar"
    ensures "1" + " " + p + ": " + "0.85" == "1 chocolate bar: 0.85"
  {
  }

  /** Proof helper: a printout from its three parts, already written out. */
  lemma PrintOf(r: Receipt, products: string, taxes: string, total: string)
    requires TwoDigitPrices(r.linesWithTaxes)
    requires PrintProducts(r) == products && TaxesLine(r) == taxes && TotalLine(r) == total
    ensures Print(r) == products + "\n" + taxes + "\n" + total
  {
  }

  /** The summary lines of the three-line basket. */
  lemma ThreeLineSums(ts: seq<SalesTax.SaleTaxes>)
    requires |ts| == 3 && TwoDigitPrices(ts)
    requires SalesTax.Taxes(ts[0]) == 0 && SalesTax.Taxes(ts[1]) == 150 && SalesTax.Taxes(ts[2]) == 0
    requires SalesTax.TotalPrice(ts[0]) == 2498 && SalesTax.TotalPrice(ts[1]) == 1649 && SalesTax.TotalPrice(ts[2]) == 85
    ensures TaxesLine(Receipt(ts)) == "Sales Taxes: 1.50"
    ensures TotalLine(Receipt(ts)) == "Total: 42.32"
  {
    ThreeLines(ts);
    assert Text.Format2(150) == "1.50" && Text.Format2(4232) == "42.32";
  }

  /** Proof helper: the text of the three-line printout, assembled from its pieces. */
  lemma ThreeLineText(d0: string, d1: string, d2: string, taxes: string, total: string)
    requires d0 == "2 book: 24.98" && d1 == "1 music CD: 16.49" && d2 == "1 chocolate bar: 0.85"
    requires taxes == "Sales Taxes: 1.50" && total == "Total: 42.32"
    ensures d0 + "\n" + (d1 + "\n" + d2) + "\n" + taxes + "\n" + total ==
      "2 book: 24.98" + "\n" + "1 music CD: 16.49" + "\n" + "1 chocolate bar: 0.85" + "\n" + "Sales Taxes: 1.50" + "\n" + "Total: 42.32"
  {
  }

  /** The receipt of three lines with the given printed lines, taxes and totals. */
  lemma ThreeLinePrintOf(l0: Lines.Line, l1: Lines.Line, l2: Lines.Line)
    requires l0.price.scale == 2 && l1.price.scale == 2 && l2.price.scale == 2
    requires Display(SalesTax.For(l0)) == "2 book: 24.98" && SalesTax.Taxes(SalesTax.For(l0)) == 0 && SalesTax.TotalPrice(SalesTax.For(l0)) == 2498
    requires Display(SalesTax.For(l1)) == "1 music CD: 16.49" && SalesTax.Taxes(SalesTax.For(l1)) == 150 && SalesTax.TotalPrice(SalesTax.For(l1)) == 1649
    requires Display(SalesTax.For(l2)) == "1 chocolate bar: 0.85" && SalesTax.Taxes(SalesTax.For(l2)) == 0 && SalesTax.TotalPrice(SalesTax.For(l2)) == 85
    ensures TwoDigitPrices(ReceiptFor([l0, l1, l2]).linesWithTaxes)
    ensures Print(ReceiptFor([l0, l1, l2])) ==
      "2 book: 24.98" + "\n" + "1 music CD: 16.49" + "\n" + "1 chocolate bar: 0.85" + "\n" + "Sales Taxes: 1.50" + "\n" + "Total: 42.32"
  {
    var r := ReceiptFor([l0, l1, l2]);
    var ts := r.linesWithTaxes;
    assert ts[0] == SalesTax.For(l0) && ts[1] == SalesTax.For(l1) && ts[2] == SalesTax.For(l2);
    PrintProductsThree(ts);
    ThreeLineSums(ts);
    var d0, d1, d2 := "2 book: 24.98", "1 music CD: 16.49", "1 chocolate bar: 0.85";
    PrintOf(r, d0 + "\n" + (d1 + "\n" + d2), "Sales Taxes: 1.50", "Total: 42.32");
    ThreeLineText(d0, d1, d2, "Sales Taxes: 1.50", "Total: 42.32");
  }

  /** The three-line basket prints its lines, then `Sales Taxes: 1.50`, then `Total: 42.32`. */
  lemma ThreeLinePrint(l0: Lines.Line, l1: Lines.Line, l2: Lines.Line)
    requires l0.quantity == 2 && l0.product == "book" && l0.price == Lines.Decimal(1249, 2)
    requires l1.quantity == 1 && l1.product == "music CD" && l1.price == Lines.Decimal(1499, 2)
    requires l2.quantity == 1 && l2.product == "chocolate bar" && l2.price == Lines.Decimal(85, 2)
    ensures TwoDigitPrices(ReceiptFor([l0, l1, l2]).linesWithTaxes)
    ensures Print(ReceiptFor([l0, l1, l2])) ==
      "2 book: 24.98" + "\n" + "1 music CD: 16.49" + "\n" + "1 chocolate bar: 0.85" + "\n" + "Sales Taxes: 1.50" + "\n" + "Total: 42.32"
  {
    BookLinePrinted(l0);
    MusicCDLinePrinted(l1);
    ChocolateBarLinePrinted(l2);
    ThreeLinePrintOf(l0, l1, l2);
  }

  /** `Subscribe.call` on the three-line basket, printed. */
  lemma ThreeLineBasket(s0: string, s1: string, s2: string, basket: string)
    requires s0 == "2" + " " + "book" + " at " + "12" + "." + "49"
    requires s1 == "1" + " " + "music CD" + " at " + "14" + "." + "99"
    requires s2 == "1" + " " + "chocolate bar" + " at " + "0" + "." + "85"
    requires basket == s0 + "\n" + s1 + "\n" + s2
    ensures Call(Some(basket)).Ok? && TwoDigitPrices(Call(Some(basket)).value.linesWithTaxes)
    ensures Print(Call(Some(basket)).value) ==
      "2 book: 24.98" + "\n" + "1 music CD: 16.49" + "\n" + "1 chocolate bar: 0.85" + "\n" + "Sales Taxes: 1.50" + "\n" + "Total: 42.32"
  {
    Lines.ParseBookLine(s0);
    Lines.ParseMusicLine(s1);
    Lines.ParseChocolateLine(s2);
    var l0, l1, l2 := Lines.Line(2, "book", Lines.Decimal(1249, 2)), Lines.Line(1, "music CD", Lines.Decimal(1499, 2)),
                      Lines.Line(1, "chocolate bar", Lines.Decimal(85, 2));
    CallThree(s0, s1, s2, basket, l0, l1, l2);
    ThreeLinePrint(l0, l1, l2);
  }
}
