/**
 * A taxed line: `Subscribe::SaleTaxes`. Amounts are whole cents and rates whole percents, so the
 * tax and total below are exact for prices with two fractional digits.
 */
module SalesTax {
  import Text
  import Lines

  /** `SALE_TAX`, 0.10, as a percentage. */
  const SaleTax: nat := 10
  /** `IMPORT_TAX`, 0.05, as a percentage. */
  const ImportTax: nat := 5
  /** `PRECISION_RATE`, 0.05, in cents: taxes are rounded up to a multiple of it. */
  const PrecisionRate: nat := 5

  /** A line with its tax rate `tax`, in percent. */
  datatype SaleTaxes = SaleTaxes(line: Lines.Line, tax: nat)

  /** What `SaleTaxes#to_h` reports; amounts in cents. */
  datatype SaleTaxesHash = SaleTaxesHash(product: string, totalPrice: nat, quantity: nat, taxes: nat)

  /** `SaleTaxes.for`: 10% unless the line is exempt, plus 5% if it is imported. */
  function For(line: Lines.Line): (t: SaleTaxes)
    ensures t.line == line
    ensures t.tax == 0 || t.tax == 5 || t.tax == 10 || t.tax == 15
  {
    var saleRate := if Lines.Exempt(line) then 0 else SaleTax;
    var importRate := if Lines.Imported(line) then ImportTax else 0;
    SaleTaxes(line, saleRate + importRate)
  }

  /** The rate distinguishes all four combinations of exempt and imported. */
  lemma RateCases(line: Lines.Line)
    ensures For(line).tax == 0 <==> Lines.Exempt(line) && !Lines.Imported(line)
    ensures For(line).tax == 5 <==> Lines.Exempt(line) && Lines.Imported(line)
    ensures For(line).tax == 10 <==> !Lines.Exempt(line) && !Lines.Imported(line)
    ensures For(line).tax == 15 <==> !Lines.Exempt(line) && Lines.Imported(line)
  {
  }

  /** `Line#total` in cents, for a price with two fractional digits. */
  function Subtotal(line: Lines.Line): (c: nat)
    requires line.price.scale == 2
    ensures c as real == Lines.Value(Lines.Total(line)) * 100.0
  {
    line.price.mantissa * line.quantity
  }

  /** Division rounded up. */
  function CeilDiv(a: nat, b: nat): (r: nat)
    requires b > 0
    ensures b * r >= a && b * r < a + b
  {
    assert a + b - 1 == b * ((a + b - 1) / b) + (a + b - 1) % b;
    (a + b - 1) / b
  }

  /**
   * `SaleTaxes#taxes` in cents: the raw tax, subtotal times rate, rounded up to a multiple of
   * `PrecisionRate`; it is never below the raw tax and less than one step above it.
   */
  function Taxes(t: SaleTaxes): (c: nat)
    requires t.line.price.scale == 2
    ensures c % PrecisionRate == 0
    ensures 100 * c >= Subtotal(t.line) * t.tax
    ensures 100 * c < Subtotal(t.line) * t.tax + 100 * PrecisionRate
  {
    var k := CeilDiv(Subtotal(t.line) * t.tax, 100 * PrecisionRate);
    assert (PrecisionRate * k) % PrecisionRate == 0;
    PrecisionRate * k
  }

  /** The tax is the least multiple of `PrecisionRate` that covers the raw tax. */
  lemma TaxesIsLeast(t: SaleTaxes, m: nat)
    requires t.line.price.scale == 2
    requires m % PrecisionRate == 0 && 100 * m >= Subtotal(t.line) * t.tax
    ensures Taxes(t) <= m
  {
    var a, k := m / PrecisionRate, Taxes(t) / PrecisionRate;
    assert m == PrecisionRate * a && Taxes(t) == PrecisionRate * k;
    assert 100 * PrecisionRate * k < 100 * PrecisionRate * (a + 1);
  }

  /** `SaleTaxes#total_price` in cents: the line total plus its tax. */
  function TotalPrice(t: SaleTaxes): (c: nat)
    requires t.line.price.scale == 2
    ensures c >= Subtotal(t.line)
    ensures c as real / 100.0 == Lines.Value(Lines.Total(t.line)) + Taxes(t) as real / 100.0
  {
    Taxes(t) + Subtotal(t.line)
  }

  /** `SaleTaxes#to_h`: product and quantity pass through from the wrapped line. */
  function ToH(t: SaleTaxes): (h: SaleTaxesHash)
    requires t.line.price.scale == 2
    ensures h.product == t.line.product && h.quantity == t.line.quantity
    ensures h.taxes == Taxes(t) && h.totalPrice == h.taxes + Subtotal(t.line)
  {
    SaleTaxesHash(t.line.product, TotalPrice(t), t.line.quantity, Taxes(t))
  }

  /** An exempt line that is not imported pays no tax. */
  lemma ExemptDomesticUntaxed(line: Lines.Line)
    requires line.price.scale == 2
    requires Lines.Exempt(line) && !Lines.Imported(line)
    ensures Taxes(For(line)) == 0 && TotalPrice(For(line)) == Subtotal(line)
  {
    var t := For(line);
    assert t.tax == 0;
  }

  /** An exempt line that is imported pays the import rate only. */
  lemma ExemptImportedFivePercent(line: Lines.Line)
    requires line.price.scale == 2
    requires Lines.Exempt(line) && Lines.Imported(line)
    ensures For(line).tax == ImportTax
    ensures 100 * Taxes(For(line)) >= Subtotal(line) * 5
  {
  }

  /** The raw tax is rounded up, never down: 14.99 at 10% gives 1.50 and 47.50 at 15% gives 7.15. */
  lemma RoundsUp()
    ensures Taxes(SaleTaxes(Lines.Line(1, "music CD", Lines.Decimal(1499, 2)), 10)) == 150
    ensures Taxes(SaleTaxes(Lines.Line(1, "bottle of perfume", Lines.Decimal(1899, 2)), 10)) == 190
    ensures Taxes(SaleTaxes(Lines.Line(1, "imported bottle of perfume", Lines.Decimal(4750, 2)), 15)) == 715
    ensures Taxes(SaleTaxes(Lines.Line(1, "imported box of chocolates", Lines.Decimal(1000, 2)), 5)) == 50
  {
  }

  /** What `to_h` reports for a line taxed at `rate` percent, with its tax and total worked out. */
  lemma RatedHash(line: Lines.Line, rate: nat, tax: nat, total: nat)
    requires line.price.scale == 2
    requires For(line).tax == rate
    requires Taxes(SaleTaxes(line, rate)) == tax && total == Subtotal(line) + tax
    ensures ToH(For(line)) == SaleTaxesHash(line.product, total, line.quantity, tax)
  {
  }

  /** An exempt line that is not imported is reported at its subtotal, with no tax. */
  lemma UntaxedHash(line: Lines.Line)
    requires line.price.scale == 2
    requires Lines.Exempt(line) && !Lines.Imported(line)
    ensures ToH(For(line)) == SaleTaxesHash(line.product, Subtotal(line), line.quantity, 0)
  {
    ExemptDomesticUntaxed(line);
  }

  /** General goods at 10%: 14.99 gives tax 1.50 and total 16.49. */
  lemma MusicCDTaxed(line: Lines.Line)
    requires line.product == "music CD" && line.quantity == 1 && line.price == Lines.Decimal(1499, 2)
    ensures ToH(For(line)) == SaleTaxesHash(line.product, 1649, 1, 150)
  {
    Lines.MusicCDNotExempt(line);
    Lines.MusicCDNotImported(line);
    assert Taxes(SaleTaxes(line, 10)) == 150;
    RatedHash(line, 10, 150, 1649);
  }

  /** General goods at 10%: 18.99 gives tax 1.90 and total 20.89. */
  lemma PerfumeTaxed(line: Lines.Line)
    requires line.product == "bottle of perfume" && line.quantity == 1 && line.price == Lines.Decimal(1899, 2)
    ensures ToH(For(line)) == SaleTaxesHash(line.product, 2089, 1, 190)
  {
    Lines.PerfumeNotExempt(line);
    Lines.PerfumeNotImported(line);
    assert Taxes(SaleTaxes(line, 10)) == 190;
    RatedHash(line, 10, 190, 2089);
  }

  /** A book is exempt: 12.49 pays no tax. */
  lemma BookUntaxed(line: Lines.Line)
    requires line.product == "book" && line.quantity == 1 && line.price == Lines.Decimal(1249, 2)
    ensures ToH(For(line)) == SaleTaxesHash(line.product, 1249, 1, 0)
  {
    Lines.BookExempt(line);
    Lines.BookNotImported(line);
    UntaxedHash(line);
  }

  /** Food is exempt: 0.85 pays no tax. */
  lemma ChocolateBarUntaxed(line: Lines.Line)
    requires line.product == "chocolate bar" && line.quantity == 1 && line.price == Lines.Decimal(85, 2)
    ensures ToH(For(line)) == SaleTaxesHash(line.product, 85, 1, 0)
  {
    Lines.ChocolateBarExempt(line);
    Lines.ChocolateBarNotImported(line);
    UntaxedHash(line);
  }

  /** Medicine is exempt: 9.75 pays no tax. */
  lemma HeadachePillsUntaxed(line: Lines.Line)
    requires line.product == "packet of headache pills" && line.quantity == 1 && line.price == Lines.Decimal(975, 2)
    ensures ToH(For(line)) == SaleTaxesHash(line.product, 975, 1, 0)
  {
    Lines.HeadachePillsExempt(line);
    Lines.HeadachePillsNotImported(line);
    UntaxedHash(line);
  }

  /** Imported food pays the import rate only: 10.00 gives tax 0.50 and total 10.50. */
  lemma ImportedBoxTaxed(line: Lines.Line)
    requires line.product == "imported box of chocolates" && line.quantity == 1 && line.price == Lines.Decimal(1000, 2)
    ensures ToH(For(line)) == SaleTaxesHash(line.product, 1050, 1, 50)
  {
    Lines.ImportedBoxExempt(line);
    Lines.ImportedBoxImported(line);
    assert Taxes(SaleTaxes(line, 5)) == 50;
    RatedHash(line, 5, 50, 1050);
  }

  /** Imported general goods pay both rates: 47.50 gives tax 7.15 and total 54.65. */
  lemma ImportedPerfumeTaxed(line: Lines.Line)
    requires line.product == "imported bottle of perfume" && line.quantity == 1 && line.price == Lines.Decimal(4750, 2)
    ensures ToH(For(line)) == SaleTaxesHash(line.product, 5465, 1, 715)
  {
    Lines.ImportedPerfumeNotExempt(line);
    Lines.ImportedPerfumeImported(line);
    assert Taxes(SaleTaxes(line, 15)) == 715;
    RatedHash(line, 15, 715, 5465);
  }
}
