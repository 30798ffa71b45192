/** One basket line: `Subscribe::Line` with its parser `Line.for` and its classification. */
module Lines {
  import opened Results
  import opened Text

  /** An exact decimal: `mantissa / 10^scale`, where `scale` is the number of fractional digits. */
  datatype Decimal = Decimal(mantissa: nat, scale: nat)

  datatype Line = Line(quantity: nat, product: string, price: Decimal)

  /** What `Line#to_h` reports. */
  datatype LineHash = LineHash(product: string, price: Decimal, quantity: nat)

  const ExemptProducts: seq<string> := ["book", "chocolate bar", "packet of headache pills", "box of chocolates"]

  function Value(d: Decimal): real
  {
    d.mantissa as real / Pow10(d.scale) as real
  }

  /** End of the run of digits that starts at index `k` of `s`. */
  function DigitRunEnd(s: string, k: nat): (r: nat)
    requires k <= |s|
    ensures k <= r <= |s|
    ensures forall x :: k <= x < r ==> IsDigit(s[x])
    ensures r < |s| ==> !IsDigit(s[r])
    decreases |s| - k
  {
    if k < |s| && IsDigit(s[k]) then DigitRunEnd(s, k + 1) else k
  }

  /** Start of the run of non-whitespace characters that ends just before index `k` of `s`. */
  function TokenStart(s: string, k: nat): (r: nat)
    requires k <= |s|
    ensures r <= k
    ensures forall x :: r <= x < k ==> !IsSpace(s[x])
    ensures r > 0 ==> IsSpace(s[r - 1])
    decreases k
  {
    if k > 0 && !IsSpace(s[k - 1]) then TokenStart(s, k - 1) else k
  }

  /** The price group `\d+\.\d+` read with its integer digits ending at index `k`: a dot, then digits to the end. */
  function PriceAt(t: string, k: nat): Option<Decimal>
    requires k <= |t| && AllDigits(t[..k])
  {
    if 1 <= k && k + 1 < |t| && t[k] == '.' && AllDigits(t[k + 1..]) then
      Some(Decimal(DigitsValue(t[..k] + t[k + 1..]), |t| - k - 1))
    else None
  }

  /** The price group `\d+\.\d+` of the line pattern, read as an exact decimal. */
  function ParsePrice(t: string): Option<Decimal>
  {
    PriceAt(t, DigitRunEnd(t, 0))
  }

  /**
   * `s` is `q w1 name w2 "at" w3 i "." f` as the line pattern `^(\d+)\s(.+)\sat\s(\d+\.\d+)$`
   * splits it: `q`, `i`, `f` non-empty digit runs, `w1`, `w2`, `w3` whitespace other than a line feed,
   * `name` non-empty and free of line feeds (the model covers single-line text only).
   */
  ghost predicate PatternMatch(s: string, q: string, w1: char, name: string, w2: char, w3: char, i: string, f: string)
  {
    && |q| >= 1 && AllDigits(q)
    && IsSpace(w1) && IsSpace(w2) && IsSpace(w3) && '\n' !in [w1, w2, w3]
    && |name| >= 1 && '\n' !in name
    && |i| >= 1 && AllDigits(i)
    && |f| >= 1 && AllDigits(f)
    && s == q + [w1] + name + [w2, 'a', 't', w3] + i + ['.'] + f
  }

  /**
   * The line read with the quantity run ending at `n` and the price token starting at `j`: the
   * quantity must be followed by whitespace, the token preceded by whitespace, `at`, whitespace,
   * and a non-empty product must lie between.
   */
  function ParseAt(s: string, n: nat, j: nat): (r: Result<Line>)
    requires n <= |s| && j <= |s| && AllDigits(s[..n])
    ensures r.Err? ==> r.error == ArgumentError
  {
    if 1 <= n && n + 6 <= j && IsSpace(s[n]) && IsSpace(s[j - 4]) && s[j - 3] == 'a' && s[j - 2] == 't' then
      match ParsePrice(s[j..])
      case Some(p) => Ok(Line(DigitsValue(s[..n]), s[n + 1..j - 4], p))
      case None => Err(ArgumentError)
    else Err(ArgumentError)
  }

  /**
   * `Line.for`: parse one line, or raise `ArgumentError` when it does not match the pattern. The
   * quantity is the whole leading digit run and the price the whole trailing non-whitespace token.
   */
  function Parse(s: string): (r: Result<Line>)
    requires '\n' !in s
    ensures r.Err? ==> r.error == ArgumentError
  {
    ParseAt(s, DigitRunEnd(s, 0), TokenStart(s, |s|))
  }

  /** A run of digits from `k` that stops at `r` ends at `r`. */
  lemma {:induction false} DigitRunEndIs(s: string, k: nat, r: nat)
    requires k <= r <= |s|
    requires forall x :: k <= x < r ==> IsDigit(s[x])
    requires r < |s| ==> !IsDigit(s[r])
    ensures DigitRunEnd(s, k) == r
    decreases r - k
  {
    if k < r {
      DigitRunEndIs(s, k + 1, r);
    }
  }

  /** A token of non-whitespace from `r` up to `k` with whitespace (or nothing) before it starts at `r`. */
  lemma {:induction false} TokenStartIs(s: string, k: nat, r: nat)
    requires r <= k <= |s|
    requires forall x :: r <= x < k ==> !IsSpace(s[x])
    requires r > 0 ==> IsSpace(s[r - 1])
    ensures TokenStart(s, k) == r
    decreases k - r
  {
    if r < k {
      TokenStartIs(s, k - 1, r);
    }
  }

  /** The price token `i.f` reads as the decimal with mantissa `if` and `|f|` fractional digits. */
  lemma ParsePriceOf(i: string, f: string)
    requires |i| >= 1 && AllDigits(i) && |f| >= 1 && AllDigits(f)
    ensures DigitRunEnd(i + ['.'] + f, 0) == |i|
    ensures ParsePrice(i + ['.'] + f) == Some(Decimal(DigitsValue(i + f), |f|))
  {
    var t := i + ['.'] + f;
    IntegerDigitsOf(t, i, f);
    PriceAtOf(t, i, f);
  }

  lemma IntegerDigitsOf(t: string, i: string, f: string)
    requires AllDigits(i) && t == i + ['.'] + f
    ensures DigitRunEnd(t, 0) == |i|
  {
    assert forall x :: 0 <= x < |i| ==> t[x] == i[x];
    assert t[|i|] == '.';
    DigitRunEndIs(t, 0, |i|);
  }

  lemma PriceAtOf(t: string, i: string, f: string)
    requires |i| >= 1 && AllDigits(i) && |f| >= 1 && AllDigits(f) && t == i + ['.'] + f
    ensures AllDigits(t[..|i|])
    ensures PriceAt(t, |i|) == Some(Decimal(DigitsValue(i + f), |f|))
  {
    assert t[..|i|] == i && t[|i| + 1..] == f;
  }

  /** The pattern's parts read off by position: the index form of `PatternMatch`. */
  ghost predicate Cuts(s: string, q: string, w1: char, name: string, w2: char, w3: char, i: string, f: string)
  {
    && |q| >= 1 && AllDigits(q)
    && IsSpace(w1) && IsSpace(w2) && IsSpace(w3) && '\n' !in [w1, w2, w3]
    && |name| >= 1 && '\n' !in name
    && |i| >= 1 && AllDigits(i)
    && |f| >= 1 && AllDigits(f)
    && |s| == |q| + |name| + 5 + |i| + 1 + |f|
    && s[..|q|] == q && s[|q|] == w1 && s[|q| + 1..|q| + |name| + 1] == name
    && s[|q| + |name| + 1] == w2 && s[|q| + |name| + 2] == 'a' && s[|q| + |name| + 3] == 't'
    && s[|q| + |name| + 4] == w3
    && s[|q| + |name| + 5..] == i + ['.'] + f
  }

  lemma MatchCuts(s: string, q: string, w1: char, name: string, w2: char, w3: char, i: string, f: string)
    requires PatternMatch(s, q, w1, name, w2, w3, i, f)
    ensures Cuts(s, q, w1, name, w2, w3, i, f)
  {
    var a := q + [w1];
    var b := a + name;
    var c := b + [w2, 'a', 't', w3];
    var t := i + ['.'] + f;
    assert s == c + t;
    assert s[..|c|] == c && s[|c|..] == t;
    assert c[..|b|] == b && b[..|a|] == a && b[|a|..] == name;
    assert s[..|q|] == q;
    assert s[|q| + 1..|b|] == name;
  }

  /** The index form gives back the concatenation form. */
  lemma CutsMatch(s: string, q: string, w1: char, name: string, w2: char, w3: char, i: string, f: string)
    requires Cuts(s, q, w1, name, w2, w3, i, f)
    ensures PatternMatch(s, q, w1, name, w2, w3, i, f)
  {
    var p := |q| + |name| + 5;
    var a := q + [w1];
    var b := a + name;
    var c := b + [w2, 'a', 't', w3];
    assert s[..|q| + 1] == a;
    assert s[..p - 4] == b;
    assert s[..p] == c;
    assert s == s[..p] + s[p..];
  }

  /** Where the parser's two cuts fall in a string the pattern matches. */
  lemma CutPositions(s: string, q: string, w1: char, name: string, w2: char, w3: char, i: string, f: string)
    requires Cuts(s, q, w1, name, w2, w3, i, f)
    ensures DigitRunEnd(s, 0) == |q|
    ensures TokenStart(s, |s|) == |q| + |name| + 5
  {
    var p := |q| + |name| + 5;
    assert forall x :: 0 <= x < |q| ==> s[x] == s[..|q|][x];
    DigitRunEndIs(s, 0, |q|);
    var t := i + ['.'] + f;
    assert forall x :: p <= x < |s| ==> s[x] == t[x - p];
    assert forall y :: 0 <= y < |t| ==> IsDigit(t[y]) || t[y] == '.';
    TokenStartIs(s, |s|, p);
  }

  lemma CutsNoLineFeed(s: string, q: string, w1: char, name: string, w2: char, w3: char, i: string, f: string)
    requires Cuts(s, q, w1, name, w2, w3, i, f)
    ensures '\n' !in s
  {
    var n := |q|;
    var j := |q| + |name| + 5;
    var t := i + ['.'] + f;
    forall k | 0 <= k < |s| ensures s[k] != '\n' {
      if k < n {
        assert s[k] == s[..n][k];
      } else if n + 1 <= k < j - 4 {
        assert s[k] == s[n + 1..j - 4][k - n - 1];
      } else if j <= k {
        assert s[k] == t[k - j];
        assert IsDigit(t[k - j]) || t[k - j] == '.';
      }
    }
  }

  /** At the pattern's cuts the parser builds the line from the parts. */
  lemma CutsParseAt(s: string, q: string, w1: char, name: string, w2: char, w3: char, i: string, f: string)
    requires Cuts(s, q, w1, name, w2, w3, i, f)
    ensures AllDigits(s[..|q|])
    ensures ParseAt(s, |q|, |q| + |name| + 5) == Ok(Line(DigitsValue(q), name, Decimal(DigitsValue(i + f), |f|)))
  {
    ParsePriceOf(i, f);
  }

  lemma CutsParse(s: string, q: string, w1: char, name: string, w2: char, w3: char, i: string, f: string)
    requires Cuts(s, q, w1, name, w2, w3, i, f)
    ensures '\n' !in s
    ensures Parse(s) == Ok(Line(DigitsValue(q), name, Decimal(DigitsValue(i + f), |f|)))
  {
    CutsNoLineFeed(s, q, w1, name, w2, w3, i, f);
    CutPositions(s, q, w1, name, w2, w3, i, f);
    CutsParseAt(s, q, w1, name, w2, w3, i, f);
  }

  /** A line of the pattern's shape parses to its parts, even when `name` itself contains " at ". */
  lemma ParseMatch(s: string, q: string, w1: char, name: string, w2: char, w3: char, i: string, f: string)
    requires PatternMatch(s, q, w1, name, w2, w3, i, f)
    ensures '\n' !in s
    ensures Parse(s) == Ok(Line(DigitsValue(q), name, Decimal(DigitsValue(i + f), |f|)))
  {
    MatchCuts(s, q, w1, name, w2, w3, i, f);
    CutsParse(s, q, w1, name, w2, w3, i, f);
  }

  /** The price token `ParsePrice` accepts is two digit runs around a dot. */
  lemma PriceParts(t: string, k: nat)
    requires k <= |t| && AllDigits(t[..k]) && PriceAt(t, k).Some?
    ensures 1 <= k < |t| - 1 && t == t[..k] + ['.'] + t[k + 1..] && AllDigits(t[k + 1..])
    ensures PriceAt(t, k).value == Decimal(DigitsValue(t[..k] + t[k + 1..]), |t[k + 1..]|)
  {
    assert t == t[..k] + ['.'] + t[k + 1..];
  }

  /** What the parser cuts out of a line it accepts at `n` and `j` has the pattern's shape. */
  lemma AcceptedCuts(s: string, n: nat, j: nat) returns (q: string, w1: char, name: string, w2: char, w3: char, i: string, f: string)
    requires '\n' !in s && n <= |s| && j <= |s| && AllDigits(s[..n]) && (j > 0 ==> IsSpace(s[j - 1]))
    requires ParseAt(s, n, j).Ok?
    ensures Cuts(s, q, w1, name, w2, w3, i, f)
    ensures ParseAt(s, n, j).value == Line(DigitsValue(q), name, Decimal(DigitsValue(i + f), |f|))
  {
    var t := s[j..];
    var k := DigitRunEnd(t, 0);
    assert AllDigits(t[..k]);
    PriceParts(t, k);
    q, w1, name, w2, w3, i, f := s[..n], s[n], s[n + 1..j - 4], s[j - 4], s[j - 1], t[..k], t[k + 1..];
    assert '\n' !in name by {
      forall x | 0 <= x < |name| ensures name[x] != '\n' { assert name[x] == s[n + 1 + x]; }
    }
    assert '\n' !in [w1, w2, w3];
    assert |q| + |name| + 5 == j;
  }

  /** The parts `Parse` cuts out of a line it accepts. */
  lemma ParseCuts(s: string) returns (q: string, w1: char, name: string, w2: char, w3: char, i: string, f: string)
    requires '\n' !in s && Parse(s).Ok?
    ensures Cuts(s, q, w1, name, w2, w3, i, f)
    ensures Parse(s).value == Line(DigitsValue(q), name, Decimal(DigitsValue(i + f), |f|))
  {
    q, w1, name, w2, w3, i, f := AcceptedCuts(s, DigitRunEnd(s, 0), TokenStart(s, |s|));
  }

  /** Whatever `Parse` accepts has the pattern's shape, and its parts are what `Parse` returns. */
  lemma ParseSound(s: string)
    requires '\n' !in s && Parse(s).Ok?
    ensures exists q, w1, name, w2, w3, i, f ::
              PatternMatch(s, q, w1, name, w2, w3, i, f) &&
              Parse(s).value == Line(DigitsValue(q), name, Decimal(DigitsValue(i + f), |f|))
  {
    var q, w1, name, w2, w3, i, f := ParseCuts(s);
    CutsMatch(s, q, w1, name, w2, w3, i, f);
  }

  /** An accepted line has a non-empty, single-line product. */
  lemma ParsedProduct(s: string)
    requires '\n' !in s && Parse(s).Ok?
    ensures |Parse(s).value.product| >= 1 && '\n' !in Parse(s).value.product
  {
    var q, w1, name, w2, w3, i, f := ParseCuts(s);
  }

  /** `Line.for` raises `ArgumentError` exactly when the line does not have the pattern's shape. */
  lemma ParseFailsIffNoMatch(s: string)
    requires '\n' !in s
    ensures Parse(s) == Err(ArgumentError) <==>
            forall q, w1, name, w2, w3, i, f :: !PatternMatch(s, q, w1, name, w2, w3, i, f)
  {
    if Parse(s).Ok? {
      ParseSound(s);
    } else {
      forall q, w1, name, w2, w3, i, f ensures !PatternMatch(s, q, w1, name, w2, w3, i, f) {
        if PatternMatch(s, q, w1, name, w2, w3, i, f) {
          ParseMatch(s, q, w1, name, w2, w3, i, f);
        }
      }
    }
  }

  /** A price token splits around its dot in one way only. */
  lemma PriceSplitUnique(t: string, i: string, f: string, i': string, f': string)
    requires AllDigits(i) && AllDigits(i') && t == i + ['.'] + f && t == i' + ['.'] + f'
    ensures i == i' && f == f'
  {
    IntegerDigitsOf(t, i, f);
    IntegerDigitsOf(t, i', f');
    assert i == t[..|i|] && f == t[|i| + 1..];
  }

  /** Two index-form splits of one string with the same cut positions agree. */
  lemma SameCutsSameParts(s: string, q: string, w1: char, name: string, w2: char, w3: char, i: string, f: string,
                          q': string, w1': char, name': string, w2': char, w3': char, i': string, f': string)
    requires Cuts(s, q, w1, name, w2, w3, i, f)
    requires Cuts(s, q', w1', name', w2', w3', i', f')
    requires |q| == |q'| && |name| == |name'|
    ensures q == q' && w1 == w1' && name == name' && w2 == w2' && w3 == w3' && i == i' && f == f'
  {
    PriceSplitUnique(s[|q| + |name| + 5..], i, f, i', f');
  }

  /** Two index-form splits of one string agree. */
  lemma CutsUnique(s: string, q: string, w1: char, name: string, w2: char, w3: char, i: string, f: string,
                   q': string, w1': char, name': string, w2': char, w3': char, i': string, f': string)
    requires Cuts(s, q, w1, name, w2, w3, i, f)
    requires Cuts(s, q', w1', name', w2', w3', i', f')
    ensures q == q' && w1 == w1' && name == name' && w2 == w2' && w3 == w3' && i == i' && f == f'
  {
    CutPositions(s, q, w1, name, w2, w3, i, f);
    CutPositions(s, q', w1', name', w2', w3', i', f');
    SameCutsSameParts(s, q, w1, name, w2, w3, i, f, q', w1', name', w2', w3', i', f');
  }

  /** The pattern splits a line in one way only: the quantity is the whole leading digit run and the price the final token. */
  lemma MatchUnique(s: string, q: string, w1: char, name: string, w2: char, w3: char, i: string, f: string,
                    q': string, w1': char, name': string, w2': char, w3': char, i': string, f': string)
    requires PatternMatch(s, q, w1, name, w2, w3, i, f)
    requires PatternMatch(s, q', w1', name', w2', w3', i', f')
    ensures q == q' && w1 == w1' && name == name' && w2 == w2' && w3 == w3' && i == i' && f == f'
  {
    MatchCuts(s, q, w1, name, w2, w3, i, f);
    MatchCuts(s, q', w1', name', w2', w3', i', f');
    CutsUnique(s, q, w1, name, w2, w3, i, f, q', w1', name', w2', w3', i', f');
  }

  /** `Line#total`: unit price times quantity, exactly. */
  function Total(l: Line): (d: Decimal)
    ensures d.scale == l.price.scale
    ensures Value(d) == Value(l.price) * l.quantity as real
  {
    Decimal(l.price.mantissa * l.quantity, l.price.scale)
  }

  /** `Line#to_h`: reports the line total, not the unit price, under `price`. */
  function ToH(l: Line): (h: LineHash)
    ensures h.product == l.product && h.quantity == l.quantity
    ensures Value(h.price) == Value(l.price) * l.quantity as real
  {
    LineHash(l.product, Total(l), l.quantity)
  }

  /** `imported` and one whitespace character start at index `k` of `s`. */
  predicate ImportedAt(s: string, k: nat)
  {
    k + 9 <= |s| && s[k..k + 8] == "imported" && IsSpace(s[k + 8])
  }

  /**
   * `gsub(/^imported\s/, '')` on `s[k..]`: removes every `imported` plus one whitespace character found at
   * a line start, that is at index 0 or just after a line feed of the original text; `atLineStart`
   * says whether index `k` is one.
   */
  function RemoveImportedFrom(s: string, k: nat, atLineStart: bool): (r: string)
    requires k <= |s|
    ensures |r| <= |s| - k
    decreases |s| - k
  {
    if k == |s| then []
    else if atLineStart && ImportedAt(s, k) then RemoveImportedFrom(s, k + 9, s[k + 8] == '\n')
    else [s[k]] + RemoveImportedFrom(s, k + 1, s[k] == '\n')
  }

  /** One leading `imported` and whitespace character removed, if present. */
  function StripImportedPrefix(p: string): string
  {
    if ImportedAt(p, 0) then p[9..] else p
  }

  lemma {:induction false} RemoveImportedNoLineStart(s: string, k: nat)
    requires k <= |s| && forall x :: k <= x < |s| ==> s[x] != '\n'
    ensures RemoveImportedFrom(s, k, false) == s[k..]
    decreases |s| - k
  {
    if k < |s| {
      RemoveImportedNoLineStart(s, k + 1);
      assert s[k..] == [s[k]] + s[k + 1..];
    }
  }

  /** On a single-line product the `gsub` strips one leading `imported` and whitespace character, and nothing else. */
  lemma RemoveImportedSingleLine(p: string)
    requires '\n' !in p
    ensures RemoveImportedFrom(p, 0, true) == StripImportedPrefix(p)
  {
    if p != [] {
      var k := if ImportedAt(p, 0) then 9 else 1;
      RemoveImportedNoLineStart(p, k);
      assert p == [p[0]] + p[1..];
    }
  }

  /** `EXEMPT_PRODUCTS.include?`. */
  predicate IsExemptName(p: string)
  {
    p in ExemptProducts
  }

  /** `Line#exempt?`. */
  predicate Exempt(l: Line)
  {
    IsExemptName(RemoveImportedFrom(l.product, 0, true))
  }

  /** `Line#imported?`. */
  predicate Imported(l: Line)
  {
    HasSubstring(l.product, "imported")
  }

  /** A single-line product is exempt exactly when it is one of the four names, optionally after `imported` and a space. */
  lemma ExemptIff(l: Line)
    requires '\n' !in l.product
    ensures Exempt(l) <==>
            l.product in ExemptProducts ||
            (9 <= |l.product| && l.product[..8] == "imported" && IsSpace(l.product[8]) && l.product[9..] in ExemptProducts)
  {
    RemoveImportedSingleLine(l.product);
    StrippedExempt(l.product);
  }

  lemma StrippedExempt(p: string)
    ensures IsExemptName(StripImportedPrefix(p)) <==>
            p in ExemptProducts || (ImportedAt(p, 0) && p[9..] in ExemptProducts)
  {
  }

  /** A product is imported exactly when `imported` occurs somewhere in its name. */
  lemma ImportedIff(l: Line)
    ensures Imported(l) <==> exists k: nat :: OccursAt(l.product, "imported", k)
  {
    HasSubstringIff(l.product, "imported");
  }

  /** A product missing any letter of `imported` is not imported. */
  lemma NotImportedWithout(l: Line, c: char)
    requires c in "imported" && c !in l.product
    ensures !Imported(l)
  {
    if Imported(l) {
      SubstringCharacters(l.product, "imported", c);
    }
  }

  /** Classification reads the product only. */
  lemma ClassificationByProduct(l: Line, l': Line)
    requires l.product == l'.product
    ensures Exempt(l) == Exempt(l') && Imported(l) == Imported(l')
  {
  }

  /** On a single-line product `exempt?` looks the name up after stripping one leading `imported` and whitespace character. */
  lemma ExemptSingleLine(l: Line)
    requires '\n' !in l.product
    ensures Exempt(l) == IsExemptName(StripImportedPrefix(l.product))
  {
    RemoveImportedSingleLine(l.product);
  }

  lemma StripImportedOf(p: string, rest: string)
    requires p == "imported " + rest
    ensures StripImportedPrefix(p) == rest
  {
    assert p[0..8] == "imported" && p[9..] == rest;
  }

  /** Proof helper: a name not starting with `i` has no import prefix to strip. */
  lemma StripNothing(p: string)
    requires p == [] || p[0] != 'i'
    ensures StripImportedPrefix(p) == p
  {
  }

  /** Proof helper: `imported box of chocolates` taken apart into its prefix and the listed name. */
  lemma ImportedBoxName(p: string)
    requires p == "imported box of chocolates"
    ensures p == "imported " + "box of chocolates"
  {
  }

  /** Proof helper: `imported bottle of perfume` taken apart into its prefix and the general name. */
  lemma ImportedPerfumeName(p: string)
    requires p == "imported bottle of perfume"
    ensures p == "imported " + "bottle of perfume"
  {
  }

  /** Books, food and medicine are exempt (the exemption specification). */
  lemma BookExempt(l: Line)
    requires l.product == "book"
    ensures Exempt(l)
  {
    ExemptSingleLine(l);
    StripNothing(l.product);
    assert l.product == ExemptProducts[0];
  }

  lemma ChocolateBarExempt(l: Line)
    requires l.product == "chocolate bar"
    ensures Exempt(l)
  {
    ExemptSingleLine(l);
    StripNothing(l.product);
    assert l.product == ExemptProducts[1];
  }

  lemma HeadachePillsExempt(l: Line)
    requires l.product == "packet of headache pills"
    ensures Exempt(l)
  {
    ExemptSingleLine(l);
    StripNothing(l.product);
    assert l.product == ExemptProducts[2];
  }

  /** One leading `imported ` does not change exemption. */
  lemma ImportedBoxExempt(l: Line)
    requires l.product == "imported box of chocolates"
    ensures Exempt(l)
  {
    ExemptSingleLine(l);
    ImportedBoxName(l.product);
    StripImportedOf(l.product, "box of chocolates");
    assert "box of chocolates" == ExemptProducts[3];
  }

  /** "music CD" and "bottle of perfume" are none of the exempt names. */
  lemma GeneralNamesUnlisted()
    ensures !IsExemptName("music CD") && !IsExemptName("bottle of perfume")
  {
    assert "bottle of perfume"[2] != ExemptProducts[3][2];
  }

  /** Other goods are not exempt. */
  lemma MusicCDNotExempt(l: Line)
    requires l.product == "music CD"
    ensures !Exempt(l)
  {
    ExemptSingleLine(l);
    StripNothing(l.product);
    GeneralNamesUnlisted();
  }

  lemma PerfumeNotExempt(l: Line)
    requires l.product == "bottle of perfume"
    ensures !Exempt(l)
  {
    ExemptSingleLine(l);
    StripNothing(l.product);
    GeneralNamesUnlisted();
  }

  lemma ImportedPerfumeNotExempt(l: Line)
    requires l.product == "imported bottle of perfume"
    ensures !Exempt(l)
  {
    ExemptSingleLine(l);
    ImportedPerfumeName(l.product);
    StripImportedOf(l.product, "bottle of perfume");
    GeneralNamesUnlisted();
  }

  /** A name that starts with `imported` is imported. */
  lemma ImportedBoxImported(l: Line)
    requires l.product == "imported box of chocolates"
    ensures Imported(l)
  {
    assert OccursAt(l.product, "imported", 0);
    ImportedIff(l);
  }

  lemma ImportedPerfumeImported(l: Line)
    requires l.product == "imported bottle of perfume"
    ensures Imported(l)
  {
    assert OccursAt(l.product, "imported", 0);
    ImportedIff(l);
  }

  /** Names without `imported` in them are not imported. */
  lemma BoxNotImported(l: Line)
    requires l.product == "box of chocolates"
    ensures !Imported(l)
  {
    assert 'i' !in l.product;
    NotImportedWithout(l, 'i');
  }

  lemma BookNotImported(l: Line)
    requires l.product == "book"
    ensures !Imported(l)
  {
    assert 'i' !in l.product;
    NotImportedWithout(l, 'i');
  }

  lemma ChocolateBarNotImported(l: Line)
    requires l.product == "chocolate bar"
    ensures !Imported(l)
  {
    assert 'i' !in l.product;
    NotImportedWithout(l, 'i');
  }

  lemma HeadachePillsNotImported(l: Line)
    requires l.product == "packet of headache pills"
    ensures !Imported(l)
  {
    assert 'm' !in l.product;
    NotImportedWithout(l, 'm');
  }

  lemma MusicCDNotImported(l: Line)
    requires l.product == "music CD"
    ensures !Imported(l)
  {
    assert 'p' !in l.product;
    NotImportedWithout(l, 'p');
  }

  lemma PerfumeNotImported(l: Line)
    requires l.product == "bottle of perfume"
    ensures !Imported(l)
  {
    assert 'i' !in l.product;
    NotImportedWithout(l, 'i');
  }

  /** A line that lacks the pattern's shape, such as `''`, raises `ArgumentError`. */
  lemma ParseRejectsQuotes()
    ensures Parse("''") == Err(ArgumentError)
  {
    assert DigitRunEnd("''", 0) == 0;
  }

  /** A blank line does not match either. */
  lemma ParseRejectsBlank()
    ensures Parse("") == Err(ArgumentError)
  {
    assert DigitRunEnd("", 0) == 0;
  }

  /**
   * Parsing `q + " " + name + " at " + i + "." + f` gives quantity `q`, product `name` and price `i.f`,
   * also when `name` itself contains " at ".
   */
  lemma ParseRoundTrip(s: string, q: string, name: string, i: string, f: string)
    requires |q| >= 1 && AllDigits(q) && |i| >= 1 && AllDigits(i) && |f| >= 1 && AllDigits(f)
    requires |name| >= 1 && '\n' !in name
    requires s == q + " " + name + " at " + i + "." + f
    ensures '\n' !in s
    ensures Parse(s) == Ok(Line(DigitsValue(q), name, Decimal(DigitsValue(i + f), |f|)))
  {
    assert PatternMatch(s, q, ' ', name, ' ', ' ', i, f) by {
      assert s == q + [' '] + name + [' ', 'a', 't', ' '] + i + ['.'] + f;
    }
    ParseMatch(s, q, ' ', name, ' ', ' ', i, f);
  }

  /** Proof helper: `ParseRoundTrip` with the values of the digit strings supplied, the form the examples use. */
  lemma ParseRoundTripValues(s: string, q: string, name: string, i: string, f: string, qv: nat, m: nat)
    requires |q| >= 1 && AllDigits(q) && |i| >= 1 && AllDigits(i) && |f| >= 1 && AllDigits(f)
    requires |name| >= 1 && '\n' !in name
    requires s == q + " " + name + " at " + i + "." + f
    requires DigitsValue(q) == qv && AllDigits(i + f) && DigitsValue(i + f) == m
    ensures '\n' !in s
    ensures Parse(s) == Ok(Line(qv, name, Decimal(m, |f|)))
  {
    ParseRoundTrip(s, q, name, i, f);
  }

  /** The three lines of the line specification, `"2 book at 12.49"`, `"1 music CD at 14.99"` and `"1 chocolate bar at 0.85"`, written by their parts. */
  lemma ParseBookLine(s: string)
    requires s == "2" + " " + "book" + " at " + "12" + "." + "49"
    ensures '\n' !in s && Parse(s) == Ok(Line(2, "book", Decimal(1249, 2)))
  {
    assert DigitsValue("12" + "49") == 1249 by { TwoDigits("12"); TwoDigits("49"); DigitsValueAppend("12", "49"); }
    ParseRoundTripValues(s, "2", "book", "12", "49", 2, 1249);
  }

  lemma ParseMusicLine(s: string)
    requires s == "1" + " " + "music CD" + " at " + "14" + "." + "99"
    ensures '\n' !in s && Parse(s) == Ok(Line(1, "music CD", Decimal(1499, 2)))
  {
    assert DigitsValue("14" + "99") == 1499 by { TwoDigits("14"); TwoDigits("99"); DigitsValueAppend("14", "99"); }
    ParseRoundTripValues(s, "1", "music CD", "14", "99", 1, 1499);
  }

  lemma ParseChocolateLine(s: string)
    requires s == "1" + " " + "chocolate bar" + " at " + "0" + "." + "85"
    ensures '\n' !in s && Parse(s) == Ok(Line(1, "chocolate bar", Decimal(85, 2)))
  {
    assert DigitsValue("0" + "85") == 85 by { TwoDigits("85"); DigitsValueAppend("0", "85"); }
    ParseRoundTripValues(s, "1", "chocolate bar", "0", "85", 1, 85);
  }

  lemma ParseHeadachePillsLine(s: string)
    requires s == "1" + " " + "packet of headache pills" + " at " + "9" + "." + "75"
    ensures '\n' !in s && Parse(s) == Ok(Line(1, "packet of headache pills", Decimal(975, 2)))
  {
    assert DigitsValue("9" + "75") == 975 by { TwoDigits("75"); DigitsValueAppend("9", "75"); }
    ParseRoundTripValues(s, "1", "packet of headache pills", "9", "75", 1, 975);
  }

  lemma ParseImportedBoxLine(s: string)
    requires s == "1" + " " + "imported box of chocolates" + " at " + "10" + "." + "00"
    ensures '\n' !in s && Parse(s) == Ok(Line(1, "imported box of chocolates", Decimal(1000, 2)))
  {
    assert DigitsValue("10" + "00") == 1000 by { TwoDigits("10"); TwoDigits("00"); DigitsValueAppend("10", "00"); }
    ParseRoundTripValues(s, "1", "imported box of chocolates", "10", "00", 1, 1000);
  }

  /** The product of `"1 box at home at 3.00"` is everything between the quantity and the last " at <price>". */
  lemma ParseInnerAt(s: string)
    requires s == "1" + " " + "box at home" + " at " + "3" + "." + "00"
    ensures '\n' !in s && Parse(s) == Ok(Line(1, "box at home", Decimal(300, 2)))
  {
    assert DigitsValue("3" + "00") == 300 by { TwoDigits("00"); DigitsValueAppend("3", "00"); }
    ParseRoundTripValues(s, "1", "box at home", "3", "00", 1, 300);
  }

  /** Rendering an amount with `%.2f` gives a price token that reads back as that amount with two decimals. */
  lemma Format2ParsesBack(cents: nat)
    ensures ParsePrice(Format2(cents)) == Some(Decimal(cents, 2))
  {
    var i, f := NatToDigits(cents / 100), TwoDigitString(cents % 100);
    assert Format2(cents) == i + ['.'] + f;
    ParsePriceOf(i, f);
    Format2Value(cents);
  }
}
