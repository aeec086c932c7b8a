/** The signature anchor: a marker with the box size printed into the document, found again in the
    rendered text by a regular expression. */
module Anchor {
  import opened Wrappers
  import opened Text

  // ---------- numbers as `%g` prints them ----------

  function Pow10(d: nat): (p: nat)
    ensures p > 0
  {
    if d == 0 then 1 else 10 * Pow10(d - 1)
  }

  /** `m` at `d` decimal places. */
  function Value(m: nat, d: nat): (x: real) {
    m as real / Pow10(d) as real
  }

  /** `x` in units of its `d`-th decimal place. */
  function Scaled(x: real, d: nat): (y: real) {
    x * Pow10(d) as real
  }

  function RoundHalfEven(y: real): (n: int)
    ensures -0.5 <= n as real - y <= 0.5
  {
    var f := y.Floor;
    var part := y - f as real;
    if part < 0.5 || (part == 0.5 && f % 2 == 0) then f else f + 1
  }

  /** The fewest decimal places, at most ten, that show `x` with six significant digits. */
  function Places(x: real, d: nat): (r: Option<nat>)
    ensures r.Some? ==> d <= r.value <= 10
    decreases 11 - d
  {
    if d > 10 then None
    else if Scaled(x, d) >= 100000.0 then Some(d)
    else Places(x, d + 1)
  }

  /** The rounded six significant digits and their decimal places when `%g` prints `x` in fixed
      notation: the decimal exponent after rounding is from -4 to 5. */
  function FixedDigits(x: real): (r: Option<(nat, nat)>)
    requires x >= 0.0
  {
    if x == 0.0 then Some((0, 0))
    else if x >= 1000000.0 then None
    else
      match Places(x, 0)
      case None => None
      case Some(d) =>
        var m := RoundHalfEven(Scaled(x, d));
        if (d == 0 && m == 1000000) || (d == 10 && m != 1000000) then None else Some((m, d))
  }

  /** Exactly `d` digits. */
  function Padded(m: nat, d: nat): (s: string)
    ensures |s| == d && AllDigits(s)
  {
    if d == 0 then "" else Padded(m / 10, d - 1) + [DIGITS[m % 10]]
  }

  function Quotient(m: nat, p: nat): (q: nat)
    requires p > 0
  {
    m / p
  }

  function WholePart(m: nat, d: nat): (q: nat) {
    Quotient(m, Pow10(d))
  }

  function FractionPart(m: nat, d: nat): (r: nat)
    ensures r < Pow10(d)
  {
    m % Pow10(d)
  }

  /** Fixed notation without trailing zeros, and without a point if nothing follows it. */
  function Fixed(m: nat, d: nat): (s: string) {
    if d == 0 then PrintNat(m)
    else if m % 10 == 0 then Fixed(m / 10, d - 1)
    else PrintNat(WholePart(m, d)) + "." + Padded(FractionPart(m, d), d)
  }

  /** `f"{x:g}"`; `scientific` gives the text of the numbers that are printed with an exponent. */
  function FormatG(x: real, scientific: real -> string): (s: string) {
    if x < 0.0 then "-" + FormatMagnitude(-x, scientific) else FormatMagnitude(x, scientific)
  }

  function FormatMagnitude(x: real, scientific: real -> string): (s: string)
    requires x >= 0.0
  {
    match FixedDigits(x)
    case Some((m, d)) => Fixed(m, d)
    case None => scientific(x)
  }

  predicate PrintsFixed(x: real) {
    x >= 0.0 && FixedDigits(x).Some?
  }

  /** What the text of a number with an exponent surely has. */
  ghost predicate Scientific(scientific: real -> string) {
    forall x :: 'e' in scientific(x) && Free(scientific(x), ':') && Free(scientific(x), '@')
  }

  // ---------- the regular expression ----------

  const SIGNS := "@@"

  const HEAD := "@@DSC_SIG_ANCHOR:"

  /** `\d+(?:\.\d+)?`. */
  predicate IsNumber(s: string) {
    match Cut(s, '.')
    case None => s != "" && AllDigits(s)
    case Some((a, b)) => a != "" && b != "" && AllDigits(a) && AllDigits(b)
  }

  /** `float` of such a text. */
  function ParseDecimal(s: string): (x: real)
    requires IsNumber(s)
  {
    match Cut(s, '.')
    case None => ParseNat(s) as real
    case Some((a, b)) => ParseNat(a) as real + Value(ParseNat(b), |b|)
  }

  /** The part of a marker behind its head: the sizes, a colon between and two signs after them. */
  function Sizing(w: string, h: string): (s: string) {
    w + [':'] + (h + ['@'] + ['@'])
  }

  function Marker(w: string, h: string): (s: string) {
    HEAD + Sizing(w, h)
  }

  lemma MarkerReads(w: string, h: string)
    ensures Marker(w, h) == "@@DSC_SIG_ANCHOR:" + w + ":" + h + "@@"
  {
    assert ":" == [':'];
  }

  /** The two groups behind a head. Neither can contain the character that must follow it, so
      there is at most one way to match. */
  function Groups(t: string): (r: Option<(string, string)>) {
    match Cut(t, ':')
    case None => None
    case Some((w, u)) =>
      match Cut(u, '@')
      case None => None
      case Some((h, v)) => if IsNumber(w) && IsNumber(h) && v != "" && v[0] == '@' then Some((w, h)) else None
  }

  /** A match at the start of `s`. */
  function MatchAt(s: string): (r: Option<(string, string)>) {
    if HEAD <= s then Groups(s[|HEAD|..]) else None
  }

  /** `_ANCHOR_RE.search`: the leftmost match. */
  function Search(s: string): (r: Option<(string, string)>) {
    if MatchAt(s).Some? then MatchAt(s)
    else if s == "" then None
    else Search(s[1..])
  }

  lemma NumberIsFree(s: string)
    requires IsNumber(s)
    ensures Free(s, ':') && Free(s, '@') && Free(s, 'e') && Free(s, '-')
  {
  }

  lemma Associative(a: string, b: string, c: string)
    ensures a + b + c == a + (b + c)
  {
  }

  /** Sizes without the characters that end them are what the match takes, numbers or not. */
  lemma GroupsTaken(w: string, h: string, rest: string)
    requires Free(w, ':') && Free(h, '@')
    ensures Groups(Sizing(w, h) + rest) == if IsNumber(w) && IsNumber(h) then Some((w, h)) else None
  {
    hide IsNumber, Cut;
    Associative(w + [':'], h + ['@'] + ['@'], rest);
    Associative(h + ['@'], ['@'], rest);
    CutAt(w, h + ['@'] + (['@'] + rest), ':');
    CutAt(h, ['@'] + rest, '@');
  }

  lemma GroupsAre(t: string, w: string, h: string) returns (rest: string)
    requires Groups(t) == Some((w, h))
    ensures IsNumber(w) && IsNumber(h) && t == Sizing(w, h) + rest
  {
    hide IsNumber, Cut;
    var u := Cut(t, ':').value.1;
    var v := Cut(u, '@').value.1;
    rest := v[1..];
    assert v == ['@'] + rest;
    Associative(w + [':'], h + ['@'] + ['@'], rest);
    Associative(h + ['@'], ['@'], rest);
  }

  lemma DropHead(t: string)
    ensures HEAD <= HEAD + t && (HEAD + t)[|HEAD|..] == t
  {
  }

  lemma MatchMarker(w: string, h: string, rest: string)
    requires Free(w, ':') && Free(h, '@')
    ensures MatchAt(Marker(w, h) + rest) == if IsNumber(w) && IsNumber(h) then Some((w, h)) else None
  {
    hide IsNumber, Groups, Sizing;
    Associative(HEAD, Sizing(w, h), rest);
    DropHead(Sizing(w, h) + rest);
    GroupsTaken(w, h, rest);
  }

  /** The reference reading of the expression: a text matches with groups `w` and `h` exactly when
      it starts with the marker for them and both are numbers. */
  lemma MatchesExactlyMarkers(s: string, w: string, h: string)
    ensures MatchAt(s) == Some((w, h)) <==> IsNumber(w) && IsNumber(h) && Marker(w, h) <= s
  {
    hide IsNumber, Groups, Sizing;
    if MatchAt(s) == Some((w, h)) {
      var rest := GroupsAre(s[|HEAD|..], w, h);
      assert s == HEAD + s[|HEAD|..];
      Associative(HEAD, Sizing(w, h), rest);
    }
    if IsNumber(w) && IsNumber(h) && Marker(w, h) <= s {
      var rest := s[|Marker(w, h)|..];
      assert s == Marker(w, h) + rest;
      NumberIsFree(w);
      NumberIsFree(h);
      MatchMarker(w, h, rest);
    }
  }

  /** Inside a marker there is no '@': its signs are the two first and the two last characters. */
  lemma SignsOfMarker(w: string, h: string, k: nat)
    requires IsNumber(w) && IsNumber(h) && 2 <= k < |Marker(w, h)| - 2
    ensures Marker(w, h)[k] != '@'
  {
    hide IsNumber;
    NumberIsFree(w);
    NumberIsFree(h);
    assert Marker(w, h) == HEAD + w + [':'] + h + ['@'] + ['@'];
    assert forall i :: 2 <= i < |HEAD| ==> HEAD[i] != '@';
  }

  /** A marker that begins before two signs ends with them at the latest. */
  lemma MarkerEndsAtSigns(pre: string, tail: string, w: string, h: string)
    requires pre != "" && SIGNS <= tail && IsNumber(w) && IsNumber(h) && Marker(w, h) <= pre + tail
    ensures |Marker(w, h)| <= |pre| + 2
  {
    hide IsNumber, Sizing;
    var k := if |pre| == 1 then 2 else |pre|;
    assert (pre + tail)[k] == '@';
    if k < |Marker(w, h)| - 2 {
      SignsOfMarker(w, h, k);
    }
  }

  /** What follows the two signs makes no difference to a match that begins before them. */
  lemma SameMatch(pre: string, tail: string)
    requires pre != "" && SIGNS <= tail
    ensures MatchAt(pre + tail) == MatchAt(pre + SIGNS)
  {
    hide MatchAt, Marker, IsNumber;
    assert (pre + tail)[..|pre| + 2] == pre + SIGNS;
    if MatchAt(pre + tail).Some? {
      var (w, h) := MatchAt(pre + tail).value;
      MatchesExactlyMarkers(pre + tail, w, h);
      MarkerEndsAtSigns(pre, tail, w, h);
      MatchesExactlyMarkers(pre + SIGNS, w, h);
    } else if MatchAt(pre + SIGNS).Some? {
      var (w, h) := MatchAt(pre + SIGNS).value;
      MatchesExactlyMarkers(pre + SIGNS, w, h);
      MatchesExactlyMarkers(pre + tail, w, h);
    }
  }

  lemma NothingInSigns()
    ensures Search(SIGNS) == None
  {
    assert Search("") == None;
    assert SIGNS[1..] == "@" && "@"[1..] == "";
    assert !(HEAD <= SIGNS) && !(HEAD <= "@");
  }

  /** Exactly what a search finds in `pre` and a text that begins with two signs: what it finds in
      `pre` and the two signs alone, if anything, and else what it finds in the text. */
  lemma {:induction false} SearchBehind(pre: string, tail: string)
    requires SIGNS <= tail
    ensures Search(pre + tail) == if Search(pre + SIGNS).Some? then Search(pre + SIGNS) else Search(tail)
  {
    hide MatchAt;
    if pre == "" {
      NothingInSigns();
      assert pre + tail == tail && pre + SIGNS == SIGNS;
    } else {
      SameMatch(pre, tail);
      assert (pre + tail)[1..] == pre[1..] + tail && (pre + SIGNS)[1..] == pre[1..] + SIGNS;
      SearchBehind(pre[1..], tail);
    }
  }

  // ---------- printing and reading back ----------

  lemma {:induction false} ParsePadded(m: nat, d: nat)
    requires m < Pow10(d)
    ensures ParseNat(Padded(m, d)) == m
  {
    if d == 0 {
      PaddedNone(m);
    } else {
      TenthBelow(m, d);
      PaddedSnoc(m, d);
      hide *;
      ParsePadded(m / 10, d - 1);
      ParseDigit(Padded(m / 10, d - 1), m % 10);
    }
  }

  lemma PaddedNone(m: nat)
    requires m < Pow10(0)
    ensures m == 0 && Padded(m, 0) == "" && ParseNat("") == 0
  {
  }

  lemma TenthBelow(m: nat, d: nat)
    requires d > 0 && m < Pow10(d)
    ensures m / 10 < Pow10(d - 1)
  {
  }

  lemma PaddedSnoc(m: nat, d: nat)
    requires d > 0
    ensures Padded(m, d) == Padded(m / 10, d - 1) + [DIGITS[m % 10]]
  {
  }

  lemma ParseDigit(s: string, k: nat)
    requires AllDigits(s) && k < 10
    ensures AllDigits(s + [DIGITS[k]]) && ParseNat(s + [DIGITS[k]]) == 10 * ParseNat(s) + k
  {
    assert (s + [DIGITS[k]])[..|s|] == s;
  }

  lemma ValueTrims(m: nat, d: nat)
    requires d > 0 && m % 10 == 0
    ensures Value(m / 10, d - 1) == Value(m, d)
  {
    var p := Pow10(d - 1) as real;
    var n := (m / 10) as real;
    assert m as real == 10.0 * n;
    assert (10.0 * n) / (10.0 * p) == n / p;
  }

  lemma QuotientSplits(q: real, r: real, p: real)
    requires p > 0.0
    ensures q + r / p == (q * p + r) / p
  {
    assert (q * p) / p == q;
  }

  lemma ValueSplits(m: nat, d: nat)
    ensures WholePart(m, d) as real + Value(FractionPart(m, d), d) == Value(m, d)
  {
    var p := Pow10(d);
    hide Pow10;
    var q, r := m / p, m % p;
    assert m == q * p + r;
    assert m as real == q as real * p as real + r as real;
    QuotientSplits(q as real, r as real, p as real);
  }

  lemma PointReadsBack(a: string, b: string)
    requires a != "" && b != "" && AllDigits(a) && AllDigits(b)
    ensures var s := a + "." + b; IsNumber(s) && ParseDecimal(s) == ParseNat(a) as real + Value(ParseNat(b), |b|)
  {
    hide ParseNat, Value;
    DigitsHaveNoPoint(a);
    CutAt(a, b, '.');
    assert a + "." + b == a + ['.'] + b;
  }

  /** A printed number reads back as the value that was printed. */
  lemma {:induction false} FixedReadsBack(m: nat, d: nat)
    ensures IsNumber(Fixed(m, d)) && ParseDecimal(Fixed(m, d)) == Value(m, d)
  {
    hide Value, Padded, PrintNat, ParseNat, IsNumber, ParseDecimal, Pow10, WholePart, FractionPart;
    if d == 0 {
      WholeReadsBack(m);
    } else if m % 10 == 0 {
      FixedReadsBack(m / 10, d - 1);
      ValueTrims(m, d);
    } else {
      var q, r := WholePart(m, d), FractionPart(m, d);
      ParsePrintNat(q);
      ParsePadded(r, d);
      ValueSplits(m, d);
      PointReadsBack(PrintNat(q), Padded(r, d));
    }
  }

  lemma WholeReadsBack(m: nat)
    ensures IsNumber(PrintNat(m)) && ParseDecimal(PrintNat(m)) == Value(m, 0)
  {
    hide PrintNat, ParseNat;
    DigitsHaveNoPoint(PrintNat(m));
    ParsePrintNat(m);
    ValueAtZero(m);
  }

  lemma ValueAtZero(m: nat)
    ensures Value(m, 0) == m as real
  {
  }

  lemma DigitsHaveNoPoint(s: string)
    requires AllDigits(s)
    ensures Free(s, '.')
  {
  }

  /** The size that comes back for a size that prints in fixed notation. */
  function Recovered(x: real): (r: real)
    requires PrintsFixed(x)
  {
    var (m, d) := FixedDigits(x).value;
    Value(m, d)
  }

  lemma PlacesShowSixDigits(x: real, d: nat)
    requires Places(x, d).Some?
    ensures Scaled(x, Places(x, d).value) >= 100000.0
    decreases 11 - d
  {
    hide Pow10;
    if Scaled(x, d) < 100000.0 {
      PlacesShowSixDigits(x, d + 1);
    }
  }

  lemma Close(x: real, p: real, m: real)
    requires p > 0.0 && -0.5 <= m - x * p <= 0.5 && x * p >= 100000.0
    ensures -0.000005 * x <= m / p - x <= 0.000005 * x
  {
    var e := m / p - x;
    assert m / p * p == m;
    assert e * p == m - x * p;
    NotPositive(e - 0.000005 * x, p);
    NotPositive(-0.000005 * x - e, p);
  }

  lemma NotPositive(a: real, p: real)
    requires p > 0.0 && a * p <= 0.0
    ensures a <= 0.0
  {
  }

  /** It is the size printed, to six significant digits. */
  lemma RecoveredIsClose(x: real)
    requires PrintsFixed(x)
    ensures -0.000005 * x <= Recovered(x) - x <= 0.000005 * x
  {
    if x != 0.0 {
      var (m, d) := FixedDigits(x).value;
      assert Recovered(x) == Value(m, d);
      DigitsAre(x);
      hide *;
      CloseInPlaces(x, m, d);
    } else {
      hide Pow10, Places;
      ValueAtZero(0);
    }
  }

  lemma CloseInPlaces(x: real, m: nat, d: nat)
    requires -0.5 <= m as real - Scaled(x, d) <= 0.5 && Scaled(x, d) >= 100000.0
    ensures -0.000005 * x <= Value(m, d) - x <= 0.000005 * x
  {
    hide Pow10;
    Close(x, Pow10(d) as real, m as real);
  }

  lemma Scales(k: nat, j: nat)
    ensures Scaled(Value(k, j), j) == k as real
  {
    hide Pow10;
  }

  lemma ScalesOn(x: real, d: nat, e: nat)
    ensures Scaled(x, d + e) == Scaled(x, d) * Pow10(e) as real
  {
    Pow10Adds(d, e);
    hide Pow10;
    ProductAsReal(Pow10(d), Pow10(e));
    Associate(x, Pow10(d) as real, Pow10(e) as real);
  }

  /** At enough decimal places `k / 10^j` is a whole number. */
  lemma ScalesWhole(k: nat, j: nat, d: nat)
    requires d >= j
    ensures Scaled(Value(k, j), d) == (k * Pow10(d - j)) as real
  {
    hide Pow10, Value, Scaled;
    Scales(k, j);
    ScalesOn(Value(k, j), j, d - j);
    ProductAsReal(k, Pow10(d - j));
  }

  lemma Associate(a: real, b: real, c: real)
    ensures a * (b * c) == (a * b) * c
  {
  }

  lemma ProductAsReal(a: nat, b: nat)
    ensures (a * b) as real == a as real * b as real
  {
  }

  /** Six significant digits of a number below 10^6 / 10^j take at least `j` decimal places. */
  lemma EnoughPlaces(k: nat, j: nat, d: nat)
    requires k < 1000000 && Scaled(Value(k, j), d) >= 100000.0
    ensures d >= j
  {
    if d < j {
      FewPlaces(k, j, d);
    }
  }

  lemma FewPlaces(k: nat, j: nat, d: nat)
    requires k < 1000000 && d < j
    ensures Scaled(Value(k, j), d) < 100000.0
  {
    assert Pow10(j - d) >= 10;
    hide Pow10, Value, Scaled;
    Scales(k, j);
    ScalesOn(Value(k, j), d, j - d);
    Shrinks(Scaled(Value(k, j), d), Pow10(j - d) as real, k as real);
  }

  lemma Shrinks(a: real, b: real, c: real)
    requires b >= 10.0 && c == a * b && c < 1000000.0
    ensures a < 100000.0
  {
  }

  lemma RoundsWhole(n: nat)
    ensures RoundHalfEven(n as real) == n
  {
  }

  lemma DigitsAre(x: real)
    requires PrintsFixed(x) && x != 0.0
    ensures var (m, d) := FixedDigits(x).value;
            m == RoundHalfEven(Scaled(x, d)) && Scaled(x, d) >= 100000.0
  {
    hide Pow10, Places, RoundHalfEven;
    PlacesShowSixDigits(x, 0);
  }

  /** A size written with at most six digits comes back exactly. */
  lemma SixDigitsAreExact(k: nat, j: nat)
    requires k < 1000000 && PrintsFixed(Value(k, j))
    ensures Recovered(Value(k, j)) == Value(k, j)
  {
    hide Pow10, FixedDigits, RoundHalfEven, Value;
    var x := Value(k, j);
    if x != 0.0 {
      DigitsAre(x);
      var (m, d) := FixedDigits(x).value;
      EnoughPlaces(k, j, d);
      ScalesWhole(k, j, d);
      RoundsWhole(k * Pow10(d - j));
      Unscale(x, m, d);
    } else {
      ZeroRecovers();
    }
  }

  lemma ZeroRecovers()
    ensures PrintsFixed(0.0) && Recovered(0.0) == 0.0
  {
    ValueAtZero(0);
  }

  lemma Unscale(x: real, m: nat, d: nat)
    requires Scaled(x, d) == m as real
    ensures Value(m, d) == x
  {
    hide Pow10;
    assert Scaled(x, d) / Pow10(d) as real == x;
  }

  lemma {:induction false} Pow10Adds(a: nat, b: nat)
    ensures Pow10(a + b) == Pow10(a) * Pow10(b)
  {
    if b > 0 {
      Pow10Adds(a, b - 1);
    }
  }

  // ---------- the helper and the scan ----------

  /** The marker that `dsc_signature_anchor` prints; a size that `float` refuses is None, and then
      both fall back. */
  function Printed(width: Option<real>, height: Option<real>, scientific: real -> string): (s: string) {
    if width.None? || height.None? then Marker(FormatG(200.0, scientific), FormatG(80.0, scientific))
    else Marker(FormatG(width.value, scientific), FormatG(height.value, scientific))
  }

  lemma MarkerBeginsWithSigns(w: string, h: string, post: string)
    ensures SIGNS <= Marker(w, h) + post
  {
    hide Sizing;
    assert (Marker(w, h) + post)[..2] == SIGNS;
  }

  /** No marker has begun in `pre` when the next text begins with two signs: the search has nothing
      to find in `pre` and the signs. */
  predicate Clear(pre: string) {
    Search(pre + SIGNS).None?
  }

  /** Exactly which search in which text finds what: behind a clear text the marker with the printed
      sizes is found if and only if both print without sign and exponent, and they read back; behind
      any other text the marker, whatever its sizes, does not change what is found. */
  lemma MarkerRoundTrip(pre: string, width: real, height: real, post: string, scientific: real -> string)
    requires Scientific(scientific)
    ensures var w, h := FormatG(width, scientific), FormatG(height, scientific);
            var text := pre + (Marker(w, h) + post);
            && (!Clear(pre) ==> Search(text) == Search(pre + SIGNS))
            && (Clear(pre) ==> (Search(text) == Some((w, h)) <==> PrintsFixed(width) && PrintsFixed(height)))
            && (PrintsFixed(width) && PrintsFixed(height) ==>
                  IsNumber(w) && IsNumber(h) && ParseDecimal(w) == Recovered(width) && ParseDecimal(h) == Recovered(height))
  {
    hide IsNumber, FormatG, ParseDecimal, PrintsFixed, Recovered, MatchAt, Marker, Scientific;
    var w, h := FormatG(width, scientific), FormatG(height, scientific);
    FormatIsNumberExactlyWhen(width, scientific);
    FormatIsNumberExactlyWhen(height, scientific);
    var tail := Marker(w, h) + post;
    MarkerBeginsWithSigns(w, h, post);
    SearchBehind(pre, tail);
    SearchedAreNumbers(tail);
    MatchMarker(w, h, post);
  }

  /** A head and two sizes left dangling right before the marker are no marker themselves, but
      capture its signs: the text is not clear, and the dangling sizes are found instead. */
  lemma DanglingHeadCaptures(a: string, b: string, w: string, h: string, post: string)
    requires IsNumber(a) && IsNumber(b)
    ensures Search(HEAD + (a + [':'] + b) + (Marker(w, h) + post)) == Some((a, b))
  {
    hide IsNumber, MatchAt;
    var pre := HEAD + (a + [':'] + b);
    assert pre + SIGNS == Marker(a, b) + "";
    NumberIsFree(a);
    NumberIsFree(b);
    MatchMarker(a, b, "");
    MarkerBeginsWithSigns(w, h, post);
    SearchBehind(pre, Marker(w, h) + post);
  }

  lemma FormatIsNumberExactlyWhen(x: real, scientific: real -> string)
    requires Scientific(scientific)
    ensures var s := FormatG(x, scientific);
            && (IsNumber(s) <==> PrintsFixed(x)) && Free(s, ':') && Free(s, '@')
            && (PrintsFixed(x) ==> ParseDecimal(s) == Recovered(x))
  {
    var s := FormatG(x, scientific);
    var a := if x < 0.0 then -x else x;
    if FixedDigits(a).Some? {
      var (m, d) := FixedDigits(a).value;
      FixedReadsBack(m, d);
      NumberIsFree(Fixed(m, d));
    }
    assert x < 0.0 ==> s[0] == '-';
    if IsNumber(s) { NumberIsFree(s); }
  }

  /** What the scan meets on a page: a line of text, anything else, or an exception of the parser
      (a parser that cannot be imported is one before everything else). */
  datatype Item = Line(text: string, x0: real, top: real) | NoText | Broken

  datatype Located = Located(page: nat, x: real, top: real, width: real, height: real)

  function Sizes(text: string): (r: Option<(real, real)>) {
    match Search(text)
    case None => None
    case Some((w, h)) => if IsNumber(w) && IsNumber(h) then Some((ParseDecimal(w), ParseDecimal(h))) else None
  }

  /** The scan goes on past this item. */
  predicate Passed(item: Item) {
    item.NoText? || (item.Line? && Search(item.text).None?)
  }

  /** Everything before item `l` of page `p`, in page order, is passed. */
  predicate PassedUpTo(pages: seq<seq<Item>>, p: nat, l: nat)
    requires p < |pages| && l <= |pages[p]|
  {
    && (forall q, k :: 0 <= q < p && 0 <= k < |pages[q]| ==> Passed(pages[q][k]))
    && (forall k :: 0 <= k < l ==> Passed(pages[p][k]))
  }

  /** The first item that is not passed is a line in which the expression is found. */
  predicate IsFirst(pages: seq<seq<Item>>, p: nat, l: nat) {
    p < |pages| && l < |pages[p]| && PassedUpTo(pages, p, l) && pages[p][l].Line? && Search(pages[p][l].text).Some?
  }

  function LocatedAt(p: nat, line: Item): (a: Option<Located>)
    requires line.Line?
  {
    match Sizes(line.text)
    case None => None
    case Some((w, h)) => Some(Located(p, line.x0, line.top, w, h))
  }

  lemma {:induction false} SearchedAreNumbers(s: string)
    ensures Search(s).Some? ==> IsNumber(Search(s).value.0) && IsNumber(Search(s).value.1)
  {
    if MatchAt(s).None? && s != "" {
      SearchedAreNumbers(s[1..]);
    }
  }

  /** `locate_signature_anchor`: the loops over pages and text lines, None after any exception. */
  method LocateSignatureAnchor(pages: seq<seq<Item>>) returns (a: Option<Located>)
    ensures a.None? ==> forall p: nat, l: nat :: !IsFirst(pages, p, l)
    ensures a.Some? ==> exists l: nat :: IsFirst(pages, a.value.page, l) && a == LocatedAt(a.value.page, pages[a.value.page][l])
  {
    hide Search, IsNumber, ParseDecimal;
    for p := 0 to |pages|
      invariant forall q, k :: 0 <= q < p && 0 <= k < |pages[q]| ==> Passed(pages[q][k])
    {
      for l := 0 to |pages[p]|
        invariant forall k :: 0 <= k < l ==> Passed(pages[p][k])
      {
        var item := pages[p][l];
        if item.Broken? { return None; }
        if item.NoText? { continue; }
        var found := Search(item.text);
        if found.None? { continue; }
        SearchedAreNumbers(item.text);
        assert IsFirst(pages, p, l);
        return Some(Located(p, item.x0, item.top, ParseDecimal(found.value.0), ParseDecimal(found.value.1)));
      }
    }
    return None;
  }

  datatype Rect = Rect(left: real, bottom: real, right: real, top: real)

  /** The signature box for a located anchor. */
  function BoxAt(a: Located): (r: Rect) {
    Rect(a.x, a.top - a.height, a.x + a.width, a.top)
  }

  /** The box that a located marker gets has the printed width and height, with its top left corner
      where the marker's line starts. */
  lemma BoxHasPrintedSize(pages: seq<seq<Item>>, p: nat, l: nat, pre: string, width: real, height: real, post: string,
                          scientific: real -> string)
    requires Scientific(scientific) && PrintsFixed(width) && PrintsFixed(height) && Clear(pre)
    requires IsFirst(pages, p, l) && pages[p][l].text == pre + (Printed(Some(width), Some(height), scientific) + post)
    ensures var a := LocatedAt(p, pages[p][l]);
            && a.Some? && a.value.page == p
            && var box := BoxAt(a.value);
            box.right - box.left == Recovered(width) && box.top - box.bottom == Recovered(height)
            && box.left == pages[p][l].x0 && box.top == pages[p][l].top
  {
    MarkerRoundTrip(pre, width, height, post, scientific);
  }

  /** Behind a clear text the default size comes back exactly. */
  lemma DefaultSizeComesBack(pre: string, width: Option<real>, height: Option<real>, post: string, scientific: real -> string)
    requires Scientific(scientific) && Clear(pre) && (width.None? || height.None?)
    ensures Sizes(pre + (Printed(width, height, scientific) + post)) == Some((200.0, 80.0))
  {
    assert Value(200, 0) == 200.0 && Value(80, 0) == 80.0;
    DefaultsPrintFixed();
    SixDigitsAreExact(200, 0);
    SixDigitsAreExact(80, 0);
    MarkerRoundTrip(pre, 200.0, 80.0, post, scientific);
  }

  lemma DefaultsPrintFixed()
    ensures PrintsFixed(200.0) && PrintsFixed(80.0)
  {
    assert Pow10(1) == 10 && Pow10(2) == 100 && Pow10(3) == 1000 && Pow10(4) == 10000;
    assert Places(200.0, 0) == Places(200.0, 1) == Places(200.0, 2) == Places(200.0, 3) == Some(3);
    assert Places(80.0, 0) == Places(80.0, 1) == Places(80.0, 2) == Places(80.0, 3) == Places(80.0, 4) == Some(4);
  }
}
