/** Strings as the programs build them: decimal numbers, and fields joined by a separator. */
module Text {
  import opened Wrappers

  const DIGITS := "0123456789"

  predicate IsDigit(c: char) {
    '0' <= c <= '9'
  }

  function DigitValue(c: char): (d: nat)
    requires IsDigit(c)
    ensures d < 10
  {
    c as int - '0' as int
  }

  predicate AllDigits(s: string) {
    forall i :: 0 <= i < |s| ==> IsDigit(s[i])
  }

  function PrintNat(n: nat): (s: string)
    ensures s != "" && AllDigits(s)
  {
    if n < 10 then [DIGITS[n]] else PrintNat(n / 10) + [DIGITS[n % 10]]
  }

  function PrintInt(i: int): (s: string) {
    if i < 0 then "-" + PrintNat(-i) else PrintNat(i)
  }

  function ParseNat(s: string): (n: nat)
    requires AllDigits(s)
  {
    if s == "" then 0 else 10 * ParseNat(s[..|s| - 1]) + DigitValue(s[|s| - 1])
  }

  lemma {:induction false} ParsePrintNat(n: nat)
    ensures ParseNat(PrintNat(n)) == n
  {
    if n >= 10 {
      ParsePrintNat(n / 10);
      assert PrintNat(n)[..|PrintNat(n)| - 1] == PrintNat(n / 10);
    } else {
      assert PrintNat(n)[..0] == "";
    }
  }

  lemma PrintIntInjective(i: int, j: int)
    requires PrintInt(i) == PrintInt(j)
    ensures i == j
  {
    ParsePrintNat(if i < 0 then -i else i);
    ParsePrintNat(if j < 0 then -j else j);
    assert PrintNat(if i < 0 then -i else i)[0] != '-' && PrintNat(if j < 0 then -j else j)[0] != '-';
    assert i < 0 ==> PrintInt(i)[1..] == PrintNat(-i);
    assert j < 0 ==> PrintInt(j)[1..] == PrintNat(-j);
  }

  // ---------- joined fields ----------

  predicate Free(s: string, sep: char) {
    sep !in s
  }

  function Join(fields: seq<string>, sep: char): (s: string) {
    if fields == [] then "" else if |fields| == 1 then fields[0]
    else fields[0] + [sep] + Join(fields[1..], sep)
  }

  function Count(s: string, c: char): (n: nat) {
    if s == "" then 0 else (if s[0] == c then 1 else 0) + Count(s[1..], c)
  }

  lemma {:induction false} CountConcat(s: string, t: string, c: char)
    ensures Count(s + t, c) == Count(s, c) + Count(t, c)
  {
    if s == "" {
      assert s + t == t;
    } else {
      assert (s + t)[1..] == s[1..] + t;
      CountConcat(s[1..], t, c);
    }
  }

  lemma {:induction false} CountZero(s: string, c: char)
    ensures Count(s, c) == 0 <==> Free(s, c)
  {
    if s != "" {
      CountZero(s[1..], c);
      assert s == [s[0]] + s[1..];
    }
  }

  /** Fields bring their own separators, and the joins add one less than there are fields. */
  lemma {:induction false} CountJoin(fields: seq<string>, sep: char)
    requires fields != []
    ensures Count(Join(fields, sep), sep) >= |fields| - 1
    ensures Count(Join(fields, sep), sep) == |fields| - 1 <==> forall f :: f in fields ==> Free(f, sep)
  {
    CountZero(fields[0], sep);
    if |fields| > 1 {
      CountJoin(fields[1..], sep);
      CountConcat(fields[0] + [sep], Join(fields[1..], sep), sep);
      CountConcat(fields[0], [sep], sep);
      assert [sep][1..] == "" && Count([sep], sep) == 1;
      assert fields == [fields[0]] + fields[1..];
    }
  }

  lemma SplitAtFirst(x: string, u: string, y: string, v: string, sep: char)
    requires Free(x, sep) && Free(y, sep)
    requires x + [sep] + u == y + [sep] + v
    ensures x == y && u == v
  {
    var s, t := x + [sep] + u, y + [sep] + v;
    assert s[|x|] == sep && t[|y|] == sep;
    assert forall i :: 0 <= i < |x| ==> s[i] == x[i];
    assert forall i :: 0 <= i < |y| ==> t[i] == y[i];
    assert |x| == |y|;
    assert x == s[..|x|] == t[..|y|] == y;
    assert u == s[|x| + 1..] == t[|y| + 1..] == v;
  }

  /** Joining is injective as soon as one of two lists of equal length has no separator in its
      fields: counting separators shows that then neither has. */
  lemma JoinInjective(a: seq<string>, b: seq<string>, sep: char)
    requires |a| == |b| && (forall f :: f in a ==> Free(f, sep))
    requires Join(a, sep) == Join(b, sep)
    ensures a == b
  {
    if a != [] {
      CountJoin(a, sep);
      CountJoin(b, sep);
      JoinInjectiveFree(a, b, sep);
    }
  }

  lemma {:induction false} JoinInjectiveFree(a: seq<string>, b: seq<string>, sep: char)
    requires |a| == |b| && (forall f :: f in a ==> Free(f, sep)) && (forall f :: f in b ==> Free(f, sep))
    requires Join(a, sep) == Join(b, sep)
    ensures a == b
  {
    if |a| > 1 {
      SplitAtFirst(a[0], Join(a[1..], sep), b[0], Join(b[1..], sep), sep);
      JoinInjectiveFree(a[1..], b[1..], sep);
      assert a == [a[0]] + a[1..] && b == [b[0]] + b[1..];
    }
  }

  lemma {:induction false} JoinAppend(a: seq<string>, b: seq<string>, sep: char)
    requires a != [] && b != []
    ensures Join(a + b, sep) == Join(a, sep) + [sep] + Join(b, sep)
  {
    if |a| == 1 {
      assert (a + b)[1..] == b;
    } else {
      assert (a + b)[1..] == a[1..] + b;
      JoinAppend(a[1..], b, sep);
    }
  }

  /** A separator inside a field reads like one between two fields. */
  lemma Regrouped(pre: seq<string>, x: string, y: string, post: seq<string>, sep: char)
    ensures Join(pre + [x + [sep] + y] + post, sep) == Join(pre + [x, y] + post, sep)
  {
    var one, two := [x + [sep] + y], [x, y];
    assert two[1..] == [y] && Join([y], sep) == y;
    assert Join(one, sep) == Join(two, sep);
    hide Join;
    assert pre + one + post == pre + (one + post) && pre + two + post == pre + (two + post);
    if post == [] {
      assert one + post == one && two + post == two;
    } else {
      JoinAppend(one, post, sep);
      JoinAppend(two, post, sep);
    }
    if pre == [] {
      assert pre + (one + post) == one + post && pre + (two + post) == two + post;
    } else {
      JoinAppend(pre, one + post, sep);
      JoinAppend(pre, two + post, sep);
    }
  }

  /** Moving a separator from inside a field to the border of the next one joins to the same text. */
  lemma Shifted(pre: seq<string>, x: string, y: string, z: string, post: seq<string>, sep: char)
    ensures Join(pre + [x + [sep] + y, z] + post, sep) == Join(pre + [x, y + [sep] + z] + post, sep)
  {
    Regrouped(pre, x, y, [z] + post, sep);
    Regrouped(pre + [x], y, z, post, sep);
    hide Join;
    assert pre + [x + [sep] + y] + ([z] + post) == pre + [x + [sep] + y, z] + post;
    assert pre + [x, y] + ([z] + post) == pre + [x] + [y, z] + post;
    assert pre + [x] + [y + [sep] + z] + post == pre + [x, y + [sep] + z] + post;
  }

  /** A list of two or more fields, one of which contains the separator, shares its text with another
      list of the same length. */
  lemma JoinCollides(a: seq<string>, k: nat, sep: char) returns (b: seq<string>)
    requires |a| > 1 && k < |a| && !Free(a[k], sep)
    ensures |b| == |a| && b != a && Join(b, sep) == Join(a, sep)
  {
    var (x, y) := Cut(a[k], sep).value;
    hide Join, Cut;
    if k + 1 < |a| {
      var pre, z, post := a[..k], a[k + 1], a[k + 2..];
      b := pre + [x, y + [sep] + z] + post;
      assert a == pre + [x + [sep] + y, z] + post;
      Shifted(pre, x, y, z, post, sep);
      assert |b[k]| < |a[k]|;
    } else {
      var pre, w := a[..k - 1], a[k - 1];
      b := pre + [w + [sep] + x, y] + [];
      assert a == pre + [w, x + [sep] + y] + [];
      Shifted(pre, w, x, y, [], sep);
      assert |b[k]| < |a[k]|;
    }
  }

  ghost predicate DeterminedByText(a: seq<string>, sep: char) {
    forall b: seq<string> :: |b| == |a| && Join(b, sep) == Join(a, sep) ==> b == a
  }

  /** Exactly which lists of fields are determined by their number and their text: those of at most
      one field, and those without a separator in any field. */
  lemma JoinDeterminesExactly(a: seq<string>, sep: char)
    ensures DeterminedByText(a, sep) <==> |a| <= 1 || forall f :: f in a ==> Free(f, sep)
  {
    if |a| <= 1 {
      forall b: seq<string> | |b| == |a| && Join(b, sep) == Join(a, sep)
        ensures b == a
      {
      }
    } else if forall f :: f in a ==> Free(f, sep) {
      forall b: seq<string> | |b| == |a| && Join(b, sep) == Join(a, sep)
        ensures b == a
      {
        JoinInjective(a, b, sep);
      }
    } else {
      var k :| 0 <= k < |a| && !Free(a[k], sep);
      var b := JoinCollides(a, k, sep);
    }
  }

  // ---------- splitting ----------

  /** What stands before and after the first separator. */
  function Cut(s: string, sep: char): (r: Option<(string, string)>)
    ensures r.None? <==> Free(s, sep)
    ensures r.Some? ==> s == r.value.0 + [sep] + r.value.1 && Free(r.value.0, sep)
  {
    if s == "" then None
    else if s[0] == sep then Some(("", s[1..]))
    else
      assert s == [s[0]] + s[1..];
      match Cut(s[1..], sep)
      case None => None
      case Some((a, b)) => Some(([s[0]] + a, b))
  }

  lemma CutAt(a: string, b: string, sep: char)
    requires Free(a, sep)
    ensures Cut(a + [sep] + b, sep) == Some((a, b))
  {
    var s := a + [sep] + b;
    assert s[|a|] == sep;
    var (x, y) := Cut(s, sep).value;
    SplitAtFirst(a, b, x, y, sep);
  }

  function Split(s: string, sep: char): (fields: seq<string>)
    ensures fields != []
    decreases |s|
  {
    match Cut(s, sep)
    case None => [s]
    case Some((a, b)) =>
      assert |s| == |a + [sep] + b|;
      [a] + Split(b, sep)
  }

  lemma SplitField(field: string, rest: string, sep: char)
    requires Free(field, sep)
    ensures Split(field + [sep] + rest, sep) == [field] + Split(rest, sep)
  {
    hide Cut;
    CutAt(field, rest, sep);
  }

  /** Splitting undoes joining when no field contains the separator. */
  lemma {:induction false} SplitJoin(fields: seq<string>, sep: char)
    requires fields != [] && forall f :: f in fields ==> Free(f, sep)
    ensures Split(Join(fields, sep), sep) == fields
  {
    if |fields| > 1 {
      var rest := fields[1..];
      assert Join(fields, sep) == fields[0] + [sep] + Join(rest, sep);
      hide Join, Free;
      SplitJoin(rest, sep);
      SplitField(fields[0], Join(rest, sep), sep);
      assert fields == [fields[0]] + rest;
    }
  }
}
