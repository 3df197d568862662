/** Text helpers shared by every module: Python's notion of whitespace, `str.strip()`,
    `str.split(',')`, decimal rendering of naturals and `int()` on a string. */
module Common {

  datatype Option<+T> = None | Some(value: T)

  const CR: char := '\r'
  const LF: char := '\n'

  /** The characters for which Python's `str.isspace()` holds; `str.strip()` and the
      regular-expression class `\s` both use this set. */
  predicate IsSpace(c: char)
  {
    ('\t' <= c <= '\r') || ('\U{1c}' <= c <= ' ') || c == '\U{85}' || c == '\U{a0}' ||
    c == '\U{1680}' || ('\U{2000}' <= c <= '\U{200a}') || c == '\U{2028}' || c == '\U{2029}' ||
    c == '\U{202f}' || c == '\U{205f}' || c == '\U{3000}'
  }

  predicate AllSpace(s: string)
  {
    forall i :: 0 <= i < |s| ==> IsSpace(s[i])
  }

  predicate IsDigit(c: char)
  {
    '0' <= c <= '9'
  }

  predicate AllDigits(s: string)
  {
    forall i :: 0 <= i < |s| ==> IsDigit(s[i])
  }

  function TrimStart(s: string): (r: string)
    ensures |r| <= |s| && r == s[|s| - |r|..]
    ensures r == [] || !IsSpace(r[0])
    ensures AllSpace(s[..|s| - |r|])
  {
    if s != [] && IsSpace(s[0]) then
      var t := s[1..];
      var r := TrimStart(t);
      assert AllSpace(t[..|t| - |r|]) && r == t[|t| - |r|..];
      DropFront(s, |s| - |r|);
      r
    else s
  }

  function TrimEnd(s: string): (r: string)
    ensures |r| <= |s| && r == s[..|r|]
    ensures r == [] || !IsSpace(r[|r| - 1])
    ensures AllSpace(s[|r|..])
  {
    if s != [] && IsSpace(s[|s| - 1]) then
      var r := TrimEnd(s[..|s| - 1]);
      assert s[|r|..] == s[..|s| - 1][|r|..] + [s[|s| - 1]];
      r
    else s
  }

  /** Python's `s.strip()`: the longest infix with no whitespace at either end. */
  function Strip(s: string): (r: string)
    ensures r == [] || (!IsSpace(r[0]) && !IsSpace(r[|r| - 1]))
    ensures |r| <= |s|
  {
    TrimEnd(TrimStart(s))
  }

  lemma {:induction false} TrimStartSpaces(w: string, x: string)
    requires AllSpace(w)
    requires x == [] || !IsSpace(x[0])
    ensures TrimStart(w + x) == x
    decreases |w|
  {
    if w != [] {
      assert (w + x)[1..] == w[1..] + x;
      TrimStartSpaces(w[1..], x);
    } else {
      assert w + x == x;
    }
  }

  lemma {:induction false} TrimEndSpaces(x: string, w: string)
    requires AllSpace(w)
    requires x == [] || !IsSpace(x[|x| - 1])
    ensures TrimEnd(x + w) == x
    decreases |w|
  {
    if w != [] {
      assert (x + w)[..|x + w| - 1] == x + w[..|w| - 1];
      TrimEndSpaces(x, w[..|w| - 1]);
    } else {
      assert x + w == x;
    }
  }

  /** Whitespace around a text that neither starts nor ends with whitespace is exactly
      what `strip()` removes. */
  lemma StripSurrounded(l: string, x: string, r: string)
    requires AllSpace(l) && AllSpace(r)
    requires x != [] && !IsSpace(x[0]) && !IsSpace(x[|x| - 1])
    ensures Strip(l + x + r) == x
  {
    assert l + x + r == l + (x + r);
    TrimStartSpaces(l, x + r);
    TrimEndSpaces(x, r);
  }

  /** A text made only of whitespace strips to the empty text. */
  lemma {:induction false} StripAllSpace(s: string)
    requires AllSpace(s)
    ensures Strip(s) == ""
  {
    TrimStartSpaces(s, "");
    assert s + "" == s;
  }

  /** Dropping one whitespace character and then a run of whitespace drops a longer run. */
  lemma DropFront(s: string, k: nat)
    requires 1 <= k <= |s| && IsSpace(s[0]) && AllSpace(s[1..][..k - 1])
    ensures s[1..][k - 1..] == s[k..]
    ensures AllSpace(s[..k])
  {
    assert forall i :: 1 <= i < k ==> s[i] == s[1..][..k - 1][i - 1];
  }

  lemma SplitAt<T>(s: seq<T>, n: nat)
    requires n <= |s|
    ensures s == s[..n] + s[n..]
  {
  }

  /** `[f(x) for x in xs]`, built front to back. */
  function MapSeq<A, B>(xs: seq<A>, f: A -> B): (ys: seq<B>)
    ensures |ys| == |xs|
  {
    if xs == [] then [] else MapSeq(xs[..|xs| - 1], f) + [f(xs[|xs| - 1])]
  }

  lemma MapSeqMore<A, B>(xs: seq<A>, f: A -> B, i: nat)
    requires i < |xs|
    ensures MapSeq(xs[..i + 1], f) == MapSeq(xs[..i], f) + [f(xs[i])]
  {
    assert xs[..i + 1][..i] == xs[..i];
  }

  lemma {:induction false} MapSeqIndex<A, B>(xs: seq<A>, f: A -> B, i: nat)
    requires i < |xs|
    ensures MapSeq(xs, f)[i] == f(xs[i])
    decreases |xs|
  {
    var init := xs[..|xs| - 1];
    if i < |xs| - 1 {
      MapSeqIndex(init, f, i);
      assert init[i] == xs[i];
    }
  }

  lemma TakeMore<T>(s: seq<T>, i: nat)
    requires i < |s|
    ensures s[..i + 1] == s[..i] + [s[i]]
  {
  }

  lemma TakeAll<T>(s: seq<T>)
    ensures s[..|s|] == s
  {
  }

  lemma Assoc<T>(a: seq<T>, b: seq<T>, c: seq<T>)
    ensures a + (b + c) == a + b + c
  {
  }

  /** Python's `s.split(sep)`: the fields between separators, empty fields kept. */
  function Split(s: string, sep: char): (r: seq<string>)
    ensures |r| >= 1
    ensures forall i :: 0 <= i < |r| ==> sep !in r[i]
  {
    if s == [] then [""]
    else
      var rest := Split(s[1..], sep);
      if s[0] == sep then [""] + rest
      else [[s[0]] + rest[0]] + rest[1..]
  }

  /** `sep.join(fields)`. */
  function Join(fields: seq<string>, sep: char): string
  {
    if fields == [] then ""
    else if |fields| == 1 then fields[0]
    else fields[0] + [sep] + Join(fields[1..], sep)
  }

  lemma {:induction false} SplitPrefix(f: string, tail: string, sep: char)
    requires sep !in f
    ensures Split(f + tail, sep) == [f + Split(tail, sep)[0]] + Split(tail, sep)[1..]
    decreases |f|
  {
    if f == [] {
      assert f + tail == tail;
      var r := Split(tail, sep);
      assert f + r[0] == r[0];
      assert r == [r[0]] + r[1..];
    } else {
      assert (f + tail)[1..] == f[1..] + tail;
      SplitPrefix(f[1..], tail, sep);
      assert [f[0]] + (f[1..] + Split(tail, sep)[0]) == f + Split(tail, sep)[0];
    }
  }

  /** Splitting a joined record gives back its fields when no field holds the separator. */
  lemma {:induction false} SplitJoin(fields: seq<string>, sep: char)
    requires |fields| >= 1
    requires forall i :: 0 <= i < |fields| ==> sep !in fields[i]
    ensures Split(Join(fields, sep), sep) == fields
    decreases |fields|
  {
    if |fields| == 1 {
      SplitPrefix(fields[0], "", sep);
      assert fields[0] + "" == fields[0];
    } else {
      var tail := [sep] + Join(fields[1..], sep);
      assert Join(fields, sep) == fields[0] + tail;
      SplitPrefix(fields[0], tail, sep);
      SplitJoin(fields[1..], sep);
      assert tail[1..] == Join(fields[1..], sep);
      assert Split(tail, sep) == [""] + fields[1..];
      assert fields[0] + "" == fields[0];
    }
  }

  function DigitChar(d: nat): (c: char)
    requires d < 10
    ensures IsDigit(c)
  {
    "0123456789"[d]
  }

  /** Python's `str(n)` for a natural number. */
  function NatToString(n: nat): (s: string)
    ensures s != [] && AllDigits(s)
    ensures n > 0 ==> s[0] != '0'
    decreases n
  {
    if n < 10 then [DigitChar(n)] else NatToString(n / 10) + [DigitChar(n % 10)]
  }

  function DigitValue(c: char): nat
    requires IsDigit(c)
  {
    (c as int - '0' as int) as nat
  }

  /** The value of a run of decimal digits (leading zeros allowed). */
  function DigitsValue(s: string): nat
    requires AllDigits(s)
    decreases |s|
  {
    if s == [] then 0 else 10 * DigitsValue(s[..|s| - 1]) + DigitValue(s[|s| - 1])
  }

  lemma {:induction false} NatToStringValue(n: nat)
    ensures DigitsValue(NatToString(n)) == n
    decreases n
  {
    var s := NatToString(n);
    if n >= 10 {
      NatToStringValue(n / 10);
      assert s[..|s| - 1] == NatToString(n / 10);
    }
    assert DigitValue(DigitChar(n % 10)) == n % 10;
  }

  /** The longest prefix of `s` made of decimal digits. */
  function DigitRun(s: string): (r: string)
    ensures |r| <= |s| && r == s[..|r|] && AllDigits(r)
    ensures |r| < |s| ==> !IsDigit(s[|r|])
  {
    if s != [] && IsDigit(s[0]) then [s[0]] + DigitRun(s[1..]) else ""
  }

  lemma {:induction false} DigitRunConcat(d: string, rest: string)
    requires AllDigits(d)
    requires rest == [] || !IsDigit(rest[0])
    ensures DigitRun(d + rest) == d
    decreases |d|
  {
    if d == [] {
      assert d + rest == rest;
    } else {
      assert (d + rest)[1..] == d[1..] + rest;
      DigitRunConcat(d[1..], rest);
    }
  }

  /** Digits separated by single underscores, as Python's `int()` accepts them. */
  predicate IsDigitGroup(s: string)
    decreases |s|
  {
    |s| >= 1 && IsDigit(s[0]) &&
    (|s| == 1 || (if s[1] == '_' then |s| >= 3 && IsDigitGroup(s[2..]) else IsDigitGroup(s[1..])))
  }

  function GroupValue(s: string, acc: nat): nat
    requires IsDigitGroup(s)
    decreases |s|
  {
    var v := 10 * acc + DigitValue(s[0]);
    if |s| == 1 then v else if s[1] == '_' then GroupValue(s[2..], v) else GroupValue(s[1..], v)
  }

  /** Python's `int(s)` on a text: `None` where Python raises `ValueError`. Surrounding
      whitespace, a sign, leading zeros and single underscores between digits are accepted. */
  function IntOf(s: string): (r: Option<int>)
    ensures r.Some? ==> Strip(s) != ""
  {
    var t := Strip(s);
    if t == [] then None
    else
      var neg := t[0] == '-';
      var body := if t[0] == '-' || t[0] == '+' then t[1..] else t;
      if IsDigitGroup(body) then
        var v := GroupValue(body, 0);
        var z: int := if neg then 0 - (v as int) else v as int;
        Some(z)
      else None
  }

  lemma {:induction false} GroupValueIsDigitsValue(s: string, acc: nat)
    requires s != [] && AllDigits(s)
    ensures IsDigitGroup(s)
    ensures GroupValue(s, acc) == acc * Pow10(|s|) + DigitsValue(s)
    decreases |s|
  {
    var d := DigitValue(s[0]);
    var v := 10 * acc + d;
    if |s| == 1 {
      assert s[..0] == "";
    } else {
      assert s[1] != '_' && AllDigits(s[1..]);
      GroupValueIsDigitsValue(s[1..], v);
      assert GroupValue(s, acc) == GroupValue(s[1..], v);
      DigitsValueFront(s);
      Distribute(acc, d, Pow10(|s| - 1));
    }
  }

  lemma Distribute(a: nat, d: nat, p: nat)
    ensures (10 * a + d) * p == a * (10 * p) + d * p
  {
  }

  function Pow10(n: nat): (p: nat)
    ensures p >= 1
  {
    if n == 0 then 1 else 10 * Pow10(n - 1)
  }

  function Pow2(n: nat): (p: nat)
    ensures p >= 1
  {
    if n == 0 then 1 else 2 * Pow2(n - 1)
  }

  lemma {:induction false} DigitsValueFront(s: string)
    requires s != [] && AllDigits(s)
    ensures DigitsValue(s) == DigitValue(s[0]) * Pow10(|s| - 1) + DigitsValue(s[1..])
    decreases |s|
  {
    if |s| > 1 {
      var init := s[..|s| - 1];
      DigitsValueFront(init);
      assert init[1..] == s[1..][..|s[1..]| - 1];
      assert init[0] == s[0];
      var a, p, x := DigitValue(s[0]), Pow10(|s| - 2), DigitsValue(init[1..]);
      assert DigitsValue(init) == a * p + x;
      Scale(a, p, x);
    }
  }

  lemma Scale(a: nat, p: nat, x: nat)
    ensures 10 * (a * p + x) == a * (10 * p) + 10 * x
  {
  }

  /** Text that neither starts nor ends with whitespace is left alone by strip(). */
  lemma StripPlain(s: string)
    requires s != [] && !IsSpace(s[0]) && !IsSpace(s[|s| - 1])
    ensures Strip(s) == s
  {
    StripSurrounded("", s, "");
    assert "" + s + "" == s;
  }

  /** A run of digits surrounded by nothing is left alone by strip(). */
  lemma StripDigits(s: string)
    requires s != [] && AllDigits(s)
    ensures Strip(s) == s
  {
    assert IsDigit(s[0]) && IsDigit(s[|s| - 1]);
    StripPlain(s);
  }

  /** `int()` of an unsigned run of digits is its decimal value. */
  lemma IntOfDigits(s: string)
    requires s != [] && AllDigits(s)
    ensures IntOf(s) == Some(DigitsValue(s) as int)
  {
    StripDigits(s);
    assert IsDigit(s[0]);
    GroupValueIsDigitsValue(s, 0);
  }

  /** `int(str(n)) == n`: the decimal text of a natural reads back as that natural. */
  lemma IntOfNatToString(n: nat)
    ensures IntOf(NatToString(n)) == Some(n)
  {
    IntOfDigits(NatToString(n));
    NatToStringValue(n);
  }
}
