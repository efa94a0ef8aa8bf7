/** Models of the JavaScript built-ins the site's components call: splitting,
    joining, trimming, slicing and lower-casing strings, reading numbers out of
    strings (parseInt, parseFloat) and writing them back (Number#toString), and
    the Array methods find, filter and reverse. Each is written to follow the
    ECMAScript definition on the inputs the components give it. */
module Js {

  /** `undefined`/`null`/NaN versus a present value. */
  datatype Option<+T> = None | Some(value: T)

  // ---------------------------------------------------------------------------
  // Characters
  // ---------------------------------------------------------------------------

  /** The characters that String#trim strips and that /\s/ matches: WhiteSpace
      (TAB, VT, FF, ZWNBSP and every space separator of category Zs) and
      LineTerminator (LF, CR, LS, PS). */
  const JsWhiteSpace: set<char> := {
    '\t', '\n', '\U{000B}', '\U{000C}', '\r', ' ', '\U{00A0}', '\U{1680}',
    '\U{2000}', '\U{2001}', '\U{2002}', '\U{2003}', '\U{2004}', '\U{2005}',
    '\U{2006}', '\U{2007}', '\U{2008}', '\U{2009}', '\U{200A}',
    '\U{2028}', '\U{2029}', '\U{202F}', '\U{205F}', '\U{3000}', '\U{FEFF}'
  }

  predicate IsSpace(c: char) {
    c in JsWhiteSpace
  }

  predicate IsDigit(c: char) { '0' <= c <= '9' }

  predicate IsHexDigit(c: char) {
    IsDigit(c) || ('a' <= c <= 'f') || ('A' <= c <= 'F')
  }

  /** The value of a hexadecimal digit (0 for any other character, which the
      parsers never pass). */
  function DigitValue(c: char): (d: nat)
    ensures d < 16
    ensures IsDigit(c) ==> d < 10
  {
    if IsDigit(c) then c as int - '0' as int
    else if 'a' <= c <= 'f' then c as int - 'a' as int + 10
    else if 'A' <= c <= 'F' then c as int - 'A' as int + 10
    else 0
  }

  predicate AllDigits(s: string) {
    forall i :: 0 <= i < |s| ==> IsDigit(s[i])
  }

  /** The number that a run of digits denotes in the given radix. */
  function DigitsValue(ds: string, radix: nat): nat {
    if ds == [] then 0
    else DigitsValue(ds[..|ds| - 1], radix) * radix + DigitValue(ds[|ds| - 1])
  }

  // ---------------------------------------------------------------------------
  // Arrays
  // ---------------------------------------------------------------------------

  /** `xs[i]`, which is `undefined` outside the array. */
  function At<T>(xs: seq<T>, i: nat): (r: Option<T>)
    ensures r.Some? <==> i < |xs|
    ensures r.Some? ==> r.value == xs[i]
  {
    if i < |xs| then Some(xs[i]) else None
  }

  /** The position Array#find stops at: the first element satisfying p. */
  function FindIndex<T>(xs: seq<T>, p: T -> bool): (r: Option<nat>)
    ensures r.None? <==> forall i :: 0 <= i < |xs| ==> !p(xs[i])
    ensures r.Some? ==> r.value < |xs| && p(xs[r.value])
    ensures r.Some? ==> forall j :: 0 <= j < r.value ==> !p(xs[j])
  {
    if xs == [] then None
    else if p(xs[0]) then Some(0)
    else match FindIndex(xs[1..], p)
      case None => None
      case Some(k) => Some(k + 1)
  }

  /** Array#find: the first element satisfying p, or undefined. */
  function Find<T>(xs: seq<T>, p: T -> bool): (r: Option<T>)
    ensures r.None? <==> forall i :: 0 <= i < |xs| ==> !p(xs[i])
    ensures r.Some? ==> exists i :: 0 <= i < |xs| && xs[i] == r.value && p(xs[i])
                                    && forall j :: 0 <= j < i ==> !p(xs[j])
  {
    match FindIndex(xs, p)
    case None => None
    case Some(i) => Some(xs[i])
  }

  /** Array#filter: the elements satisfying p, in their original order. */
  function Filter<T>(xs: seq<T>, p: T -> bool): (r: seq<T>)
    ensures |r| <= |xs|
    ensures forall i :: 0 <= i < |r| ==> p(r[i]) && r[i] in xs
    ensures forall i :: 0 <= i < |xs| && p(xs[i]) ==> xs[i] in r
    ensures (forall i :: 0 <= i < |xs| ==> p(xs[i])) ==> r == xs
  {
    if xs == [] then []
    else if p(xs[0]) then [xs[0]] + Filter(xs[1..], p)
    else Filter(xs[1..], p)
  }

  /** Reversing a list with one more element in front puts it at the end. */
  lemma ReverseCons<T>(x: T, ys: seq<T>)
    ensures Reverse([x] + ys) == Reverse(ys) + [x]
  {
    var l, r := Reverse([x] + ys), Reverse(ys) + [x];
    assert |l| == |r|;
    forall i | 0 <= i < |l| ensures l[i] == r[i] {
      if i < |ys| {
        assert l[i] == ([x] + ys)[|ys| - i];
      }
    }
  }

  /** Filtering a list with one more element in front. */
  lemma FilterCons<T>(x: T, xs: seq<T>, p: T -> bool)
    ensures Filter([x] + xs, p) == if p(x) then [x] + Filter(xs, p) else Filter(xs, p)
  {
    assert ([x] + xs)[0] == x && ([x] + xs)[1..] == xs;
  }

  /** Filtering keeps order: the kept elements of a front part come before
      the kept elements of what follows it. */
  lemma {:induction false} FilterAppend<T>(a: seq<T>, b: seq<T>, p: T -> bool)
    ensures Filter(a + b, p) == Filter(a, p) + Filter(b, p)
  {
    if a == [] {
      assert a + b == b;
    } else {
      assert (a + b)[0] == a[0];
      assert (a + b)[1..] == a[1..] + b;
      FilterAppend(a[1..], b, p);
    }
  }

  /** Array#reverse, on values. */
  function Reverse<T>(xs: seq<T>): (r: seq<T>)
    ensures |r| == |xs|
    ensures forall i :: 0 <= i < |xs| ==> r[i] == xs[|xs| - 1 - i]
  {
    if xs == [] then [] else [xs[|xs| - 1]] + Reverse(xs[..|xs| - 1])
  }

  // ---------------------------------------------------------------------------
  // Splitting and joining
  // ---------------------------------------------------------------------------

  /** String#split with a one-character separator. Like JavaScript, the
      empty string splits into one empty piece. */
  function Split(s: string, sep: char): (r: seq<string>)
    ensures |r| >= 1
    ensures forall i :: 0 <= i < |r| ==> sep !in r[i]
  {
    if s == [] then [[]]
    else
      var rest := Split(s[1..], sep);
      if s[0] == sep then [[]] + rest
      else [[s[0]] + rest[0]] + rest[1..]
  }

  /** Array#join with a one-character separator. */
  function Join(parts: seq<string>, sep: char): string {
    if parts == [] then []
    else if |parts| == 1 then parts[0]
    else parts[0] + [sep] + Join(parts[1..], sep)
  }

  /** Splitting undoes joining, whenever no piece contains the separator. */
  lemma {:induction false} SplitJoin(parts: seq<string>, sep: char)
    requires |parts| >= 1
    requires forall i :: 0 <= i < |parts| ==> sep !in parts[i]
    ensures Split(Join(parts, sep), sep) == parts
  {
    if |parts| == 1 {
      SplitPiece(parts[0], [], sep);
      assert parts[0] + [] == parts[0];
      assert Split([], sep) == [[]];
    } else {
      var tail := Join(parts[1..], sep);
      SplitJoin(parts[1..], sep);
      SplitPiece(parts[0], [sep] + tail, sep);
      var more := [sep] + tail;
      assert Split(more, sep) == [[]] + parts[1..] by {
        assert more != [] && more[0] == sep && more[1..] == tail;
      }
      assert parts[0] + [sep] + tail == parts[0] + more;
      assert parts[0] + [] == parts[0];
      assert [parts[0]] + parts[1..] == parts;
    }
  }

  /** A piece free of the separator is glued to the first piece of what follows. */
  lemma {:induction false} SplitPiece(w: string, rest: string, sep: char)
    requires sep !in w
    ensures Split(w + rest, sep) == [w + Split(rest, sep)[0]] + Split(rest, sep)[1..]
  {
    var r := Split(rest, sep);
    if w == [] {
      assert w + rest == rest && w + r[0] == r[0];
      assert r == [r[0]] + r[1..];
    } else {
      var s := w + rest;
      assert s[0] == w[0] && w[0] in w;
      assert s[1..] == w[1..] + rest;
      assert sep !in w[1..] by {
        forall x | x in w[1..] ensures x in w { }
      }
      SplitPiece(w[1..], rest, sep);
      assert [w[0]] + (w[1..] + r[0]) == w + r[0];
    }
  }

  /** String#split(/\s+/): the pieces between maximal runs of white space.
      A leading or trailing run yields an empty first or last piece. */
  function Fields(s: string): (r: seq<string>)
    ensures |r| >= 1
    ensures forall i, k :: 0 <= i < |r| && 0 <= k < |r[i]| ==> !IsSpace(r[i][k])
  {
    if s == [] then [[]]
    else if IsSpace(s[0]) then
      if |s| > 1 && IsSpace(s[1]) then Fields(s[1..]) else [[]] + Fields(s[1..])
    else
      var rest := Fields(s[1..]);
      [[s[0]] + rest[0]] + rest[1..]
  }

  predicate IsWord(w: string) {
    w != [] && forall i :: 0 <= i < |w| ==> !IsSpace(w[i])
  }

  predicate AllSpace(g: string) {
    forall i :: 0 <= i < |g| ==> IsSpace(g[i])
  }

  /** A separator /\s+/ matches: a non-empty run of white space. */
  predicate IsRun(g: string) {
    g != [] && AllSpace(g)
  }

  /** Words with the runs between them: words[0] + gaps[0] + words[1] + ... */
  function Separated(words: seq<string>, gaps: seq<string>): string
    requires |words| == |gaps| + 1
  {
    if gaps == [] then words[0] else words[0] + gaps[0] + Separated(words[1..], gaps[1..])
  }

  /** A word is glued to the first field of what follows it. */
  lemma {:induction false} FieldsWord(w: string, rest: string)
    requires forall i :: 0 <= i < |w| ==> !IsSpace(w[i])
    ensures Fields(w + rest) == [w + Fields(rest)[0]] + Fields(rest)[1..]
  {
    var r := Fields(rest);
    if w == [] {
      assert w + rest == rest && w + r[0] == r[0];
      assert r == [r[0]] + r[1..];
    } else {
      var s := w + rest;
      assert s[0] == w[0];
      assert s[1..] == w[1..] + rest;
      FieldsWord(w[1..], rest);
      assert [w[0]] + (w[1..] + r[0]) == w + r[0];
    }
  }

  /** A run of white space before a word ends the field before it. */
  lemma {:induction false} FieldsRun(g: string, t: string)
    requires IsRun(g) && t != [] && !IsSpace(t[0])
    ensures Fields(g + t) == [[]] + Fields(t)
  {
    var s := g + t;
    assert s[0] == g[0];
    if |g| == 1 {
      assert s[1..] == t && s[1] == t[0];
    } else {
      assert s[1] == g[1];
      assert s[1..] == g[1..] + t;
      FieldsRun(g[1..], t);
    }
  }

  /** Splitting on white space undoes separating words by runs of it. */
  lemma {:induction false} FieldsSeparated(words: seq<string>, gaps: seq<string>)
    requires |words| == |gaps| + 1
    requires forall i :: 0 <= i < |words| ==> IsWord(words[i])
    requires forall i :: 0 <= i < |gaps| ==> IsRun(gaps[i])
    ensures Fields(Separated(words, gaps)) == words
  {
    var w := words[0];
    assert IsWord(w);
    if gaps == [] {
      FieldsWord(w, []);
      assert w + [] == w;
      assert Fields([]) == [[]];
    } else {
      var tail := Separated(words[1..], gaps[1..]);
      assert forall i :: 0 <= i < |words| - 1 ==> IsWord(words[1..][i]);
      assert forall i :: 0 <= i < |gaps| - 1 ==> IsRun(gaps[1..][i]);
      FieldsSeparated(words[1..], gaps[1..]);
      SeparatedEnds(words[1..], gaps[1..]);
      var more := gaps[0] + tail;
      FieldsRun(gaps[0], tail);
      FieldsWord(w, more);
      AppendAssoc(w, gaps[0], tail);
      var f := Fields(more);
      assert f[0] == [] && f[1..] == words[1..];
      assert w + f[0] == w;
      assert [w] + words[1..] == words;
    }
  }

  /** Words separated by runs start and end with a character that is not
      white space. */
  lemma {:induction false} SeparatedEnds(words: seq<string>, gaps: seq<string>)
    requires |words| == |gaps| + 1
    requires forall i :: 0 <= i < |words| ==> IsWord(words[i])
    ensures Separated(words, gaps) != []
    ensures !IsSpace(Separated(words, gaps)[0])
    ensures !IsSpace(Separated(words, gaps)[|Separated(words, gaps)| - 1])
  {
    var w := words[0];
    assert IsWord(w);
    if gaps != [] {
      var tail := Separated(words[1..], gaps[1..]);
      assert forall i :: 0 <= i < |words| - 1 ==> IsWord(words[1..][i]);
      SeparatedEnds(words[1..], gaps[1..]);
      var whole := Separated(words, gaps);
      assert whole == w + gaps[0] + tail;
      assert whole[0] == w[0];
      assert whole[|whole| - 1] == tail[|tail| - 1];
    }
  }

  // ---------------------------------------------------------------------------
  // Trimming, slicing, replacing, case
  // ---------------------------------------------------------------------------

  /** How many white space characters s starts with. */
  function LeadingSpace(s: string): (n: nat)
    ensures n <= |s|
    ensures forall k :: 0 <= k < n ==> IsSpace(s[k])
    ensures n < |s| ==> !IsSpace(s[n])
  {
    if s != [] && IsSpace(s[0]) then 1 + LeadingSpace(s[1..]) else 0
  }

  /** String#trimStart: s without its leading white space. */
  function TrimStart(s: string): (r: string)
    ensures r == s[LeadingSpace(s)..]
    ensures r == [] || !IsSpace(r[0])
  {
    if s != [] && IsSpace(s[0]) then TrimStart(s[1..]) else s
  }

  function TrimEnd(s: string): (r: string)
    ensures |r| <= |s| && r == s[..|r|]
    ensures r == [] || !IsSpace(r[|r| - 1])
    ensures forall i :: |r| <= i < |s| ==> IsSpace(s[i])
  {
    if s != [] && IsSpace(s[|s| - 1]) then TrimEnd(s[..|s| - 1]) else s
  }

  /** String#trim: the middle of s, from its first character that is not
      white space, with only white space after it. */
  function Trim(s: string): (r: string)
    ensures LeadingSpace(s) + |r| <= |s|
    ensures r == s[LeadingSpace(s)..LeadingSpace(s) + |r|]
    ensures forall k :: LeadingSpace(s) + |r| <= k < |s| ==> IsSpace(s[k])
    ensures r == [] || (!IsSpace(r[0]) && !IsSpace(r[|r| - 1]))
  {
    var t := TrimStart(s);
    var r := TrimEnd(t);
    ghost var i := LeadingSpace(s);
    assert forall k :: i + |r| <= k < |s| ==> s[k] == t[k - i];
    r
  }

  /** Trim removes exactly the white space padding a word-bounded middle. */
  lemma TrimPadded(lead: string, m: string, trail: string)
    requires AllSpace(lead) && AllSpace(trail)
    requires m != [] && !IsSpace(m[0]) && !IsSpace(m[|m| - 1])
    ensures Trim(lead + m + trail) == m
  {
    var s := lead + m + trail;
    AppendAssoc(lead, m, trail);
    TrimStartPadded(lead, m + trail);
    assert TrimStart(s) == m + trail;
    TrimEndPadded(m, trail);
    assert Trim(s) == TrimEnd(TrimStart(s));
  }

  lemma {:induction false} TrimStartPadded(lead: string, rest: string)
    requires AllSpace(lead)
    requires rest == [] || !IsSpace(rest[0])
    ensures TrimStart(lead + rest) == rest
  {
    if lead == [] {
      assert lead + rest == rest;
    } else {
      assert (lead + rest)[0] == lead[0];
      assert (lead + rest)[1..] == lead[1..] + rest;
      TrimStartPadded(lead[1..], rest);
    }
  }

  lemma {:induction false} TrimEndPadded(rest: string, trail: string)
    requires AllSpace(trail)
    requires rest == [] || !IsSpace(rest[|rest| - 1])
    ensures TrimEnd(rest + trail) == rest
  {
    if trail == [] {
      assert rest + trail == rest;
    } else {
      var s := rest + trail;
      assert s[|s| - 1] == trail[|trail| - 1];
      assert s[..|s| - 1] == rest + trail[..|trail| - 1];
      TrimEndPadded(rest, trail[..|trail| - 1]);
    }
  }

  /** String#slice(begin, end) for non-negative bounds, which it clamps to
      the string: empty when begin is at or past end or past the string. */
  function Slice(s: string, begin: nat, end: nat): (r: string)
    ensures begin <= end <= |s| ==> r == s[begin..end]
    ensures begin <= |s| <= end ==> r == s[begin..]
    ensures end <= begin || |s| <= begin ==> r == []
  {
    var b := if begin < |s| then begin else |s|;
    var e := if end < |s| then end else |s|;
    if b < e then s[b..e] else []
  }

  /** String#replace(/c/g, ''): every occurrence of c removed, every other
      character kept, in order. */
  function RemoveChar(s: string, c: char): (r: string)
    ensures c !in r
    ensures |r| == |s| - multiset(s)[c]
    ensures forall x :: x != c ==> multiset(r)[x] == multiset(s)[x]
    ensures c !in s ==> r == s
  {
    if s == [] then []
    else
      assert s == [s[0]] + s[1..];
      if s[0] == c then RemoveChar(s[1..], c)
      else [s[0]] + RemoveChar(s[1..], c)
  }

  lemma {:induction false} RemoveCharAppend(a: string, b: string, c: char)
    ensures RemoveChar(a + b, c) == RemoveChar(a, c) + RemoveChar(b, c)
  {
    if a == [] {
      assert a + b == b;
    } else {
      assert (a + b)[0] == a[0];
      assert (a + b)[1..] == a[1..] + b;
      RemoveCharAppend(a[1..], b, c);
    }
  }

  function LowerChar(c: char): char {
    if 'A' <= c <= 'Z' then (c as int - 'A' as int + 'a' as int) as char else c
  }

  /** String#toLowerCase on the ASCII letters. */
  function ToLower(s: string): (r: string)
    ensures |r| == |s|
    ensures forall i :: 0 <= i < |s| ==> r[i] == LowerChar(s[i])
  {
    if s == [] then [] else [LowerChar(s[0])] + ToLower(s[1..])
  }

  /** Lower-casing twice is lower-casing once. */
  lemma ToLowerIdempotent(s: string)
    ensures ToLower(ToLower(s)) == ToLower(s)
  {
    var l := ToLower(s);
    forall i | 0 <= i < |s| ensures ToLower(l)[i] == l[i] {
      assert l[i] == LowerChar(s[i]);
    }
  }

  // ---------------------------------------------------------------------------
  // Numbers
  // ---------------------------------------------------------------------------

  /** The longest prefix of s whose characters all satisfy p. */
  function TakeWhile(s: string, p: char -> bool): (r: string)
    ensures |r| <= |s| && r == s[..|r|]
    ensures forall i :: 0 <= i < |r| ==> p(r[i])
    ensures |r| < |s| ==> !p(s[|r|])
  {
    if s != [] && p(s[0]) then [s[0]] + TakeWhile(s[1..], p) else []
  }

  lemma {:induction false} TakeWhileAppend(a: string, b: string, p: char -> bool)
    requires forall i :: 0 <= i < |a| ==> p(a[i])
    requires b == [] || !p(b[0])
    ensures TakeWhile(a + b, p) == a
  {
    if a != [] {
      assert (a + b)[1..] == a[1..] + b;
      TakeWhileAppend(a[1..], b, p);
    }
  }

  function Negate(negative: bool, x: int): int {
    if negative then -x else x
  }

  /** Leading white space and an optional sign, as parseInt and parseFloat
      skip them: whether the sign was '-', and what follows. */
  function SkipSign(s: string): (bool, string) {
    var t := TrimStart(s);
    if t != [] && (t[0] == '-' || t[0] == '+') then (t[0] == '-', t[1..]) else (false, t)
  }

  /** The digits parseInt reads after the sign: hexadecimal after a "0x" or
      "0X" prefix, decimal otherwise; None when there is no such digit. */
  function ParseUnsignedInt(u: string): (r: Option<nat>)
    ensures r.None? <==> u == [] || !IsDigit(u[0]) || HexPrefixWithoutDigit(u)
  {
    if |u| >= 2 && u[0] == '0' && (u[1] == 'x' || u[1] == 'X') then
      var ds := TakeWhile(u[2..], IsHexDigit);
      if ds == [] then None else Some(DigitsValue(ds, 16))
    else
      var ds := TakeWhile(u, IsDigit);
      if ds == [] then None else Some(DigitsValue(ds, 10))
  }

  /** "0x" or "0X" with no hexadecimal digit after it. */
  predicate HexPrefixWithoutDigit(u: string) {
    |u| >= 2 && u[0] == '0' && (u[1] == 'x' || u[1] == 'X') && (|u| == 2 || !IsHexDigit(u[2]))
  }

  /** parseInt(s) with no radix argument: leading white space, an optional
      sign, then the digits, read as far as they go. None is NaN: nothing
      but white space and a sign before a character that is not a digit, or
      a hexadecimal prefix with no digit after it. The value carries the sign. */
  function ParseInt(s: string): (r: Option<int>)
    ensures var (negative, u) := SkipSign(s);
      && (r.None? <==> u == [] || !IsDigit(u[0]) || HexPrefixWithoutDigit(u))
      && (r.Some? && !negative ==> r.value >= 0)
      && (r.Some? && negative ==> r.value <= 0)
  {
    var (negative, u) := SkipSign(s);
    match ParseUnsignedInt(u)
    case None => None
    case Some(n) => Some(Negate(negative, n))
  }

  /** parseInt of at most four characters lies between -999 and 9999. */
  lemma ParseIntShort(s: string)
    requires |s| <= 4
    ensures ParseInt(s).Some? ==> -999 <= ParseInt(s).value <= 9999
  {
    var (negative, u) := SkipSign(s);
    var t := TrimStart(s);
    assert |u| <= |t| <= |s|;
    assert negative ==> |u| < |t|;
    if ParseInt(s).Some? {
      var n := ParseUnsignedInt(u).value;
      UnsignedShort(u);
      assert ParseInt(s).value == Negate(negative, n);
    }
  }

  /** The unsigned digits of at most four characters are at most 9999, and
      of at most three at most 999. */
  lemma UnsignedShort(u: string)
    requires |u| <= 4
    requires ParseUnsignedInt(u).Some?
    ensures ParseUnsignedInt(u).value <= if |u| <= 3 then 999 else 9999
  {
    if |u| >= 2 && u[0] == '0' && (u[1] == 'x' || u[1] == 'X') {
      var ds := TakeWhile(u[2..], IsHexDigit);
      HexBound(ds);
    } else {
      var ds := TakeWhile(u, IsDigit);
      DecimalBound(ds);
      Pow10Monotone(|ds|, |u|);
      assert Pow10(3) == 1000 && Pow10(4) == 10000;
      if |u| <= 3 { Pow10Monotone(|u|, 3); } else { assert |u| == 4; }
    }
  }

  /** One or two hexadecimal digits are less than 256, one less than 16. */
  lemma HexBound(ds: string)
    requires |ds| <= 2
    ensures DigitsValue(ds, 16) < if |ds| <= 1 then 16 else 256
  {
    if ds != [] {
      var f := ds[..|ds| - 1];
      assert |f| <= 1;
      if f != [] {
        assert f[..0] == [];
        assert DigitsValue(f, 16) == DigitValue(f[0]);
      }
    }
  }

  /** n decimal digits are less than 10^n. */
  lemma {:induction false} DecimalBound(ds: string)
    requires AllDigits(ds)
    ensures DigitsValue(ds, 10) < Pow10(|ds|)
  {
    if ds != [] {
      var f := ds[..|ds| - 1];
      assert AllDigits(f) by {
        forall i | 0 <= i < |f| ensures IsDigit(f[i]) { assert f[i] == ds[i]; }
      }
      DecimalBound(f);
      assert DigitValue(ds[|ds| - 1]) < 10;
    }
  }

  lemma {:induction false} Pow10Monotone(a: nat, b: nat)
    requires a <= b
    ensures Pow10(a) <= Pow10(b)
  {
    if a < b {
      Pow10Monotone(a, b - 1);
    }
  }

  /** parseInt reads a decimal numeral that stops at a non-digit as its value,
      unless the numeral is a lone 0 followed by x or X (a hexadecimal prefix). */
  lemma ParseIntDecimal(ds: string, rest: string)
    requires ds != [] && AllDigits(ds)
    requires rest == [] || !IsDigit(rest[0])
    requires ds != "0" || rest == [] || (rest[0] != 'x' && rest[0] != 'X')
    ensures ParseInt(ds + rest) == Some(DigitsValue(ds, 10))
  {
    var s := ds + rest;
    assert s[0] == ds[0];
    NoSignToSkip(s);
    UnsignedDecimal(ds, rest);
    var n := DigitsValue(ds, 10);
    assert ParseUnsignedInt(s) == Some(n);
    assert Negate(false, n) == n;
  }

  /** The unsigned digits of a decimal numeral that stops at a non-digit. */
  lemma UnsignedDecimal(ds: string, rest: string)
    requires ds != [] && AllDigits(ds)
    requires rest == [] || !IsDigit(rest[0])
    requires ds != "0" || rest == [] || (rest[0] != 'x' && rest[0] != 'X')
    ensures ParseUnsignedInt(ds + rest) == Some(DigitsValue(ds, 10))
  {
    var s := ds + rest;
    assert |s| >= 2 && s[0] == '0' ==> s[1] != 'x' && s[1] != 'X' by {
      if |s| >= 2 && s[0] == '0' {
        if |ds| >= 2 { assert s[1] == ds[1]; } else { assert ds == "0"; assert s[1] == rest[0]; }
      }
    }
    TakeWhileAppend(ds, rest, IsDigit);
  }

  function Pow10(n: nat): (r: nat)
    ensures r >= 1
  {
    if n == 0 then 1 else 10 * Pow10(n - 1)
  }

  /** 10 raised to an integer power. */
  function Scale10(e: int): (r: real)
    ensures r > 0.0
  {
    if e >= 0 then Pow10(e) as real else 1.0 / Pow10(-e) as real
  }

  /** The exponent that parseFloat reads from what follows the mantissa:
      'e' or 'E', an optional sign and at least one digit; 0 when absent. */
  function ExponentOf(s: string): int {
    if |s| >= 2 && (s[0] == 'e' || s[0] == 'E') then
      var negative := s[1] == '-';
      var u := if s[1] == '-' || s[1] == '+' then s[2..] else s[1..];
      var ds := TakeWhile(u, IsDigit);
      if ds == [] then 0 else Negate(negative, DigitsValue(ds, 10))
    else 0
  }

  /** The decimal literal parseFloat reads after the sign: digits with an
      optional fraction, at least one digit in all, then an optional exponent;
      None when there is no digit. */
  function ParseUnsignedFloat(u: string): (r: Option<real>)
    ensures r.None? <==> !StartsNumeral(u)
    ensures r.Some? ==> r.value >= 0.0
  {
    var whole := TakeWhile(u, IsDigit);
    NumeralStart(u);
    FloatAfterWhole(whole, u[|whole|..])
  }

  /** The rest of the literal once its leading digits are read: an optional
      point and fraction digits, then the exponent. */
  function FloatAfterWhole(whole: string, afterWhole: string): (r: Option<real>)
    ensures var hasPoint := afterWhole != [] && afterWhole[0] == '.';
      var fraction := if hasPoint then TakeWhile(afterWhole[1..], IsDigit) else [];
      r.None? <==> whole == [] && fraction == []
    ensures r.Some? ==> r.value >= 0.0
  {
    if afterWhole != [] && afterWhole[0] == '.' then
      var fraction := TakeWhile(afterWhole[1..], IsDigit);
      FloatLiteral(whole, fraction, afterWhole[1 + |fraction|..])
    else
      FloatLiteral(whole, [], afterWhole)
  }

  /** The value of the whole and fraction digits scaled by the exponent that
      follows them; None when there is no digit at all. */
  function FloatLiteral(whole: string, fraction: string, afterFraction: string): (r: Option<real>)
    ensures r.None? <==> whole == [] && fraction == []
    ensures r.Some? ==> r.value >= 0.0
  {
    if whole == [] && fraction == [] then None
    else
      var mantissa := Mantissa(whole, fraction);
      var scale := Scale10(ExponentOf(afterFraction));
      ProductNonNegative(mantissa, scale);
      Some(mantissa * scale)
  }

  lemma ProductNonNegative(x: real, y: real)
    requires x >= 0.0 && y > 0.0
    ensures x * y >= 0.0
  {
  }

  /** The digits before a point and after it, as one non-negative number. */
  function Mantissa(whole: string, fraction: string): (m: real)
    ensures m >= 0.0
  {
    DigitsValue(whole, 10) as real + DigitsValue(fraction, 10) as real / Pow10(|fraction|) as real
  }

  /** Which literals have a digit before the point or right after it. */
  lemma NumeralStart(u: string)
    ensures var whole := TakeWhile(u, IsDigit);
      var afterWhole := u[|whole|..];
      var hasPoint := afterWhole != [] && afterWhole[0] == '.';
      var fraction := if hasPoint then TakeWhile(afterWhole[1..], IsDigit) else [];
      whole == [] && fraction == [] <==> !StartsNumeral(u)
  {
    var whole := TakeWhile(u, IsDigit);
    if whole == [] {
      assert u[|whole|..] == u;
      if u != [] && u[0] == '.' && |u| >= 2 {
        assert u[1..][0] == u[1];
      }
    } else {
      assert IsDigit(u[0]);
    }
  }

  /** A decimal literal starts here: a digit, or a point followed by one. */
  predicate StartsNumeral(u: string) {
    u != [] && (IsDigit(u[0]) || (u[0] == '.' && |u| >= 2 && IsDigit(u[1])))
  }

  /** parseFloat(s) for decimal literals: leading white space, an optional
      sign, then the literal, read as far as it goes. None is NaN: nothing
      but white space and a sign before something that does not start a
      numeral. The value carries the sign. */
  function ParseFloat(s: string): (r: Option<real>)
    ensures var (negative, u) := SkipSign(s);
      && (r.None? <==> !StartsNumeral(u))
      && (r.Some? && !negative ==> r.value >= 0.0)
      && (r.Some? && negative ==> r.value <= 0.0)
  {
    var (negative, u) := SkipSign(s);
    SignedFloat(negative, u)
  }

  /** The literal read after the sign, negated after a '-'. */
  function SignedFloat(negative: bool, u: string): (r: Option<real>)
    ensures r.None? <==> !StartsNumeral(u)
    ensures r.Some? && !negative ==> r.value >= 0.0
    ensures r.Some? && negative ==> r.value <= 0.0
  {
    match ParseUnsignedFloat(u)
    case None => None
    case Some(x) => Some(if negative then -x else x)
  }

  /** parseFloat reads "digits.digits" that stops at a character that is
      neither a digit nor an exponent mark as whole + fraction / 10^|fraction|. */
  lemma ParseFloatDecimal(ds: string, fs: string, rest: string)
    requires AllDigits(ds) && AllDigits(fs) && (ds != [] || fs != [])
    requires rest == [] || (!IsDigit(rest[0]) && rest[0] != 'e' && rest[0] != 'E')
    ensures ParseFloat(ds + "." + fs + rest).Some?
    ensures ParseFloat(ds + "." + fs + rest).value
            == DigitsValue(ds, 10) as real + DigitsValue(fs, 10) as real / Pow10(|fs|) as real
  {
    var grouped := ds + ("." + fs + rest);
    Regroup(ds, ".", fs, rest);
    assert ds + "." + fs + rest == grouped;
    DecimalLiteral(ds, fs, rest);
    assert ParseFloat(grouped) == Some(Mantissa(ds, fs));
    assert ParseFloat(ds + "." + fs + rest) == Some(Mantissa(ds, fs));
    assert Mantissa(ds, fs) == DigitsValue(ds, 10) as real + DigitsValue(fs, 10) as real / Pow10(|fs|) as real;
  }

  /** parseFloat reads a run of digits that stops at a character that is
      neither a digit, a point nor an exponent mark as the value of the digits. */
  lemma ParseFloatWhole(ds: string, rest: string)
    requires ds != [] && AllDigits(ds)
    requires rest == [] || (!IsDigit(rest[0]) && rest[0] != '.' && rest[0] != 'e' && rest[0] != 'E')
    ensures ParseFloat(ds + rest) == Some(DigitsValue(ds, 10) as real)
  {
    var s := ds + rest;
    assert s[0] == ds[0];
    NoSignToSkip(s);
    UnsignedWhole(ds, rest);
    assert ParseFloat(s) == SignedFloat(false, s);
  }

  /** The unsigned part of the same literal. */
  lemma UnsignedWhole(ds: string, rest: string)
    requires ds != [] && AllDigits(ds)
    requires rest == [] || (!IsDigit(rest[0]) && rest[0] != '.' && rest[0] != 'e' && rest[0] != 'E')
    ensures ParseUnsignedFloat(ds + rest) == Some(DigitsValue(ds, 10) as real)
  {
    TakeWhileAppend(ds, rest, IsDigit);
    assert (ds + rest)[|ds|..] == rest;
    assert FloatAfterWhole(ds, rest) == FloatLiteral(ds, [], rest);
    PlainLiteral(ds, [], rest);
    assert Mantissa(ds, []) == DigitsValue(ds, 10) as real;
  }

  /** Leading white space changes nothing that parseInt or parseFloat reads. */
  lemma SkipSignPadded(lead: string, s: string)
    requires AllSpace(lead)
    requires s == [] || !IsSpace(s[0])
    ensures SkipSign(lead + s) == SkipSign(s)
  {
    TrimStartPadded(lead, s);
    assert TrimStart(s) == s by { TrimStartPadded([], s); assert [] + s == s; }
  }

  lemma ParseFloatPadded(lead: string, s: string)
    requires AllSpace(lead)
    requires s == [] || !IsSpace(s[0])
    ensures ParseFloat(lead + s) == ParseFloat(s)
  {
    SkipSignPadded(lead, s);
  }

  lemma ParseIntPadded(lead: string, s: string)
    requires AllSpace(lead)
    requires s == [] || !IsSpace(s[0])
    ensures ParseInt(lead + s) == ParseInt(s)
  {
    SkipSignPadded(lead, s);
  }

  /** A sign in front of a literal: '-' negates what parseFloat reads, '+'
      keeps it. */
  lemma ParseFloatSigned(sign: char, u: string)
    requires sign == '-' || sign == '+'
    requires u != [] && (u[0] == '.' || IsDigit(u[0]))
    ensures ParseFloat([sign] + u).Some? <==> ParseFloat(u).Some?
    ensures ParseFloat(u).Some? ==>
      ParseFloat([sign] + u).value == if sign == '-' then -ParseFloat(u).value else ParseFloat(u).value
  {
    SignSkipped(sign, u);
    NoSignToSkip(u);
  }

  /** The same for parseInt. */
  lemma ParseIntSigned(sign: char, u: string)
    requires sign == '-' || sign == '+'
    requires u != [] && IsDigit(u[0])
    ensures ParseInt([sign] + u).Some? <==> ParseInt(u).Some?
    ensures ParseInt(u).Some? ==>
      ParseInt([sign] + u).value == if sign == '-' then -ParseInt(u).value else ParseInt(u).value
  {
    SignSkipped(sign, u);
    NoSignToSkip(u);
  }

  lemma SignSkipped(sign: char, u: string)
    requires sign == '-' || sign == '+'
    ensures SkipSign([sign] + u) == (sign == '-', u)
  {
    var s := [sign] + u;
    assert !IsSpace(sign);
    assert TrimStart(s) == s;
    assert s[1..] == u;
  }

  lemma DecimalLiteral(ds: string, fs: string, rest: string)
    requires AllDigits(ds) && AllDigits(fs) && (ds != [] || fs != [])
    requires rest == [] || (!IsDigit(rest[0]) && rest[0] != 'e' && rest[0] != 'E')
    ensures ParseFloat(ds + ("." + fs + rest)) == Some(Mantissa(ds, fs))
  {
    var tail := "." + fs + rest;
    var s := ds + tail;
    assert s[0] == '.' || IsDigit(s[0]) by {
      if ds != [] { assert s[0] == ds[0]; } else { assert s[0] == tail[0]; }
    }
    NoSignToSkip(s);
    UnsignedFloatDecimal(ds, fs, rest);
  }

  /** A string that starts with a digit or a point has no white space or
      sign to skip. */
  lemma NoSignToSkip(s: string)
    requires s != [] && (s[0] == '.' || IsDigit(s[0]))
    ensures SkipSign(s) == (false, s)
  {
    assert !IsSpace(s[0]);
    assert TrimStart(s) == s;
  }

  lemma Regroup<T>(a: seq<T>, b: seq<T>, c: seq<T>, d: seq<T>)
    ensures a + b + c + d == a + (b + c + d)
  {
  }

  lemma AppendAssoc<T>(a: seq<T>, b: seq<T>, c: seq<T>)
    ensures a + b + c == a + (b + c)
  {
  }

  /** The unsigned part of the same literal. */
  lemma UnsignedFloatDecimal(ds: string, fs: string, rest: string)
    requires AllDigits(ds) && AllDigits(fs) && (ds != [] || fs != [])
    requires rest == [] || (!IsDigit(rest[0]) && rest[0] != 'e' && rest[0] != 'E')
    ensures ParseUnsignedFloat(ds + ("." + fs + rest)) == Some(Mantissa(ds, fs))
  {
    WholeDigits(ds, "." + fs + rest);
    FractionDigits(ds, fs, rest);
    PlainLiteral(ds, fs, rest);
  }

  /** The leading digits of a literal end at the first character that is not one. */
  lemma WholeDigits(ds: string, tail: string)
    requires AllDigits(ds) && tail != [] && !IsDigit(tail[0])
    ensures ParseUnsignedFloat(ds + tail) == FloatAfterWhole(ds, tail)
  {
    TakeWhileAppend(ds, tail, IsDigit);
    assert (ds + tail)[|ds|..] == tail;
  }

  /** After a point, the fraction digits end where the exponent or the rest begins. */
  lemma FractionDigits(ds: string, fs: string, rest: string)
    requires AllDigits(fs) && (rest == [] || !IsDigit(rest[0]))
    ensures FloatAfterWhole(ds, "." + fs + rest) == FloatLiteral(ds, fs, rest)
  {
    var tail := "." + fs + rest;
    assert tail[1..] == fs + rest;
    TakeWhileAppend(fs, rest, IsDigit);
    assert tail[1 + |fs|..] == rest;
  }

  /** Without an exponent, a literal's value is its mantissa. */
  lemma PlainLiteral(ds: string, fs: string, rest: string)
    requires ds != [] || fs != []
    requires rest == [] || (rest[0] != 'e' && rest[0] != 'E')
    ensures FloatLiteral(ds, fs, rest) == Some(Mantissa(ds, fs))
  {
    assert ExponentOf(rest) == 0;
    assert Scale10(0) == 1.0;
    var m := Mantissa(ds, fs);
    assert m * 1.0 == m;
  }


  /** A string that does not start (after white space and a sign) with a digit
      or a point reads as NaN. */
  lemma ParseFloatNotANumber(s: string)
    requires s != [] && !IsSpace(s[0]) && !IsDigit(s[0])
    requires s[0] != '.' && s[0] != '-' && s[0] != '+'
    ensures ParseFloat(s).None?
  {
    assert SkipSign(s) == (false, s);
    assert TakeWhile(s, IsDigit) == [];
  }

  /** Number#toString for a non-negative integer: its decimal numeral,
      without leading zeros, denoting the number itself. */
  function IntToString(n: nat): (r: string)
    ensures r != [] && AllDigits(r)
    ensures DigitsValue(r, 10) == n
    ensures |r| >= 2 ==> r[0] != '0'
  {
    var last := ['0' + (n % 10) as char];
    assert DigitValue(last[0]) == n % 10;
    if n < 10 then last
    else
      var front := IntToString(n / 10);
      var r := front + last;
      assert r[..|r| - 1] == front;
      r
  }

  /** Different numbers print differently. */
  lemma IntToStringInjective(a: nat, b: nat)
    requires IntToString(a) == IntToString(b)
    ensures a == b
  {
  }
}
