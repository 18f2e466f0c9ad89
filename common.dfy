// JavaScript value semantics that the rest of the model relies on: optional
// values, truthiness, the whitespace class used by `trim()` and regex `\s`,
// prefix tests, first-occurrence replacement, decimal numerals, `parseInt`,
// and `join`/`split`.
module Common {

  datatype Option<T> = None | Some(value: T)

  /** What a route handler decides: a value to go on with, or an HTTP status and error text. */
  datatype HttpResult<T> = Ok(value: T) | Fail(status: int, error: string)

  /** The values a request body, query string or tool argument can hold. */
  datatype JsValue =
    | JUndefined
    | JNull
    | JBool(b: bool)
    | JNum(n: int)
    | JNaN
    | JStr(s: string)
    | JObject

  /** JavaScript truthiness (`if (v)`, `!v`, `v || d`). */
  predicate Truthy(v: JsValue)
  {
    match v
    case JUndefined => false
    case JNull => false
    case JBool(b) => b
    case JNum(n) => n != 0
    case JNaN => false
    case JStr(s) => s != ""
    case JObject => true
  }

  /** Truthiness of an optional string field (`undefined` is `None`). */
  predicate Present(o: Option<string>)
  {
    o.Some? && o.value != ""
  }

  /** `a || d` for an optional string. */
  function OrElse(o: Option<string>, d: string): (r: string)
    ensures Present(o) ==> r == o.value
    ensures !Present(o) ==> r == d
  {
    if Present(o) then o.value else d
  }

  /** `String(v)`, as a template literal `${v}` prints it. */
  function JsString(v: JsValue): (s: string)
    ensures v.JStr? ==> s == v.s
    ensures v.JNum? ==> s == IntToString(v.n)
  {
    match v
    case JUndefined => "undefined"
    case JNull => "null"
    case JBool(b) => if b then "true" else "false"
    case JNum(n) => IntToString(n)
    case JNaN => "NaN"
    case JStr(s) => s
    case JObject => "[object Object]"
  }

  /** `a + b + c` holds `b` at index `|a|`. */
  lemma OccursAfter(a: string, b: string, c: string)
    ensures OccursAt(a + b + c, b, |a|) && Contains(a + b + c, b)
  {
    var s := a + b + c;
    assert s[|a|..|a| + |b|] == b;
    assert OccursAt(s, b, |a|) && |a| <= |s|;
  }

  // ---------------------------------------------------------------------
  // Characters and whitespace

  /** The characters matched by `\s` and removed by `String.prototype.trim`. */
  predicate IsWhitespace(c: char)
  {
    c == ' ' || c == '\t' || c == '\n' || c == '\r' || c == '\U{000B}' || c == '\U{000C}'
    || c == '\U{00A0}' || c == '\U{FEFF}' || c == '\U{1680}' || ('\U{2000}' <= c <= '\U{200A}')
    || c == '\U{2028}' || c == '\U{2029}' || c == '\U{202F}' || c == '\U{205F}' || c == '\U{3000}'
  }

  predicate IsDigit(c: char) { '0' <= c <= '9' }

  predicate AllWhitespace(s: string)
  {
    forall i :: 0 <= i < |s| ==> IsWhitespace(s[i])
  }

  function TrimStart(s: string): (r: string)
    ensures |r| <= |s| && r == s[|s| - |r|..]
    ensures AllWhitespace(s[..|s| - |r|])
    ensures r != [] ==> !IsWhitespace(r[0])
  {
    if s != [] && IsWhitespace(s[0]) then TrimStart(s[1..]) else s
  }

  function TrimEnd(s: string): (r: string)
    ensures |r| <= |s| && r == s[..|r|]
    ensures AllWhitespace(s[|r|..])
    ensures r != [] ==> !IsWhitespace(r[|r| - 1])
  {
    if s != [] && IsWhitespace(s[|s| - 1]) then TrimEnd(s[..|s| - 1]) else s
  }

  /** `s.trim()`: the slice of `s` left once leading and trailing whitespace is cut. */
  function Trim(s: string): (r: string)
    ensures |r| <= |s|
    ensures r != [] ==> !IsWhitespace(r[0]) && !IsWhitespace(r[|r| - 1])
  {
    TrimEnd(TrimStart(s))
  }

  /** What `trim()` removes is whitespace on both sides of the slice it keeps. */
  lemma TrimIsSlice(s: string)
    ensures exists i: nat :: OccursAt(s, Trim(s), i) && AllWhitespace(s[..i]) && AllWhitespace(s[i + |Trim(s)|..])
  {
    var t := TrimStart(s);
    var r := TrimEnd(t);
    var i := |s| - |t|;
    assert s[i..i + |r|] == r;
    assert s[i + |r|..] == t[|r|..];
    assert OccursAt(s, r, i) && AllWhitespace(s[..i]) && AllWhitespace(s[i + |r|..]);
  }

  /** A string trims to nothing exactly when every character is whitespace. */
  lemma {:induction false} TrimEmptyIffBlank(s: string)
    ensures Trim(s) == "" <==> AllWhitespace(s)
  {
    var t := TrimStart(s);
    if !AllWhitespace(s) {
      var k :| 0 <= k < |s| && !IsWhitespace(s[k]);
      assert k >= |s| - |t|;
      assert t[k - (|s| - |t|)] == s[k];
      TrimEndKeepsNonBlank(t, k - (|s| - |t|));
    }
  }

  lemma {:induction false} TrimEndKeepsNonBlank(t: string, k: nat)
    requires k < |t| && !IsWhitespace(t[k])
    ensures TrimEnd(t) != ""
  {
    if IsWhitespace(t[|t| - 1]) {
      TrimEndKeepsNonBlank(t[..|t| - 1], k);
    }
  }

  // ---------------------------------------------------------------------
  // Prefixes, search and replacement

  predicate StartsWith(s: string, p: string)
  {
    |p| <= |s| && s[..|p|] == p
  }

  predicate OccursAt(s: string, p: string, i: nat)
  {
    i + |p| <= |s| && s[i..i + |p|] == p
  }

  /** `s.indexOf(p)`, `None` for -1. */
  function IndexOf(s: string, p: string): (r: Option<nat>)
    ensures r.Some? ==> OccursAt(s, p, r.value)
    ensures r.Some? ==> forall j :: 0 <= j < r.value ==> !OccursAt(s, p, j)
    ensures r.None? ==> forall j :: 0 <= j <= |s| ==> !OccursAt(s, p, j)
    decreases |s|
  {
    if OccursAt(s, p, 0) then Some(0)
    else if s == [] then None
    else
      var rest := IndexOf(s[1..], p);
      assert forall j :: 1 <= j <= |s| ==> (OccursAt(s, p, j) <==> OccursAt(s[1..], p, j - 1)) by {
        forall j | 1 <= j <= |s| { OccursAtShift(s, p, j); }
      }
      match rest
      case None => None
      case Some(k) => Some(k + 1)
  }

  /** An occurrence past the first character is an occurrence in the rest. */
  lemma OccursAtShift(s: string, p: string, j: nat)
    requires 1 <= j <= |s|
    ensures OccursAt(s, p, j) <==> OccursAt(s[1..], p, j - 1)
  {
    if j + |p| <= |s| {
      assert s[1..][j - 1..j - 1 + |p|] == s[j..j + |p|];
    }
  }

  predicate Contains(s: string, p: string)
  {
    IndexOf(s, p).Some?
  }

  lemma StartsWithOccursAtZero(s: string, p: string)
    ensures StartsWith(s, p) <==> OccursAt(s, p, 0)
  {
  }

  /** `s.replace(p, rep)` with a string pattern: only the first occurrence is replaced. */
  function ReplaceFirst(s: string, p: string, rep: string): (r: string)
    ensures !Contains(s, p) ==> r == s
  {
    match IndexOf(s, p)
    case None => s
    case Some(i) => s[..i] + rep + s[i + |p|..]
  }

  /** Replacing a pattern the string starts with cuts exactly that prefix. */
  lemma ReplaceFirstOfPrefix(s: string, p: string, rep: string)
    requires StartsWith(s, p)
    ensures ReplaceFirst(s, p, rep) == rep + s[|p|..]
  {
    assert OccursAt(s, p, 0);
  }

  // ---------------------------------------------------------------------
  // Decimal numerals

  function DigitChar(d: nat): (c: char)
    requires d < 10
    ensures IsDigit(c) && (c as int) - ('0' as int) == d
  {
    (('0' as int) + d) as char
  }

  function DigitValue(c: char): (d: nat)
    requires IsDigit(c)
    ensures d < 10
  {
    (c as int) - ('0' as int)
  }

  predicate AllDigits(s: string)
  {
    forall i :: 0 <= i < |s| ==> IsDigit(s[i])
  }

  /** `String(n)` for a non-negative integer: no leading zeros, "0" for zero. */
  function NatToString(n: nat): (r: string)
    ensures |r| >= 1 && AllDigits(r)
    ensures |r| > 1 ==> r[0] != '0'
    decreases n
  {
    if n < 10 then [DigitChar(n)] else NatToString(n / 10) + [DigitChar(n % 10)]
  }

  /** `String(i)` for any integer. */
  function IntToString(i: int): (r: string)
    ensures r != []
    ensures i >= 0 ==> AllDigits(r)
    ensures i < 0 ==> r[0] == '-' && AllDigits(r[1..])
  {
    if i >= 0 then NatToString(i) else "-" + NatToString(-i)
  }

  /** A numeral holds only digits and a leading minus sign. */
  lemma IntToStringLacks(i: int, c: char)
    requires !IsDigit(c) && c != '-'
    ensures Lacks(IntToString(i), c)
  {
    var s := IntToString(i);
    if i < 0 {
      forall j | 1 <= j < |s| ensures s[j] != c {
        assert s[j] == s[1..][j - 1];
      }
    }
  }

  /** The value of a string of decimal digits. */
  function DigitsValue(s: string): nat
    requires AllDigits(s)
  {
    if s == [] then 0 else DigitsValue(s[..|s| - 1]) * 10 + DigitValue(s[|s| - 1])
  }

  lemma {:induction false} DigitsValueOfNatToString(n: nat)
    ensures DigitsValue(NatToString(n)) == n
  {
    var r := NatToString(n);
    if n >= 10 {
      DigitsValueOfNatToString(n / 10);
      assert r[..|r| - 1] == NatToString(n / 10);
    }
  }

  /** Distinct numbers have distinct numerals. */
  lemma NatToStringInjective(m: nat, n: nat)
    requires NatToString(m) == NatToString(n)
    ensures m == n
  {
    DigitsValueOfNatToString(m);
    DigitsValueOfNatToString(n);
  }

  lemma IntToStringInjective(a: int, b: int)
    requires IntToString(a) == IntToString(b)
    ensures a == b
  {
    if a >= 0 && b >= 0 {
      NatToStringInjective(a, b);
    } else if a < 0 && b < 0 {
      assert IntToString(a)[1..] == NatToString(-a);
      assert IntToString(b)[1..] == NatToString(-b);
      NatToStringInjective(-a, -b);
    }
  }

  /** `String(n).padStart(2, '0')`: numbers below ten get one leading zero. */
  function Pad2(n: nat): (r: string)
    ensures n < 100 ==> |r| == 2
    ensures AllDigits(r)
  {
    if n < 10 then "0" + NatToString(n)
    else
      assert n < 100 ==> |NatToString(n / 10)| == 1;
      NatToString(n)
  }

  lemma Pad2Value(n: nat)
    ensures DigitsValue(Pad2(n)) == n
  {
    DigitsValueOfNatToString(n);
    if n < 10 {
      assert Pad2(n)[..1] == "0";
    }
  }

  // ---------------------------------------------------------------------
  // parseInt

  predicate IsHexDigit(c: char)
  {
    IsDigit(c) || ('a' <= c <= 'f') || ('A' <= c <= 'F')
  }

  function HexValue(c: char): (d: nat)
    requires IsHexDigit(c)
    ensures d < 16
  {
    if IsDigit(c) then DigitValue(c)
    else if 'a' <= c <= 'f' then (c as int) - ('a' as int) + 10
    else (c as int) - ('A' as int) + 10
  }

  predicate IsRadixDigit(c: char, hex: bool)
  {
    if hex then IsHexDigit(c) else IsDigit(c)
  }

  /** Length of the longest prefix of `s` made of digits of the radix. */
  function DigitPrefixLength(s: string, hex: bool): (k: nat)
    ensures k <= |s|
    ensures forall i :: 0 <= i < k ==> IsRadixDigit(s[i], hex)
    ensures k < |s| ==> !IsRadixDigit(s[k], hex)
  {
    if s != [] && IsRadixDigit(s[0], hex) then 1 + DigitPrefixLength(s[1..], hex) else 0
  }

  function RadixValue(s: string, hex: bool): nat
    requires forall i :: 0 <= i < |s| ==> IsRadixDigit(s[i], hex)
  {
    if s == [] then 0
    else
      assert IsRadixDigit(s[|s| - 1], hex);
      RadixValue(s[..|s| - 1], hex) * (if hex then 16 else 10)
         + (if hex then HexValue(s[|s| - 1]) else DigitValue(s[|s| - 1]))
  }

  /** The digits of an unsigned `parseInt` operand, with its `0x` hexadecimal prefix rule. */
  function ParseUnsigned(u: string): Option<nat>
  {
    var hex := |u| >= 2 && u[0] == '0' && (u[1] == 'x' || u[1] == 'X');
    var body := if hex then u[2..] else u;
    var k := DigitPrefixLength(body, hex);
    if k == 0 then None else Some(RadixValue(body[..k], hex))
  }

  /** `parseInt(s)` without a radix; `None` stands for `NaN`. */
  function ParseInt(s: string): (r: Option<int>)
  {
    var t := TrimStart(s);
    var neg := t != [] && t[0] == '-';
    var u := if t != [] && (t[0] == '-' || t[0] == '+') then t[1..] else t;
    match ParseUnsigned(u)
    case None => None
    case Some(v) => Some(if neg then -(v as int) else v as int)
  }

  lemma DecimalRadixValue(s: string)
    requires AllDigits(s)
    ensures RadixValue(s, false) == DigitsValue(s)
  {
  }

  /** parseInt reads back every numeral that String() writes. */
  lemma ParseIntOfIntToString(i: int)
    ensures ParseInt(IntToString(i)) == Some(i)
  {
    var n: nat := if i >= 0 then i else -i;
    var d := NatToString(n);
    DigitsValueOfNatToString(n);
    ParseIntNumeral(d, i < 0);
    assert IntToString(i) == (if i < 0 then "-" else "") + d;
  }

  lemma ParseIntNumeral(d: string, neg: bool)
    requires d != [] && AllDigits(d)
    ensures ParseInt((if neg then "-" else "") + d)
            == Some(if neg then -(DigitsValue(d) as int) else DigitsValue(d) as int)
  {
    var s := (if neg then "-" else "") + d;
    assert !IsWhitespace(s[0]);
    assert TrimStart(s) == s;
    assert neg <==> s[0] == '-';
    assert !neg ==> s[0] != '+';
    assert (if neg then s[1..] else s) == d;
    ParseUnsignedDigits(d);
  }

  lemma ParseUnsignedDigits(d: string)
    requires d != [] && AllDigits(d)
    ensures ParseUnsigned(d) == Some(DigitsValue(d))
  {
    assert |d| >= 2 ==> IsDigit(d[1]);
    DigitPrefixAll(d);
    DecimalRadixValue(d);
    assert d[..|d|] == d;
  }

  lemma {:induction false} DigitPrefixAll(s: string)
    requires AllDigits(s)
    ensures DigitPrefixLength(s, false) == |s|
  {
    if s != [] {
      DigitPrefixAll(s[1..]);
    }
  }

  /** `parseInt(s) || d`: NaN and zero both fall back to the default. */
  function ParseIntOr(s: Option<string>, d: int): (r: int)
    ensures s.None? ==> r == d
    ensures s.Some? && ParseInt(s.value).Some? && ParseInt(s.value).value != 0 ==> r == ParseInt(s.value).value
    ensures s.Some? && (ParseInt(s.value).None? || ParseInt(s.value) == Some(0)) ==> r == d
  {
    if s.None? then d
    else match ParseInt(s.value)
      case None => d
      case Some(v) => if v != 0 then v else d
  }

  // ---------------------------------------------------------------------
  // join and split

  /** `parts.join(sep)`. */
  function Join(parts: seq<string>, sep: string): string
  {
    if |parts| == 0 then ""
    else if |parts| == 1 then parts[0]
    else parts[0] + sep + Join(parts[1..], sep)
  }

  /** `s.split(sep)` for a non-empty separator string. */
  function SplitOn(s: string, sep: string): (r: seq<string>)
    requires sep != ""
    ensures |r| >= 1
    decreases |s|
  {
    if s == [] then [""]
    else if StartsWith(s, sep) then [""] + SplitOn(s[|sep|..], sep)
    else
      var rest := SplitOn(s[1..], sep);
      [[s[0]] + rest[0]] + rest[1..]
  }

  predicate Lacks(s: string, c: char)
  {
    forall i :: 0 <= i < |s| ==> s[i] != c
  }

  lemma {:induction false} SplitOnWithout(a: string, sep: string)
    requires sep != "" && Lacks(a, sep[0])
    ensures SplitOn(a, sep) == [a]
  {
    if a != [] {
      assert a[0] != sep[0];
      assert !StartsWith(a, sep) by {
        if |sep| <= |a| { assert a[..|sep|][0] == a[0]; }
      }
      assert Lacks(a[1..], sep[0]) by {
        forall i | 0 <= i < |a| - 1 ensures a[1..][i] != sep[0] { assert a[1..][i] == a[i + 1]; }
      }
      SplitOnWithout(a[1..], sep);
      assert a == [a[0]] + a[1..];
    }
  }

  lemma {:induction false} SplitOnAfterPart(a: string, sep: string, b: string)
    requires sep != "" && Lacks(a, sep[0])
    ensures SplitOn(a + sep + b, sep) == [a] + SplitOn(b, sep)
  {
    var s := a + sep + b;
    if a == [] {
      assert s == sep + b;
      assert s[..|sep|] == sep;
      assert s[|sep|..] == b;
    } else {
      assert s[0] == a[0] != sep[0];
      assert !StartsWith(s, sep) by {
        assert |sep| <= |s| ==> s[..|sep|][0] == s[0];
      }
      assert s[1..] == a[1..] + sep + b;
      assert Lacks(a[1..], sep[0]) by {
        forall i | 0 <= i < |a| - 1 ensures a[1..][i] != sep[0] { assert a[1..][i] == a[i + 1]; }
      }
      SplitOnAfterPart(a[1..], sep, b);
      assert ([a[1..]] + SplitOn(b, sep))[1..] == SplitOn(b, sep);
      assert a == [a[0]] + a[1..];
    }
  }

  /** Splitting on the separator undoes a join of parts that never contain its first character. */
  lemma {:induction false} SplitOnJoin(parts: seq<string>, sep: string)
    requires sep != "" && |parts| >= 1
    requires forall k :: 0 <= k < |parts| ==> Lacks(parts[k], sep[0])
    ensures SplitOn(Join(parts, sep), sep) == parts
  {
    if |parts| == 1 {
      SplitOnWithout(parts[0], sep);
    } else {
      SplitOnJoin(parts[1..], sep);
      SplitOnAfterPart(parts[0], sep, Join(parts[1..], sep));
    }
  }

  lemma JoinCons(x: string, rest: seq<string>, sep: string)
    requires |rest| >= 1
    ensures Join([x] + rest, sep) == x + sep + Join(rest, sep)
  {
    assert ([x] + rest)[1..] == rest;
  }

  lemma JoinExtendHead(c: char, rest: seq<string>, sep: string)
    requires |rest| >= 1
    ensures Join([[c] + rest[0]] + rest[1..], sep) == [c] + Join(rest, sep)
  {
    if |rest| > 1 {
      JoinCons([c] + rest[0], rest[1..], sep);
      JoinCons(rest[0], rest[1..], sep);
      assert rest == [rest[0]] + rest[1..];
    }
  }

  /** Joining the parts of a split gives back the string. */
  lemma {:induction false} JoinSplitOn(s: string, sep: string)
    requires sep != ""
    ensures Join(SplitOn(s, sep), sep) == s
    decreases |s|
  {
    if s == [] {
    } else if StartsWith(s, sep) {
      var tail := s[|sep|..];
      JoinSplitOn(tail, sep);
      JoinSplitAtSeparator(s, sep, tail);
    } else {
      var tail := s[1..];
      JoinSplitOn(tail, sep);
      JoinSplitPastChar(s, sep, tail);
    }
  }

  lemma JoinSplitAtSeparator(s: string, sep: string, tail: string)
    requires sep != "" && s != [] && StartsWith(s, sep) && tail == s[|sep|..]
    requires Join(SplitOn(tail, sep), sep) == tail
    ensures Join(SplitOn(s, sep), sep) == s
  {
    assert SplitOn(s, sep) == [""] + SplitOn(tail, sep);
    JoinCons("", SplitOn(tail, sep), sep);
    assert s == s[..|sep|] + tail;
  }

  lemma JoinSplitPastChar(s: string, sep: string, tail: string)
    requires sep != "" && s != [] && !StartsWith(s, sep) && tail == s[1..]
    requires Join(SplitOn(tail, sep), sep) == tail
    ensures Join(SplitOn(s, sep), sep) == s
  {
    var rest := SplitOn(tail, sep);
    assert SplitOn(s, sep) == [[s[0]] + rest[0]] + rest[1..];
    JoinExtendHead(s[0], rest, sep);
    assert s == [s[0]] + tail;
  }

  /** No part of a split on a single character contains that character. */
  lemma {:induction false} SplitOnPartsLack(s: string, c: char)
    ensures forall k :: 0 <= k < |SplitOn(s, [c])| ==> Lacks(SplitOn(s, [c])[k], c)
    decreases |s|
  {
    if s != [] {
      if StartsWith(s, [c]) {
        SplitOnPartsLack(s[1..], c);
        assert s[|[c]|..] == s[1..];
      } else {
        SplitOnPartsLack(s[1..], c);
        assert s[0] != c;
      }
    }
  }

  lemma {:induction false} JoinLast(parts: seq<string>, sep: string)
    requires |parts| >= 2
    ensures Join(parts, sep) == Join(parts[..|parts| - 1], sep) + sep + parts[|parts| - 1]
  {
    if |parts| > 2 {
      JoinLast(parts[1..], sep);
      assert parts[1..][..|parts| - 2] == parts[..|parts| - 1][1..];
    }
  }

  // ---------------------------------------------------------------------
  // Zero padding

  function Pow10(k: nat): (p: nat)
    ensures p >= 1
  {
    if k == 0 then 1 else 10 * Pow10(k - 1)
  }

  /** A number below `10^k` has at most `k` digits. */
  lemma {:induction false} NatToStringShort(n: nat, k: nat)
    requires k >= 1 && n < Pow10(k)
    ensures |NatToString(n)| <= k
  {
    if n >= 10 {
      NatToStringShort(n / 10, k - 1);
    }
  }

  function Zeros(k: nat): (r: string)
    ensures |r| == k && forall i :: 0 <= i < k ==> r[i] == '0'
  {
    if k == 0 then "" else "0" + Zeros(k - 1)
  }

  /** `String(n).padStart(width, '0')`. */
  function ZeroPad(n: nat, width: nat): (r: string)
    ensures AllDigits(r)
    ensures width >= 1 && n < Pow10(width) ==> |r| == width
    ensures |r| >= width
  {
    var s := NatToString(n);
    assert width >= 1 && n < Pow10(width) ==> |s| <= width by {
      if width >= 1 && n < Pow10(width) {
        NatToStringShort(n, width);
      }
    }
    if |s| >= width then s else Zeros(width - |s|) + s
  }

  // ---------------------------------------------------------------------
  // Global replacement of one character (`s.replace(/c/g, rep)`)

  function ReplaceAllChar(s: string, c: char, rep: string): (r: string)
  {
    if s == [] then "" else (if s[0] == c then rep else [s[0]]) + ReplaceAllChar(s[1..], c, rep)
  }

  /** A global replacement works on each part of a concatenation separately. */
  lemma {:induction false} ReplaceAllCharConcat(a: string, b: string, c: char, rep: string)
    ensures ReplaceAllChar(a + b, c, rep) == ReplaceAllChar(a, c, rep) + ReplaceAllChar(b, c, rep)
  {
    if a == [] {
      assert a + b == b;
    } else {
      assert (a + b)[0] == a[0];
      assert (a + b)[1..] == a[1..] + b;
      ReplaceAllCharConcat(a[1..], b, c, rep);
    }
  }

  /** After replacing `c` by a string without `c`, no `c` is left. */
  lemma {:induction false} ReplaceAllCharRemoves(s: string, c: char, rep: string)
    requires c !in rep
    ensures c !in ReplaceAllChar(s, c, rep)
  {
    if s != [] {
      ReplaceAllCharRemoves(s[1..], c, rep);
    }
  }

  // ---------------------------------------------------------------------
  // URLs built with `URLSearchParams`

  /**
   * `base + '&' + params.toString()`, with the parameters kept as the ordered
   * key/value list they were appended in; percent-encoding is not modelled.
   */
  datatype Url = Url(base: string, params: seq<(string, string)>)

  /** The parameter names in append order. */
  function Keys(params: seq<(string, string)>): (r: seq<string>)
    ensures |r| == |params| && forall i :: 0 <= i < |params| ==> r[i] == params[i].0
  {
    if params == [] then [] else [params[0].0] + Keys(params[1..])
  }

  /** `params.get(key)`: the value of the first parameter with that name. */
  function Lookup(params: seq<(string, string)>, key: string): (r: Option<string>)
    ensures r.None? <==> key !in Keys(params)
  {
    if params == [] then None
    else if params[0].0 == key then Some(params[0].1)
    else Lookup(params[1..], key)
  }

  /** Looking up a name that occurs once finds the value appended with it. */
  lemma {:induction false} LookupAppended(params: seq<(string, string)>, key: string, value: string)
    requires key !in Keys(params)
    ensures Lookup(params + [(key, value)], key) == Some(value)
  {
    if params != [] {
      assert (params + [(key, value)])[1..] == params[1..] + [(key, value)];
      LookupAppended(params[1..], key, value);
    }
  }

  /** Appending a parameter does not change the first value of an earlier name. */
  lemma {:induction false} LookupAppendOther(params: seq<(string, string)>, key: string, other: (string, string))
    requires key in Keys(params)
    ensures Lookup(params + [other], key) == Lookup(params, key)
  {
    if params[0].0 != key {
      assert (params + [other])[1..] == params[1..] + [other];
      LookupAppendOther(params[1..], key, other);
    }
  }

  /** Appending a parameter with a different name does not change a lookup. */
  lemma {:induction false} LookupAppendDifferent(params: seq<(string, string)>, key: string, other: (string, string))
    requires other.0 != key
    ensures Lookup(params + [other], key) == Lookup(params, key)
  {
    if params == [] {
    } else if params[0].0 != key {
      assert (params + [other])[1..] == params[1..] + [other];
      LookupAppendDifferent(params[1..], key, other);
    }
  }

  /** A name found in the first part of a list is looked up there. */
  lemma {:induction false} LookupPrefix(a: seq<(string, string)>, b: seq<(string, string)>, key: string)
    requires key in Keys(a)
    ensures Lookup(a + b, key) == Lookup(a, key)
  {
    if a[0].0 != key {
      assert (a + b)[1..] == a[1..] + b;
      LookupPrefix(a[1..], b, key);
    }
  }

  /** A name absent from the first part of a list is looked up in the rest. */
  lemma {:induction false} LookupSkip(a: seq<(string, string)>, b: seq<(string, string)>, key: string)
    requires key !in Keys(a)
    ensures Lookup(a + b, key) == Lookup(b, key)
  {
    if a == [] {
      assert a + b == b;
    } else {
      assert (a + b)[1..] == a[1..] + b;
      LookupSkip(a[1..], b, key);
    }
  }

  /** A parameter appended only when the optional value is truthy. */
  function OptionalParam(key: string, value: Option<string>): (r: seq<(string, string)>)
    ensures Keys(r) == if Present(value) then [key] else []
    ensures Lookup(r, key) == if Present(value) then value else None
  {
    if Present(value) then [(key, value.value)] else []
  }

  lemma KeysConcat(a: seq<(string, string)>, b: seq<(string, string)>)
    ensures Keys(a + b) == Keys(a) + Keys(b)
  {
  }

  // ---------------------------------------------------------------------
  // Order-preserving filter (`Array.prototype.filter`)

  function Filter<T>(s: seq<T>, p: T -> bool): (r: seq<T>)
    ensures |r| <= |s|
  {
    if s == [] then [] else (if p(s[0]) then [s[0]] else []) + Filter(s[1..], p)
  }

  /** The filter keeps exactly the elements that satisfy the predicate. */
  lemma {:induction false} FilterMembers<T>(s: seq<T>, p: T -> bool, x: T)
    ensures x in Filter(s, p) <==> x in s && p(x)
  {
    if s != [] {
      FilterMembers(s[1..], p, x);
      assert s == [s[0]] + s[1..];
    }
  }

  /** Filtering distributes over concatenation: the kept elements stay in their order. */
  lemma {:induction false} FilterConcat<T>(a: seq<T>, b: seq<T>, p: T -> bool)
    ensures Filter(a + b, p) == Filter(a, p) + Filter(b, p)
  {
    if a == [] {
      assert a + b == b;
    } else {
      assert (a + b)[0] == a[0];
      assert (a + b)[1..] == a[1..] + b;
      FilterConcat(a[1..], b, p);
      assert Filter(a + b, p) == (if p(a[0]) then [a[0]] else []) + (Filter(a[1..], p) + Filter(b, p));
    }
  }

  /** A filter whose predicate holds everywhere keeps everything. */
  lemma {:induction false} FilterAll<T>(s: seq<T>, p: T -> bool)
    requires forall i :: 0 <= i < |s| ==> p(s[i])
    ensures Filter(s, p) == s
  {
    if s != [] {
      FilterAll(s[1..], p);
    }
  }

  /** A filter shortens the sequence exactly when some element fails the predicate. */
  lemma {:induction false} FilterShorter<T>(s: seq<T>, p: T -> bool)
    ensures |Filter(s, p)| == |s| <==> forall i :: 0 <= i < |s| ==> p(s[i])
  {
    if s != [] {
      FilterShorter(s[1..], p);
      assert forall i :: 1 <= i < |s| ==> s[i] == s[1..][i - 1];
    }
  }

  /** A filter that keeps nothing when the predicate fails everywhere. */
  lemma FilterNone<T>(s: seq<T>, p: T -> bool)
    requires forall i :: 0 <= i < |s| ==> !p(s[i])
    ensures Filter(s, p) == []
  {
    if Filter(s, p) != [] {
      FilterMembers(s, p, Filter(s, p)[0]);
    }
  }

  /** Two predicates that agree on every element keep the same elements. */
  lemma {:induction false} FilterAgrees<T>(s: seq<T>, p: T -> bool, q: T -> bool)
    requires forall i :: 0 <= i < |s| ==> p(s[i]) == q(s[i])
    ensures Filter(s, p) == Filter(s, q)
  {
    if s != [] {
      FilterAgrees(s[1..], p, q);
    }
  }

  // ---------------------------------------------------------------------
  // `Math.min` and `Math.max` over a list of numbers

  /** `Math.min(...xs)` over a non-empty list. */
  function MinOf(ts: seq<int>): (m: int)
    requires |ts| > 0
    ensures m in ts && forall i :: 0 <= i < |ts| ==> m <= ts[i]
  {
    if |ts| == 1 then ts[0]
    else
      var rest := MinOf(ts[1..]);
      assert forall i :: 1 <= i < |ts| ==> ts[i] == ts[1..][i - 1];
      if ts[0] <= rest then ts[0] else rest
  }

  /** `Math.max(...xs)` over a non-empty list. */
  function MaxOf(ts: seq<int>): (m: int)
    requires |ts| > 0
    ensures m in ts && forall i :: 0 <= i < |ts| ==> ts[i] <= m
  {
    if |ts| == 1 then ts[0]
    else
      var rest := MaxOf(ts[1..]);
      assert forall i :: 1 <= i < |ts| ==> ts[i] == ts[1..][i - 1];
      if ts[0] >= rest then ts[0] else rest
  }
}
