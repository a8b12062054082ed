/** Option and Result, the two failure-carrying wrappers the model uses. */
module Wrappers {
  datatype Option<+T> = None | Some(value: T)

  datatype Result<+T, +E> = Ok(value: T) | Err(error: E)
}

/**
 * The handful of Python `str` operations the form relies on, over
 * `string` (a sequence of code points): `split` on one character,
 * `join`, `strip`, and `int()` applied to a string.
 */
module Text {
  import opened Wrappers

  /** Code points Python's `str.isspace` accepts, i.e. those `str.strip()` removes. */
  predicate IsSpace(c: char)
  {
    c == ' ' || ('\t' <= c <= '\r') || ('\U{1c}' <= c <= '\U{1f}') ||
    c == '\U{85}' || c == '\U{a0}' || c == '\U{1680}' || ('\U{2000}' <= c <= '\U{200a}') ||
    c == '\U{2028}' || c == '\U{2029}' || c == '\U{202f}' || c == '\U{205f}' || c == '\U{3000}'
  }

  predicate IsDigit(c: char)
  {
    '0' <= c <= '9'
  }

  // ---------------------------------------------------------------------------
  // split / join
  // ---------------------------------------------------------------------------

  /** The total length of the parts. */
  function TotalLength(parts: seq<string>): nat
  {
    if parts == [] then 0 else |parts[0]| + TotalLength(parts[1..])
  }

  /**
   * `sep.join(parts)`: the parts in order, `sep` once between each two, so
   * the first part leads and the length is the parts' plus the separators'.
   */
  function Join(parts: seq<string>, sep: string): (r: string)
    ensures |parts| >= 1 ==> parts[0] <= r
    ensures |parts| >= 1 ==> |r| == TotalLength(parts) + (|parts| - 1) * |sep|
    ensures parts == [] ==> r == ""
  {
    if |parts| == 0 then ""
    else if |parts| == 1 then parts[0]
    else parts[0] + sep + Join(parts[1..], sep)
  }

  /**
   * `s.split(c)`: the maximal pieces of `s` free of `c`, in order. Like
   * Python, the empty string splits into one empty piece and adjacent
   * separators give empty pieces.
   */
  function Split(s: string, c: char): (r: seq<string>)
    ensures |r| >= 1
    ensures forall i :: 0 <= i < |r| ==> c !in r[i]
    ensures Join(r, [c]) == s
  {
    if s == [] then [""]
    else if s[0] == c then
      var rest := Split(s[1..], c);
      assert s == [c] + s[1..];
      [""] + rest
    else
      var rest := Split(s[1..], c);
      assert s == [s[0]] + s[1..];
      [[s[0]] + rest[0]] + rest[1..]
  }

  /** `s.split(c)[0]`: the text before the first `c`, or all of `s`. */
  function Before(s: string, c: char): (r: string)
    ensures c !in r
    ensures r <= s
    ensures c !in s ==> r == s
    ensures c in s ==> |r| < |s| && s[|r|] == c
  {
    SplitHeadPrefix(s, c);
    Split(s, c)[0]
  }

  lemma {:induction false} SplitHeadPrefix(s: string, c: char)
    ensures Split(s, c)[0] <= s
    ensures c !in s ==> Split(s, c)[0] == s
    ensures c in s ==> |Split(s, c)[0]| < |s| && s[|Split(s, c)[0]|] == c
  {
    if s != [] && s[0] != c {
      SplitHeadPrefix(s[1..], c);
      assert s == [s[0]] + s[1..];
    }
  }

  /** A piece free of `c` splits to itself. */
  lemma {:induction false} SplitFree(a: string, c: char)
    requires c !in a
    ensures Split(a, c) == [a]
  {
    if a != [] {
      SplitFree(a[1..], c);
    }
  }

  /** Splitting stops at the first separator: `(a + c + b).split(c) == [a] + b.split(c)`. */
  lemma {:induction false} SplitAtFirst(a: string, b: string, c: char)
    requires c !in a
    ensures Split(a + [c] + b, c) == [a] + Split(b, c)
  {
    var s := a + [c] + b;
    if a == [] {
      assert s[1..] == b;
    } else {
      assert s[1..] == a[1..] + [c] + b;
      SplitAtFirst(a[1..], b, c);
      assert [a[0]] + a[1..] == a;
    }
  }

  /** `c.join(parts).split(c) == parts` when no part contains `c`. */
  lemma {:induction false} SplitJoin(parts: seq<string>, c: char)
    requires |parts| >= 1
    requires forall i :: 0 <= i < |parts| ==> c !in parts[i]
    ensures Split(Join(parts, [c]), c) == parts
  {
    if |parts| == 1 {
      SplitFree(parts[0], c);
    } else {
      SplitJoin(parts[1..], c);
      SplitAtFirst(parts[0], Join(parts[1..], [c]), c);
      assert [parts[0]] + parts[1..] == parts;
    }
  }

  /** The first character of `x + s` survives in `(x + s).split(c)[0]` unless it is `c`. */
  lemma BeforeCons(x: char, s: string, c: char)
    requires x != c
    ensures Before([x] + s, c) == [x] + Before(s, c)
  {
    assert ([x] + s)[1..] == s;
  }

  /** `(a + c + b).split(c)[0] == a` when `a` has no `c`. */
  lemma BeforeFirst(a: string, b: string, c: char)
    requires c !in a
    ensures Before(a + [c] + b, c) == a
  {
    SplitAtFirst(a, b, c);
  }

  // ---------------------------------------------------------------------------
  // strip
  // ---------------------------------------------------------------------------

  /**
   * The two kinds of white space the form meets. `StrSpace` is what
   * `str.isspace` accepts, so what `str.strip()` removes. `IntSpace` is what
   * `int()` skips around a number: the same set without U+001C to U+001F,
   * since below U+007F `int()` skips only ' ' and '\t' to '\r'.
   */
  datatype Blanks = StrSpace | IntSpace

  predicate IsBlank(ws: Blanks, c: char)
  {
    IsSpace(c) && (ws == IntSpace ==> !('\U{1c}' <= c <= '\U{1f}'))
  }

  predicate AllBlank(ws: Blanks, s: string)
  {
    forall k :: 0 <= k < |s| ==> IsBlank(ws, s[k])
  }

  /** `s` without its leading white space of kind `ws` (`s.lstrip()` for `StrSpace`). */
  function TrimLeft(ws: Blanks, s: string): (r: string)
    ensures |r| <= |s|
    ensures r == [] || !IsBlank(ws, r[0])
  {
    if s != [] && IsBlank(ws, s[0]) then TrimLeft(ws, s[1..]) else s
  }

  /** `s` without its trailing white space of kind `ws` (`s.rstrip()` for `StrSpace`). */
  function TrimRight(ws: Blanks, s: string): (r: string)
    ensures |r| <= |s|
    ensures r == [] || !IsBlank(ws, r[|r| - 1])
  {
    if s != [] && IsBlank(ws, s[|s| - 1]) then TrimRight(ws, s[..|s| - 1]) else s
  }

  /** Trimming the left removes a prefix of white space. */
  lemma {:induction false} TrimLeftSlice(ws: Blanks, s: string)
    ensures TrimLeft(ws, s) == s[|s| - |TrimLeft(ws, s)|..]
    ensures AllBlank(ws, s[..|s| - |TrimLeft(ws, s)|])
  {
    if s != [] && IsBlank(ws, s[0]) {
      TrimLeftSlice(ws, s[1..]);
      var r := TrimLeft(ws, s[1..]);
      assert s[..|s| - |r|] == [s[0]] + s[1..][..|s| - 1 - |r|];
    }
  }

  /** Trimming the right removes a suffix of white space. */
  lemma {:induction false} TrimRightSlice(ws: Blanks, s: string)
    ensures TrimRight(ws, s) == s[..|TrimRight(ws, s)|]
    ensures AllBlank(ws, s[|TrimRight(ws, s)|..])
  {
    if s != [] && IsBlank(ws, s[|s| - 1]) {
      TrimRightSlice(ws, s[..|s| - 1]);
      var r := TrimRight(ws, s[..|s| - 1]);
      assert s[|r|..] == s[..|s| - 1][|r|..] + [s[|s| - 1]];
    }
  }

  /** `s` without its leading and trailing white space of kind `ws`. */
  function Trim(ws: Blanks, s: string): (r: string)
    ensures r == [] || (!IsBlank(ws, r[0]) && !IsBlank(ws, r[|r| - 1]))
  {
    var l := TrimLeft(ws, s);
    TrimRightSlice(ws, l);
    TrimRight(ws, l)
  }

  /** `s.strip()`: the result neither starts nor ends with white space. */
  function Strip(s: string): (r: string)
    ensures r == [] || (!IsSpace(r[0]) && !IsSpace(r[|r| - 1]))
  {
    Trim(StrSpace, s)
  }

  /**
   * What trimming cuts off on either side is white space and the rest is
   * kept as it is; so the result is empty exactly when `s` is all white space.
   */
  lemma TrimIsSlice(ws: Blanks, s: string)
    ensures exists i, j :: 0 <= i <= j <= |s| && Trim(ws, s) == s[i..j] && AllBlank(ws, s[..i]) && AllBlank(ws, s[j..])
    ensures Trim(ws, s) == [] <==> AllBlank(ws, s)
  {
    var l := TrimLeft(ws, s);
    var r := TrimRight(ws, l);
    TrimLeftSlice(ws, s);
    TrimRightSlice(ws, l);
    var i := |s| - |l|;
    var j := i + |r|;
    assert r == s[i..j];
    assert s[j..] == l[|r|..];
    assert Trim(ws, s) == s[i..j] && AllBlank(ws, s[..i]) && AllBlank(ws, s[j..]);
    if r == [] {
      assert s == s[..i] + s[j..];
      AllBlankAppend(ws, s[..i], s[j..]);
    } else {
      assert s[i] == r[0];
      assert !AllBlank(ws, s) by {
        assert 0 <= i < |s| && !IsBlank(ws, s[i]);
      }
    }
  }

  lemma AllBlankAppend(ws: Blanks, a: string, b: string)
    requires AllBlank(ws, a) && AllBlank(ws, b)
    ensures AllBlank(ws, a + b)
  {
    forall k | 0 <= k < |a + b| ensures IsBlank(ws, (a + b)[k]) {
      if k < |a| {
        assert (a + b)[k] == a[k];
      } else {
        assert (a + b)[k] == b[k - |a|];
      }
    }
  }

  /** Stripping twice changes nothing more. */
  lemma StripIdempotent(s: string)
    ensures Strip(Strip(s)) == Strip(s)
  {
  }

  /** Text with no white space at either end is its own trim. */
  lemma TrimUnspaced(ws: Blanks, s: string)
    requires |s| > 0 && !IsBlank(ws, s[0]) && !IsBlank(ws, s[|s| - 1])
    ensures Trim(ws, s) == s
  {
    assert TrimLeft(ws, s) == s;
    assert TrimRight(ws, s) == s;
  }

  /** White space around a text changes nothing of what trimming keeps. */
  lemma TrimPadded(ws: Blanks, a: string, s: string, b: string)
    requires AllBlank(ws, a) && AllBlank(ws, b)
    ensures Trim(ws, a + s + b) == Trim(ws, s)
  {
    assert a + s + b == a + (s + b);
    TrimLeftBlanks(ws, a, s + b);
    if AllBlank(ws, s) {
      AllBlankAppend(ws, s, b);
      TrimLeftBlanks(ws, s + b, []);
      TrimLeftBlanks(ws, s, []);
      assert (s + b) + [] == s + b && s + [] == s;
    } else {
      TrimLeftAppend(ws, s, b);
      TrimRightBlanks(ws, TrimLeft(ws, s), b);
    }
  }

  lemma {:induction false} TrimLeftBlanks(ws: Blanks, a: string, x: string)
    requires AllBlank(ws, a)
    ensures TrimLeft(ws, a + x) == TrimLeft(ws, x)
  {
    if a == [] {
      assert a + x == x;
    } else {
      assert (a + x)[0] == a[0] && (a + x)[1..] == a[1..] + x;
      assert AllBlank(ws, a[1..]) by {
        forall k | 0 <= k < |a[1..]| ensures IsBlank(ws, a[1..][k]) {
          assert a[1..][k] == a[k + 1];
        }
      }
      TrimLeftBlanks(ws, a[1..], x);
    }
  }

  lemma {:induction false} TrimLeftAppend(ws: Blanks, x: string, b: string)
    requires !AllBlank(ws, x)
    ensures TrimLeft(ws, x + b) == TrimLeft(ws, x) + b
  {
    assert (x + b)[0] == x[0];
    if IsBlank(ws, x[0]) {
      assert !AllBlank(ws, x[1..]) by {
        var k :| 0 <= k < |x| && !IsBlank(ws, x[k]);
        assert x[1..][k - 1] == x[k];
      }
      assert (x + b)[1..] == x[1..] + b;
      TrimLeftAppend(ws, x[1..], b);
    }
  }

  lemma {:induction false} TrimRightBlanks(ws: Blanks, x: string, b: string)
    requires AllBlank(ws, b)
    ensures TrimRight(ws, x + b) == TrimRight(ws, x)
    decreases |b|
  {
    if b == [] {
      assert x + b == x;
    } else {
      var e := x + b;
      var init := b[..|b| - 1];
      assert e[|e| - 1] == b[|b| - 1] && e[..|e| - 1] == x + init;
      assert AllBlank(ws, init) by {
        forall k | 0 <= k < |init| ensures IsBlank(ws, init[k]) {
          assert init[k] == b[k];
        }
      }
      TrimRightBlanks(ws, x, init);
    }
  }

  /** A run of white space at the start of `s` ends before any other character. */
  lemma BlankPrefixBefore(ws: Blanks, s: string, p: nat, i: nat)
    requires p < |s| && !IsBlank(ws, s[p]) && i <= |s| && AllBlank(ws, s[..i])
    ensures i <= p
  {
    forall k | p < k <= |s| ensures !AllBlank(ws, s[..k]) {
      assert s[..k][p] == s[p];
    }
  }

  /** A run of white space at the end of `s` starts after any other character. */
  lemma BlankSuffixAfter(ws: Blanks, s: string, p: nat, j: nat)
    requires p < |s| && !IsBlank(ws, s[p]) && j <= |s| && AllBlank(ws, s[j..])
    ensures p < j
  {
    forall k | 0 <= k <= p ensures !AllBlank(ws, s[k..]) {
      assert s[k..][p - k] == s[p];
    }
  }

  // ---------------------------------------------------------------------------
  // int() on a string, and str() on an int
  // ---------------------------------------------------------------------------

  function DigitValue(c: char): nat
    requires IsDigit(c)
  {
    (c as int) - ('0' as int)
  }

  /**
   * The value of the digit string Python's `int()` accepts after the sign:
   * ASCII digits, where a single underscore may separate two digits.
   * `None` for any other text.
   */
  function Digits(d: string): (r: Option<nat>)
    ensures r.Some? ==> |d| > 0 && IsDigit(d[0]) && IsDigit(d[|d| - 1])
  {
    if d == [] || !IsDigit(d[|d| - 1]) then None
    else if |d| == 1 then Some(DigitValue(d[0]))
    else
      var body := if d[|d| - 2] == '_' then d[..|d| - 2] else d[..|d| - 1];
      match Digits(body)
      case None => None
      case Some(v) => Some(v * 10 + DigitValue(d[|d| - 1]))
  }

  /**
   * The shape `Digits` accepts: ASCII digits and underscores, starting and
   * ending with a digit, with no two underscores side by side.
   */
  predicate DigitString(d: string)
  {
    && |d| > 0 && IsDigit(d[0]) && IsDigit(d[|d| - 1])
    && (forall k :: 0 <= k < |d| ==> IsDigit(d[k]) || d[k] == '_')
    && (forall k :: 0 <= k < |d| - 1 ==> IsDigit(d[k]) || IsDigit(d[k + 1]))
  }

  /** `Digits` gives a value exactly for the texts of that shape. */
  lemma {:induction false} DigitsShape(d: string)
    ensures Digits(d).Some? <==> DigitString(d)
    decreases |d|
  {
    if d != [] && IsDigit(d[|d| - 1]) && |d| > 1 {
      var cut := if d[|d| - 2] == '_' then 2 else 1;
      var body := d[..|d| - cut];
      DigitsShape(body);
      DigitsUnfold(d, cut);
      if DigitString(d) {
        assert |body| > 0 && body[|body| - 1] == d[|d| - cut - 1];
        assert forall k :: 0 <= k < |body| ==> body[k] == d[k];
      }
      if DigitString(body) {
        assert forall k :: 0 <= k < |body| ==> body[k] == d[k];
        assert d[|d| - cut - 1] == body[|body| - 1];
      }
    }
  }

  /**
   * `int(s)` for a `str` argument: surrounding `IntSpace` white space is ignored, an
   * optional `+` or `-` sign comes next, then the digits. `None` stands for
   * the `ValueError` Python raises on anything else.
   */
  function ParseInt(s: string): (r: Option<int>)
    ensures AllBlank(IntSpace, s) ==> r.None?
    ensures r.Some? ==> var t := Trim(IntSpace, s);
                        && |t| > 0 && IsDigit(t[|t| - 1])
                        && (IsDigit(t[0]) || t[0] == '-' || t[0] == '+')
                        && (r.value < 0 ==> t[0] == '-')
  {
    TrimIsSlice(IntSpace, s);
    var t := Trim(IntSpace, s);
    if t == [] then None
    else
      var digits := if t[0] == '-' || t[0] == '+' then t[1..] else t;
      match Digits(digits)
      case None => None
      case Some(v) => Some(if t[0] == '-' then -(v as int) else v)
  }

  /**
   * The converse: `int()` accepts every text that is, after its white space
   * is skipped, an optional sign followed by digits of that shape.
   */
  lemma ParseIntShape(s: string)
    ensures var t := Trim(IntSpace, s);
            ParseInt(s).Some? <==> |t| > 0 && DigitString(if t[0] == '-' || t[0] == '+' then t[1..] else t)
  {
    var t := Trim(IntSpace, s);
    if |t| > 0 {
      DigitsShape(if t[0] == '-' || t[0] == '+' then t[1..] else t);
    }
  }

  function DigitChar(n: nat): (c: char)
    requires n < 10
    ensures IsDigit(c) && DigitValue(c) == n
  {
    ('0' as int + n) as char
  }

  /** `str(n)` for a non-negative `int`. */
  function NatToString(n: nat): (r: string)
    ensures |r| > 0
    ensures forall k :: 0 <= k < |r| ==> IsDigit(r[k])
    ensures Digits(r) == Some(n)
    decreases n
  {
    if n < 10 then
      [DigitChar(n)]
    else
      var prefix := NatToString(n / 10);
      var r := prefix + [DigitChar(n % 10)];
      assert r[..|r| - 1] == prefix;
      r
  }

  /** `str(n)` for any `int`. */
  function IntToString(n: int): string
  {
    if n < 0 then "-" + NatToString(-n) else NatToString(n)
  }

  /** `int(str(n)) == n`: the integer text the form writes reads back as the same integer. */
  lemma IntRoundTrip(n: int)
    ensures ParseInt(IntToString(n)) == Some(n)
  {
    var s := IntToString(n);
    var d := NatToString(if n < 0 then -n else n);
    assert IsDigit(d[0]) && IsDigit(d[|d| - 1]);
    if n < 0 {
      assert s == "-" + d;
      assert s[0] == '-' && s[|s| - 1] == d[|d| - 1];
      assert s[1..] == d;
    } else {
      assert s == d;
    }
    TrimUnspaced(IntSpace, s);
  }

  /** A string of digits (with single underscores) reads as its value. */
  lemma DigitsAsInt(d: string)
    requires Digits(d).Some?
    ensures ParseInt(d) == Some(Digits(d).value)
  {
    TrimUnspaced(IntSpace, d);
  }

  /** `int()` ignores its white space before and after the number, whatever the text. */
  lemma ParseIntSpaces(a: string, s: string, b: string)
    requires AllBlank(IntSpace, a) && AllBlank(IntSpace, b)
    ensures ParseInt(a + s + b) == ParseInt(s)
  {
    TrimPadded(IntSpace, a, s, b);
  }

  /**
   * `int()` does not skip U+001C to U+001F, which `strip()` removes: before
   * a digit string they make `int()` fail.
   */
  lemma ParseIntSeparator(c: char, d: string)
    requires '\U{1c}' <= c <= '\U{1f}' && Digits(d).Some?
    ensures Strip([c] + d) == d
    ensures ParseInt([c] + d) == None
  {
    var t := [c] + d;
    assert t[0] == c && t[|t| - 1] == d[|d| - 1] && t[1..] == d;
    TrimUnspaced(StrSpace, d);
    TrimUnspaced(IntSpace, t);
  }

  /** `int()` takes a leading `-` before any digit string it accepts, and negates its value. */
  lemma ParseIntMinus(d: string, n: nat)
    requires Digits(d) == Some(n)
    ensures ParseInt("-" + d) == Some(-(n as int))
  {
    var t := "-" + d;
    SignedUnspaced('-', d);
    assert t[1..] == d;
    ParseNegative(t);
  }

  /** Unspaced text that starts with `-` reads as minus the digits after it. */
  lemma ParseNegative(t: string)
    requires |t| > 0 && Trim(IntSpace, t) == t && t[0] == '-'
    ensures Digits(t[1..]).Some? ==> ParseInt(t) == Some(-(Digits(t[1..]).value as int))
  {
  }

  /** `int()` takes a leading `+` before any digit string it accepts, and keeps its value. */
  lemma ParseIntPlus(d: string, n: nat)
    requires Digits(d) == Some(n)
    ensures ParseInt("+" + d) == Some(n)
  {
    var t := "+" + d;
    SignedUnspaced('+', d);
    assert t[0] == '+' && t[1..] == d;
  }

  lemma SignedUnspaced(c: char, d: string)
    requires c == '-' || c == '+'
    requires |d| > 0 && IsDigit(d[|d| - 1])
    ensures Trim(IntSpace, [c] + d) == [c] + d
  {
    var t := [c] + d;
    assert t[0] == c && t[|t| - 1] == d[|d| - 1];
    TrimUnspaced(IntSpace, t);
  }

  /**
   * `int()` accepts one underscore between two digit strings it accepts,
   * and the underscore does not change the value.
   */
  lemma ParseIntUnderscore(d1: string, d2: string)
    requires Digits(d1).Some? && Digits(d2).Some?
    ensures ParseInt(d1 + "_" + d2).Some?
    ensures ParseInt(d1 + "_" + d2) == ParseInt(d1 + d2)
  {
    DigitsUnderscore(d1, d2);
    DigitsAsInt(d1 + d2);
    DigitsAsInt(d1 + "_" + d2);
  }

  lemma {:induction false} DigitsUnderscore(d1: string, d2: string)
    requires Digits(d1).Some? && Digits(d2).Some?
    ensures Digits(d1 + d2).Some?
    ensures Digits(d1 + "_" + d2) == Digits(d1 + d2)
    decreases |d2|
  {
    if |d2| == 1 {
      DigitsUnderscoreLast(d1, d2);
    } else {
      var e1, e2 := d1 + "_" + d2, d1 + d2;
      assert e1[|e1| - 1] == d2[|d2| - 1] && e2[|e2| - 1] == d2[|d2| - 1];
      assert e1[|e1| - 2] == d2[|d2| - 2] && e2[|e2| - 2] == d2[|d2| - 2];
      var cut := if d2[|d2| - 2] == '_' then 2 else 1;
      var body := d2[..|d2| - cut];
      DigitsBody(d2, cut);
      DigitsUnderscore(d1, body);
      assert e1[..|e1| - cut] == d1 + "_" + body;
      assert e2[..|e2| - cut] == d1 + body;
      DigitsSameEnd(e1, e2, cut);
      DigitsExtend(e2, cut);
    }
  }

  /** What comes before the last digit (and its underscore) of a valid text is valid. */
  lemma DigitsBody(d: string, cut: nat)
    requires Digits(d).Some? && |d| >= 2 && cut == if d[|d| - 2] == '_' then 2 else 1
    ensures Digits(d[..|d| - cut]).Some?
  {
  }

  /** A valid text stays valid with a digit, or an underscore and a digit, after it. */
  lemma DigitsExtend(d: string, cut: nat)
    requires |d| >= 2 && IsDigit(d[|d| - 1]) && cut == if d[|d| - 2] == '_' then 2 else 1
    requires Digits(d[..|d| - cut]).Some?
    ensures Digits(d).Some?
  {
  }

  /** Two texts ending alike have equal values when what comes before the ending does. */
  lemma DigitsSameEnd(e1: string, e2: string, cut: nat)
    requires |e1| >= 2 && |e2| >= 2 && IsDigit(e1[|e1| - 1]) && e1[|e1| - 1] == e2[|e2| - 1]
    requires e1[|e1| - 2] == e2[|e2| - 2] && cut == if e1[|e1| - 2] == '_' then 2 else 1
    requires Digits(e1[..|e1| - cut]) == Digits(e2[..|e2| - cut])
    ensures Digits(e1) == Digits(e2)
  {
    var last := DigitValue(e1[|e1| - 1]);
    var v := Digits(e1[..|e1| - cut]);
    DigitsUnfold(e1, cut);
    DigitsUnfold(e2, cut);
    assert Digits(e1) == if v.None? then None else Some(v.value * 10 + last);
  }

  lemma DigitsUnfold(d: string, cut: nat)
    requires |d| >= 2 && IsDigit(d[|d| - 1]) && cut == if d[|d| - 2] == '_' then 2 else 1
    ensures Digits(d) == if Digits(d[..|d| - cut]).None? then None
                         else Some(Digits(d[..|d| - cut]).value * 10 + DigitValue(d[|d| - 1]))
  {
  }

  lemma DigitsUnderscoreLast(d1: string, d2: string)
    requires Digits(d1).Some? && Digits(d2).Some? && |d2| == 1
    ensures Digits(d1 + d2).Some?
    ensures Digits(d1 + "_" + d2) == Digits(d1 + d2)
  {
    var e1, e2 := d1 + "_" + d2, d1 + d2;
    assert e1[|e1| - 1] == d2[0] && e2[|e2| - 1] == d2[0];
    assert e1[|e1| - 2] == '_' && e1[..|e1| - 2] == d1;
    assert e2[|e2| - 2] == d1[|d1| - 1] && e2[..|e2| - 1] == d1;
  }

  /** No digit string with two underscores in a row has a value. */
  lemma {:induction false} DigitsDoubleUnderscore(x: string, y: string)
    ensures Digits(x + "__" + y) == None
    decreases |y|
  {
    var e := x + "__" + y;
    if y == [] {
      assert e[|e| - 1] == '_';
    } else if !IsDigit(y[|y| - 1]) {
      assert e[|e| - 1] == y[|y| - 1];
    } else if |y| == 1 {
      var body := x + "_";
      assert e[|e| - 2] == '_' && e[..|e| - 2] == body;
      assert body[|body| - 1] == '_';
    } else {
      assert e[|e| - 1] == y[|y| - 1] && e[|e| - 2] == y[|y| - 2];
      if y[|y| - 2] == '_' {
        DigitsDoubleUnderscore(x, y[..|y| - 2]);
        assert e[..|e| - 2] == x + "__" + y[..|y| - 2];
      } else {
        DigitsDoubleUnderscore(x, y[..|y| - 1]);
        assert e[..|e| - 1] == x + "__" + y[..|y| - 1];
      }
    }
  }

  /** `int()` refuses any text with two underscores in a row. */
  lemma ParseIntDoubleUnderscore(x: string, y: string)
    ensures ParseInt(x + "__" + y) == None
  {
    var s := x + "__" + y;
    assert s[|x|] == '_' && s[|x| + 1] == '_';
    TrimKeepsInner(s, |x|);
    var t := Trim(IntSpace, s);
    var q :| 0 <= q && q + 2 <= |t| && t[q] == '_' && t[q + 1] == '_';
    UnsignedDoubleUnderscore(t, q);
  }

  /** Trimming keeps two underscores that stand side by side. */
  lemma TrimKeepsInner(s: string, p: nat)
    requires p + 2 <= |s| && s[p] == '_' && s[p + 1] == '_'
    ensures exists q :: 0 <= q && q + 2 <= |Trim(IntSpace, s)| && Trim(IntSpace, s)[q] == '_' && Trim(IntSpace, s)[q + 1] == '_'
  {
    TrimIsSlice(IntSpace, s);
    var t := Trim(IntSpace, s);
    var i, j :| 0 <= i <= j <= |s| && t == s[i..j] && AllBlank(IntSpace, s[..i]) && AllBlank(IntSpace, s[j..]);
    SliceKeepsPair(s, i, j, p);
    assert t[p - i] == '_' && t[p - i + 1] == '_';
  }

  /** Cutting only white space from both ends keeps two underscores side by side. */
  lemma SliceKeepsPair(s: string, i: nat, j: nat, p: nat)
    requires i <= j <= |s| && AllBlank(IntSpace, s[..i]) && AllBlank(IntSpace, s[j..])
    requires p + 2 <= |s| && s[p] == '_' && s[p + 1] == '_'
    ensures i <= p && p + 2 <= j && s[i..j][p - i] == '_' && s[i..j][p - i + 1] == '_'
  {
    assert !IsBlank(IntSpace, '_');
    BlankPrefixBefore(IntSpace, s, p, i);
    BlankSuffixAfter(IntSpace, s, p + 1, j);
  }

  /** Whether or not a sign comes first, the digits `int()` reads contain "__". */
  lemma UnsignedDoubleUnderscore(t: string, q: nat)
    requires q + 2 <= |t| && t[q] == '_' && t[q + 1] == '_'
    ensures Digits(if t[0] == '-' || t[0] == '+' then t[1..] else t) == None
  {
    if t[0] == '-' || t[0] == '+' {
      assert t[1..] == t[1..q] + "__" + t[q + 2..];
      DigitsDoubleUnderscore(t[1..q], t[q + 2..]);
    } else {
      assert t == t[..q] + "__" + t[q + 2..];
      DigitsDoubleUnderscore(t[..q], t[q + 2..]);
    }
  }

}

/** Facts about Python lists used as ordered collections. */
module Sequences {
  predicate NoDuplicates<T(==)>(s: seq<T>)
  {
    forall i, j :: 0 <= i < j < |s| ==> s[i] != s[j]
  }

  /** `s.pop(i)` as a value: `s` without its element at index `i`. */
  function RemoveAt<T>(s: seq<T>, i: nat): (r: seq<T>)
    requires i < |s|
    ensures |r| == |s| - 1
    ensures forall k :: 0 <= k < i ==> r[k] == s[k]
    ensures forall k :: i <= k < |r| ==> r[k] == s[k + 1]
  {
    s[..i] + s[i + 1..]
  }

  /** Removing an element takes exactly that one occurrence out of the list. */
  lemma RemoveAtMultiset<T>(s: seq<T>, i: nat)
    requires i < |s|
    ensures multiset(RemoveAt(s, i)) + multiset{s[i]} == multiset(s)
  {
    assert s == s[..i] + [s[i]] + s[i + 1..];
  }

  /** Removing the element just appended gives the list back. */
  lemma RemoveAppended<T>(s: seq<T>, x: T)
    ensures RemoveAt(s + [x], |s|) == s
  {
    assert (s + [x])[..|s|] == s;
  }

  /** Removing from a duplicate-free list keeps it duplicate-free. */
  lemma RemoveAtNoDuplicates<T>(s: seq<T>, i: nat)
    requires i < |s| && NoDuplicates(s)
    ensures NoDuplicates(RemoveAt(s, i))
  {
    var r := RemoveAt(s, i);
    forall a, b | 0 <= a < b < |r| ensures r[a] != r[b] {
      var a' := if a < i then a else a + 1;
      var b' := if b < i then b else b + 1;
      assert r[a] == s[a'] && r[b] == s[b'];
    }
  }
}
