/** The JavaScript string built-ins the core leans on: `String.prototype.split`
    and `Array.prototype.join` with a one-character separator,
    `String.prototype.trim`, and the global `parseInt` called without a radix.
    Strings are sequences of Unicode scalar values. */
module JsStrings {
  import opened Wrappers

  // ---------------------------------------------------------------------------
  // Character classes
  // ---------------------------------------------------------------------------

  /** The ECMAScript WhiteSpace and LineTerminator characters: what `trim`
      removes and what `parseInt` skips before the number. */
  predicate IsJsSpace(c: char) {
    var n := c as int;
    n == 0x09 || n == 0x0A || n == 0x0B || n == 0x0C || n == 0x0D || n == 0x20
    || n == 0xA0 || n == 0x1680 || (0x2000 <= n <= 0x200A)
    || n == 0x2028 || n == 0x2029 || n == 0x202F || n == 0x205F
    || n == 0x3000 || n == 0xFEFF
  }

  /** The ASCII digits `0`-`9`, the class `\d` of a regular expression
      without the `u` flag. */
  predicate IsDecimalDigit(c: char) {
    '0' <= c <= '9'
  }

  predicate IsHexDigit(c: char) {
    IsDecimalDigit(c) || 'a' <= c <= 'f' || 'A' <= c <= 'F'
  }

  /** A digit of the given radix: 16 takes hexadecimal digits of either case,
      every other radix decimal ones (`parseInt` here only uses 10 and 16). */
  predicate IsRadixDigit(c: char, radix: int) {
    if radix == 16 then IsHexDigit(c) else IsDecimalDigit(c)
  }

  function DigitValue(c: char): (d: nat)
    requires IsHexDigit(c)
    ensures d < 16
    ensures IsDecimalDigit(c) ==> d < 10
  {
    if IsDecimalDigit(c) then c as int - '0' as int
    else if 'a' <= c <= 'f' then c as int - 'a' as int + 10
    else c as int - 'A' as int + 10
  }

  // ---------------------------------------------------------------------------
  // split and join on one separator character
  // ---------------------------------------------------------------------------

  /** Number of occurrences of `c` in `s`. */
  function Occurrences(s: string, c: char): nat {
    if |s| == 0 then 0 else (if s[0] == c then 1 else 0) + Occurrences(s[1..], c)
  }

  /** `s.split(sep)`: the pieces between separators, untrimmed; the empty
      string splits into one empty piece. */
  function Split(s: string, sep: char): (r: seq<string>)
    ensures |r| == Occurrences(s, sep) + 1
    ensures forall i :: 0 <= i < |r| ==> sep !in r[i]
  {
    if |s| == 0 then [""]
    else
      var rest := Split(s[1..], sep);
      if s[0] == sep then [""] + rest
      else [[s[0]] + rest[0]] + rest[1..]
  }

  /** `xs.join(sep)`: the elements with `sep` between neighbours; the empty
      array joins to the empty string. */
  function Join(xs: seq<string>, sep: char): (r: string)
    ensures |xs| > 0 && (forall i :: 0 <= i < |xs| ==> sep !in xs[i]) ==>
      Occurrences(r, sep) == |xs| - 1
  {
    if |xs| == 0 then ""
    else
      OccurrencesAbsent(xs[0], sep);
      if |xs| == 1 then xs[0]
      else
        var rest := Join(xs[1..], sep);
        OccurrencesAppend(xs[0] + [sep], rest, sep);
        OccurrencesAppend(xs[0], [sep], sep);
        assert [sep][1..] == [];
        assert Occurrences([sep], sep) == 1;
        assert forall i :: 0 <= i < |xs| - 1 ==> xs[1..][i] == xs[i + 1];
        xs[0] + [sep] + rest
  }

  lemma {:induction false} OccurrencesAppend(a: string, b: string, c: char)
    ensures Occurrences(a + b, c) == Occurrences(a, c) + Occurrences(b, c)
  {
    if |a| > 0 {
      OccurrencesAppend(a[1..], b, c);
      assert (a + b)[1..] == a[1..] + b;
    } else {
      assert a + b == b;
    }
  }

  lemma {:induction false} OccurrencesAbsent(s: string, c: char)
    ensures c !in s ==> Occurrences(s, c) == 0
  {
    if |s| > 0 && c !in s {
      assert c !in s[1..];
      OccurrencesAbsent(s[1..], c);
    }
  }

  /** Joining the pieces of a split gives back the string. */
  lemma {:induction false} JoinSplit(s: string, sep: char)
    ensures Join(Split(s, sep), sep) == s
  {
    if |s| > 0 {
      var rest := Split(s[1..], sep);
      JoinSplit(s[1..], sep);
      if s[0] == sep {
        assert Split(s, sep) == [""] + rest;
        assert s == [sep] + s[1..];
      } else {
        assert Split(s, sep) == [[s[0]] + rest[0]] + rest[1..];
        if |rest| == 1 {
          assert rest == [rest[0]];
        } else {
          assert rest == [rest[0]] + rest[1..];
          assert Join(rest, sep) == rest[0] + [sep] + Join(rest[1..], sep);
        }
        assert s == [s[0]] + s[1..];
      }
    }
  }

  /** A string without the separator is one piece. */
  lemma {:induction false} SplitNoSeparator(s: string, sep: char)
    requires sep !in s
    ensures Split(s, sep) == [s]
  {
    if |s| > 0 {
      assert s[0] != sep;
      assert sep !in s[1..];
      SplitNoSeparator(s[1..], sep);
      assert s == [s[0]] + s[1..];
    }
  }

  /** Splitting at one separator splits the halves independently. */
  lemma {:induction false} SplitAround(a: string, b: string, sep: char)
    ensures Split(a + [sep] + b, sep) == Split(a, sep) + Split(b, sep)
  {
    if |a| == 0 {
      assert a + [sep] + b == [sep] + b;
      SplitCons(sep, b, sep);
    } else {
      var t := a[1..] + [sep] + b;
      Unprepend(a, sep, b);
      SplitAround(a[1..], b, sep);
      var x := Split(a[1..], sep);
      var y := Split(b, sep);
      assert Split(t, sep) == x + y;
      SplitCons(a[0], t, sep);
      SplitCons(a[0], a[1..], sep);
      if a[0] == sep {
        assert Split(a, sep) == [""] + x;
        assert Split([a[0]] + t, sep) == [""] + (x + y);
        ConcatAssoc([""], x, y);
      } else {
        HeadOfConcat(x, y);
        var h := [a[0]] + x[0];
        assert Split(a, sep) == [h] + x[1..];
        assert Split([a[0]] + t, sep) == [h] + (x[1..] + y);
        ConcatAssoc([h], x[1..], y);
      }
    }
  }

  /** Splitting a string with a known first character. */
  lemma SplitCons(c: char, s: string, sep: char)
    ensures Split([c] + s, sep) ==
      if c == sep then [""] + Split(s, sep) else [[c] + Split(s, sep)[0]] + Split(s, sep)[1..]
  {
    assert ([c] + s)[0] == c && ([c] + s)[1..] == s;
  }

  /** A non-empty string is its first character followed by the rest. */
  lemma Unprepend(a: string, sep: char, b: string)
    requires |a| > 0
    ensures a == [a[0]] + a[1..]
    ensures a + [sep] + b == [a[0]] + (a[1..] + [sep] + b)
  {
  }

  /** The head and tail of a concatenation with a non-empty front. */
  lemma HeadOfConcat<T>(x: seq<T>, y: seq<T>)
    requires |x| > 0
    ensures (x + y)[0] == x[0] && (x + y)[1..] == x[1..] + y
  {
  }

  /** Splitting a join gives back the list, provided it is non-empty and no
      element holds the separator. */
  lemma {:induction false} SplitJoin(xs: seq<string>, sep: char)
    requires |xs| > 0
    requires forall i :: 0 <= i < |xs| ==> sep !in xs[i]
    ensures Split(Join(xs, sep), sep) == xs
  {
    if |xs| == 1 {
      SplitNoSeparator(xs[0], sep);
    } else {
      SplitJoin(xs[1..], sep);
      SplitNoSeparator(xs[0], sep);
      SplitAround(xs[0], Join(xs[1..], sep), sep);
      assert xs == [xs[0]] + xs[1..];
    }
  }

  /** The empty array is not recovered: `[].join(sep)` is `""`, which splits
      into `[""]`. */
  lemma SplitJoinEmpty(sep: char)
    ensures Split(Join([], sep), sep) == [""]
  {
  }

  /** The join of a non-empty list is empty exactly when the list is `[""]`. */
  lemma {:induction false} JoinEmptyIff(xs: seq<string>, sep: char)
    requires |xs| > 0
    ensures Join(xs, sep) == "" <==> xs == [""]
  {
    if |xs| > 1 {
      assert |Join(xs, sep)| >= 1 by {
        assert Join(xs, sep) == xs[0] + [sep] + Join(xs[1..], sep);
      }
    }
  }

  // ---------------------------------------------------------------------------
  // trim
  // ---------------------------------------------------------------------------

  /** Length of the run of white space at the start of `s`. */
  function LeadingSpace(s: string): (n: nat)
    ensures n <= |s|
    ensures forall i :: 0 <= i < n ==> IsJsSpace(s[i])
    ensures n < |s| ==> !IsJsSpace(s[n])
  {
    if |s| == 0 || !IsJsSpace(s[0]) then 0 else 1 + LeadingSpace(s[1..])
  }

  /** Length of the run of white space at the end of `s`. */
  function TrailingSpace(s: string): (n: nat)
    ensures n <= |s|
    ensures forall i :: |s| - n <= i < |s| ==> IsJsSpace(s[i])
    ensures n < |s| ==> !IsJsSpace(s[|s| - n - 1])
  {
    if |s| == 0 || !IsJsSpace(s[|s| - 1]) then 0 else 1 + TrailingSpace(s[..|s| - 1])
  }

  /** `s.trim()`: `s` without white space at either end. */
  function Trim(s: string): (r: string)
    ensures |r| == 0 || (!IsJsSpace(r[0]) && !IsJsSpace(r[|r| - 1]))
    ensures exists i, j :: 0 <= i <= j <= |s| && r == s[i..j]
                           && (forall k :: 0 <= k < i ==> IsJsSpace(s[k]))
                           && (forall k :: j <= k < |s| ==> IsJsSpace(s[k]))
  {
    var lead := LeadingSpace(s);
    var t := s[lead..];
    var r := t[..|t| - TrailingSpace(t)];
    assert r == s[lead..lead + |r|];
    r
  }

  /** A string that starts and ends with a non-space character is its own trim. */
  lemma TrimIdle(s: string)
    requires |s| == 0 || (!IsJsSpace(s[0]) && !IsJsSpace(s[|s| - 1]))
    ensures Trim(s) == s
  {
  }

  // ---------------------------------------------------------------------------
  // parseInt(s) with no radix, and the decimal rendering it inverts
  // ---------------------------------------------------------------------------

  /** Length of the run of radix digits at the start of `s`. */
  function DigitRun(s: string, radix: int): (n: nat)
    ensures n <= |s|
    ensures forall i :: 0 <= i < n ==> IsRadixDigit(s[i], radix)
    ensures n < |s| ==> !IsRadixDigit(s[n], radix)
  {
    if |s| == 0 || !IsRadixDigit(s[0], radix) then 0 else 1 + DigitRun(s[1..], radix)
  }

  /** The number a run of digits denotes, most significant first. */
  function DigitsValue(z: string, radix: int): int
    requires radix == 10 || radix == 16
    requires forall i :: 0 <= i < |z| ==> IsRadixDigit(z[i], radix)
  {
    if |z| == 0 then 0
    else
      var last := z[|z| - 1];
      assert IsRadixDigit(last, radix);
      assert IsHexDigit(last);
      DigitsValue(z[..|z| - 1], radix) * radix + DigitValue(last)
  }

  /** Does `u` open with the `0x` or `0X` prefix that switches to radix 16? */
  predicate HasHexPrefix(u: string) {
    |u| >= 2 && u[0] == '0' && (u[1] == 'x' || u[1] == 'X')
  }

  /** The unsigned part of `parseInt`: the longest run of digits after an
      optional hexadecimal prefix, or `None` when that run is empty. */
  function ParseMagnitude(u: string): Option<int> {
    var radix := if HasHexPrefix(u) then 16 else 10;
    var body := if HasHexPrefix(u) then u[2..] else u;
    var z := body[..DigitRun(body, radix)];
    if |z| == 0 then None else Some(DigitsValue(z, radix))
  }

  /** An optional `+` or `-` before the magnitude. */
  function ParseSigned(t: string): Option<int> {
    if |t| > 0 && t[0] == '-' then
      match ParseMagnitude(t[1..])
      case None => None
      case Some(v) => Some(-v)
    else if |t| > 0 && t[0] == '+' then ParseMagnitude(t[1..])
    else ParseMagnitude(t)
  }

  /** `parseInt(s)` as ECMAScript defines it: skip leading white space, take
      an optional `+` or `-`, switch to radix 16 after a `0x`/`0X` prefix,
      then read the longest run of digits; no digit at all gives `NaN`,
      written `None`. A negative zero is the integer 0. */
  function ParseInt(s: string): (r: Option<int>)
    ensures r.Some? ==> exists i :: 0 <= i < |s| && IsDecimalDigit(s[i])
  {
    var lead := LeadingSpace(s);
    SignedHasDigit(s[lead..]);
    assert forall i :: 0 <= i < |s| - lead ==> s[lead..][i] == s[lead + i];
    ParseSigned(s[lead..])
  }

  /** A number read from text needs a decimal digit somewhere in it (the
      `0` of a `0x` prefix counts). */
  lemma SignedHasDigit(t: string)
    ensures ParseSigned(t).Some? ==> exists i :: 0 <= i < |t| && IsDecimalDigit(t[i])
  {
    var u := if |t| > 0 && (t[0] == '-' || t[0] == '+') then t[1..] else t;
    if ParseMagnitude(u).Some? {
      assert |u| > 0 && IsDecimalDigit(u[0]);
      if u != t {
        assert t[1] == u[0];
      }
    }
  }

  /** `parseInt` of an absent value: `parseInt(undefined)` reads the text
      "undefined" and gives `NaN`. */
  function ParseOptionalInt(s: Option<string>): (r: Option<int>)
    ensures s.None? ==> r.None?
  {
    match s
    case None => None
    case Some(text) => ParseInt(text)
  }

  function DigitChar(d: nat): (c: char)
    requires d < 10
    ensures IsDecimalDigit(c) && DigitValue(c) == d
  {
    ('0' as int + d) as char
  }

  /** The decimal text of a natural number, with no leading zero. */
  function NatText(n: nat): (s: string)
    ensures |s| > 0
    ensures forall i :: 0 <= i < |s| ==> IsDecimalDigit(s[i])
  {
    if n < 10 then [DigitChar(n)] else NatText(n / 10) + [DigitChar(n % 10)]
  }

  /** `String(n)` for an integer `n`, as a client puts a number into a URL. */
  function IntText(n: int): (s: string)
    ensures |s| > 0
    ensures s[0] == '-' || IsDecimalDigit(s[0])
  {
    if n < 0 then "-" + NatText(-n) else NatText(n)
  }

  lemma {:induction false} NatTextValue(n: nat)
    ensures DigitsValue(NatText(n), 10) == n
  {
    if n >= 10 {
      NatTextValue(n / 10);
      var s := NatText(n);
      assert s[..|s| - 1] == NatText(n / 10);
    }
  }

  /** The digit run of `d + rest` is `d` when `d` is all digits and `rest`
      does not go on with one. */
  lemma {:induction false} DigitRunOf(d: string, rest: string, radix: int)
    requires forall i :: 0 <= i < |d| ==> IsRadixDigit(d[i], radix)
    requires |rest| == 0 || !IsRadixDigit(rest[0], radix)
    ensures DigitRun(d + rest, radix) == |d|
  {
    if |d| > 0 {
      assert (d + rest)[1..] == d[1..] + rest;
      DigitRunOf(d[1..], rest, radix);
    }
  }

  lemma {:induction false} LeadingSpaceOf(w: string, t: string)
    requires forall i :: 0 <= i < |w| ==> IsJsSpace(w[i])
    requires |t| == 0 || !IsJsSpace(t[0])
    ensures LeadingSpace(w + t) == |w|
  {
    if |w| > 0 {
      assert (w + t)[1..] == w[1..] + t;
      LeadingSpaceOf(w[1..], t);
    }
  }

  /** A tail that cannot continue a decimal number, nor turn a leading `0`
      into a hexadecimal prefix. */
  predicate EndsNumber(rest: string) {
    |rest| == 0 || (!IsDecimalDigit(rest[0]) && rest[0] != 'x' && rest[0] != 'X')
  }

  lemma MagnitudeOfText(n: nat, rest: string)
    requires EndsNumber(rest)
    ensures ParseMagnitude(NatText(n) + rest) == Some(n)
  {
    var d := NatText(n);
    var u := d + rest;
    assert !HasHexPrefix(u) by {
      if |d| >= 2 {
        assert u[1] == d[1];
      } else if |u| >= 2 {
        assert u[1] == rest[0];
      }
    }
    DigitRunOf(d, rest, 10);
    assert u[..DigitRun(u, 10)] == d;
    NatTextValue(n);
  }

  lemma SignedOfText(n: int, rest: string)
    requires EndsNumber(rest)
    ensures ParseSigned(IntText(n) + rest) == Some(n)
  {
    if n < 0 {
      SignedOfNegative(-n, rest);
      ConcatAssoc("-", NatText(-n), rest);
    } else {
      SignedOfNatural(n, rest);
    }
  }

  /** A minus sign before a rendered magnitude reads back negated. */
  lemma SignedOfNegative(m: nat, rest: string)
    requires EndsNumber(rest)
    ensures ParseSigned("-" + (NatText(m) + rest)) == Some(-(m as int))
  {
    MagnitudeOfText(m, rest);
    MinusMagnitude(NatText(m) + rest);
  }

  /** A rendered natural number reads back without a sign. */
  lemma SignedOfNatural(n: nat, rest: string)
    requires EndsNumber(rest)
    ensures ParseSigned(NatText(n) + rest) == Some(n)
  {
    MagnitudeOfText(n, rest);
    UnsignedMagnitude(NatText(n) + rest);
  }

  /** Concatenation regroups freely. */
  lemma ConcatAssoc<T>(a: seq<T>, b: seq<T>, c: seq<T>)
    ensures a + b + c == a + (b + c)
  {
  }

  /** A leading minus negates the magnitude. */
  lemma MinusMagnitude(u: string)
    requires ParseMagnitude(u).Some?
    ensures ParseSigned("-" + u) == Some(-ParseMagnitude(u).value)
  {
    assert ("-" + u)[1..] == u;
  }

  /** Text that starts with a digit has no sign to read. */
  lemma UnsignedMagnitude(u: string)
    requires |u| > 0 && IsDecimalDigit(u[0])
    ensures ParseSigned(u) == ParseMagnitude(u)
  {
  }

  /** What a client renders, `parseInt` reads back: white space before the
      number and any tail that does not continue it are ignored. */
  lemma ParseIntText(w: string, n: int, rest: string)
    requires forall i :: 0 <= i < |w| ==> IsJsSpace(w[i])
    requires EndsNumber(rest)
    ensures ParseInt(w + IntText(n) + rest) == Some(n)
  {
    var t := IntText(n) + rest;
    assert w + IntText(n) + rest == w + t;
    assert t[0] == IntText(n)[0];
    LeadingSpaceOf(w, t);
    assert (w + t)[|w|..] == t;
    SignedOfText(n, rest);
  }

  /** Text with no decimal digit anywhere parses to `NaN`. */
  lemma ParseIntNoDigit(s: string)
    requires forall i :: 0 <= i < |s| ==> !IsDecimalDigit(s[i])
    ensures ParseInt(s).None?
  {
  }

}
