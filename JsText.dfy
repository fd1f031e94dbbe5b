/**
 * The pieces of JavaScript string and number behaviour that the pages rely on:
 * `String.prototype.trim`, the `\d` and `\s` classes of regular expressions,
 * `split` and `join` with a one-character separator, `endsWith`,
 * `parseInt(s, 10)` and `String(n)` for integers.
 *
 * Strings are sequences of Unicode scalar values; JavaScript counts UTF-16 code
 * units, which agrees for every character of the Basic Multilingual Plane.
 */
module JsText {

  datatype Option<T> = None | Some(value: T)

  /** `\d` of a JavaScript regular expression: the ASCII digits only. */
  predicate IsDigit(c: char) { '0' <= c <= '9' }

  predicate AllDigits(s: string) { forall i :: 0 <= i < |s| ==> IsDigit(s[i]) }

  /**
   * White space as `trim` and `\s` see it: the WhiteSpace and LineTerminator
   * code points of ECMAScript (TAB, LF, VT, FF, CR, SPACE, NBSP, the Zs
   * category, LS, PS and the byte order mark).
   */
  predicate IsSpace(c: char) {
    || c == '\t' || c == '\n' || c == '\U{B}' || c == '\U{C}' || c == '\r'
    || c == ' ' || c == '\U{A0}' || c == '\U{1680}'
    || ('\U{2000}' <= c <= '\U{200A}')
    || c == '\U{2028}' || c == '\U{2029}' || c == '\U{202F}' || c == '\U{205F}'
    || c == '\U{3000}' || c == '\U{FEFF}'
  }

  predicate AllSpace(s: string) { forall i :: 0 <= i < |s| ==> IsSpace(s[i]) }

  /** Drops the leading white space: the result is the suffix that starts at the first other character. */
  function TrimStart(s: string): (r: string)
    ensures |r| <= |s| && r == s[|s| - |r|..]
    ensures forall i :: 0 <= i < |s| - |r| ==> IsSpace(s[i])
    ensures r != [] ==> !IsSpace(r[0])
  {
    if s != [] && IsSpace(s[0]) then TrimStart(s[1..]) else s
  }

  /** Drops the trailing white space: the result is the prefix that ends at the last other character. */
  function TrimEnd(s: string): (r: string)
    ensures |r| <= |s| && r == s[..|r|]
    ensures forall i :: |r| <= i < |s| ==> IsSpace(s[i])
    ensures r != [] ==> !IsSpace(r[|r| - 1])
  {
    if s != [] && IsSpace(s[|s| - 1]) then TrimEnd(s[..|s| - 1]) else s
  }

  /** `s.trim()`. */
  function Trim(s: string): string {
    TrimEnd(TrimStart(s))
  }

  /** Trimming only removes characters: what is left was in the text. */
  lemma TrimKeepsCharacters(s: string)
    ensures forall c :: c in Trim(s) ==> c in s
  {
    var u := TrimStart(s);
    var t := TrimEnd(u);
    forall i | 0 <= i < |t| ensures t[i] in s {
      assert t[i] == u[i];
      assert u[i] == s[|s| - |u| + i];
    }
  }

  /** One blank on either side of a text is dropped by `trim`. */
  lemma TrimOfBlankPadded(t: string)
    ensures Trim(" " + t + " ") == Trim(t)
  {
    var padded := " " + t + " ";
    assert padded == [' '] + (t + " ");
    TrimStartOfBlank(t + " ");
    TrimStartOfSpaceTail(t, " ");
    if TrimStart(t) != [] {
      TrimEndOfBlank(TrimStart(t));
    }
  }

  lemma TrimStartOfBlank(s: string)
    ensures TrimStart([' '] + s) == TrimStart(s)
  {
    assert ([' '] + s)[1..] == s;
  }

  lemma TrimEndOfBlank(s: string)
    ensures TrimEnd(s + " ") == TrimEnd(s)
  {
    assert (s + " ")[..|s|] == s;
  }

  /** Leading white space is dropped the same way whatever follows the text. */
  lemma {:induction false} TrimStartOfSpaceTail(t: string, tail: string)
    requires AllSpace(tail)
    ensures TrimStart(t) != [] ==> TrimStart(t + tail) == TrimStart(t) + tail
    ensures TrimStart(t) == [] ==> TrimStart(t + tail) == []
  {
    if t == [] {
      assert t + tail == tail;
      AllSpaceTrimStart(tail);
    } else {
      assert (t + tail)[0] == t[0];
      if IsSpace(t[0]) {
        assert (t + tail)[1..] == t[1..] + tail;
        TrimStartOfSpaceTail(t[1..], tail);
      }
    }
  }

  lemma {:induction false} AllSpaceTrimStart(s: string)
    requires AllSpace(s)
    ensures TrimStart(s) == []
  {
    if s != [] {
      AllSpaceTrimStart(s[1..]);
    }
  }

  /** `!s.trim()` in a condition: the text is empty after trimming. */
  predicate IsBlank(s: string) { Trim(s) == [] }

  /** A text is blank exactly when every character of it is white space. */
  lemma BlankIffAllSpace(s: string)
    ensures IsBlank(s) <==> AllSpace(s)
  {
    var t := TrimStart(s);
    if t != [] {
      assert t[0] == s[|s| - |t|];
    }
  }

  /** Trimming leaves no white space at either end, so trimming again changes nothing. */
  lemma TrimIdempotent(s: string)
    ensures TrimStart(Trim(s)) == Trim(s)
    ensures Trim(Trim(s)) == Trim(s)
  {
    var t := TrimStart(s);
    var r := TrimEnd(t);
    if r != [] {
      assert r[0] == t[0];
    }
  }

  /** `s.replace(/\D/g, '')`: the digits of `s`, in order. */
  function Digits(s: string): (r: string)
    ensures AllDigits(r) && |r| <= |s|
  {
    if s == [] then [] else (if IsDigit(s[0]) then [s[0]] else []) + Digits(s[1..])
  }

  lemma {:induction false} DigitsOfConcat(a: string, b: string)
    ensures Digits(a + b) == Digits(a) + Digits(b)
  {
    if a != [] {
      var head := if IsDigit(a[0]) then [a[0]] else [];
      assert (a + b)[0] == a[0];
      assert (a + b)[1..] == a[1..] + b;
      DigitsOfConcat(a[1..], b);
      calc {
        Digits(a + b);
        head + Digits(a[1..] + b);
        head + (Digits(a[1..]) + Digits(b));
        (head + Digits(a[1..])) + Digits(b);
      }
    } else {
      assert a + b == b;
    }
  }

  /** A non-digit is removed. */
  lemma DigitsOfNonDigit(c: char)
    requires !IsDigit(c)
    ensures Digits([c]) == []
  {
  }

  lemma {:induction false} DigitsOfDigits(s: string)
    requires AllDigits(s)
    ensures Digits(s) == s
  {
    if s != [] {
      DigitsOfDigits(s[1..]);
    }
  }

  /** `parts.join(sep)`. */
  function Join(parts: seq<string>, sep: string): string
  {
    if |parts| == 0 then ""
    else if |parts| == 1 then parts[0]
    else parts[0] + sep + Join(parts[1..], sep)
  }

  /** The index of the first `c` in `s`, or -1: `s.indexOf(c)`. */
  function IndexOf<T(==)>(s: seq<T>, c: T): (k: int)
    ensures -1 <= k < |s|
  {
    if s == [] then -1
    else if s[0] == c then 0
    else var k := IndexOf(s[1..], c); if k < 0 then -1 else k + 1
  }

  /** `indexOf` finds the first occurrence, and -1 exactly when there is none. */
  lemma {:induction false} IndexOfFirst<T>(s: seq<T>, c: T)
    ensures IndexOf(s, c) == -1 <==> c !in s
    ensures 0 <= IndexOf(s, c) ==> s[IndexOf(s, c)] == c && c !in s[..IndexOf(s, c)]
  {
    if s != [] && s[0] != c {
      IndexOfFirst(s[1..], c);
      assert s == [s[0]] + s[1..];
      var k := IndexOf(s[1..], c);
      if k >= 0 {
        assert s[..k + 1] == [s[0]] + s[1..][..k];
      }
    }
  }

  /** `s.split(sep)` for a one-character separator: the pieces between separators, `[""]` for `""`. */
  function Split(s: string, sep: char): seq<string>
    decreases |s|
  {
    var k := IndexOf(s, sep);
    if k < 0 then [s] else [s[..k]] + Split(s[k + 1..], sep)
  }

  /** A split has at least one piece. */
  lemma SplitNonEmpty(s: string, sep: char)
    ensures |Split(s, sep)| >= 1
  {
  }

  /** No piece of a split holds the separator. */
  lemma {:induction false} SplitPiecesLackSeparator(s: string, sep: char)
    ensures forall i :: 0 <= i < |Split(s, sep)| ==> sep !in Split(s, sep)[i]
    decreases |s|
  {
    var k := IndexOf(s, sep);
    IndexOfFirst(s, sep);
    if k >= 0 {
      SplitStep(s, sep, k);
      SplitPiecesLackSeparator(s[k + 1..], sep);
    } else {
      assert Split(s, sep) == [s];
    }
  }

  /** Joining the pieces of a split with the same separator gives back the text. */
  lemma {:induction false} JoinSplit(s: string, sep: char)
    ensures Join(Split(s, sep), [sep]) == s
    decreases |s|
  {
    var k := IndexOf(s, sep);
    if k >= 0 {
      var head, tail := s[..k], s[k + 1..];
      var rest := Split(tail, sep);
      SplitNonEmpty(tail, sep);
      SplitStep(s, sep, k);
      JoinSplit(tail, sep);
      JoinCons(head, rest, [sep]);
      IndexOfFirst(s, sep);
      Decompose(s, k);
    } else {
      assert Split(s, sep) == [s];
    }
  }

  lemma Decompose<T>(s: seq<T>, k: int)
    requires 0 <= k < |s|
    ensures s == s[..k] + [s[k]] + s[k + 1..]
  {
  }

  lemma SplitStep(s: string, sep: char, k: int)
    requires k == IndexOf(s, sep) && k >= 0
    ensures Split(s, sep) == [s[..k]] + Split(s[k + 1..], sep)
  {
  }

  lemma JoinCons(head: string, rest: seq<string>, sep: string)
    requires |rest| >= 1
    ensures Join([head] + rest, sep) == head + sep + Join(rest, sep)
  {
    var parts := [head] + rest;
    assert parts[0] == head && parts[1..] == rest;
  }

  /** The first `c` of a text that has none before it is the one after the prefix. */
  lemma IndexOfAfterPrefix(a: string, c: char, b: string)
    requires c !in a
    ensures IndexOf(a + [c] + b, c) == |a|
  {
    var s := a + [c] + b;
    IndexOfFirst(s, c);
    var k := IndexOf(s, c);
    assert s[|a|] == c;
    assert forall j :: 0 <= j < |a| ==> s[j] == a[j];

  }

  /** Splitting a join at a separator that no piece contains gives the pieces back. */
  lemma {:induction false} SplitJoin(parts: seq<string>, sep: char)
    requires |parts| >= 1
    requires forall i :: 0 <= i < |parts| ==> sep !in parts[i]
    ensures Split(Join(parts, [sep]), sep) == parts
  {
    if |parts| == 1 {
      IndexOfFirst(parts[0], sep);
    } else {
      var head, others := parts[0], parts[1..];
      var rest := Join(others, [sep]);
      var s := Join(parts, [sep]);
      assert parts == [head] + others;
      JoinCons(head, others, [sep]);
      IndexOfAfterPrefix(head, sep, rest);
      SplitStep(s, sep, |head|);
      PrefixAndSuffix(head, sep, rest);
      SplitJoin(others, sep);
    }
  }

  lemma PrefixAndSuffix<T>(a: seq<T>, c: T, b: seq<T>)
    ensures (a + [c] + b)[..|a|] == a && (a + [c] + b)[|a| + 1..] == b
  {
  }

  /** `s.endsWith(suffix)`. */
  predicate EndsWith(s: string, suffix: string) {
    |suffix| <= |s| && s[|s| - |suffix|..] == suffix
  }

  /** `/^\d{6}$/.test(s)`: exactly six ASCII digits and nothing else. */
  predicate IsSixDigits(s: string) { |s| == 6 && AllDigits(s) }

  // ---------------------------------------------------------------------------
  // Decimal numbers

  function DigitValue(c: char): nat
    requires IsDigit(c)
  {
    (c as int) - ('0' as int)
  }

  function DigitChar(d: nat): (c: char)
    requires d < 10
    ensures IsDigit(c) && DigitValue(c) == d
  {
    ('0' as int + d) as char
  }

  /** The value of a string of decimal digits. */
  function DecimalValue(d: string): nat
    requires AllDigits(d)
  {
    if d == [] then 0 else 10 * DecimalValue(d[..|d| - 1]) + DigitValue(d[|d| - 1])
  }

  /** `String(n)` for a natural number: its decimal digits, without leading zeros. */
  function NatToString(n: nat): (r: string)
    ensures |r| >= 1 && AllDigits(r)
    ensures r[0] == '0' <==> n == 0
  {
    if n < 10 then [DigitChar(n)] else NatToString(n / 10) + [DigitChar(n % 10)]
  }

  /** `String(n)` for an integer. */
  function IntToString(n: int): (r: string)
    ensures |r| >= 1
  {
    if n < 0 then "-" + NatToString(-n) else NatToString(n)
  }

  lemma {:induction false} DecimalValueOfNatToString(n: nat)
    ensures DecimalValue(NatToString(n)) == n
  {
    if n >= 10 {
      DecimalValueOfNatToString(n / 10);
      var r := NatToString(n);
      assert r[..|r| - 1] == NatToString(n / 10);
    }
  }

  lemma NatToStringStep(x: nat, c: nat)
    requires x >= 1 && c < 10
    ensures NatToString(10 * x + c) == NatToString(x) + [DigitChar(c)]
  {
    assert (10 * x + c) / 10 == x;
    assert (10 * x + c) % 10 == c;
  }

  /** Digits without a leading zero (or the single digit 0) are the rendering of their own value. */
  lemma {:induction false} NatToStringOfDecimalValue(d: string)
    requires AllDigits(d) && d != []
    requires d[0] != '0' || d == "0"
    ensures NatToString(DecimalValue(d)) == d
  {
    if |d| > 1 {
      var e := d[..|d| - 1];
      NatToStringOfDecimalValue(e);
      PositiveDecimalValue(e);
      NatToStringStep(DecimalValue(e), DigitValue(d[|d| - 1]));
      assert d == e + [d[|d| - 1]];
    }
  }

  lemma {:induction false} PositiveDecimalValue(d: string)
    requires AllDigits(d) && d != [] && d[0] != '0'
    ensures DecimalValue(d) >= 1
  {
    if |d| > 1 {
      PositiveDecimalValue(d[..|d| - 1]);
    }
  }

  /** Rendering the value of a digit string never takes more characters than the string. */
  lemma {:induction false} NatToStringOfDecimalValueShorter(d: string)
    requires AllDigits(d) && d != []
    ensures |NatToString(DecimalValue(d))| <= |d|
  {
    if |d| > 1 {
      var e := d[..|d| - 1];
      NatToStringOfDecimalValueShorter(e);
      var x := DecimalValue(e);
      if x >= 1 {
        NatToStringStep(x, DigitValue(d[|d| - 1]));
      }
    }
  }

  /** A leading zero followed by more digits is dropped by the rendering. */
  lemma LeadingZeroShortens(d: string)
    requires AllDigits(d) && |d| >= 2 && d[0] == '0'
    ensures |NatToString(DecimalValue(d))| < |d|
  {
    LeadingZeroValue(d);
    NatToStringOfDecimalValueShorter(d[1..]);
  }

  lemma {:induction false} LeadingZeroValue(d: string)
    requires AllDigits(d) && |d| >= 1 && d[0] == '0'
    ensures DecimalValue(d) == DecimalValue(d[1..])
  {
    if |d| > 1 {
      LeadingZeroValue(d[..|d| - 1]);
      assert d[..|d| - 1][1..] == d[1..][..|d[1..]| - 1];
    }
  }

  /** The longest prefix of `s` made of digits. */
  function DigitPrefix(s: string): (r: string)
    ensures |r| <= |s| && r == s[..|r|] && AllDigits(r)
    ensures |r| < |s| ==> !IsDigit(s[|r|])
  {
    if s != [] && IsDigit(s[0]) then [s[0]] + DigitPrefix(s[1..]) else []
  }

  /** The text after an optional leading sign. */
  function Unsigned(t: string): string {
    if |t| > 0 && (t[0] == '-' || t[0] == '+') then t[1..] else t
  }

  /**
   * `parseInt(s, 10)`: skip leading white space, read an optional sign and the
   * longest run of digits after it; `None` stands for NaN (no digit there).
   * Values are exact integers, where JavaScript rounds beyond 2^53.
   */
  function ParseInt(s: string): (r: Option<int>)
    ensures r.Some? <==> DigitPrefix(Unsigned(TrimStart(s))) != []
  {
    var t := TrimStart(s);
    var d := DigitPrefix(Unsigned(t));
    if d == [] then None
    else if |t| > 0 && t[0] == '-' then var v: int := DecimalValue(d); Some(-v)
    else Some(DecimalValue(d))
  }

  /** Parsing the rendering of an integer gives the integer back. */
  lemma ParseIntOfIntToString(n: int)
    ensures ParseInt(IntToString(n)) == Some(n)
  {
    var s := IntToString(n);
    var m: nat := if n < 0 then -n else n;
    var digits := NatToString(m);
    assert TrimStart(s) == s by {
      assert !IsSpace(s[0]);
    }
    assert Unsigned(s) == digits;
    DigitPrefixOfDigits(digits);
    DecimalValueOfNatToString(m);
  }

  lemma {:induction false} DigitPrefixOfDigits(s: string)
    requires AllDigits(s)
    ensures DigitPrefix(s) == s
  {
    if s != [] {
      DigitPrefixOfDigits(s[1..]);
    }
  }

  /** `parseInt` of a non-empty digit string is its decimal value. */
  lemma ParseIntOfDigits(s: string)
    requires AllDigits(s) && s != []
    ensures ParseInt(s) == Some(DecimalValue(s))
  {
    assert !IsSpace(s[0]);
    assert TrimStart(s) == s;
    DigitPrefixOfDigits(s);
  }
}
