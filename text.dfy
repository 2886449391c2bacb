/**
 * The text helpers the Rust standard library supplies to the smart house:
 * decimal rendering of integers (`to_string` on `i32` and `usize`), the
 * ordering of `str` keys that a `BTreeMap` iterates in, and the `{:?}`
 * (Debug) rendering of a room name.
 */
module Text {
  import opened Wrappers

  // ---------------------------------------------------------------------------
  // Decimal numbers
  // ---------------------------------------------------------------------------

  predicate IsDigit(c: char) {
    '0' <= c <= '9'
  }

  predicate AllDigits(s: string) {
    forall i :: 0 <= i < |s| ==> IsDigit(s[i])
  }

  /** A digit string as the formatter prints it: not empty, no leading zero except "0" itself. */
  predicate CanonicalDigits(s: string) {
    |s| > 0 && AllDigits(s) && (s[0] == '0' ==> |s| == 1)
  }

  function DigitChar(d: nat): (c: char)
    requires d < 10
    ensures IsDigit(c)
  {
    (48 + d) as char
  }

  function DigitValue(c: char): (d: nat)
    requires IsDigit(c)
    ensures d < 10
  {
    c as int - 48
  }

  /** The digits of `n`, most significant first. */
  function Digits(n: nat): (s: string)
    ensures CanonicalDigits(s)
  {
    if n < 10 then [DigitChar(n)] else Digits(n / 10) + [DigitChar(n % 10)]
  }

  /** The number a digit string denotes. */
  function DigitsValue(s: string): nat
    requires AllDigits(s)
  {
    if s == [] then 0 else 10 * DigitsValue(s[..|s| - 1]) + DigitValue(s[|s| - 1])
  }

  /** `to_string` of an integer: a leading '-' on negatives, then the canonical digits. */
  function Decimal(n: int): (s: string)
    ensures |s| > 0
    ensures s[0] == '-' <==> n < 0
    ensures CanonicalDigits(if n < 0 then s[1..] else s)
  {
    if n < 0 then "-" + Digits(-n) else Digits(n)
  }

  /** Reads back exactly the strings `Decimal` produces ("-0" and leading zeros are refused). */
  function ParseInt(s: string): Option<int> {
    if |s| > 1 && s[0] == '-' && CanonicalDigits(s[1..]) && s[1..] != "0" then
      Some(-(DigitsValue(s[1..]) as int))
    else if CanonicalDigits(s) then
      Some(DigitsValue(s))
    else
      None
  }

  lemma {:induction false} DigitsRoundTrip(n: nat)
    ensures DigitsValue(Digits(n)) == n
  {
    if n >= 10 {
      var s := Digits(n);
      assert s[..|s| - 1] == Digits(n / 10);
      DigitsRoundTrip(n / 10);
    }
  }

  lemma {:induction false} ZeroValueIsZeros(s: string)
    requires AllDigits(s) && DigitsValue(s) == 0
    ensures forall i :: 0 <= i < |s| ==> s[i] == '0'
  {
    if s != [] {
      ZeroValueIsZeros(s[..|s| - 1]);
      assert forall i :: 0 <= i < |s| - 1 ==> s[i] == s[..|s| - 1][i];
    }
  }

  lemma {:induction false} ValueRoundTrip(s: string)
    requires CanonicalDigits(s)
    ensures Digits(DigitsValue(s)) == s
  {
    if |s| > 1 {
      var p := s[..|s| - 1];
      assert p[0] == s[0];
      ValueRoundTrip(p);
      if DigitsValue(p) == 0 {
        ZeroValueIsZeros(p);
        assert false;
      }
      assert s == p + [s[|s| - 1]];
    }
  }

  /** Decimal and ParseInt are inverse: every integer reads back from its rendering ... */
  lemma DecimalRoundTrip(n: int)
    ensures ParseInt(Decimal(n)) == Some(n)
  {
    if n < 0 {
      var s := Decimal(n);
      assert s[1..] == Digits(-n);
      DigitsRoundTrip(-n);
    } else {
      DigitsRoundTrip(n);
    }
  }

  /** ... and every string that reads back is the rendering of what it reads as. */
  lemma ParseIntSound(s: string)
    requires ParseInt(s).Some?
    ensures Decimal(ParseInt(s).value) == s
  {
    if |s| > 1 && s[0] == '-' && CanonicalDigits(s[1..]) && s[1..] != "0" {
      ValueRoundTrip(s[1..]);
      assert s == "-" + s[1..];
    } else {
      ValueRoundTrip(s);
    }
  }

  lemma DecimalInjective(m: int, n: int)
    ensures Decimal(m) == Decimal(n) <==> m == n
  {
    DecimalRoundTrip(m);
    DecimalRoundTrip(n);
  }

  // ---------------------------------------------------------------------------
  // The order of `str` keys
  // ---------------------------------------------------------------------------

  /**
   * Rust compares `str` byte by byte on its UTF-8 encoding; UTF-8 keeps the order
   * of code points, so this is the lexicographic order on characters, where a
   * proper prefix comes first.
   */
  predicate Less(a: string, b: string) {
    if a == [] then b != []
    else if b == [] then false
    else if a[0] != b[0] then a[0] < b[0]
    else Less(a[1..], b[1..])
  }

  lemma {:induction false} LessAsymmetric(a: string, b: string)
    ensures Less(a, b) ==> !Less(b, a)
  {
    if a != [] && b != [] && a[0] == b[0] {
      LessAsymmetric(a[1..], b[1..]);
    }
  }

  lemma {:induction false} LessTransitive(a: string, b: string, c: string)
    requires Less(a, b) && Less(b, c)
    ensures Less(a, c)
  {
    if a != [] && a[0] == b[0] && b[0] == c[0] {
      LessTransitive(a[1..], b[1..], c[1..]);
    }
  }

  lemma {:induction false} LessTotal(a: string, b: string)
    ensures a == b || Less(a, b) || Less(b, a)
  {
    if a != [] && b != [] && a[0] == b[0] {
      LessTotal(a[1..], b[1..]);
      if a[1..] == b[1..] {
        assert a == [a[0]] + a[1..] && b == [b[0]] + b[1..];
      }
    }
  }

  /** Of two different strings exactly one is less than the other. */
  lemma LessTrichotomy()
    ensures forall a, b :: Less(a, b) ==> !Less(b, a)
    ensures forall a, b :: a != b ==> Less(a, b) || Less(b, a)
  {
    forall a, b ensures Less(a, b) ==> !Less(b, a) {
      LessAsymmetric(a, b);
    }
    forall a, b ensures a != b ==> Less(a, b) || Less(b, a) {
      LessTotal(a, b);
    }
  }

  predicate StrictlyAscending(s: seq<string>) {
    forall i, j :: 0 <= i < j < |s| ==> Less(s[i], s[j])
  }

  /** The least element of a finite non-empty set of strings. */
  lemma {:induction false} Least(keys: set<string>) returns (m: string)
    requires keys != {}
    ensures m in keys && forall k :: k in keys ==> !Less(k, m)
    decreases |keys|
  {
    var x :| x in keys;
    LessAsymmetric(x, x);
    if keys == {x} {
      return x;
    }
    var other := Least(keys - {x});
    if Less(x, other) {
      forall k | k in keys ensures !Less(k, x) {
        if k != x && Less(k, x) {
          LessTransitive(k, x, other);
        }
      }
      m := x;
    } else {
      m := other;
    }
  }

  lemma LeastExists(keys: set<string>)
    requires keys != {}
    ensures exists m :: m in keys && forall k :: k in keys ==> !Less(k, m)
  {
    var m := Least(keys);
  }

  /** A key below none of an ascending listing, and not in it, may head it. */
  lemma PrependLeast(m: string, rest: seq<string>)
    requires StrictlyAscending(rest)
    requires forall k :: k in rest ==> k != m && !Less(k, m)
    ensures StrictlyAscending([m] + rest)
  {
    var s := [m] + rest;
    forall i, j | 0 <= i < j < |s| ensures Less(s[i], s[j]) {
      assert s[j] == rest[j - 1];
      if i == 0 {
        assert rest[j - 1] in rest;
        LessTotal(m, rest[j - 1]);
      } else {
        assert s[i] == rest[i - 1];
      }
    }
  }

  /** The keys of a `BTreeMap` in iteration order: ascending, each key once. */
  function SortedKeys(keys: set<string>): (r: seq<string>)
    ensures StrictlyAscending(r)
    ensures |r| == |keys|
    ensures forall k :: k in r <==> k in keys
    decreases |keys|
  {
    if keys == {} then []
    else
      LessTrichotomy();
      LeastExists(keys);
      var m :| m in keys && forall k :: k in keys ==> !Less(k, m);
      var rest := SortedKeys(keys - {m});
      PrependLeast(m, rest);
      [m] + rest
  }

  /** Two ascending listings of the same keys are the same listing. */
  lemma {:induction false} AscendingUnique(s: seq<string>, t: seq<string>)
    requires StrictlyAscending(s) && StrictlyAscending(t)
    requires forall k :: k in s <==> k in t
    ensures s == t
  {
    assert t != [] ==> t[0] in t;
    if s != [] {
      assert s[0] in t;
      if s[0] != t[0] {
        var i :| 0 <= i < |s| && s[i] == t[0];
        var j :| 0 <= j < |t| && t[j] == s[0];
        assert Less(s[0], t[0]);
        assert Less(t[0], s[0]);
        LessAsymmetric(s[0], t[0]);
        assert false;
      }
      forall k ensures k in s[1..] <==> k in t[1..] {
        if k in s[1..] {
          var i :| 0 <= i < |s| - 1 && s[1..][i] == k;
          assert Less(s[0], s[i + 1]);
          LessAsymmetric(s[0], k);
          assert k in t;
          var j :| 0 <= j < |t| && t[j] == k;
          assert j != 0;
          assert t[1..][j - 1] == k;
        }
        if k in t[1..] {
          var j :| 0 <= j < |t| - 1 && t[1..][j] == k;
          assert Less(t[0], t[j + 1]);
          LessAsymmetric(t[0], k);
          assert k in s;
          var i :| 0 <= i < |s| && s[i] == k;
          assert i != 0;
          assert s[1..][i - 1] == k;
        }
      }
      AscendingUnique(s[1..], t[1..]);
      assert s == [s[0]] + s[1..] && t == [t[0]] + t[1..];
    }
  }

  /** SortedKeys is the one ascending listing of a key set. */
  lemma SortedKeysIsTheAscendingListing(keys: set<string>, s: seq<string>)
    requires StrictlyAscending(s)
    requires forall k :: k in s <==> k in keys
    ensures SortedKeys(keys) == s
  {
    AscendingUnique(SortedKeys(keys), s);
  }

  lemma ListingOfOne(a: string)
    ensures SortedKeys({a}) == [a]
  {
    SortedKeysIsTheAscendingListing({a}, [a]);
  }

  lemma ListingOfTwo(a: string, b: string)
    requires Less(a, b)
    ensures SortedKeys({a, b}) == [a, b]
  {
    SortedKeysIsTheAscendingListing({a, b}, [a, b]);
  }

  lemma ListingOfThree(a: string, b: string, c: string)
    requires Less(a, b) && Less(b, c)
    ensures SortedKeys({a, b, c}) == [a, b, c]
  {
    LessTransitive(a, b, c);
    SortedKeysIsTheAscendingListing({a, b, c}, [a, b, c]);
  }

  // ---------------------------------------------------------------------------
  // Debug rendering of a string
  // ---------------------------------------------------------------------------

  function HexChar(d: nat): char
    requires d < 16
  {
    if d < 10 then (48 + d) as char else (87 + d) as char
  }

  /** Lower-case hexadecimal digits without leading zeros. */
  function HexDigits(n: nat): string {
    if n < 16 then [HexChar(n)] else HexDigits(n / 16) + [HexChar(n % 16)]
  }

  /** True of the characters the Debug rendering of a string writes as they are. */
  predicate PrintsVerbatim(c: char) {
    ' ' <= c && c != '"' && c != '\\' && c as int != 0x7F
  }

  /** `char::escape_debug` as `{:?}` on a `str` applies it, for ASCII characters. */
  function EscapeDebug(c: char): (r: string)
    ensures PrintsVerbatim(c) <==> r == [c]
  {
    if c == '\0' then "\\0"
    else if c == '\t' then "\\t"
    else if c == '\r' then "\\r"
    else if c == '\n' then "\\n"
    else if c == '\\' then "\\\\"
    else if c == '"' then "\\\""
    else if c < ' ' || c as int == 0x7F then "\\u{" + HexDigits(c as int) + "}"
    else [c]
  }

  function EscapedChars(s: string): string {
    if s == [] then "" else EscapeDebug(s[0]) + EscapedChars(s[1..])
  }

  /** `format!("{:?}", s)` for a string `s`. */
  function DebugStr(s: string): string {
    "\"" + EscapedChars(s) + "\""
  }

  predicate PlainName(s: string) {
    forall i :: 0 <= i < |s| ==> PrintsVerbatim(s[i])
  }

  lemma {:induction false} EscapedPlain(s: string)
    requires PlainName(s)
    ensures EscapedChars(s) == s
  {
    if s != [] {
      assert PrintsVerbatim(s[0]);
      EscapedPlain(s[1..]);
      assert s == [s[0]] + s[1..];
    }
  }

  /** A name with no quote, backslash or control character is printed between quotes as it is. */
  lemma DebugStrOfPlainName(s: string)
    requires PlainName(s)
    ensures DebugStr(s) == "\"" + s + "\""
  {
    EscapedPlain(s);
  }

  /** A name with a character that needs escaping never prints as itself between quotes. */
  lemma {:induction false} DebugStrOfOtherName(s: string)
    requires !PlainName(s)
    ensures DebugStr(s) != "\"" + s + "\""
  {
    EscapedLonger(s);
  }

  lemma {:induction false} EscapedLonger(s: string)
    ensures |EscapedChars(s)| >= |s|
    ensures !PlainName(s) ==> |EscapedChars(s)| > |s|
  {
    if s != [] {
      EscapedLonger(s[1..]);
      if !PrintsVerbatim(s[0]) {
        assert |EscapeDebug(s[0])| > 1;
      } else {
        assert !PlainName(s) ==> !PlainName(s[1..]) by {
          if !PlainName(s) {
            var i :| 0 <= i < |s| && !PrintsVerbatim(s[i]);
            assert i > 0;
            assert s[1..][i - 1] == s[i];
          }
        }
      }
    }
  }
}
