/** A small `Option`, used wherever a PHP function returns a value or `false`. */
module Wrappers {
  datatype Option<+T> = None | Some(value: T)
}

/**
  The slice of PHP 8's runtime semantics that the plugin's core relies on:
  scalar values as they sit in WordPress option arrays, `isset`/`empty`,
  the `(int)` cast, loose comparison `==`, `strpos`/`stripos` and
  `array_unshift`. Integers are unbounded here; where PHP saturates at its
  64-bit bounds the model says so explicitly.
*/
module Php {
  import opened Wrappers

  /** A scalar PHP value. `Time(t)` stands for the RFC 3339 timestamp string
      that `DateTime::format(RFC3339_EXTENDED)` produces for instant `t`
      (seconds); its characters are not modelled, only that it is a
      non-empty, non-numeric string that determines `t`. */
  datatype Value = Null | Bool(b: bool) | Int(i: int) | Str(s: string) | Time(t: int)

  const INT_MAX: int := 0x7FFF_FFFF_FFFF_FFFF
  const INT_MIN: int := -0x8000_0000_0000_0000

  /** `$a[$key]` on an array: a missing key reads as `null`. */
  function Lookup(a: map<string, Value>, key: string): (v: Value)
    ensures key !in a ==> v == Null
    ensures key in a ==> v == a[key]
  {
    if key in a then a[key] else Null
  }

  /** `isset($a[$key])`: present and not `null`. */
  predicate IsSet(a: map<string, Value>, key: string) {
    key in a && a[key] != Null
  }

  /** `empty($v)`: null, false, 0, "" and "0". */
  predicate Empty(v: Value) {
    match v
    case Null => true
    case Bool(b) => !b
    case Int(i) => i == 0
    case Str(s) => s == "" || s == "0"
    case Time(_) => false
  }

  /** Truthiness in a boolean context: the negation of `empty`. */
  predicate Truthy(v: Value) {
    !Empty(v)
  }

  // ---------------------------------------------------------------------
  // Numeric strings

  /** The whitespace PHP skips in front of (and, for numeric strings, after) a number. */
  predicate IsWhitespace(c: char) {
    c == ' ' || c == '\t' || c == '\n' || c == '\r' || c == '\U{B}' || c == '\U{C}'
  }

  predicate IsDigit(c: char) {
    '0' <= c <= '9'
  }

  predicate IsSign(c: char) {
    c == '+' || c == '-'
  }

  predicate AllDigits(s: string) {
    forall k :: 0 <= k < |s| ==> IsDigit(s[k])
  }

  predicate AllWhitespace(s: string) {
    forall k :: 0 <= k < |s| ==> IsWhitespace(s[k])
  }

  /** `s` without its leading whitespace. */
  function TrimLeading(s: string): (t: string)
    ensures |t| <= |s| && t == s[|s| - |t|..]
    ensures |t| > 0 ==> !IsWhitespace(t[0])
    ensures AllWhitespace(s[..|s| - |t|])
  {
    if |s| > 0 && IsWhitespace(s[0]) then TrimLeading(s[1..]) else s
  }

  /** The longest prefix of `s` made of decimal digits. */
  function DigitRun(s: string): (d: string)
    ensures |d| <= |s| && d == s[..|d|] && AllDigits(d)
    ensures |d| < |s| ==> !IsDigit(s[|d|])
  {
    if |s| > 0 && IsDigit(s[0]) then [s[0]] + DigitRun(s[1..]) else []
  }

  /** The number a string of decimal digits denotes. */
  function DigitsValue(d: string): nat
    requires AllDigits(d)
  {
    if d == [] then 0 else DigitsValue(d[..|d| - 1]) * 10 + (d[|d| - 1] as int - '0' as int)
  }

  /** PHP 7+ saturates an integer conversion that overflows 64 bits. */
  function Saturate(n: int): (r: int)
    ensures INT_MIN <= r <= INT_MAX
    ensures INT_MIN <= n <= INT_MAX ==> r == n
  {
    if n > INT_MAX then INT_MAX else if n < INT_MIN then INT_MIN else n
  }

  /** The part of a string after its leading whitespace and an optional sign. */
  function Unsigned(s: string): string {
    var t := TrimLeading(s);
    if |t| > 0 && IsSign(t[0]) then t[1..] else t
  }

  predicate IsNegative(s: string) {
    var t := TrimLeading(s);
    |t| > 0 && t[0] == '-'
  }

  /** The leading integer of a string, 0 when there is none, before any
      64-bit bound applies. */
  function IntegerStringValue(s: string): int {
    var magnitude: int := DigitsValue(DigitRun(Unsigned(s)));
    if IsNegative(s) then -magnitude else magnitude
  }

  predicate InInt64(n: int) {
    INT_MIN <= n <= INT_MAX
  }

  lemma FalsyStringsCastToZero()
    ensures StringToInt("") == 0 && StringToInt("0") == 0
  {
    assert DigitRun("0") == "0";
    assert DigitsValue("0") == 0 by { assert "0"[..0] == ""; }
  }

  /** `(int) $s`: the leading integer of the string, 0 when there is none,
      saturated at the 64-bit bounds. */
  function StringToInt(s: string): (r: int)
    ensures InInt64(r)
    ensures InInt64(IntegerStringValue(s)) ==> r == IntegerStringValue(s)
  {
    Saturate(IntegerStringValue(s))
  }

  /** `is_numeric`-style integer string: whitespace, optional sign, digits, whitespace. */
  predicate IsIntegerString(s: string) {
    var u := Unsigned(s);
    var d := DigitRun(u);
    |d| > 0 && AllWhitespace(u[|d|..])
  }

  /** `(int) $v`: every falsy value casts to 0, `true` to 1, an integer to
      itself, a string to a 64-bit integer. */
  function ToInt(v: Value): (r: int)
    ensures !Truthy(v) ==> r == 0
    ensures v == Bool(true) ==> r == 1
    ensures v.Int? ==> r == v.i
    ensures v.Str? ==> InInt64(r)
  {
    match v
    case Null => 0
    case Bool(b) => if b then 1 else 0
    case Int(i) => i
    case Str(s) => FalsyStringsCastToZero(); StringToInt(s)
    case Time(_) => 0
  }

  // ---------------------------------------------------------------------
  // Integer to string

  function DigitChar(n: nat): (c: char)
    requires n < 10
    ensures IsDigit(c) && c as int - '0' as int == n
  {
    ('0' as int + n) as char
  }

  /** The decimal digits of `n`, without leading zeros. */
  function NatToDigits(n: nat): (d: string)
    ensures |d| > 0 && AllDigits(d)
  {
    if n < 10 then [DigitChar(n)] else NatToDigits(n / 10) + [DigitChar(n % 10)]
  }

  /** `(string) $n`, as used by string concatenation. */
  function IntToString(n: int): string {
    if n < 0 then "-" + NatToDigits(-n) else NatToDigits(n)
  }

  lemma {:induction false} DigitsValueOfNatToDigits(n: nat)
    ensures DigitsValue(NatToDigits(n)) == n
  {
    if n >= 10 {
      var d := NatToDigits(n);
      DigitsValueOfNatToDigits(n / 10);
      assert d[..|d| - 1] == NatToDigits(n / 10);
    }
  }

  lemma {:induction false} DigitRunOfDigits(d: string)
    requires AllDigits(d)
    ensures DigitRun(d) == d
  {
    if |d| > 0 {
      DigitRunOfDigits(d[1..]);
    }
  }

  lemma UnsignedOfDigits(d: string)
    requires |d| > 0 && AllDigits(d)
    ensures Unsigned(d) == d && !IsNegative(d)
    ensures Unsigned("-" + d) == d && IsNegative("-" + d)
  {
    assert !IsWhitespace(d[0]) && !IsSign(d[0]);
    assert TrimLeading(d) == d;
    var s := "-" + d;
    assert !IsWhitespace(s[0]);
    assert TrimLeading(s) == s;
    assert s[1..] == d;
  }

  /** A string of digits is numeric and denotes the number it spells; within
      64 bits, that is also what it casts to. */
  lemma DigitStringCast(d: string)
    requires |d| > 0 && AllDigits(d)
    ensures IsIntegerString(d) && IntegerStringValue(d) == DigitsValue(d)
    ensures DigitsValue(d) <= INT_MAX ==> StringToInt(d) == DigitsValue(d)
  {
    UnsignedOfDigits(d);
    DigitRunOfDigits(d);
    assert d[|d|..] == [];
  }

  /** Casting the decimal text of a 64-bit integer back with `(int)` gives the
      integer again, and that text is a numeric string. */
  lemma IntToStringRoundTrip(n: int)
    requires INT_MIN <= n <= INT_MAX
    ensures StringToInt(IntToString(n)) == n
    ensures IsIntegerString(IntToString(n))
    ensures ToInt(Str(IntToString(n))) == n
  {
    if n < 0 {
      var d := NatToDigits(-n);
      DigitsValueOfNatToDigits(-n);
      NegatedDigitStringCast(d);
    } else {
      DigitsValueOfNatToDigits(n);
      DigitStringCast(NatToDigits(n));
    }
  }

  /** A minus sign followed by digits is numeric and casts to the negated number. */
  lemma NegatedDigitStringCast(d: string)
    requires |d| > 0 && AllDigits(d) && DigitsValue(d) <= -INT_MIN
    ensures IsIntegerString("-" + d) && StringToInt("-" + d) == -(DigitsValue(d) as int)
  {
    UnsignedOfDigits(d);
    DigitRunOfDigits(d);
    NegatedDigitStringIsInteger(d);
    NegatedDigitStringValue(d);
  }

  lemma NegatedDigitStringIsInteger(d: string)
    requires |d| > 0 && Unsigned("-" + d) == d && DigitRun(d) == d
    ensures IsIntegerString("-" + d)
  {
    assert d[|d|..] == [];
  }

  lemma NegatedDigitStringValue(d: string)
    requires AllDigits(d) && DigitsValue(d) <= -INT_MIN
    requires Unsigned("-" + d) == d && IsNegative("-" + d) && DigitRun(d) == d
    ensures StringToInt("-" + d) == -(DigitsValue(d) as int)
  {
  }

  /** `(int)` reads the leading integer: whitespace `w`, an optional sign,
      the digits `d`, then anything not starting with a digit (" 600",
      "+600", "600s"). The value is that of `d`, negated after a minus sign,
      saturated at the 64-bit bounds. */
  lemma LeadingIntegerCast(w: string, sign: string, d: string, rest: string)
    requires AllWhitespace(w) && (sign == "" || sign == "+" || sign == "-")
    requires |d| > 0 && AllDigits(d) && (rest == [] || !IsDigit(rest[0]))
    ensures var n: int := if sign == "-" then -(DigitsValue(d) as int) else DigitsValue(d);
            IntegerStringValue(w + sign + d + rest) == n && StringToInt(w + sign + d + rest) == Saturate(n)
  {
    SignedPrefix(w, sign, d, rest);
    DigitRunPrefix(d, rest);
    ValueOfUnsignedDigits(w + sign + d + rest, d, rest);
  }

  lemma ValueOfUnsignedDigits(s: string, d: string, rest: string)
    requires AllDigits(d) && Unsigned(s) == d + rest && DigitRun(d + rest) == d
    ensures IntegerStringValue(s) == if IsNegative(s) then -(DigitsValue(d) as int) else DigitsValue(d)
  {
  }

  /** Past leading whitespace and a sign, what is left is the unsigned part,
      and the string is negative exactly after a minus. */
  lemma SignedPrefix(w: string, sign: string, d: string, rest: string)
    requires AllWhitespace(w) && (sign == "" || sign == "+" || sign == "-")
    requires |d| > 0 && IsDigit(d[0])
    ensures Unsigned(w + sign + d + rest) == d + rest
    ensures IsNegative(w + sign + d + rest) <==> sign == "-"
  {
    var u := d + rest;
    assert w + sign + d + rest == w + (sign + u);
    SignAndDigits(sign, u);
    UnsignedAfterWhitespace(w, sign + u);
  }

  lemma SignAndDigits(sign: string, u: string)
    requires (sign == "" || sign == "+" || sign == "-") && |u| > 0 && IsDigit(u[0])
    ensures |sign + u| > 0 && !IsWhitespace((sign + u)[0])
    ensures Unsigned(sign + u) == u && (IsNegative(sign + u) <==> sign == "-")
  {
    var t := sign + u;
    if sign == "" {
      assert t == u;
    } else {
      assert t[0] == sign[0] && t[1..] == u;
    }
  }

  lemma UnsignedAfterWhitespace(w: string, t: string)
    requires AllWhitespace(w) && |t| > 0 && !IsWhitespace(t[0])
    ensures Unsigned(w + t) == Unsigned(t) && IsNegative(w + t) == IsNegative(t)
  {
    TrimLeadingSkips(w, t);
    assert TrimLeading(t) == t;
  }

  lemma {:induction false} TrimLeadingSkips(w: string, t: string)
    requires AllWhitespace(w) && |t| > 0 && !IsWhitespace(t[0])
    ensures TrimLeading(w + t) == t
  {
    if w != [] {
      assert (w + t)[1..] == w[1..] + t;
      TrimLeadingSkips(w[1..], t);
    } else {
      assert w + t == t;
    }
  }

  lemma {:induction false} DigitRunPrefix(d: string, rest: string)
    requires AllDigits(d) && (rest == [] || !IsDigit(rest[0]))
    ensures DigitRun(d + rest) == d
  {
    if d == [] {
      assert d + rest == rest;
    } else {
      assert (d + rest)[1..] == d[1..] + rest;
      DigitRunPrefix(d[1..], rest);
    }
  }

  function Pow10(k: nat): nat {
    if k == 0 then 1 else 10 * Pow10(k - 1)
  }

  /** Twenty digits without a leading zero are a numeric string beyond 64 bits. */
  lemma TwentyDigitsOverflow(d: string)
    requires |d| == 20 && AllDigits(d) && d[0] != '0'
    ensures IsIntegerString(d) && !InInt64(IntegerStringValue(d))
  {
    DigitStringCast(d);
    DigitsValueLowerBound(d);
    Pow10Nineteen();
  }

  lemma Pow10Nineteen()
    ensures Pow10(19) == 10000000000000000000
  {
    assert Pow10(1) == 10;
    assert Pow10(2) == 100;
    assert Pow10(3) == 1000;
    assert Pow10(4) == 10000;
    assert Pow10(5) == 100000;
    assert Pow10(6) == 1000000;
    assert Pow10(7) == 10000000;
    assert Pow10(8) == 100000000;
    assert Pow10(9) == 1000000000;
    assert Pow10(10) == 10000000000;
    assert Pow10(11) == 100000000000;
    assert Pow10(12) == 1000000000000;
    assert Pow10(13) == 10000000000000;
    assert Pow10(14) == 100000000000000;
    assert Pow10(15) == 1000000000000000;
    assert Pow10(16) == 10000000000000000;
    assert Pow10(17) == 100000000000000000;
    assert Pow10(18) == 1000000000000000000;
    assert Pow10(19) == 10000000000000000000;
  }

  /** A leading integer other than zero makes the string truthy. */
  lemma LeadingIntegerTruthy(w: string, sign: string, d: string, rest: string)
    requires |d| > 0 && AllDigits(d) && DigitsValue(d) != 0
    ensures Truthy(Str(w + sign + d + rest))
  {
    var s := w + sign + d + rest;
    assert DigitsValue("0") == 0 by { assert "0"[..0] == ""; }
    if |s| == 1 {
      assert s == d;
    }
  }

  /** A digit string without a leading zero is at least `10^(|d|-1)`; so
      twenty such digits are beyond 64 bits. */
  lemma {:induction false} DigitsValueLowerBound(d: string)
    requires |d| > 0 && AllDigits(d) && d[0] != '0'
    ensures DigitsValue(d) >= Pow10(|d| - 1)
  {
    if |d| > 1 {
      var init := d[..|d| - 1];
      assert init[0] == d[0];
      DigitsValueLowerBound(init);
    }
  }

  // ---------------------------------------------------------------------
  // Loose comparison

  /** Two numeric strings that PHP 8 compares as integers: both denote values
      within 64 bits. When either overflows, PHP compares the text instead. */
  predicate IntegerStringsComparable(s: string, t: string) {
    && IsIntegerString(s) && IsIntegerString(t)
    && InInt64(IntegerStringValue(s)) && InInt64(IntegerStringValue(t))
  }

  /** `$a == $b` under PHP 8 rules: a boolean against anything compares
      truthiness; null against a string compares with ""; two numeric strings
      within 64 bits, or an int and a numeric string, compare as numbers; any
      other pair of strings compares as text; an int and a non-numeric string
      never match. Every value equals itself. */
  function LooseEquals(a: Value, b: Value): (r: bool)
    ensures a == b ==> r
  {
    if a.Bool? then a.b == Truthy(b)
    else if b.Bool? then Truthy(a) == b.b
    else match a
      case Null => b.Null? || (b.Int? && b.i == 0) || (b.Str? && b.s == "")
      case Int(i) => (b.Null? && i == 0) || (b.Int? && b.i == i) || (b.Str? && IsIntegerString(b.s) && IntegerStringValue(b.s) == i)
      case Str(s) =>
        || (b.Null? && s == "")
        || (b.Int? && IsIntegerString(s) && IntegerStringValue(s) == b.i)
        || (b.Str? && if IntegerStringsComparable(s, b.s) then IntegerStringValue(s) == IntegerStringValue(b.s) else s == b.s)
      case Time(x) => b.Time? && b.t == x
      case Bool(_) => false
  }

  /** `==` is symmetric. */
  lemma LooseEqualsSymmetric(a: Value, b: Value)
    ensures LooseEquals(a, b) == LooseEquals(b, a)
  {
  }

  /** Two numeric strings of which one overflows 64 bits are equal only as
      identical text: "12345678901234567890" != "12345678901234567891". */
  lemma OverflowingNumericStringsCompareAsText(s: string, t: string)
    requires IsIntegerString(s) && !InInt64(IntegerStringValue(s))
    ensures LooseEquals(Str(s), Str(t)) <==> s == t
  {
  }

  /** Against a non-empty, non-numeric string such as "Posti", `==` holds for
      that very string and for `true`, and for nothing else. */
  lemma LooseEqualsPlainString(v: Value, s: string)
    requires s != "" && !IsIntegerString(s)
    ensures LooseEquals(v, Str(s)) <==> v == Str(s) || v == Bool(true)
  {
    match v
    case Bool(x) => PlainStringTruthy(s);
    case Str(t) => PlainStringAgainstString(t, s);
    case Int(i) =>
    case Null =>
    case Time(_) =>
  }

  lemma PlainStringTruthy(s: string)
    requires s != "" && !IsIntegerString(s)
    ensures Truthy(Str(s))
  {
    ZeroIsIntegerString();
  }

  lemma PlainStringAgainstString(t: string, s: string)
    requires !IsIntegerString(s)
    ensures LooseEquals(Str(t), Str(s)) <==> t == s
  {
  }

  lemma ZeroIsIntegerString()
    ensures IsIntegerString("0")
  {
    IntToStringRoundTrip(0);
    assert IntToString(0) == "0";
  }

  // ---------------------------------------------------------------------
  // Substring search

  /** ASCII lower-casing, as `stripos` does. */
  function Lower(c: char): char {
    if 'A' <= c <= 'Z' then (c as int + 32) as char else c
  }

  function Fold(c: char, caseless: bool): char {
    if caseless then Lower(c) else c
  }

  /** `needle` occurs in `haystack` at position `i`. */
  predicate MatchesAt(haystack: string, needle: string, i: nat, caseless: bool) {
    i + |needle| <= |haystack| &&
    forall k :: 0 <= k < |needle| ==> Fold(haystack[i + k], caseless) == Fold(needle[k], caseless)
  }

  /** The first position at or after `from` where `needle` occurs. */
  function FindFrom(haystack: string, needle: string, from: nat, caseless: bool): (r: Option<nat>)
    decreases |haystack| - from
    ensures r.Some? ==> from <= r.value && MatchesAt(haystack, needle, r.value, caseless)
    ensures r.Some? ==> forall j :: from <= j < r.value ==> !MatchesAt(haystack, needle, j, caseless)
    ensures r.None? ==> forall j :: from <= j ==> !MatchesAt(haystack, needle, j, caseless)
  {
    if from + |needle| > |haystack| then None
    else if MatchesAt(haystack, needle, from, caseless) then Some(from)
    else FindFrom(haystack, needle, from + 1, caseless)
  }

  /** `strpos($haystack, $needle)`; `None` stands for `false`. */
  function Strpos(haystack: string, needle: string): (r: Option<nat>)
    ensures r.Some? <==> exists j :: MatchesAt(haystack, needle, j, false)
  {
    FindFrom(haystack, needle, 0, false)
  }

  /** `stripos($haystack, $needle)`: like `strpos`, ignoring ASCII case. */
  function Stripos(haystack: string, needle: string): (r: Option<nat>)
    ensures r.Some? <==> exists j :: MatchesAt(haystack, needle, j, true)
  {
    FindFrom(haystack, needle, 0, true)
  }

  // ---------------------------------------------------------------------
  // Arrays with mixed keys

  datatype Key = IntKey(i: int) | StrKey(s: string)

  /** `arr` with every integer key replaced by `next`, `next + 1`, ... in order;
      string keys are kept. */
  function Reindexed<T>(arr: seq<(Key, T)>, next: int): seq<(Key, T)> {
    if arr == [] then []
    else if arr[0].0.StrKey? then [arr[0]] + Reindexed(arr[1..], next)
    else [(IntKey(next), arr[0].1)] + Reindexed(arr[1..], next + 1)
  }

  /** `array_unshift($arr, $v)`: `$v` goes first under key 0, integer keys of
      the old elements are renumbered from 1, string keys stay. */
  function ArrayUnshift<T>(arr: seq<(Key, T)>, v: T): seq<(Key, T)> {
    [(IntKey(0), v)] + Reindexed(arr, 1)
  }

  /** How many entries of `arr` have an integer key. */
  function IntKeyCount<T>(arr: seq<(Key, T)>): nat {
    if arr == [] then 0 else (if arr[0].0.IntKey? then 1 else 0) + IntKeyCount(arr[1..])
  }

  /** The `k`-th integer-keyed entry (counting from 0) gets key `next + k`. */
  lemma {:induction false} ReindexedKeys<T>(arr: seq<(Key, T)>, next: int)
    ensures |Reindexed(arr, next)| == |arr|
    ensures forall i :: 0 <= i < |arr| && arr[i].0.IntKey? ==>
              Reindexed(arr, next)[i].0 == IntKey(next + IntKeyCount(arr[..i]))
  {
    if arr != [] {
      var c := if arr[0].0.IntKey? then 1 else 0;
      ReindexedKeys(arr[1..], next + c);
      var r := Reindexed(arr, next);
      var tail := Reindexed(arr[1..], next + c);
      assert r == [r[0]] + tail;
      assert arr[..0] == [];
      forall i | 1 <= i < |arr| && arr[i].0.IntKey?
        ensures r[i].0 == IntKey(next + IntKeyCount(arr[..i]))
      {
        assert arr[..i][1..] == arr[1..][..i - 1];
        assert r[i] == tail[i - 1] && arr[i] == arr[1..][i - 1];
      }
    }
  }

  lemma {:induction false} ReindexedShape<T>(arr: seq<(Key, T)>, next: int)
    ensures |Reindexed(arr, next)| == |arr|
    ensures forall i :: 0 <= i < |arr| ==> Reindexed(arr, next)[i].1 == arr[i].1
    ensures forall i :: 0 <= i < |arr| && arr[i].0.StrKey? ==> Reindexed(arr, next)[i].0 == arr[i].0
    ensures forall i :: 0 <= i < |arr| && arr[i].0.IntKey? ==>
              Reindexed(arr, next)[i].0.IntKey? && Reindexed(arr, next)[i].0.i >= next
    ensures forall i, j :: 0 <= i < j < |arr| && Reindexed(arr, next)[i].0.IntKey? && Reindexed(arr, next)[j].0.IntKey? ==>
              Reindexed(arr, next)[i].0.i < Reindexed(arr, next)[j].0.i
  {
    if arr != [] {
      var next' := if arr[0].0.StrKey? then next else next + 1;
      ReindexedShape(arr[1..], next');
      var r := Reindexed(arr, next);
      var tail := Reindexed(arr[1..], next');
      assert r == [r[0]] + tail;
      assert forall i :: 1 <= i < |arr| ==> r[i] == tail[i - 1] && arr[i] == arr[1..][i - 1];
    }
  }

  /** `array_unshift` puts the new value first under key 0; the old values
      follow in order, string keys unchanged, and the integer-keyed ones
      renumbered 1, 2, 3, ... in order, so no other entry has key 0. */
  lemma ArrayUnshiftShape<T>(arr: seq<(Key, T)>, v: T)
    ensures |ArrayUnshift(arr, v)| == |arr| + 1
    ensures ArrayUnshift(arr, v)[0] == (IntKey(0), v)
    ensures forall i :: 0 <= i < |arr| ==> ArrayUnshift(arr, v)[i + 1].1 == arr[i].1
    ensures forall i :: 0 <= i < |arr| && arr[i].0.StrKey? ==> ArrayUnshift(arr, v)[i + 1].0 == arr[i].0
    ensures forall i :: 0 < i < |arr| + 1 ==> ArrayUnshift(arr, v)[i].0 != IntKey(0)
    ensures forall i, j :: 0 <= i < j < |arr| + 1 && ArrayUnshift(arr, v)[i].0.IntKey? && ArrayUnshift(arr, v)[j].0.IntKey? ==>
              ArrayUnshift(arr, v)[i].0.i < ArrayUnshift(arr, v)[j].0.i
    ensures forall i :: 0 <= i < |arr| && arr[i].0.IntKey? ==>
              ArrayUnshift(arr, v)[i + 1].0 == IntKey(1 + IntKeyCount(arr[..i]))
  {
    ReindexedShape(arr, 1);
    ReindexedKeys(arr, 1);
    var r := ArrayUnshift(arr, v);
    assert forall i :: 0 < i < |arr| + 1 ==> r[i] == Reindexed(arr, 1)[i - 1];
  }
}
