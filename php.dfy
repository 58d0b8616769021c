/**
 * The PHP values the core handles: exceptions, array keys, decoded JSON
 * and the mixed identifiers returned by `getId()`.
 */
module Php {
  import opened Wrappers

  /** The exceptions thrown by the core. */
  datatype Error =
    | InvalidArgument(assertion: string)  // a failed Webmozart\Assert check
    | Runtime(message: string)            // RuntimeException
    | TypeMismatch(message: string)       // TypeError raised by the engine
    | Fragment(template: string)          // a Twig error or JsonException while rendering or decoding a fragment

  const UNSUPPORTED_ATTRIBUTE_ID := "Attribute ID different from string or integer is not supported."
  const UNSUPPORTED_OPTION_ID := "Option ID different from string or integer is not supported."
  const MULTIPLE_OPTION_VALUES := "Multiple values for the same option are not supported."
  const SLUG_NOT_FOUND := "Slug not found"

  /** Names of the Webmozart assertions whose failure the model reports. */
  const LOCALE_IS_STRING := "locale code is a string"
  const STORAGE_TYPE_IS_NON_EMPTY_STRING := "storage type is a non-empty string"
  const DEFAULT_LOCALE_IS_STRING := "default locale is a string"

  /** Messages of the engine's type errors that the core can run into. */
  const SLUG_NOT_STRING := "getSlug(): Return value must be of type string, null returned"
  const MERGE_ARGUMENT_NOT_ARRAY := "array_merge(): Argument must be of type array"

  /** A PHP array key: arrays are ordered maps from int or string keys. */
  datatype Key = IntKey(n: int) | StrKey(s: string)

  /**
   * A decoded JSON value as `json_decode($json, true)` returns it: objects and
   * lists both become PHP arrays, that is ordered sequences of key/value pairs.
   */
  datatype Json =
    | Null
    | Bool(b: bool)
    | Int(i: int)
    | Str(s: string)
    | Arr(entries: seq<(Key, Json)>)

  type PhpArray = seq<(Key, Json)>

  /** The value returned by an entity's `getId()`: declared `mixed`. */
  datatype Id = IntId(n: int) | StrId(s: string) | OtherId

  const PHP_INT_MAX: int := 0x7FFF_FFFF_FFFF_FFFF

  predicate IsDigit(c: char) {
    '0' <= c <= '9'
  }

  predicate AllDigits(s: string) {
    forall i :: 0 <= i < |s| ==> IsDigit(s[i])
  }

  /** The number a string of decimal digits denotes. */
  function DigitsValue(s: string): nat
    requires AllDigits(s)
  {
    if s == [] then 0 else 10 * DigitsValue(s[..|s| - 1]) + (s[|s| - 1] as int - '0' as int)
  }

  /** A non-empty digit string with no superfluous leading zero ("0", "7", "42", not "07"). */
  predicate IsMagnitude(d: string) {
    |d| > 0 && AllDigits(d) && (d[0] != '0' || |d| == 1)
  }

  /** A string PHP turns into an integer key: a canonical decimal integer within 64 bits ("-0" is not). */
  predicate IsIntegerString(s: string) {
    (IsMagnitude(s) && DigitsValue(s) <= PHP_INT_MAX)
    || (|s| >= 2 && s[0] == '-' && IsMagnitude(s[1..]) && s[1] != '0' && DigitsValue(s[1..]) <= PHP_INT_MAX + 1)
  }

  /** The key under which PHP stores `$array[$s]` for a string `$s`. */
  function KeyOfString(s: string): Key {
    if IsMagnitude(s) && DigitsValue(s) <= PHP_INT_MAX then IntKey(DigitsValue(s))
    else if IsIntegerString(s) then IntKey(-(DigitsValue(s[1..]) as int))
    else StrKey(s)
  }

  /** The array key of an identifier, or `None` for an identifier that is neither int nor string. */
  function ArrayKey(id: Id): Option<Key> {
    match id
    case IntId(n) => Some(IntKey(n))
    case StrId(s) => Some(KeyOfString(s))
    case OtherId => None
  }

  /** Ten to the power `n`. */
  function Pow10(n: nat): nat {
    if n == 0 then 1 else 10 * Pow10(n - 1)
  }

  /** A magnitude of `k` digits lies in [10^(k-1), 10^k), or is "0". */
  lemma {:induction false} MagnitudeBounds(d: string)
    requires IsMagnitude(d)
    ensures DigitsValue(d) < Pow10(|d|)
    ensures |d| > 1 ==> Pow10(|d| - 1) <= DigitsValue(d)
    ensures d != "0" ==> DigitsValue(d) >= 1
  {
    var n := |d|;
    if n == 1 {
      assert DigitsValue(d) == d[0] as int - '0' as int;
      assert d[..0] == [];
    } else {
      var p := d[..n - 1];
      assert p[0] == d[0];
      assert IsMagnitude(p);
      MagnitudeBounds(p);
      var v, x := DigitsValue(p), d[n - 1] as int - '0' as int;
      assert DigitsValue(d) == 10 * v + x;
      assert 0 <= x < 10;
      if n - 1 > 1 {
        assert Pow10(n - 2) <= v;
      } else {
        assert p == [d[0]] && d[0] != '0';
        assert DigitsValue(p) == 10 * DigitsValue(p[..0]) + (d[0] as int - '0' as int);
        assert p[..0] == [];
        assert v >= 1;
      }
      assert v < Pow10(n - 1);
    }
  }

  /** Two magnitudes that denote the same number are the same string. */
  lemma {:induction false} MagnitudeInjective(d: string, e: string)
    requires IsMagnitude(d) && IsMagnitude(e) && DigitsValue(d) == DigitsValue(e)
    ensures d == e
  {
    MagnitudeBounds(d);
    MagnitudeBounds(e);
    if |d| < |e| {
      Pow10Monotone(|d|, |e| - 1);
      assert false;
    } else if |e| < |d| {
      Pow10Monotone(|e|, |d| - 1);
      assert false;
    }
    DigitsInjective(d, e);
  }

  lemma {:induction false} Pow10Monotone(m: nat, n: nat)
    requires m <= n
    ensures Pow10(m) <= Pow10(n)
  {
    if m < n {
      Pow10Monotone(m, n - 1);
    }
  }

  /** Digit strings of equal length that denote the same number are equal. */
  lemma {:induction false} DigitsInjective(d: string, e: string)
    requires AllDigits(d) && AllDigits(e) && |d| == |e| && DigitsValue(d) == DigitsValue(e)
    ensures d == e
  {
    if d != [] {
      var n := |d|;
      var a, b := DigitsValue(d[..n - 1]), DigitsValue(e[..n - 1]);
      var x, y := d[n - 1] as int - '0' as int, e[n - 1] as int - '0' as int;
      assert 10 * (a - b) == y - x && -10 < y - x < 10;
      assert a == b && x == y;
      DigitsInjective(d[..n - 1], e[..n - 1]);
      assert d == d[..n - 1] + [d[n - 1]];
      assert e == e[..n - 1] + [e[n - 1]];
    }
  }

  /**
   * PHP's string-to-key coercion never merges two different strings: grouping
   * by the array key of a string is grouping by the string itself.
   */
  lemma KeyOfStringInjective(s: string, t: string)
    requires KeyOfString(s) == KeyOfString(t)
    ensures s == t
  {
    var sPos := IsMagnitude(s) && DigitsValue(s) <= PHP_INT_MAX;
    var tPos := IsMagnitude(t) && DigitsValue(t) <= PHP_INT_MAX;
    if !sPos && IsIntegerString(s) {
      assert s[1..][0] == s[1];
      MagnitudeBounds(s[1..]);
    }
    if !tPos && IsIntegerString(t) {
      assert t[1..][0] == t[1];
      MagnitudeBounds(t[1..]);
    }
    if sPos && tPos {
      MagnitudeInjective(s, t);
    } else if !sPos && !tPos && IsIntegerString(s) && IsIntegerString(t) {
      MagnitudeInjective(s[1..], t[1..]);
      assert s == [s[0]] + s[1..] && t == [t[0]] + t[1..];
    }
  }
}
