/**
 * Shared vocabulary for the model: an Option type for JavaScript's
 * `null`/`undefined`, decimal rendering of integers as JavaScript's
 * template literals produce it (`${n}`), `Array.prototype.join`, and the
 * UTF-16 length that JavaScript's `string.length` reports.
 */
module Common {

  /** `T | null` (or `T | undefined`) in the source. */
  datatype Option<+T> = None | Some(value: T)

  function OptionOf<K, V>(m: map<K, V>, k: K): (r: Option<V>)
    ensures r.Some? <==> k in m
    ensures r.Some? ==> r.value == m[k]
  {
    if k in m then Some(m[k]) else None
  }

  predicate NoDuplicates<T(==)>(s: seq<T>) {
    forall i, j :: 0 <= i < j < |s| ==> s[i] != s[j]
  }

  function SetOf<T>(s: seq<T>): set<T> {
    set x | x in s
  }

  /** A duplicate-free sequence has as many elements as the set of its elements. */
  lemma {:induction false} NoDuplicatesCardinality<T>(s: seq<T>)
    requires NoDuplicates(s)
    ensures |SetOf(s)| == |s|
  {
    if s != [] {
      var t := s[1..];
      assert NoDuplicates(t) by {
        forall i, j | 0 <= i < j < |t| ensures t[i] != t[j] {
          assert t[i] == s[i + 1] && t[j] == s[j + 1];
        }
      }
      NoDuplicatesCardinality(t);
      assert s[0] !in SetOf(t) by {
        forall k | 0 <= k < |t| ensures t[k] != s[0] {
          assert t[k] == s[k + 1];
        }
      }
      assert SetOf(s) == {s[0]} + SetOf(t) by {
        assert s == [s[0]] + t;
      }
    }
  }

  // ---------------------------------------------------------------------------
  // Decimal text of integers
  // ---------------------------------------------------------------------------

  predicate IsDigit(c: char) {
    '0' <= c <= '9'
  }

  predicate AllDigits(s: string) {
    forall i :: 0 <= i < |s| ==> IsDigit(s[i])
  }

  function DigitChar(d: nat): (c: char)
    requires d < 10
    ensures IsDigit(c)
  {
    "0123456789"[d]
  }

  function DigitValue(c: char): (d: nat)
    requires IsDigit(c)
    ensures d < 10
  {
    (c as int - '0' as int) as nat
  }

  lemma DigitRoundTrip(d: nat)
    requires d < 10
    ensures DigitValue(DigitChar(d)) == d
  {
  }

  /** Decimal text of a natural number, without leading zeros. */
  function NatToString(n: nat): (s: string)
    ensures |s| > 0 && AllDigits(s)
    decreases n
  {
    if n < 10 then [DigitChar(n)] else NatToString(n / 10) + [DigitChar(n % 10)]
  }

  /** Decimal text of an integer, `-` first when negative (what `${i}` gives). */
  function IntToString(i: int): (s: string)
    ensures |s| > 0
  {
    if i < 0 then "-" + NatToString(-i) else NatToString(i)
  }

  function ParseNat(s: string): nat
    requires AllDigits(s)
  {
    if s == [] then 0 else ParseNat(s[..|s| - 1]) * 10 + DigitValue(s[|s| - 1])
  }

  function ParseInt(s: string): int
    requires |s| > 0
    requires s[0] == '-' ==> AllDigits(s[1..])
    requires s[0] != '-' ==> AllDigits(s)
  {
    if s[0] == '-' then -(ParseNat(s[1..]) as int) else ParseNat(s)
  }

  lemma {:induction false} ParseNatToString(n: nat)
    ensures ParseNat(NatToString(n)) == n
    decreases n
  {
    var s := NatToString(n);
    if n < 10 {
      DigitRoundTrip(n);
      assert s[..|s| - 1] == [];
    } else {
      ParseNatToString(n / 10);
      DigitRoundTrip(n % 10);
      assert s[..|s| - 1] == NatToString(n / 10);
    }
  }

  lemma ParseIntToString(i: int)
    ensures var s := IntToString(i);
      && (s[0] == '-' ==> AllDigits(s[1..]))
      && (s[0] != '-' ==> AllDigits(s))
      && ParseInt(s) == i
  {
    var s := IntToString(i);
    if i < 0 {
      assert s[1..] == NatToString(-i);
      ParseNatToString(-i);
    } else {
      ParseNatToString(i);
    }
  }

  lemma NatToStringInjective(a: nat, b: nat)
    requires NatToString(a) == NatToString(b)
    ensures a == b
  {
    ParseNatToString(a);
    ParseNatToString(b);
  }

  lemma IntToStringInjective(a: int, b: int)
    requires IntToString(a) == IntToString(b)
    ensures a == b
  {
    ParseIntToString(a);
    ParseIntToString(b);
  }

  /** A character that no integer's decimal text contains (anything but digits and `-`). */
  predicate NotInNumerals(c: char) {
    !IsDigit(c) && c != '-'
  }

  lemma NatToStringAvoids(n: nat, c: char)
    requires !IsDigit(c)
    ensures c !in NatToString(n)
  {
    var s := NatToString(n);
    forall k | 0 <= k < |s| ensures s[k] != c {
      assert IsDigit(s[k]);
    }
  }

  lemma IntToStringAvoids(i: int, c: char)
    requires NotInNumerals(c)
    ensures c !in IntToString(i)
  {
    if i < 0 {
      NatToStringAvoids(-i, c);
      assert IntToString(i) == ['-'] + NatToString(-i);
    } else {
      NatToStringAvoids(i, c);
    }
  }

  // ---------------------------------------------------------------------------
  // Splitting at a separator
  // ---------------------------------------------------------------------------

  /** Empty, or starting with the separator `c`. */
  predicate LedBy(y: string, c: char) {
    y == [] || y[0] == c
  }

  /** Index of the first `c` in `s`, or `|s|` when there is none. */
  function FirstIndex(s: string, c: char): (k: nat)
    ensures k <= |s|
  {
    if s == [] then 0 else if s[0] == c then 0 else 1 + FirstIndex(s[1..], c)
  }

  lemma {:induction false} FirstIndexOfSplit(x: string, y: string, c: char)
    requires c !in x && LedBy(y, c)
    ensures FirstIndex(x + y, c) == |x|
    decreases |x|
  {
    if x == [] {
      assert x + y == y;
    } else {
      assert (x + y)[1..] == x[1..] + y;
      FirstIndexOfSplit(x[1..], y, c);
    }
  }

  /**
   * If a text is a `c`-free head followed by a tail that is empty or starts
   * with `c`, the head and the tail are determined by the text.
   */
  lemma SplitUnique(x: string, y: string, x2: string, y2: string, c: char)
    requires c !in x && c !in x2
    requires LedBy(y, c) && LedBy(y2, c)
    requires x + y == x2 + y2
    ensures x == x2 && y == y2
  {
    FirstIndexOfSplit(x, y, c);
    FirstIndexOfSplit(x2, y2, c);
    assert x == (x + y)[..|x|] && x2 == (x2 + y2)[..|x2|];
    assert y == (x + y)[|x|..] && y2 == (x2 + y2)[|x2|..];
  }

  // ---------------------------------------------------------------------------
  // Array.prototype.join
  // ---------------------------------------------------------------------------

  /** `parts.join(sep)`: the parts in order with `sep` between neighbours. */
  function Join(parts: seq<string>, sep: string): string
    decreases |parts|
  {
    if |parts| == 0 then ""
    else if |parts| == 1 then parts[0]
    else parts[0] + sep + Join(parts[1..], sep)
  }

  lemma JoinAvoids(parts: seq<string>, c: char, d: char)
    requires forall i :: 0 <= i < |parts| ==> d !in parts[i]
    requires c != d
    ensures d !in Join(parts, [c])
    decreases |parts|
  {
    if |parts| > 1 {
      JoinAvoids(parts[1..], c, d);
    }
  }

  /**
   * Joining with a one-character separator loses nothing when no part is
   * empty and no part contains the separator.
   */
  lemma {:induction false} JoinInjective(a: seq<string>, b: seq<string>, c: char)
    requires forall i :: 0 <= i < |a| ==> a[i] != [] && c !in a[i]
    requires forall i :: 0 <= i < |b| ==> b[i] != [] && c !in b[i]
    requires Join(a, [c]) == Join(b, [c])
    ensures a == b
    decreases |a| + |b|
  {
    if a == [] && b == [] {
    } else if a == [] || b == [] {
      assert false;
    } else {
      var ta := if |a| == 1 then "" else [c] + Join(a[1..], [c]);
      var tb := if |b| == 1 then "" else [c] + Join(b[1..], [c]);
      assert Join(a, [c]) == a[0] + ta;
      assert Join(b, [c]) == b[0] + tb;
      SplitUnique(a[0], ta, b[0], tb, c);
      if |a| == 1 || |b| == 1 {
        if |a| != |b| {
          assert false;
        }
      } else {
        assert ta[1..] == Join(a[1..], [c]);
        assert tb[1..] == Join(b[1..], [c]);
        JoinInjective(a[1..], b[1..], c);
        assert a == [a[0]] + a[1..];
        assert b == [b[0]] + b[1..];
      }
    }
  }

  // ---------------------------------------------------------------------------
  // JavaScript string length
  // ---------------------------------------------------------------------------

  /** `s.length` in JavaScript: UTF-16 code units, two for a character above U+FFFF. */
  function Utf16Length(s: string): (n: nat)
    ensures n >= |s|
    ensures n <= 2 * |s|
  {
    if s == [] then 0 else (if s[0] as int > 0xFFFF then 2 else 1) + Utf16Length(s[1..])
  }
}
