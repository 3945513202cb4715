// Duration text for the dashboard: whole hours, minutes and seconds of a
// number of seconds, zero hours and minutes left out, "0s" for nothing.

module Format {
  import opened Common

  /** `x` rounded toward zero, as JavaScript's `%` uses it. */
  function Trunc(x: real): (k: int)
    ensures x >= 0.0 ==> k == x.Floor
  {
    if x >= 0.0 then x.Floor else -((-x).Floor)
  }

  /** JavaScript's `x % b` for a positive divisor: the remainder takes the sign of `x`. */
  function JsRem(x: real, b: real): real
    requires b > 0.0
  {
    x - b * Trunc(x / b) as real
  }

  /** The three fields a number of seconds is split into. */
  datatype Clock = Clock(hours: int, minutes: int, seconds: int)

  /** For `x >= 0` and a whole positive divisor, flooring after dividing is integer division. */
  lemma FloorOfQuotient(x: real, b: int)
    requires x >= 0.0 && b > 0
    ensures (x / b as real).Floor == x.Floor / b
  {
    var f := x.Floor;
    var q := f / b;
    assert q * b <= f < q * b + b;
    var bb := b as real;
    assert (q as real) * bb <= x < (q as real) * bb + bb;
    var y := x / bb;
    assert y * bb == x;
    if y < q as real {
      MultiplyStrict(y, q as real, bb);
    }
    assert (q as real + 1.0) * bb == (q as real) * bb + bb;
    if y >= q as real + 1.0 {
      MultiplyMonotone(q as real + 1.0, y, bb);
    }
    assert q as real <= y < q as real + 1.0;
  }

  lemma MultiplyStrict(a: real, c: real, k: real)
    requires k > 0.0 && a < c
    ensures a * k < c * k
  {
  }

  lemma MultiplyMonotone(a: real, c: real, k: real)
    requires k > 0.0 && a <= c
    ensures a * k <= c * k
  {
  }

  /** The fields of `totalSeconds`, computed as the dashboard computes them. */
  function Decompose(totalSeconds: real): (c: Clock)
    ensures totalSeconds >= 0.0 ==>
      && c.hours >= 0 && 0 <= c.minutes < 60 && 0 <= c.seconds < 60
      && c.hours * 3600 + c.minutes * 60 + c.seconds == totalSeconds.Floor
  {
    var c := Clock((totalSeconds / 3600.0).Floor,
                   (JsRem(totalSeconds, 3600.0) / 60.0).Floor,
                   JsRem(totalSeconds, 60.0).Floor);
    if totalSeconds >= 0.0 then
      var f := totalSeconds.Floor;
      FloorOfQuotient(totalSeconds, 3600);
      RemFloor(totalSeconds, 3600);
      RemFloor(totalSeconds, 60);
      FloorOfQuotient(JsRem(totalSeconds, 3600.0), 60);
      ClockSplit(f);
      c
    else c
  }

  /** For `x >= 0`, JavaScript's `x % b` is non-negative and its floor is the integer remainder. */
  lemma RemFloor(x: real, b: int)
    requires x >= 0.0 && b > 0
    ensures JsRem(x, b as real) >= 0.0
    ensures JsRem(x, b as real).Floor == x.Floor % b
  {
    FloorOfQuotient(x, b);
    var q := x.Floor / b;
    assert Trunc(x / b as real) == q;
    assert JsRem(x, b as real) == x - (b * q) as real;
    assert x.Floor == b * q + x.Floor % b;
  }

  /** The integer identities behind the three fields. */
  lemma ClockSplit(f: int)
    requires f >= 0
    ensures 0 <= (f % 3600) / 60 < 60 && f % 60 == (f % 3600) % 60
    ensures (f / 3600) * 3600 + ((f % 3600) / 60) * 60 + f % 60 == f
  {
    var q, r := f / 3600, f % 3600;
    var m, t := r / 60, r % 60;
    assert r == 60 * m + t;
    assert f == 60 * (60 * q + m) + t;
    ModUnique(f, 60, 60 * q + m, t);
  }

  /** A remainder in 0..b-1 of a division by `b` is the remainder. */
  lemma ModUnique(a: int, b: int, q: int, r: int)
    requires b > 0 && 0 <= r < b && a == b * q + r
    ensures a % b == r
  {
    var q0, r0 := a / b, a % b;
    var d := q - q0;
    assert b * d == r0 - r by {
      assert b * q - b * q0 == b * (q - q0);
    }
    if d >= 1 {
      MultiplyAtLeast(b, d);
      assert false;
    } else if d <= -1 {
      assert b * (-d) == -(b * d);
      MultiplyAtLeast(b, -d);
      assert false;
    }
  }

  lemma {:induction false} MultiplyAtLeast(b: int, k: int)
    requires b > 0 && k >= 1
    ensures b * k >= b
    decreases k
  {
    if k > 1 {
      MultiplyAtLeast(b, k - 1);
      assert b * k == b * (k - 1) + b;
    }
  }

  /** A count followed by its unit letter. */
  function Unit(n: int, unit: char): string {
    IntToString(n) + [unit]
  }

  /** The parts of the text in the order hours, minutes, seconds. */
  function DurationParts(c: Clock): (parts: seq<string>)
    ensures 1 <= |parts| <= 3
  {
    var withHours := if c.hours > 0 then [Unit(c.hours, 'h')] else [];
    var withMinutes := if c.minutes > 0 then withHours + [Unit(c.minutes, 'm')] else withHours;
    if c.seconds > 0 || |withMinutes| == 0 then withMinutes + [Unit(c.seconds, 's')] else withMinutes
  }

  /** The duration text of `totalSeconds`: its non-zero parts joined by single spaces. */
  function FormatDuration(totalSeconds: real): (s: string)
  {
    Join(DurationParts(Decompose(totalSeconds)), " ")
  }

  /** Seconds a unit letter stands for. */
  function Factor(unit: char): nat {
    if unit == 'h' then 3600 else if unit == 'm' then 60 else if unit == 's' then 1 else 0
  }

  /** The seconds one part stands for: its digits times its unit. */
  function PartValue(p: string): nat {
    if |p| >= 2 && AllDigits(p[..|p| - 1]) then ParseNat(p[..|p| - 1]) * Factor(p[|p| - 1]) else 0
  }

  /** The seconds a list of parts stands for. */
  function Reading(parts: seq<string>): nat {
    if parts == [] then 0 else PartValue(parts[0]) + Reading(parts[1..])
  }

  lemma UnitValue(n: nat, unit: char)
    ensures PartValue(Unit(n, unit)) == n * Factor(unit)
  {
    var p := Unit(n, unit);
    assert p[..|p| - 1] == NatToString(n);
    ParseNatToString(n);
  }

  /** A field shown as a part when `shown`, and left out otherwise. */
  function Piece(shown: bool, n: int, unit: char): seq<string> {
    if shown then [Unit(n, unit)] else []
  }

  /** The parts are the shown fields in the order hours, minutes, seconds. */
  lemma PartsArePieces(c: Clock)
    ensures DurationParts(c) ==
      Piece(c.hours > 0, c.hours, 'h') + Piece(c.minutes > 0, c.minutes, 'm')
      + Piece(c.seconds > 0 || (c.hours <= 0 && c.minutes <= 0), c.seconds, 's')
  {
  }

  lemma PieceReading(shown: bool, n: nat, unit: char)
    ensures Reading(Piece(shown, n, unit)) == if shown then n * Factor(unit) else 0
  {
    if shown {
      UnitValue(n, unit);
      assert [Unit(n, unit)][1..] == [];
    }
  }

  /**
   * For a non-negative input, the parts read back as the whole seconds of
   * the input: the text loses nothing but the fraction.
   */
  lemma FormatDurationRoundTrip(totalSeconds: real)
    requires totalSeconds >= 0.0
    ensures Reading(DurationParts(Decompose(totalSeconds))) == totalSeconds.Floor
  {
    var c := Decompose(totalSeconds);
    var h := Piece(c.hours > 0, c.hours, 'h');
    var m := Piece(c.minutes > 0, c.minutes, 'm');
    var s := Piece(c.seconds > 0 || (c.hours <= 0 && c.minutes <= 0), c.seconds, 's');
    PartsArePieces(c);
    PieceReading(c.hours > 0, c.hours, 'h');
    PieceReading(c.minutes > 0, c.minutes, 'm');
    PieceReading(c.seconds > 0 || (c.hours <= 0 && c.minutes <= 0), c.seconds, 's');
    ReadingAppend(h, m);
    ReadingAppend(h + m, s);
  }

  lemma {:induction false} ReadingAppend(a: seq<string>, b: seq<string>)
    ensures Reading(a + b) == Reading(a) + Reading(b)
    decreases |a|
  {
    if a == [] {
      assert a + b == b;
    } else {
      assert (a + b)[0] == a[0];
      assert (a + b)[1..] == a[1..] + b;
      ReadingAppend(a[1..], b);
    }
  }

  /** Two non-negative inputs with the same text have the same whole seconds. */
  lemma FormatDurationInjective(a: real, b: real)
    requires a >= 0.0 && b >= 0.0
    requires FormatDuration(a) == FormatDuration(b)
    ensures a.Floor == b.Floor
  {
    PartsAreWords(Decompose(a));
    PartsAreWords(Decompose(b));
    JoinInjective(DurationParts(Decompose(a)), DurationParts(Decompose(b)), ' ');
    FormatDurationRoundTrip(a);
    FormatDurationRoundTrip(b);
  }

  /** No part is empty or contains a space. */
  lemma PartsAreWords(c: Clock)
    ensures forall i :: 0 <= i < |DurationParts(c)| ==>
      DurationParts(c)[i] != [] && ' ' !in DurationParts(c)[i]
  {
    IntToStringAvoids(c.hours, ' ');
    IntToStringAvoids(c.minutes, ' ');
    IntToStringAvoids(c.seconds, ' ');
  }

  /** The unit letters of the parts, in order. */
  function Letters(parts: seq<string>): string {
    if parts == [] then "" else [Last(parts[0])] + Letters(parts[1..])
  }

  function Last(p: string): char {
    if p == [] then ' ' else p[|p| - 1]
  }

  lemma {:induction false} LettersAppend(a: seq<string>, b: seq<string>)
    ensures Letters(a + b) == Letters(a) + Letters(b)
    decreases |a|
  {
    if a == [] {
      assert a + b == b;
    } else {
      assert (a + b)[0] == a[0];
      assert (a + b)[1..] == a[1..] + b;
      LettersAppend(a[1..], b);
    }
  }

  lemma PieceLetters(shown: bool, n: int, unit: char)
    ensures Letters(Piece(shown, n, unit)) == if shown then [unit] else ""
  {
    if shown {
      assert [Unit(n, unit)][1..] == [];
    }
  }

  /**
   * Which parts appear, in which order: hours and minutes exactly when
   * positive, seconds when positive or when nothing else is shown.
   */
  lemma PartsShown(c: Clock)
    ensures Letters(DurationParts(c)) ==
      (if c.hours > 0 then "h" else "") + (if c.minutes > 0 then "m" else "")
      + (if c.seconds > 0 || (c.hours <= 0 && c.minutes <= 0) then "s" else "")
  {
    var h := Piece(c.hours > 0, c.hours, 'h');
    var m := Piece(c.minutes > 0, c.minutes, 'm');
    var s := Piece(c.seconds > 0 || (c.hours <= 0 && c.minutes <= 0), c.seconds, 's');
    PartsArePieces(c);
    LettersAppend(h, m);
    LettersAppend(h + m, s);
    PieceLetters(c.hours > 0, c.hours, 'h');
    PieceLetters(c.minutes > 0, c.minutes, 'm');
    PieceLetters(c.seconds > 0 || (c.hours <= 0 && c.minutes <= 0), c.seconds, 's');
  }

  /** The text is never empty: it holds at least one count and its letter. */
  lemma FormatDurationNonEmpty(totalSeconds: real)
    ensures |FormatDuration(totalSeconds)| >= 2
  {
    var parts := DurationParts(Decompose(totalSeconds));
    assert |parts[0]| >= 2;
    if |parts| > 1 {
      assert Join(parts, " ") == parts[0] + " " + Join(parts[1..], " ");
    }
  }

  /** No seconds at all reads "0s". */
  lemma FormatDurationZero()
    ensures FormatDuration(0.0) == "0s"
  {
    assert Decompose(0.0) == Clock(0, 0, 0);
  }

  /** 125 seconds read "2m 5s"; 3661 seconds read "1h 1m 1s". */
  lemma FormatDurationExamples()
    ensures FormatDuration(125.0) == "2m 5s"
    ensures FormatDuration(3661.0) == "1h 1m 1s"
  {
    assert Decompose(125.0) == Clock(0, 2, 5);
    assert Decompose(3661.0) == Clock(1, 1, 1);
  }
}
