// Model of utils.h: the shared numeric constants, the C++ float-to-int
// conversion used throughout the program, and the status-line joiner
// `listToString`.

module Utils {

  /** Default process-noise (acceleration) variance of the Kalman filters. */
  const KF_VAR_ACCEL: real := 0.0075
  /** Default measurement-noise variance of the Kalman filters. */
  const KF_VAR_MEASUREMENT: real := 0.05
  /** Pressure at sea level, in pascal. */
  const SEA_LEVEL_PRESSURE: real := 101325.0
  /** Pressure at sea level, in hectopascal. */
  const SEA_LEVEL_PRESSURE_HPA: real := 1013.25
  const SCREEN_ORIENTATION_LANDSCAPE: int := 0
  const SCREEN_ORIENTATION_PORTRAIT: int := 1
  const RADIANS_TO_DEGREES: real := 57.2957795

  /** The two sea-level constants describe the same pressure in two units,
      and both default variances are usable noise parameters. */
  lemma ConstantsAgree()
    ensures SEA_LEVEL_PRESSURE == 100.0 * SEA_LEVEL_PRESSURE_HPA
    ensures KF_VAR_ACCEL > 0.0 && KF_VAR_MEASUREMENT > 0.0
    ensures SCREEN_ORIENTATION_LANDSCAPE != SCREEN_ORIENTATION_PORTRAIT
  {
  }

  /** `static_cast<int>` of a real: C++ truncates toward zero. */
  function Trunc(r: real): (n: int)
    ensures r >= 0.0 ==> 0 <= n && n as real <= r < n as real + 1.0
    ensures r < 0.0 ==> n <= 0 && n as real - 1.0 < r <= n as real
  {
    if r >= 0.0 then r.Floor else -((-r).Floor)
  }

  // ---------------------------------------------------------------------
  // listToString

  /** The numbers of `values`, each formatted by `format` (QString::number). */
  function Formatted(values: seq<real>, format: real -> string): (parts: seq<string>)
    ensures |parts| == |values|
    ensures forall i :: 0 <= i < |values| ==> parts[i] == format(values[i])
  {
    seq(|values|, i requires 0 <= i < |values| => format(values[i]))
  }

  /** The parts separated by ", ", with no separator after the last one. */
  function Join(parts: seq<string>): string
  {
    if |parts| == 0 then ""
    else if |parts| == 1 then parts[0]
    else parts[0] + ", " + Join(parts[1..])
  }

  /** `listToString`: appends each formatted value and, unless it is the
      last one, a ", " separator. */
  method ListToString(values: seq<real>, format: real -> string) returns (result: string)
    ensures result == Join(Formatted(values, format))
  {
    ghost var parts := Formatted(values, format);
    result := "";
    var i := 0;
    while i < |values|
      invariant 0 <= i <= |values|
      invariant result == Join(parts[..i]) + (if 0 < i < |values| then ", " else "")
    {
      result := result + format(values[i]);
      if i < |values| - 1 {
        result := result + ", ";
      }
      assert parts[..i + 1] == parts[..i] + [parts[i]];
      if i > 0 {
        JoinSnoc(parts[..i], parts[i]);
      }
      i := i + 1;
    }
    assert parts[..|values|] == parts;
  }

  /** An empty list gives the empty text and a single value exactly its
      formatted number, with no separator. */
  lemma ListToStringEdgeCases(format: real -> string)
    ensures Join(Formatted([], format)) == ""
    ensures forall v :: Join(Formatted([v], format)) == format(v)
  {
    forall v
      ensures Join(Formatted([v], format)) == format(v)
    {
      assert Formatted([v], format) == [format(v)];
    }
  }

  /** Appending one more part adds exactly one separator and that part. */
  lemma {:induction false} JoinSnoc(parts: seq<string>, p: string)
    requires |parts| > 0
    ensures Join(parts + [p]) == Join(parts) + ", " + p
    decreases |parts|
  {
    if |parts| > 1 {
      assert (parts + [p])[1..] == parts[1..] + [p];
      JoinSnoc(parts[1..], p);
    }
  }

  /** Total length of the parts. */
  function SumLengths(parts: seq<string>): nat
  {
    if |parts| == 0 then 0 else |parts[0]| + SumLengths(parts[1..])
  }

  /** The joined text is as long as the parts plus 2 characters per separator. */
  lemma {:induction false} JoinLength(parts: seq<string>)
    requires |parts| > 0
    ensures |Join(parts)| == SumLengths(parts) + 2 * (|parts| - 1)
    decreases |parts|
  {
    if |parts| > 1 {
      JoinLength(parts[1..]);
    }
  }

  /** Number of occurrences of `c` in `s`. */
  function Count(s: string, c: char): nat
  {
    if |s| == 0 then 0 else (if s[0] == c then 1 else 0) + Count(s[1..], c)
  }

  lemma {:induction false} CountAppend(a: string, b: string, c: char)
    ensures Count(a + b, c) == Count(a, c) + Count(b, c)
    decreases |a|
  {
    if |a| > 0 {
      assert (a + b)[1..] == a[1..] + b;
      CountAppend(a[1..], b, c);
    } else {
      assert a + b == b;
    }
  }

  /** No part contains the separator's comma (true of formatted numbers). */
  predicate NoComma(parts: seq<string>)
  {
    forall i :: 0 <= i < |parts| ==> ',' !in parts[i]
  }

  lemma {:induction false} CountAbsent(s: string, c: char)
    requires c !in s
    ensures Count(s, c) == 0
    decreases |s|
  {
    if |s| > 0 {
      assert s[0] != c;
      assert forall k :: 0 <= k < |s| - 1 ==> s[1..][k] == s[k + 1];
      CountAbsent(s[1..], c);
    }
  }

  /** n comma-free parts are separated by exactly n - 1 commas. */
  lemma {:induction false} JoinSeparatorCount(parts: seq<string>)
    requires |parts| > 0 && NoComma(parts)
    ensures Count(Join(parts), ',') == |parts| - 1
    decreases |parts|
  {
    CountAbsent(parts[0], ',');
    if |parts| > 1 {
      JoinSeparatorCount(parts[1..]);
      CountAppend(parts[0] + ", ", Join(parts[1..]), ',');
      CountAppend(parts[0], ", ", ',');
    }
  }

  /** Position of the first comma of `s`, or |s| when there is none. */
  function IndexOfComma(s: string): (k: nat)
    ensures k <= |s|
    ensures k < |s| ==> s[k] == ','
    ensures forall j :: 0 <= j < k ==> s[j] != ','
    decreases |s|
  {
    if |s| == 0 || s[0] == ',' then 0 else 1 + IndexOfComma(s[1..])
  }

  lemma {:induction false} IndexOfCommaSkips(p: string, t: string)
    requires ',' !in p
    ensures IndexOfComma(p + t) == |p| + IndexOfComma(t)
    decreases |p|
  {
    if |p| > 0 {
      assert (p + t)[1..] == p[1..] + t;
      assert p[0] != ',';
      IndexOfCommaSkips(p[1..], t);
    } else {
      assert p + t == t;
    }
  }

  /** Cuts a status line back into its fields at each ", ". */
  function Split(s: string): seq<string>
    decreases |s|
  {
    var k := IndexOfComma(s);
    if k == |s| then [s]
    else if k + 1 < |s| && s[k + 1] == ' ' then [s[..k]] + Split(s[k + 2..])
    else [s[..k]] + Split(s[k + 1..])
  }

  /** Joining comma-free parts loses nothing: splitting gives them back. */
  lemma {:induction false} SplitJoin(parts: seq<string>)
    requires |parts| > 0 && NoComma(parts)
    ensures Split(Join(parts)) == parts
    decreases |parts|
  {
    var p := parts[0];
    if |parts| == 1 {
      assert ',' !in p;
      assert IndexOfComma(p) == |p|;
    } else {
      var rest := Join(parts[1..]);
      var s := p + ", " + rest;
      assert ',' !in p;
      IndexOfCommaSkips(p, ", " + rest);
      assert s == p + (", " + rest);
      assert s[..|p|] == p;
      assert s[|p| + 2..] == rest;
      SplitJoin(parts[1..]);
    }
  }

  // ---------------------------------------------------------------------
  // Shared numeric helpers

  /** M_PI as a double literal. */
  const PI: real := 3.14159265358979323846
  const TWO_PI: real := 2.0 * PI

  /** An unsigned 8-bit value (one byte of an audio buffer). */
  type Byte = b: int | 0 <= b < 256

  /** A signed 16-bit PCM sample (qint16). */
  type Int16 = v: int | -32768 <= v < 32768

  lemma {:induction false} MulAtLeast(a: int, n: int)
    requires a >= 1 && n >= 0
    ensures a * n >= n
    decreases a
  {
    if a > 1 {
      MulAtLeast(a - 1, n);
      assert a * n == (a - 1) * n + n;
    }
  }

  /** Quotient and remainder are the unique pair with 0 <= m < n. */
  lemma DivModUnique(y: int, k: int, m: int, n: int)
    requires n > 0 && 0 <= m < n && y == k * n + m
    ensures y % n == m && y / n == k
  {
    var q, r := y / n, y % n;
    assert y == q * n + r;
    assert k * n - q * n == (k - q) * n;
    if k > q {
      MulAtLeast(k - q, n);
    } else if k < q {
      MulAtLeast(q - k, n);
    }
  }

  /** Reducing the first addend modulo n does not change the sum modulo n. */
  lemma ModShift(a: int, b: int, n: int)
    requires n > 0
    ensures (a % n + b) % n == (a + b) % n
  {
    var q := a / n;
    var r := (a % n + b) % n;
    var k := (a % n + b) / n;
    assert a % n + b == k * n + r;
    assert a == q * n + a % n;
    assert q * n + k * n == (q + k) * n;
    DivModUnique(a + b, q + k, r, n);
  }

  /** Adding `n` to a multiple of `n` gives a multiple of `n`. */
  lemma AddMultiple(x: int, n: int)
    requires n > 0 && x % n == 0
    ensures (n + x) % n == 0
  {
    assert x == x / n * n;
    DivModUnique(n + x, x / n + 1, 0, n);
  }

  /** Equal multiples of a positive number have equal factors. */
  lemma MulCancel(a: nat, b: nat, n: nat)
    requires n > 0 && a * n == b * n
    ensures a == b
  {
    DivModUnique(a * n, a, 0, n);
    DivModUnique(b * n, b, 0, n);
  }

  /** While bytes remain, so does a whole frame. */
  lemma FrameStep(numSamples: nat, currentSample: nat, sampleBytes: nat, p: nat)
    requires sampleBytes > 0 && currentSample <= numSamples && p == currentSample * sampleBytes
    requires p != numSamples * sampleBytes
    ensures currentSample < numSamples && p + sampleBytes <= numSamples * sampleBytes
    ensures (currentSample + 1) * sampleBytes == p + sampleBytes
  {
    if currentSample < numSamples {
      FrameEnd(numSamples, currentSample, sampleBytes);
    }
  }

  /** While frames remain, the next one fits in what is left. */
  lemma FrameEnd(numSamples: nat, currentSample: nat, sampleBytes: nat)
    requires currentSample < numSamples
    ensures currentSample * sampleBytes + sampleBytes <= numSamples * sampleBytes
    ensures (numSamples - currentSample) * sampleBytes - sampleBytes ==
      (numSamples - (currentSample + 1)) * sampleBytes
  {
    MulAtLeast(numSamples - currentSample, sampleBytes);
    assert (numSamples - currentSample) * sampleBytes == numSamples * sampleBytes - currentSample * sampleBytes;
  }
}
