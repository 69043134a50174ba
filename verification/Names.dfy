/** Decimal names of requests, sessions and images, and why they never collide. */
module Names {

  function Digit(d: nat): char
    requires d < 10
  {
    "0123456789"[d]
  }

  predicate IsDigit(c: char) {
    '0' <= c <= '9'
  }

  function Dec(n: nat): (s: string)
    ensures s != [] && forall i :: 0 <= i < |s| ==> IsDigit(s[i])
  {
    if n < 10 then [Digit(n)] else Dec(n / 10) + [Digit(n % 10)]
  }

  function DecInt(n: int): string {
    if n < 0 then "-" + Dec(-n) else Dec(n)
  }

  lemma {:induction false} DecInjective(m: nat, n: nat)
    requires Dec(m) == Dec(n)
    ensures m == n
  {
    if m >= 10 && n >= 10 {
      var a, b := Dec(m / 10), Dec(n / 10);
      assert Dec(m)[|Dec(m)| - 1] == Digit(m % 10) && Dec(n)[|Dec(n)| - 1] == Digit(n % 10);
      assert a == Dec(m)[..|Dec(m)| - 1] == Dec(n)[..|Dec(n)| - 1] == b;
      DecInjective(m / 10, n / 10);
      DigitInjective(m % 10, n % 10);
    } else {
      assert |Dec(m)| == 1 <==> m < 10;
      assert Dec(m)[0] == Dec(n)[0];
      DigitInjective(m % 10, n % 10);
    }
  }

  lemma DigitInjective(a: nat, b: nat)
    requires a < 10 && b < 10 && Digit(a) == Digit(b)
    ensures a == b
  {
  }

  lemma DecIntSign(n: int)
    ensures DecInt(n) != [] && (DecInt(n)[0] == '-' <==> n < 0)
  {
    assert n >= 0 ==> IsDigit(DecInt(n)[0]);
  }

  lemma DecIntInjective(m: int, n: int)
    requires DecInt(m) == DecInt(n)
    ensures m == n
  {
    DecIntSign(m);
    DecIntSign(n);
    if m < 0 {
      assert Dec(-m) == DecInt(m)[1..] == DecInt(n)[1..] == Dec(-n);
      DecInjective(-m, -n);
    } else {
      DecInjective(m, n);
    }
  }

  predicate Digits(s: string) {
    s != [] && forall i :: 0 <= i < |s| ==> IsDigit(s[i])
  }

  /** A name ending in a separator and a run of digits determines both parts. */
  lemma DigitsSuffix(a: string, x: string, b: string, y: string, separator: string)
    requires separator != [] && !IsDigit(separator[|separator| - 1]) && Digits(x) && Digits(y)
    requires a + separator + x == b + separator + y
    ensures a == b && x == y
  {
    SameTail(a + separator, x, b + separator, y);
    SameTail(b + separator, y, a + separator, x);
    var whole := a + separator + x;
    assert whole[..|whole| - |x|] == a + separator && whole[..|whole| - |y|] == b + separator;
    assert whole[|whole| - |x|..] == x && whole[|whole| - |y|..] == y;
    assert a == (a + separator)[..|a|] && b == (b + separator)[..|b|];
  }

  lemma SuffixInjective(a: string, m: nat, b: string, n: nat, separator: string)
    requires separator != [] && !IsDigit(separator[|separator| - 1])
    requires a + separator + Dec(m) == b + separator + Dec(n)
    ensures a == b && m == n
  {
    DigitsSuffix(a, Dec(m), b, Dec(n), separator);
    DecInjective(m, n);
  }

  lemma SameTail(x: string, digits: string, y: string, digits': string)
    requires x + digits == y + digits' && x != [] && !IsDigit(x[|x| - 1])
    requires forall i :: 0 <= i < |digits'| ==> IsDigit(digits'[i])
    ensures |digits'| <= |digits|
  {
    var whole := x + digits;
    assert whole[|x| - 1] == x[|x| - 1];
    forall i | |y| <= i < |whole| ensures IsDigit(whole[i]) {
      assert whole[i] == digits'[i - |y|];
    }
  }

  function FrameId(identity: string, k: nat): string {
    identity + "-frame-" + Dec(k)
  }

  function RequestId(call: nat, k: nat): string {
    "batch-" + Dec(call) + "-request-" + Dec(k)
  }

  function SessionId(episodeId: int): string {
    "measure-" + DecInt(episodeId)
  }

  /** Image names never repeat, within a session or across sessions of distinct identities. */
  lemma FrameIdInjective(identity: string, k: nat, identity': string, k': nat)
    requires FrameId(identity, k) == FrameId(identity', k')
    ensures identity == identity' && k == k'
  {
    SuffixInjective(identity, k, identity', k', "-frame-");
  }

  lemma RequestIdInjective(call: nat, k: nat, call': nat, k': nat)
    requires RequestId(call, k) == RequestId(call', k')
    ensures call == call' && k == k'
  {
    SuffixInjective("batch-" + Dec(call), k, "batch-" + Dec(call'), k', "-request-");
    assert ("batch-" + Dec(call))[6..] == Dec(call) && ("batch-" + Dec(call'))[6..] == Dec(call');
    DecInjective(call, call');
  }

  lemma SessionIdInjective(a: int, b: int)
    requires SessionId(a) == SessionId(b)
    ensures a == b
  {
    assert SessionId(a)[8..] == DecInt(a) && SessionId(b)[8..] == DecInt(b);
    DecIntInjective(a, b);
  }

  // ---- zero padding and the value of digits ----

  function DigitValue(c: char): nat
    requires IsDigit(c)
  {
    c as int - '0' as int
  }

  /** The number a run of digits stands for. */
  function Val(s: string): nat
    requires forall i :: 0 <= i < |s| ==> IsDigit(s[i])
  {
    if s == [] then 0 else 10 * Val(s[..|s| - 1]) + DigitValue(s[|s| - 1])
  }

  lemma {:induction false} ValDec(n: nat)
    ensures Val(Dec(n)) == n
  {
    assert forall d: nat :: d < 10 ==> DigitValue(Digit(d)) == d;
    if n < 10 {
      assert Dec(n)[..0] == [];
    } else {
      ValDec(n / 10);
      assert Dec(n)[..|Dec(n)| - 1] == Dec(n / 10);
    }
  }

  function Zeros(k: nat): string {
    if k == 0 then [] else Zeros(k - 1) + "0"
  }

  /** Decimal with at least `width` digits. */
  function Padded(s: string, width: nat): string {
    if |s| >= width then s else Zeros(width - |s|) + s
  }

  function Pad(n: nat, width: nat): string {
    Padded(Dec(n), width)
  }

  lemma {:induction false} ValZeros(k: nat)
    ensures |Zeros(k)| == k && (forall i :: 0 <= i < k ==> IsDigit(Zeros(k)[i])) && Val(Zeros(k)) == 0
  {
    if k > 0 {
      ValZeros(k - 1);
      assert Zeros(k)[..k - 1] == Zeros(k - 1);
    }
  }

  lemma {:induction false} ValPrefix(z: string, s: string)
    requires (forall i :: 0 <= i < |z| ==> IsDigit(z[i])) && Val(z) == 0
    requires forall i :: 0 <= i < |s| ==> IsDigit(s[i])
    ensures (forall i :: 0 <= i < |z + s| ==> IsDigit((z + s)[i])) && Val(z + s) == Val(s)
  {
    if s == [] {
      assert z + s == z;
    } else {
      var n := |s| - 1;
      ValPrefix(z, s[..n]);
      assert (z + s)[..|z + s| - 1] == z + s[..n];
    }
  }

  lemma PaddedFacts(s: string, width: nat)
    requires Digits(s)
    ensures Digits(Padded(s, width)) && Val(Padded(s, width)) == Val(s)
  {
    if |s| < width {
      ValZeros(width - |s|);
      ValPrefix(Zeros(width - |s|), s);
    }
  }

  lemma PadFacts(n: nat, width: nat)
    ensures Digits(Pad(n, width)) && Val(Pad(n, width)) == n
  {
    ValDec(n);
    PaddedFacts(Dec(n), width);
  }

  lemma PadInjective(m: nat, n: nat, width: nat)
    requires Pad(m, width) == Pad(n, width)
    ensures m == n
  {
    PadFacts(m, width);
    PadFacts(n, width);
  }

  /** The sample name of a manifest: padded episode id, quantile and padded frame. */
  function SampleId(episode: nat, quantile: nat, frame: nat): string {
    "r2r-" + Pad(episode, 6) + "-q" + Dec(quantile) + "-f" + Pad(frame, 6)
  }

  lemma SampleIdInjective(e: nat, q: nat, f: nat, e': nat, q': nat, f': nat)
    requires SampleId(e, q, f) == SampleId(e', q', f')
    ensures e == e' && q == q' && f == f'
  {
    PadFacts(e, 6);
    PadFacts(e', 6);
    PadFacts(f, 6);
    PadFacts(f', 6);
    DigitsSuffix("r2r-" + Pad(e, 6) + "-q" + Dec(q), Pad(f, 6), "r2r-" + Pad(e', 6) + "-q" + Dec(q'), Pad(f', 6), "-f");
    SuffixInjective("r2r-" + Pad(e, 6), q, "r2r-" + Pad(e', 6), q', "-q");
    assert ("r2r-" + Pad(e, 6))[4..] == Pad(e, 6) && ("r2r-" + Pad(e', 6))[4..] == Pad(e', 6);
    PadInjective(e, e', 6);
    PadInjective(f, f', 6);
  }

  /** The stem of a derived image: source stem and target size. */
  function SizedStem(stem: string, w: nat, h: nat): string {
    stem + "_" + Dec(w) + "x" + Dec(h)
  }

  lemma SizedStemInjective(stem: string, w: nat, h: nat, stem': string, w': nat, h': nat)
    requires SizedStem(stem, w, h) == SizedStem(stem', w', h')
    ensures stem == stem' && w == w' && h == h'
  {
    SuffixInjective(stem + "_" + Dec(w), h, stem' + "_" + Dec(w'), h', "x");
    SuffixInjective(stem, w, stem', w', "_");
  }

  lemma SizedStemNotDigits(stem: string, w: nat, h: nat)
    ensures !Digits(SizedStem(stem, w, h))
  {
    assert SizedStem(stem, w, h)[|stem|] == '_';
  }

  // ---- how the names are spelled ----

  /** One more digit at the end. */
  lemma DecMore(n: nat, d: nat, s: string)
    requires n > 0 && d < 10 && Dec(n) == s
    ensures Dec(10 * n + d) == s + ["0123456789"[d]]
  {
  }

  lemma DecSpelled()
    ensures Dec(0) == "0" && Dec(12) == "12" && Dec(320) == "320" && Dec(240) == "240"
  {
    DecMore(1, 2, "1");
    DecMore(3, 2, "3");
    DecMore(32, 0, "32");
    DecMore(2, 4, "2");
    DecMore(24, 0, "24");
  }

  lemma AllDigitsSpelled()
    ensures Dec(1234567890) == "1234567890"
  {
    DecMore(1, 2, "1");
    DecMore(12, 3, "12");
    DecMore(123, 4, "123");
    DecMore(1234, 5, "1234");
    DecMore(12345, 6, "12345");
    DecMore(123456, 7, "123456");
    DecMore(1234567, 8, "1234567");
    DecMore(12345678, 9, "12345678");
    DecMore(123456789, 0, "123456789");
  }

  /** Padding puts zeros in front up to the width, and never cuts. */
  lemma PadIs(n: nat, width: nat)
    ensures var s, padded := Dec(n), Pad(n, width);
            && |padded| == (if |s| < width then width else |s|) && padded[|padded| - |s|..] == s
            && forall i :: 0 <= i < |padded| - |s| ==> padded[i] == '0'
  {
    if |Dec(n)| < width {
      AllZeros(width - |Dec(n)|);
    }
  }

  lemma {:induction false} AllZeros(k: nat)
    ensures |Zeros(k)| == k && forall i :: 0 <= i < k ==> Zeros(k)[i] == '0'
  {
    if k > 0 {
      AllZeros(k - 1);
    }
  }

  lemma FrameSpelled()
    ensures FrameId("measure-12", 0) == "measure-12-frame-0"
  {
    DecSpelled();
    assert "measure-12" + "-frame-" == "measure-12-frame-";
  }

  lemma RequestSpelled()
    ensures RequestId(12, 0) == "batch-12-request-0"
  {
    DecSpelled();
    assert "batch-" + "12" == "batch-12";
    assert "batch-12" + "-request-" == "batch-12-request-";
  }

  lemma SessionSpelled()
    ensures SessionId(12) == "measure-12" && SessionId(-12) == "measure--12"
  {
    DecSpelled();
    assert "-" + "12" == "-12" && "measure-" + "-12" == "measure--12";
  }

  lemma SizedSpelled()
    ensures SizedStem("7", 320, 240) == "7_320x240"
  {
    DecSpelled();
  }

  /** One name of each kind, as the engine, the logs and the output directory show it. */
  lemma NamesSpelled()
    ensures FrameId("measure-12", 0) == "measure-12-frame-0" && RequestId(12, 0) == "batch-12-request-0"
    ensures SessionId(12) == "measure-12" && SessionId(-12) == "measure--12" && SizedStem("7", 320, 240) == "7_320x240"
  {
    FrameSpelled();
    RequestSpelled();
    SessionSpelled();
    SizedSpelled();
  }
}
