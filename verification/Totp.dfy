/** app/totp.py: one-time codes (RFC 4226 section 5.3, RFC 6238 section 5.2). */
module Totp {
  import opened Common
  import opened PyText

  type Digest = d: seq<byte> | |d| == 20 witness seq(20, _ => 0)

  const DIGITS := 6
  const PERIOD := 30
  const MODULUS := 1_000_000

  /** Base32 decoding, HMAC-SHA1 over the eight-byte counter, and `str.isdigit` on one character. */
  datatype Env = Env(
    decode: string -> Option<seq<byte>>,
    hmac: (seq<byte>, nat) -> Digest,
    isDigit: char -> bool)
  {
    ghost predicate Sound() {
      forall c :: IsAsciiDigit(c) ==> isDigit(c)
    }
  }

  /** The four bytes the last nibble points at, big-endian, without the top bit. */
  function Truncate(d: Digest): (code: nat)
    ensures code < 0x8000_0000
  {
    var offset := d[19] % 16;
    var b0, b1, b2, b3 := d[offset] as int, d[offset + 1] as int, d[offset + 2] as int, d[offset + 3] as int;
    b0 % 128 * 0x100_0000 + b1 * 0x1_0000 + b2 * 0x100 + b3
  }

  /** Byte `j` of the four read from `offset`, where the last byte's low nibble points. */
  function Read(d: Digest, j: nat): byte
    requires j < 4
  {
    d[d[19] % 16 + j]
  }

  /** In base 256 the truncated number reads as those four bytes, the first the heaviest and stripped of its
      top bit (RFC 4226 section 5.3). */
  lemma TruncateIsBigEndian(d: Digest)
    ensures Truncate(d) / 0x100_0000 == Read(d, 0) % 128
    ensures Truncate(d) / 0x1_0000 % 0x100 == Read(d, 1)
    ensures Truncate(d) / 0x100 % 0x100 == Read(d, 2)
    ensures Truncate(d) % 0x100 == Read(d, 3)
  {
    var n, b0, b1, b2, b3 := Truncate(d), Read(d, 0) as int % 128, Read(d, 1) as int, Read(d, 2) as int, Read(d, 3);
    LowestByte(b0 * 0x1_0000 + b1 * 0x100 + b2, b3);
    LowestByte(b0 * 0x100 + b1, b2 as byte);
    LowestByte(b0, b1 as byte);
    assert n / 0x1_0000 == n / 0x100 / 0x100 && n / 0x100_0000 == n / 0x100 / 0x100 / 0x100;
  }

  lemma LowestByte(high: nat, low: byte)
    ensures (high * 0x100 + low as int) / 0x100 == high && (high * 0x100 + low as int) % 0x100 == low as int
  {
  }

  /** The example of RFC 4226 section 5.4. */
  lemma TruncateExample(d: Digest)
    requires d == [0x1f, 0x86, 0x98, 0x69, 0x0e, 0x02, 0xca, 0x16, 0x61, 0x85,
                   0x50, 0xef, 0x7f, 0x19, 0xda, 0x8e, 0x94, 0x5b, 0x55, 0x5a]
    ensures Truncate(d) == 0x50ef7f19 && AllDigits(Code(d)) && Value(Code(d)) == 872921
  {
    CodeIsSixDigits(d);
  }

  function ZFill(s: string, width: nat): string
    decreases width - |s|
  {
    if |s| >= width then s else ZFill("0" + s, width)
  }

  function Code(d: Digest): string {
    ZFill(Dec(Truncate(d) % MODULUS), DIGITS)
  }

  /** `_hotp` for a counter that packs; empty when the seed does not decode. */
  function Hotp(env: Env, secret: string, counter: nat): string {
    var key := env.decode(secret);
    if key.None? then "" else Code(env.hmac(key.value, counter))
  }

  lemma {:induction false} ZFillDigits(s: string, width: nat)
    requires s != "" && Every(s, IsAsciiDigit) && |s| <= width && AllDigits(s)
    ensures |ZFill(s, width)| == width && Every(ZFill(s, width), IsAsciiDigit)
    ensures AllDigits(ZFill(s, width)) && Value(ZFill(s, width)) == Value(s)
    decreases width - |s|
  {
    if |s| < width {
      LeadingZero(s);
      ZFillDigits("0" + s, width);
    }
  }

  lemma {:induction false} LeadingZero(s: string)
    requires AllDigits(s)
    ensures AllDigits("0" + s) && Value("0" + s) == Value(s)
  {
    var t := "0" + s;
    assert AllDigits(t) by {
      assert forall k :: 0 < k < |t| ==> t[k] == s[k - 1];
    }
    var last := |s| - 1;
    if s == "" {
      assert t[..0] == "";
    } else {
      LeadingZero(s[..last]);
      assert t[..last + 1] == "0" + s[..last] && t[last + 1] == s[last];
    }
  }

  /** A code is exactly six decimal digits and reads as the truncated digest modulo a million. */
  lemma CodeIsSixDigits(d: Digest)
    ensures |Code(d)| == DIGITS && Every(Code(d), IsAsciiDigit)
    ensures AllDigits(Code(d)) && Value(Code(d)) == Truncate(d) % MODULUS
  {
    var n := Truncate(d) % MODULUS;
    assert Pow10(6) == MODULUS;
    DecLength(n, DIGITS);
    ValueDec(n);
    ZFillDigits(Dec(n), DIGITS);
  }

  // ---- verification --------------------------------------------------------------

  datatype Verdict = Accepted | Refused | Raised

  function Counter(now: Time): nat {
    now.Floor / PERIOD
  }

  function WithoutBlanks(s: string): string {
    if s == "" then "" else (if s[0] == ' ' then "" else [s[0]]) + WithoutBlanks(s[1..])
  }

  /** Blanks go, everything else stays where it is. */
  lemma {:induction false} BlanksGo(s: string, t: string, c: char)
    ensures WithoutBlanks(s + t) == WithoutBlanks(s) + WithoutBlanks(t)
    ensures WithoutBlanks([c]) == if c == ' ' then "" else [c]
  {
    assert [c][1..] == "" && WithoutBlanks([c]) == (if c == ' ' then "" else [c]) + WithoutBlanks([c][1..]);
    if s == "" {
      assert s + t == t;
    } else {
      assert (s + t)[1..] == s[1..] + t;
      BlanksGo(s[1..], t, c);
    }
  }

  function Cleaned(submitted: string): string {
    WithoutBlanks(Strip(submitted))
  }

  predicate Plausible(env: Env, secret: string, submitted: string) {
    && secret != "" && submitted != ""
    && |Cleaned(submitted)| == DIGITS
    && Every(Cleaned(submitted), env.isDigit)
  }

  predicate IsAscii(c: char) { c as int < 128 }

  /** The submitted digits are the code of some counter within `window` of the present one. */
  ghost predicate InWindow(env: Env, secret: string, code: string, now: Time, window: int) {
    exists k: nat :: Counter(now) - window <= k <= Counter(now) + window && Hotp(env, secret, k) == code
  }

  /** Negative counters do not pack, and the constant-time comparison refuses non-ASCII text; both
      surface as exceptions. */
  predicate Raises(env: Env, secret: string, submitted: string, now: Time, window: int) {
    && Plausible(env, secret, submitted) && window >= 0 && env.decode(secret).Some?
    && (Counter(now) < window || !Every(Cleaned(submitted), IsAscii))
  }

  method Verify(env: Env, secret: string, submitted: string, now: Time, window: int) returns (v: Verdict)
    ensures v == Raised <==> Raises(env, secret, submitted, now, window)
    ensures v == Accepted <==> Plausible(env, secret, submitted)
                               && !Raises(env, secret, submitted, now, window)
                               && InWindow(env, secret, Cleaned(submitted), now, window)
  {
    if secret == "" || submitted == "" {
      return Refused;
    }
    var code := Cleaned(submitted);
    if |code| != DIGITS || !Every(code, env.isDigit) {
      return Refused;
    }
    var counter := Counter(now);
    var step := -window;
    while step <= window
      invariant -window <= step
      invariant window < 0 ==> step == -window
      invariant window >= 0 ==> step <= window + 1
      invariant window < 0 || env.decode(secret).None? || step == -window
                || !Raises(env, secret, submitted, now, window)
      invariant forall k: nat :: counter - window <= k < counter + step ==> Hotp(env, secret, k) != code
    {
      if env.decode(secret).None? {
        EmptyNeverMatches(env, secret, code, counter + step);
      } else if counter + step < 0 {
        return Raised;
      } else {
        var expected := Hotp(env, secret, counter + step);
        if !Every(code, IsAscii) {
          return Raised;
        }
        if expected == code {
          return Accepted;
        }
      }
      step := step + 1;
    }
    v := Refused;
  }

  lemma EmptyNeverMatches(env: Env, secret: string, code: string, k: int)
    requires env.decode(secret).None? && |code| == DIGITS
    ensures k >= 0 ==> Hotp(env, secret, k) != code
  {
  }

  /** Verification fails with an exception only for codes with non-ASCII digits, or in the first
      `window` periods after the epoch. */
  lemma OrdinaryCodesNeverRaise(env: Env, secret: string, submitted: string, now: Time, window: nat)
    requires now >= (PERIOD * window) as real
    ensures Raises(env, secret, submitted, now, window) ==> !Every(Cleaned(submitted), IsAscii)
  {
  }

  lemma {:induction false} DigitsHaveNoBlanks(s: string)
    requires Every(s, IsAsciiDigit)
    ensures WithoutBlanks(s) == s
  {
    if s != "" {
      DigitsHaveNoBlanks(s[1..]);
    }
  }

  /** The counter numbers the 30-second periods since the epoch. */
  lemma CounterIs(t: Time, k: nat)
    ensures Counter(t) == k <==> (30 * k) as real <= t < (30 * (k + 1)) as real
  {
    var q := Counter(t);
    assert PERIOD * q <= t.Floor < PERIOD * q + PERIOD;
    assert (30 * k) as real <= t <==> 30 * k <= t.Floor;
  }

  lemma {:induction false} DigitsAreAscii(s: string)
    requires Every(s, IsAsciiDigit)
    ensures Every(s, IsAscii)
  {
  }

  /** Acceptance, exactly: there is a seed that decodes, no counter of the window is negative, and the code is
      that of one of them. */
  lemma AcceptedIff(env: Env, secret: string, submitted: string, now: Time, window: int)
    requires env.Sound()
    ensures Plausible(env, secret, submitted) && !Raises(env, secret, submitted, now, window)
              && InWindow(env, secret, Cleaned(submitted), now, window)
            <==>
            && secret != "" && env.decode(secret).Some? && window <= Counter(now)
            && InWindow(env, secret, Cleaned(submitted), now, window)
  {
    var code := Cleaned(submitted);
    assert submitted == "" ==> code == "";
    if InWindow(env, secret, code, now, window) {
      var k: nat :| Counter(now) - window <= k <= Counter(now) + window && Hotp(env, secret, k) == code;
      if env.decode(secret).Some? {
        CodeIsSixDigits(env.hmac(env.decode(secret).value, k));
        DigitsAreAscii(code);
      }
    }
  }

  lemma CounterDrift(t: Time, t': Time, window: nat)
    requires -((PERIOD * window) as real) <= t' - t <= (PERIOD * window) as real
    ensures Counter(t') - window <= Counter(t) <= Counter(t') + window
  {
    assert t'.Floor - PERIOD * window <= t.Floor <= t'.Floor + PERIOD * window;
    var q, q' := t.Floor / PERIOD, t'.Floor / PERIOD;
    assert PERIOD * q <= t.Floor < PERIOD * q + PERIOD;
    assert PERIOD * q' <= t'.Floor < PERIOD * q' + PERIOD;
  }

  /** A code generated at `t` is accepted at any `t'` no more than `window` periods away. */
  lemma AcceptedWithinDrift(env: Env, secret: string, t: Time, t': Time, window: nat)
    requires env.Sound() && secret != "" && env.decode(secret).Some?
    requires t' >= (PERIOD * window) as real
    requires -((PERIOD * window) as real) <= t' - t <= (PERIOD * window) as real
    ensures var code := Hotp(env, secret, Counter(t));
            && Plausible(env, secret, code) && !Raises(env, secret, code, t', window)
            && InWindow(env, secret, Cleaned(code), t', window)
  {
    var code := Hotp(env, secret, Counter(t));
    CodeIsSixDigits(env.hmac(env.decode(secret).value, Counter(t)));
    assert forall i :: 0 <= i < |code| ==> IsAsciiDigit(code[i]) && !IsSpace(code[i]);
    StripTrimmed(code);
    DigitsHaveNoBlanks(code);
    CounterDrift(t, t', window);
    OrdinaryCodesNeverRaise(env, secret, code, t', window);
  }

  /** Conversely an accepted code belongs to a period that starts within `window` periods of the
      current one: it is the right code for some moment less than `window + 1` periods away. */
  lemma AcceptedWasCurrent(env: Env, secret: string, code: string, now: Time, window: nat) returns (t: Time)
    requires InWindow(env, secret, code, now, window)
    ensures Hotp(env, secret, Counter(t)) == code
    ensures -((PERIOD * (window + 1)) as real) < t - now < (PERIOD * (window + 1)) as real
  {
    var k: nat :| Counter(now) - window <= k <= Counter(now) + window && Hotp(env, secret, k) == code;
    t := (PERIOD * k) as real;
    assert t.Floor == PERIOD * k;
    assert Counter(t) == k;
    var q := Counter(now);
    assert PERIOD * q <= now.Floor < PERIOD * q + PERIOD;
    assert PERIOD * q - PERIOD * window <= PERIOD * k <= PERIOD * q + PERIOD * window;
  }
}
