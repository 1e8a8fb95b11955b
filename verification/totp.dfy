/** One-time passwords: RFC 4226 section 5.3 and RFC 6238 sections 4.2 and 5.2. */
module Totp {
  import opened Wrappers

  newtype Byte = b: int | 0 <= b < 256

  const NO_DIGEST: seq<Byte> := [0, 0, 0, 0, 0, 0, 0, 0, 0, 0, 0, 0, 0, 0, 0, 0, 0, 0, 0, 0]

  /** An HMAC-SHA-1 value. */
  type Digest = d: seq<Byte> | |d| == 20 witness NO_DIGEST

  /** HMAC-SHA-1 itself is any function of key and message. */
  type Mac = (seq<Byte>, seq<Byte>) -> Digest

  // ---------------------------------------------------------------- big-endian numbers

  function BigEndianValue(bytes: seq<Byte>): nat {
    if bytes == [] then 0 else 256 * BigEndianValue(bytes[..|bytes| - 1]) + bytes[|bytes| - 1] as int
  }

  function BigEndian(width: nat, value: nat): (bytes: seq<Byte>)
    ensures |bytes| == width
  {
    if width == 0 then [] else BigEndian(width - 1, value / 256) + [(value % 256) as Byte]
  }

  function Pow256(n: nat): nat {
    if n == 0 then 1 else 256 * Pow256(n - 1)
  }

  /** Reading back what was written gives the number, so distinct counters make distinct messages. */
  lemma {:induction false} BigEndianRoundTrip(width: nat, value: nat)
    requires value < Pow256(width)
    ensures BigEndianValue(BigEndian(width, value)) == value
  {
    if width > 0 {
      assert value / 256 < Pow256(width - 1);
      BigEndianRoundTrip(width - 1, value / 256);
      assert BigEndian(width, value)[..width - 1] == BigEndian(width - 1, value / 256);
    }
  }

  /** Fills the message buffer from its last byte to its first. */
  method PutUint64(buffer: array<Byte>, counter: nat)
    requires buffer.Length == 8
    modifies buffer
    ensures buffer[..] == BigEndian(8, counter)
  {
    var rest := counter;
    var i := 8;
    ghost var done: seq<Byte> := [];
    while i > 0
      invariant 0 <= i <= 8 && done == buffer[i..]
      invariant BigEndian(8, counter) == BigEndian(i, rest) + done
    {
      assert BigEndian(i, rest) + done == BigEndian(i - 1, rest / 256) + ([(rest % 256) as Byte] + done);
      i := i - 1;
      buffer[i] := (rest % 256) as Byte;
      done := [(rest % 256) as Byte] + done;
      rest := rest / 256;
    }
    assert buffer[0..] == buffer[..];
  }

  // ---------------------------------------------------------------- dynamic truncation

  function Offset(d: Digest): nat {
    (d[19] % 16) as int
  }

  /** Section 5.3 of RFC 4226: four bytes at the offset, the top bit of the first one masked off. */
  function TruncatedByRfc(d: Digest): nat {
    var o := Offset(d);
    (d[o] % 128) as int * 0x100_0000 + d[o + 1] as int * 0x1_0000 + d[o + 2] as int * 0x100 + d[o + 3] as int
  }

  /** Section 5.3 of RFC 4226 with six digits. */
  function HotpByRfc(mac: Mac, key: seq<Byte>, counter: nat): nat {
    TruncatedByRfc(mac(key, BigEndian(8, counter))) % 1_000_000
  }

  lemma FourBytes(a: Byte, b: Byte, c: Byte, d: Byte)
    ensures BigEndianValue([a, b, c, d]) == a as int * 0x100_0000 + b as int * 0x1_0000 + c as int * 0x100 + d as int
  {
    assert [a, b, c, d][..3] == [a, b, c] && [a, b, c][..2] == [a, b] && [a, b][..1] == [a];
    assert BigEndianValue([a]) == a as int;
    assert BigEndianValue([a, b]) == 256 * (a as int) + b as int;
    assert BigEndianValue([a, b, c]) == 256 * (256 * (a as int) + b as int) + c as int;
  }

  /** Masking the 32-bit word to 31 bits is what the RFC asks for. */
  lemma WordMaskIsRfc(d: Digest)
    ensures BigEndianValue(d[Offset(d)..Offset(d) + 4]) % 0x8000_0000 == TruncatedByRfc(d)
  {
    var o := Offset(d);
    assert d[o..o + 4] == [d[o], d[o + 1], d[o + 2], d[o + 3]];
    FourBytes(d[o], d[o + 1], d[o + 2], d[o + 3]);
    var top := d[o] as int;
    assert top == 128 * (top / 128) + top % 128;
    var low := (top % 128) * 0x100_0000 + d[o + 1] as int * 0x1_0000 + d[o + 2] as int * 0x100 + d[o + 3] as int;
    assert BigEndianValue(d[o..o + 4]) == 0x8000_0000 * (top / 128) + low;
    assert 0 <= low < 0x8000_0000;
  }

  /** The worked example of section 5.4 of RFC 4226. */
  lemma RfcExample(mac: Mac, key: seq<Byte>, counter: nat)
    requires mac(key, BigEndian(8, counter)) == [0x1f, 0x86, 0x98, 0x69, 0x0e, 0x02, 0xca, 0x16, 0x61, 0x85,
                                                 0x50, 0xef, 0x7f, 0x19, 0xda, 0x8e, 0x94, 0x5b, 0x55, 0x5a]
    ensures TruncatedByRfc(mac(key, BigEndian(8, counter))) == 0x50ef7f19 && HotpByRfc(mac, key, counter) == 872921
  {
    var d := mac(key, BigEndian(8, counter));
    assert d[19] == 0x5a && d[10] == 0x50 && d[11] == 0xef && d[12] == 0x7f && d[13] == 0x19;
  }

  // ---------------------------------------------------------------- decimal text

  predicate IsDigit(c: char) { '0' <= c <= '9' }

  predicate SixDigitCode(code: string) {
    |code| == 6 && forall i :: 0 <= i < 6 ==> IsDigit(code[i])
  }

  function DecimalValue(text: string): nat
    requires forall i :: 0 <= i < |text| ==> IsDigit(text[i])
  {
    if text == "" then 0
    else
      var last := text[|text| - 1];
      assert IsDigit(last);
      10 * DecimalValue(text[..|text| - 1]) + (last - '0') as int
  }

  /** Decimal digits padded with zeros to a width. */
  function Padded(width: nat, value: nat): (text: string)
    ensures |text| == width && forall i :: 0 <= i < width ==> IsDigit(text[i])
  {
    if width == 0 then "" else Padded(width - 1, value / 10) + ['0' + (value % 10) as char]
  }

  function Pow10(n: nat): nat {
    if n == 0 then 1 else 10 * Pow10(n - 1)
  }

  lemma {:induction false} PaddedRoundTrip(width: nat, value: nat)
    requires value < Pow10(width)
    ensures DecimalValue(Padded(width, value)) == value
  {
    if width > 0 {
      assert value / 10 < Pow10(width - 1);
      PaddedRoundTrip(width - 1, value / 10);
      assert Padded(width, value)[..width - 1] == Padded(width - 1, value / 10);
    }
  }

  lemma SameQuotient(p: nat, x: int, q: nat, y: int)
    requires 10 * p + x == 10 * q + y && 0 <= x < 10 && 0 <= y < 10
    ensures p == q && x == y
  {
  }

  lemma {:induction false} DecimalValueInjective(a: string, b: string)
    requires |a| == |b| && (forall i :: 0 <= i < |a| ==> IsDigit(a[i])) && (forall i :: 0 <= i < |b| ==> IsDigit(b[i]))
    requires DecimalValue(a) == DecimalValue(b)
    ensures a == b
  {
    if a != "" {
      var n := |a| - 1;
      SameQuotient(DecimalValue(a[..n]), a[n] as int - '0' as int, DecimalValue(b[..n]), b[n] as int - '0' as int);
      DecimalValueInjective(a[..n], b[..n]);
      assert a == a[..n] + [a[n]] && b == b[..n] + [b[n]];
    }
  }

  // ---------------------------------------------------------------- HOTP and TOTP

  method HotpCode(mac: Mac, key: seq<Byte>, counter: nat) returns (code: string)
    ensures SixDigitCode(code) && DecimalValue(code) == HotpByRfc(mac, key, counter)
  {
    var message := new Byte[8];
    PutUint64(message, counter);
    var digest := mac(key, message[..]);
    var offset := (digest[|digest| - 1] % 16) as int;
    var word := 0;
    for i := 0 to 4
      invariant word == BigEndianValue(digest[offset..offset + i])
    {
      assert digest[offset..offset + i + 1][..i] == digest[offset..offset + i];
      word := 256 * word + digest[offset + i] as int;
    }
    WordMaskIsRfc(digest);
    var value := word % 0x8000_0000;
    assert Pow10(6) == 1_000_000 by { assert Pow10(3) == 1000; }
    PaddedRoundTrip(6, value % 1_000_000);
    code := Padded(6, value % 1_000_000);
  }

  /** Integer division of the clock as the code does it, rounding towards zero. */
  function Period(seconds: int): int {
    if seconds >= 0 then seconds / 30 else -((-seconds) / 30)
  }

  /** The counter a code can match at a clock reading: within one 30-second step of it. */
  predicate NearClock(counter: int, seconds: int) {
    counter - 1 <= Period(seconds) <= counter + 1
  }

  predicate InWindow(counter: int, seconds: int) {
    0 <= counter && NearClock(counter, seconds)
  }

  /** From the epoch on, a counter can match from 30 seconds before its step begins until 30 seconds after it ends. */
  lemma WindowIsNinetySeconds(counter: int, seconds: nat)
    ensures InWindow(counter, seconds) <==> 0 <= counter && 30 * counter - 30 <= seconds < 30 * counter + 60
  {
  }

  predicate Matches(mac: Mac, key: seq<Byte>, code: string, counter: nat)
    requires SixDigitCode(code)
  {
    HotpByRfc(mac, key, counter) == DecimalValue(code)
  }

  /** Of the steps in the window whose code is `code`, this is the first. */
  ghost predicate EarliestMatch(mac: Mac, key: seq<Byte>, code: string, seconds: int, counter: nat) {
    && SixDigitCode(code) && InWindow(counter, seconds) && Matches(mac, key, code, counter)
    && forall c :: InWindow(c, seconds) && Matches(mac, key, code, c) ==> counter <= c
  }

  datatype Match = Matched(counter: nat) | Unmatched | BadSecret

  /**
   The earliest step within one of the clock whose code is `code`, never a step before the epoch.
   An ill-formed code is refused before the secret is looked at.
   */
  method MatchTotp(mac: Mac, decode: string -> Option<seq<Byte>>, secret: string, code: string, seconds: int)
    returns (r: Match)
    ensures r.BadSecret? <==> SixDigitCode(code) && decode(secret).None?
    ensures r.Matched? ==> decode(secret).Some? && EarliestMatch(mac, decode(secret).value, code, seconds, r.counter)
    ensures r.Unmatched? && SixDigitCode(code) ==>
      forall c :: InWindow(c, seconds) ==> !Matches(mac, decode(secret).value, code, c)
  {
    if |code| != 6 {
      return Unmatched;
    }
    for i := 0 to 6
      invariant forall k :: 0 <= k < i ==> IsDigit(code[k])
    {
      if code[i] < '0' || code[i] > '9' {
        return Unmatched;
      }
    }
    var key := decode(secret);
    if key.None? {
      return BadSecret;
    }
    var current := Period(seconds);
    for step := -1 to 2
      invariant forall c :: InWindow(c, seconds) && c < current + step ==> !Matches(mac, key.value, code, c)
    {
      var counter := current + step;
      if counter >= 0 {
        var expected := HotpCode(mac, key.value, counter);
        if expected == code {
          return Matched(counter);
        }
        if Matches(mac, key.value, code, counter) {
          DecimalValueInjective(expected, code);
        }
      }
    }
    r := Unmatched;
  }

  /** What a login code turns into: six characters are a TOTP code, anything else is hashed as a recovery code. */
  datatype Credential = Totp(counter: nat) | Recovery(hash: string) | Rejected | Unavailable

  method VerifyLoginCode(mac: Mac, decode: string -> Option<seq<Byte>>, trim: string -> string,
                         hashOf: string -> string, secret: Option<string>, code: string, seconds: int)
    returns (c: Credential)
    requires forall text :: hashOf(text) != ""
    ensures |trim(code)| != 6 ==> c == Recovery(hashOf(code)) && c.hash != ""
    ensures |trim(code)| == 6 ==> !c.Recovery?
    ensures |trim(code)| == 6 ==>
      (c.Unavailable? <==> secret.None? || (SixDigitCode(trim(code)) && decode(secret.value).None?))
    ensures c.Totp? ==>
      secret.Some? && decode(secret.value).Some?
        && EarliestMatch(mac, decode(secret.value).value, trim(code), seconds, c.counter)
    ensures c.Rejected? && SixDigitCode(trim(code)) ==>
      forall other :: InWindow(other, seconds) ==> !Matches(mac, decode(secret.value).value, trim(code), other)
  {
    var trimmed := trim(code);
    if |trimmed| == 6 {
      if secret.None? {
        return Unavailable;
      }
      var m := MatchTotp(mac, decode, secret.value, trimmed, seconds);
      match m
      case Matched(counter) => return Totp(counter);
      case Unmatched => return Rejected;
      case BadSecret => return Unavailable;
    }
    c := Recovery(hashOf(code));
  }
}
