/** Signed tokens: unpadded base64url (section 5 of RFC 4648, with the padding
    omitted as section 3.2 allows), a dot, and the signature over exactly the
    transmitted payload segment. */
module Tokens {
  import opened Schemas

  type Byte = b: int | 0 <= b < 256

  /* ---- base64url ---- */

  function Digit(n: int): char
    requires 0 <= n < 64
  {
    if n < 26 then ('A' as int + n) as char
    else if n < 52 then ('a' as int + (n - 26)) as char
    else if n < 62 then ('0' as int + (n - 52)) as char
    else if n == 62 then '-'
    else '_'
  }

  function Value(c: char): Option<int> {
    if 'A' <= c <= 'Z' then Some(c as int - 'A' as int)
    else if 'a' <= c <= 'z' then Some(c as int - 'a' as int + 26)
    else if '0' <= c <= '9' then Some(c as int - '0' as int + 52)
    else if c == '-' then Some(62)
    else if c == '_' then Some(63)
    else None
  }

  predicate InAlphabet(s: string) {
    forall i :: 0 <= i < |s| ==> Value(s[i]).Some?
  }

  lemma DigitValue(n: int)
    requires 0 <= n < 64
    ensures Value(Digit(n)) == Some(n)
    ensures Digit(n) != '=' && Digit(n) != '.'
  {
  }

  const ALPHABET: string :=
    "ABCDEFGH" + "IJKLMNOP" + "QRSTUVWX" + "YZabcdef" + "ghijklmn" + "opqrstuv" + "wxyz0123" + "456789-_"

  /** Digits and values are places in the alphabet of RFC 4648, section 5. */
  lemma AlphabetExactly(n: int, c: char)
    ensures |ALPHABET| == 64
    ensures 0 <= n < 64 ==> Digit(n) == ALPHABET[n]
    ensures Value(c) == Some(n) <==> 0 <= n < 64 && ALPHABET[n] == c
  {
    ValueOfDigit(n, c);
    if 0 <= n < 64 {
      AlphabetDigit(n);
    }
    hide Digit, Value;
  }

  lemma ValueOfDigit(n: int, c: char)
    ensures Value(c) == Some(n) <==> 0 <= n < 64 && Digit(n) == c
  {
  }

  lemma AlphabetDigit(n: int)
    requires 0 <= n < 64
    ensures |ALPHABET| == 64 && Digit(n) == ALPHABET[n]
  {
  }

  /** The padded encoding, three bytes to four digits. */
  function Encode(raw: seq<Byte>): string {
    if |raw| == 0 then ""
    else if |raw| == 1 then [Digit(raw[0] / 4), Digit(raw[0] % 4 * 16), '=', '=']
    else if |raw| == 2 then
      [Digit(raw[0] / 4), Digit(raw[0] % 4 * 16 + raw[1] / 16), Digit(raw[1] % 16 * 4), '=']
    else
      [Digit(raw[0] / 4), Digit(raw[0] % 4 * 16 + raw[1] / 16), Digit(raw[1] % 16 * 4 + raw[2] / 64), Digit(raw[2] % 64)]
      + Encode(raw[3..])
  }

  /** The padded decoding; bits beyond the last byte are ignored. */
  function Decode(s: string): Option<seq<Byte>> {
    if |s| == 0 then Some([])
    else if |s| < 4 then None
    else
      var a, b, c, d := Value(s[0]), Value(s[1]), Value(s[2]), Value(s[3]);
      if a.None? || b.None? then None
      else if |s| == 4 && s[2] == '=' && s[3] == '=' then
        Some([(a.value * 4 + b.value / 16) % 256])
      else if c.None? then None
      else if |s| == 4 && s[3] == '=' then
        Some([(a.value * 4 + b.value / 16) % 256, (b.value % 16 * 16 + c.value / 4) % 256])
      else if d.None? then None
      else
        var rest := Decode(s[4..]);
        if rest.None? then None
        else
          Some([(a.value * 4 + b.value / 16) % 256, (b.value % 16 * 16 + c.value / 4) % 256,
                (c.value % 4 * 64 + d.value) % 256] + rest.value)
  }

  function StripPadding(s: string): string {
    if s != "" && s[|s| - 1] == '=' then StripPadding(s[..|s| - 1]) else s
  }

  function Padding(n: nat): string { if n == 0 then "" else "=" + Padding(n - 1) }

  function B64e(raw: seq<Byte>): string { StripPadding(Encode(raw)) }

  /** What a digit stands for. */
  function Worth(c: char): int { if Value(c).Some? then Value(c).value else -1 }

  /** The digits of a group spell the same number as its bytes, filled up with zero
      bits and padding where there are fewer than three. */
  lemma EncodeSpells(raw: seq<Byte>)
    ensures raw != [] ==> |Encode(raw)| >= 4
    ensures |raw| == 1 ==>
              var s := Encode(raw);
              s[2..] == "==" && Worth(s[0]) * 64 + Worth(s[1]) == raw[0] as int * 16
    ensures |raw| == 2 ==>
              var s := Encode(raw);
              s[3..] == "=" && Worth(s[0]) * 4096 + Worth(s[1]) * 64 + Worth(s[2]) == (raw[0] as int * 256 + raw[1] as int) * 4
    ensures |raw| >= 3 ==>
              var s := Encode(raw);
              && s[4..] == Encode(raw[3..])
              && Worth(s[0]) * 262144 + Worth(s[1]) * 4096 + Worth(s[2]) * 64 + Worth(s[3])
                 == raw[0] as int * 65536 + raw[1] as int * 256 + raw[2] as int
  {
    if raw != [] {
      var x, y, z := raw[0], if |raw| > 1 then raw[1] else 0, if |raw| > 2 then raw[2] else 0;
      GroupSpells(x, y, z);
      DigitValue(x / 4);
      DigitValue(x % 4 * 16 + y / 16);
      DigitValue(y % 16 * 4 + z / 64);
      DigitValue(z % 64);
      hide Digit, Value;
    }
  }

  lemma GroupSpells(x: int, y: int, z: int)
    requires 0 <= x < 256 && 0 <= y < 256 && 0 <= z < 256
    ensures x / 4 * 262144 + (x % 4 * 16 + y / 16) * 4096 + (y % 16 * 4 + z / 64) * 64 + z % 64
            == x * 65536 + y * 256 + z
    ensures 0 <= x / 4 < 64 && 0 <= x % 4 * 16 + y / 16 < 64 && 0 <= y % 16 * 4 + z / 64 < 64 && 0 <= z % 64 < 64
  {
  }

  /** The padding is restored from the length alone. */
  function B64d(segment: string): Option<seq<Byte>> { Decode(segment + Padding((4 - |segment| % 4) % 4)) }

  /** One full group decodes to its three bytes. */
  lemma GroupRoundTrip(x: Byte, y: Byte, z: Byte)
    ensures var a, b, c, d := x / 4, x % 4 * 16 + y / 16, y % 16 * 4 + z / 64, z % 64;
            && 0 <= a < 64 && 0 <= b < 64 && 0 <= c < 64 && 0 <= d < 64
            && (a * 4 + b / 16) % 256 == x
            && (b % 16 * 16 + c / 4) % 256 == y
            && (c % 4 * 64 + d) % 256 == z
  {
  }

  /** A group of one byte, and what it decodes to. */
  lemma OneByte(x: Byte)
    ensures Encode([x]) == [Digit(x / 4), Digit(x % 4 * 16)] + "=="
    ensures InAlphabet([Digit(x / 4), Digit(x % 4 * 16)])
    ensures Decode(Encode([x])) == Some([x])
  {
    GroupRoundTrip(x, 0, 0);
    DigitValue(x / 4);
    DigitValue(x % 4 * 16);
    hide Digit, Value;
  }

  /** A group of two bytes. */
  lemma TwoBytes(x: Byte, y: Byte)
    ensures Encode([x, y]) == [Digit(x / 4), Digit(x % 4 * 16 + y / 16), Digit(y % 16 * 4)] + "="
    ensures InAlphabet([Digit(x / 4), Digit(x % 4 * 16 + y / 16), Digit(y % 16 * 4)])
    ensures Decode(Encode([x, y])) == Some([x, y])
  {
    GroupRoundTrip(x, y, 0);
    DigitValue(x / 4);
    DigitValue(x % 4 * 16 + y / 16);
    DigitValue(y % 16 * 4);
    hide Digit, Value;
  }

  lemma FullDigits(a: int, b: int, c: int, d: int, rest: string)
    requires 0 <= a < 64 && 0 <= b < 64 && 0 <= c < 64 && 0 <= d < 64
    ensures var group := [Digit(a), Digit(b), Digit(c), Digit(d)];
            && InAlphabet(group)
            && (Decode(rest).Some? ==>
                  Decode(group + rest) == Some([(a * 4 + b / 16) % 256, (b % 16 * 16 + c / 4) % 256, (c % 4 * 64 + d) % 256]
                                               + Decode(rest).value))
  {
    DigitValue(a);
    DigitValue(b);
    DigitValue(c);
    DigitValue(d);
    var s := [Digit(a), Digit(b), Digit(c), Digit(d)] + rest;
    hide Digit, Value;
    assert s[4..] == rest;
  }

  /** A full group in front of anything. */
  lemma FullGroup(x: Byte, y: Byte, z: Byte, rest: string)
    ensures var group := [Digit(x / 4), Digit(x % 4 * 16 + y / 16), Digit(y % 16 * 4 + z / 64), Digit(z % 64)];
            && InAlphabet(group)
            && (Decode(rest).Some? ==> Decode(group + rest) == Some([x, y, z] + Decode(rest).value))
  {
    hide Decode, Digit, InAlphabet;
    GroupRoundTrip(x, y, z);
    FullDigits(x / 4, x % 4 * 16 + y / 16, y % 16 * 4 + z / 64, z % 64, rest);
  }

  lemma NothingRoundTrips()
    ensures Decode(Encode([])) == Some([])
  {
  }

  lemma {:induction false} DecodeUndoesEncode(raw: seq<Byte>)
    ensures Decode(Encode(raw)) == Some(raw)
  {
    NothingRoundTrips();
    hide Digit, Value, Decode, InAlphabet;
    if |raw| == 0 {
      assert raw == [];
    } else if |raw| == 1 {
      OneByte(raw[0]);
      assert raw == [raw[0]];
    } else if |raw| == 2 {
      TwoBytes(raw[0], raw[1]);
      assert raw == [raw[0], raw[1]];
    } else {
      FullGroup(raw[0], raw[1], raw[2], Encode(raw[3..]));
      DecodeUndoesEncode(raw[3..]);
      assert raw == [raw[0], raw[1], raw[2]] + raw[3..];
    }
  }

  lemma ShortPadding()
    ensures Padding(0) == "" && Padding(1) == "=" && Padding(2) == "=="
  {
    assert Padding(1) == "=" + Padding(0);
    assert Padding(2) == "=" + Padding(1);
  }

  lemma ShortShape(raw: seq<Byte>) returns (digits: string, pad: nat)
    requires |raw| <= 2
    ensures Encode(raw) == digits + Padding(pad) && InAlphabet(digits)
    ensures pad == (4 - |digits| % 4) % 4
  {
    ShortPadding();
    if |raw| == 0 {
      digits, pad := "", 0;
    } else {
      hide Digit, Value, Decode, Encode, InAlphabet, Padding;
      if |raw| == 1 {
        digits, pad := [Digit(raw[0] / 4), Digit(raw[0] % 4 * 16)], 2;
        OneByte(raw[0]);
        assert raw == [raw[0]];
      } else {
        digits, pad := [Digit(raw[0] / 4), Digit(raw[0] % 4 * 16 + raw[1] / 16), Digit(raw[1] % 16 * 4)], 1;
        TwoBytes(raw[0], raw[1]);
        assert raw == [raw[0], raw[1]];
      }
    }
  }

  /** An encoding is alphabet digits followed by the padding its length calls for. */
  lemma {:induction false} EncodeShape(raw: seq<Byte>) returns (digits: string, pad: nat)
    ensures Encode(raw) == digits + Padding(pad) && InAlphabet(digits)
    ensures pad == (4 - |digits| % 4) % 4
  {
    hide Encode, Padding, Value;
    if |raw| <= 2 {
      digits, pad := ShortShape(raw);
    } else {
      var rest, n := EncodeShape(raw[3..]);
      var group := EncodeStep(raw);
      digits, pad := group + rest, n;
      assert |digits| % 4 == |rest| % 4 by {
        assert |digits| == |rest| + 4;
      }
      assert forall i :: 4 <= i < |digits| ==> digits[i] == rest[i - 4];
      assert group + (rest + Padding(pad)) == digits + Padding(pad);
    }
  }

  lemma EncodeStep(raw: seq<Byte>) returns (group: string)
    requires |raw| > 2
    ensures |group| == 4 && InAlphabet(group) && Encode(raw) == group + Encode(raw[3..])
  {
    var x, y, z := raw[0], raw[1], raw[2];
    FullGroup(x, y, z, Encode(raw[3..]));
    group := [Digit(x / 4), Digit(x % 4 * 16 + y / 16), Digit(y % 16 * 4 + z / 64), Digit(z % 64)];
  }

  lemma {:induction false} StripRemovesPadding(digits: string, n: nat)
    requires InAlphabet(digits)
    ensures StripPadding(digits + Padding(n)) == digits
  {
    if n == 0 {
      assert digits + Padding(0) == digits;
      if digits != "" {
        assert Value(digits[|digits| - 1]).Some?;
      }
    } else {
      PaddingEnds(n);
      assert (digits + Padding(n))[..|digits + Padding(n)| - 1] == digits + Padding(n - 1);
      StripRemovesPadding(digits, n - 1);
    }
  }

  lemma {:induction false} PaddingEnds(n: nat)
    requires n > 0
    ensures Padding(n) == Padding(n - 1) + "="
  {
    if n > 1 {
      PaddingEnds(n - 1);
    }
  }

  /** For every byte string: the codec is lossless, and its output is alphabet
      digits only, so it contains no dot and no padding. */
  lemma RoundTrip(raw: seq<Byte>)
    ensures B64d(B64e(raw)) == Some(raw)
    ensures InAlphabet(B64e(raw)) && '.' !in B64e(raw)
  {
    var digits, pad := EncodeShape(raw);
    StripRemovesPadding(digits, pad);
    DecodeUndoesEncode(raw);
    assert B64e(raw) == digits;
    assert forall i :: 0 <= i < |digits| ==> Value(digits[i]).Some?;
  }

  /* ---- Tokens ---- */

  /** The pieces of `s` between dots. */
  function Split(s: string): (parts: seq<string>)
    ensures |parts| > 0
  {
    if s == "" then [""]
    else
      var parts := Split(s[..|s| - 1]);
      if s[|s| - 1] == '.' then parts + [""]
      else parts[|parts| - 1 := parts[|parts| - 1] + [s[|s| - 1]]]
  }

  lemma {:induction false} SplitDotless(s: string)
    requires '.' !in s
    ensures Split(s) == [s]
  {
    if s != "" {
      var init := s[..|s| - 1];
      assert s == init + [s[|s| - 1]];
      SplitDotless(init);
    }
  }

  lemma {:induction false} SplitAtTheDot(a: string, b: string)
    requires '.' !in a && '.' !in b
    ensures Split(a + "." + b) == [a, b]
  {
    var s := a + "." + b;
    if b == "" {
      assert s[..|s| - 1] == a;
      SplitDotless(a);
    } else {
      var init := b[..|b| - 1];
      assert b == init + [b[|b| - 1]];
      assert s[..|s| - 1] == a + "." + init;
      SplitAtTheDot(a, init);
    }
  }

  /** Splitting loses nothing. */
  lemma {:induction false} SplitPairJoins(s: string)
    ensures |Split(s)| == 1 ==> s == Split(s)[0]
    ensures |Split(s)| == 2 ==> s == Split(s)[0] + "." + Split(s)[1]
  {
    if s != "" {
      var init := s[..|s| - 1];
      SplitPairJoins(init);
      assert s == init + [s[|s| - 1]];
    }
  }

  /** The signer, the verifier and the JSON text are the caller's. */
  datatype Backend<!T> = Backend(
    render: T -> seq<Byte>,
    parse: seq<Byte> -> Option<T>,
    sign: string -> seq<Byte>,
    verify: (string, seq<Byte>) -> bool)

  function SignToken<T>(k: Backend<T>, payload: T): string {
    var segment := B64e(k.render(payload));
    segment + "." + B64e(k.sign(segment))
  }

  /** Parse first, then check the signature over the transmitted segment. */
  function OpenToken<T>(k: Backend<T>, token: string): Result<T> {
    var parts := Split(token);
    if |parts| != 2 then Err(MalformedAssertion)
    else
      var sig, raw := B64d(parts[1]), B64d(parts[0]);
      if sig.None? || raw.None? || k.parse(raw.value).None? then Err(MalformedAssertion)
      else if !k.verify(parts[0], sig.value) then Err(BadSignature)
      else Ok(k.parse(raw.value).value)
  }

  /** Whatever was signed is read back. */
  lemma OpenUndoesSign<T>(k: Backend<T>, payload: T)
    requires k.parse(k.render(payload)) == Some(payload)
    requires forall m :: k.verify(m, k.sign(m))
    ensures OpenToken(k, SignToken(k, payload)) == Ok(payload)
  {
    var segment := B64e(k.render(payload));
    RoundTrip(k.render(payload));
    RoundTrip(k.sign(segment));
    SplitAtTheDot(segment, B64e(k.sign(segment)));
  }

  /** With an ideal signature nothing else is: an accepted token carries a
      payload the signer issued. */
  lemma OnlyIssuedPayloadsOpen<T>(k: Backend<T>, issued: iset<T>, token: string)
    requires forall p :: p in issued ==> k.parse(k.render(p)) == Some(p)
    requires forall m, s :: k.verify(m, s) ==> exists p :: p in issued && m == B64e(k.render(p))
    requires OpenToken(k, token).Ok?
    ensures OpenToken(k, token).value in issued
  {
    var segment := Split(token)[0];
    var p :| p in issued && segment == B64e(k.render(p));
    RoundTrip(k.render(p));
  }
}
