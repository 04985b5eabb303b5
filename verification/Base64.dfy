/**
 The hand-written base64 decoder that reads Secret payloads back, next to the encoder of
 section 4 of RFC 4648.  The decoder treats every quartet on its own, so it accepts more
 texts than the RFC does; the module says exactly which ones, and exactly when re-encoding
 a decoded text gives that text back.
 */
module Base64 {
  import opened Prelude

  type Byte = bv8
  type Bytes = seq<Byte>

  const PAD: Byte := 61 // '='

  /** Six-bit value of an alphabet character; None for '=' and for every other byte. */
  function Sextet(b: Byte): Option<Byte> {
    if 65 <= b <= 90 then Some(b - 65)
    else if 97 <= b <= 122 then Some(b - 97 + 26)
    else if 48 <= b <= 57 then Some(b - 48 + 52)
    else if b == 43 then Some(62)
    else if b == 47 then Some(63)
    else None
  }

  function Letter(v: Byte): Byte
    requires v < 64
  {
    if v < 26 then v + 65
    else if v < 52 then v - 26 + 97
    else if v < 62 then v - 52 + 48
    else if v == 62 then 43
    else 47
  }

  lemma LetterSextet(v: Byte)
    requires v < 64
    ensures Sextet(Letter(v)) == Some(v)
    ensures Letter(v) != PAD
  {}

  lemma SextetLetter(b: Byte)
    requires Sextet(b).Some?
    ensures b != PAD && Sextet(b).value < 64 && Letter(Sextet(b).value) == b
  {}

  // ----- Bit layout: three bytes as four sextets and back -----

  function S0(a: Byte): Byte { a >> 2 }
  function S1(a: Byte, b: Byte): Byte { ((a & 3) << 4) | (b >> 4) }
  function S2(b: Byte, c: Byte): Byte { ((b & 15) << 2) | (c >> 6) }
  function S3(c: Byte): Byte { c & 63 }

  function B0(p: Byte, q: Byte): Byte { (p << 2) | (q >> 4) }
  function B1(q: Byte, r: Byte): Byte { (q << 4) | (r >> 2) }
  function B2(r: Byte, s: Byte): Byte { (r << 6) | s }

  lemma SextetsRange(a: Byte, b: Byte, c: Byte)
    ensures S0(a) < 64 && S1(a, b) < 64 && S2(b, c) < 64 && S3(c) < 64
  {}

  lemma BytesOfSextets(a: Byte, b: Byte, c: Byte)
    ensures B0(S0(a), S1(a, b)) == a
    ensures B1(S1(a, b), S2(b, c)) == b
    ensures B2(S2(b, c), S3(c)) == c
  {}

  lemma SextetsOfBytes(p: Byte, q: Byte, r: Byte, s: Byte)
    requires p < 64 && q < 64 && r < 64 && s < 64
    ensures S0(B0(p, q)) == p
    ensures S1(B0(p, q), B1(q, r)) == q
    ensures S2(B1(q, r), B2(r, s)) == r
    ensures S3(B2(r, s)) == s
  {}

  /** Encoding a padded quartet again recovers its last sextet exactly when the spare bits are zero. */
  lemma SpareBits(p: Byte, q: Byte, r: Byte)
    requires p < 64 && q < 64 && r < 64
    ensures S1(B0(p, q), 0) == q <==> q & 15 == 0
    ensures S2(B1(q, r), 0) == r <==> r & 3 == 0
  {}

  // ----- Reference: RFC 4648 encoder and the accepted language -----

  function Encode(bytes: Bytes): (text: Bytes)
    ensures |text| % 4 == 0
    ensures |text| == (|bytes| + 2) / 3 * 4
  {
    if |bytes| == 0 then []
    else if |bytes| == 1 then EncodeOne(bytes[0])
    else if |bytes| == 2 then EncodeTwo(bytes[0], bytes[1])
    else EncodeThree(bytes[0], bytes[1], bytes[2]) + Encode(bytes[3..])
  }

  function EncodeOne(a: Byte): (text: Bytes)
    ensures |text| == 4
  {
    SextetsRange(a, 0, 0);
    [Letter(S0(a)), Letter(S1(a, 0)), PAD, PAD]
  }

  function EncodeTwo(a: Byte, b: Byte): (text: Bytes)
    ensures |text| == 4
  {
    SextetsRange(a, b, 0);
    [Letter(S0(a)), Letter(S1(a, b)), Letter(S2(b, 0)), PAD]
  }

  function EncodeThree(a: Byte, b: Byte, c: Byte): (text: Bytes)
    ensures |text| == 4
  {
    SextetsRange(a, b, c);
    [Letter(S0(a)), Letter(S1(a, b)), Letter(S2(b, c)), Letter(S3(c))]
  }

  /** Number of trailing '=' in a quartet of the accepted shape: letters first, then at most two pads. */
  predicate QuartetShape(a: Byte, b: Byte, c: Byte, d: Byte, pads: nat) {
    && Sextet(a).Some? && Sextet(b).Some?
    && match pads
       case 0 => Sextet(c).Some? && Sextet(d).Some?
       case 1 => Sextet(c).Some? && d == PAD
       case 2 => c == PAD && d == PAD
       case _ => false
  }

  ghost predicate Quartet(t: Bytes, k: nat)
    requires 4 * k + 4 <= |t|
  {
    ShapedQuartet(t[4 * k], t[4 * k + 1], t[4 * k + 2], t[4 * k + 3])
  }

  ghost predicate ShapedQuartet(a: Byte, b: Byte, c: Byte, d: Byte) {
    exists pads: nat :: QuartetShape(a, b, c, d, pads)
  }

  /** The texts the decoder is meant to accept: a nonempty run of well-shaped quartets. */
  ghost predicate InLanguage(t: Bytes) {
    |t| > 0 && |t| % 4 == 0 && forall k: nat :: 4 * k + 4 <= |t| ==> Quartet(t, k)
  }

  // ----- Specification of the decoder -----

  function DecodeQuartet(a: Byte, b: Byte, c: Byte, d: Byte): Option<Bytes> {
    if Sextet(a).None? || Sextet(b).None? then None
    else
      var p, q := Sextet(a).value, Sextet(b).value;
      if Sextet(c).None? then
        if c == PAD && d == PAD then Some([B0(p, q)]) else None
      else
        var r := Sextet(c).value;
        if Sextet(d).None? then
          if d == PAD then Some([B0(p, q), B1(q, r)]) else None
        else
          Some([B0(p, q), B1(q, r), B2(r, Sextet(d).value)])
  }

  function DecodeRun(t: Bytes): Option<Bytes>
    requires |t| % 4 == 0
  {
    if t == [] then Some([])
    else Join(DecodeQuartet(t[0], t[1], t[2], t[3]), DecodeRun(t[4..]))
  }

  function Decode(t: Bytes): Option<Bytes> {
    if t == [] || |t| % 4 != 0 then None else DecodeRun(t)
  }

  function Join(x: Option<Bytes>, y: Option<Bytes>): Option<Bytes> {
    if x.Some? && y.Some? then Some(x.value + y.value) else None
  }

  lemma JoinAssociative(x: Option<Bytes>, y: Option<Bytes>, z: Option<Bytes>)
    ensures Join(Join(x, y), z) == Join(x, Join(y, z))
  {
    if x.Some? && y.Some? && z.Some? { assert (x.value + y.value) + z.value == x.value + (y.value + z.value); }
  }

  lemma {:induction false} DecodeRunSplit(t: Bytes, u: Bytes)
    requires |t| % 4 == 0 && |u| % 4 == 0
    ensures DecodeRun(t + u) == Join(DecodeRun(t), DecodeRun(u))
  {
    if t == [] {
      assert t + u == u;
      if DecodeRun(u).Some? { assert [] + DecodeRun(u).value == DecodeRun(u).value; }
    } else {
      DecodeRunSplit(t[4..], u);
      var all := t + u;
      assert all[4..] == t[4..] + u && all[0] == t[0] && all[1] == t[1] && all[2] == t[2] && all[3] == t[3];
      JoinAssociative(DecodeQuartet(t[0], t[1], t[2], t[3]), DecodeRun(t[4..]), DecodeRun(u));
    }
  }

  /** One quartet of the source's inner loop: the values so far, the pads so far, and whether it bailed. */
  method ReadQuartet(chunk: Bytes) returns (r: Option<Bytes>)
    requires |chunk| == 4
    ensures r == DecodeQuartet(chunk[0], chunk[1], chunk[2], chunk[3])
  {
    var quartet: Bytes := [0, 0, 0, 0];
    var padding := 0;
    var index := 0;
    while index < 4
      invariant 0 <= index <= 4 && |quartet| == 4
      invariant 0 <= padding <= index
      invariant forall i :: 0 <= i < index - padding ==> Sextet(chunk[i]) == Some(quartet[i])
      invariant forall i :: index - padding <= i < index ==> chunk[i] == PAD
    {
      var byte := chunk[index];
      match Sextet(byte) {
        case Some(v) =>
          quartet := quartet[index := v];
        case None =>
          if byte != PAD { return None; }
          padding := padding + 1;
          quartet := quartet[index := 0];
      }
      if padding > 0 && byte != PAD { return None; }
      index := index + 1;
    }
    assert Sextet(PAD) == None;
    assert index - padding < 4 ==> chunk[index - padding] == PAD;
    if padding > 2 || exists i :: 4 - padding <= i < 4 && chunk[i] != PAD { return None; }
    assert Sextet(chunk[0]) == Some(quartet[0]) && Sextet(chunk[1]) == Some(quartet[1]);
    assert if padding < 2 then Sextet(chunk[2]) == Some(quartet[2]) else chunk[2] == PAD;
    assert if padding < 1 then Sextet(chunk[3]) == Some(quartet[3]) else chunk[3] == PAD;
    var decoded: Bytes := [B0(quartet[0], quartet[1])];
    if padding < 2 { decoded := decoded + [B1(quartet[1], quartet[2])]; }
    if padding == 0 { decoded := decoded + [B2(quartet[2], quartet[3])]; }
    assert padding == 0 ==> decoded == [B0(quartet[0], quartet[1]), B1(quartet[1], quartet[2]), B2(quartet[2], quartet[3])];
    assert padding == 1 ==> decoded == [B0(quartet[0], quartet[1]), B1(quartet[1], quartet[2])];
    return Some(decoded);
  }

  method DecodeBase64(value: Bytes) returns (r: Option<Bytes>)
    ensures r == Decode(value)
  {
    if value == [] || |value| % 4 != 0 { return None; }
    var decoded: Bytes := [];
    var at := 0;
    while at < |value|
      invariant 0 <= at <= |value| && at % 4 == 0
      invariant DecodeRun(value[..at]) == Some(decoded)
    {
      var chunk := value[at..at + 4];
      var q := ReadQuartet(chunk);
      DecodeRunGrows(value, at);
      match q {
        case None =>
          BadPrefix(value, at + 4);
          return None;
        case Some(x) => decoded := decoded + x;
      }
      at := at + 4;
    }
    assert value[..at] == value;
    return Some(decoded);
  }

  lemma DecodeRunGrows(value: Bytes, at: nat)
    requires |value| % 4 == 0 && at % 4 == 0 && at + 4 <= |value|
    ensures DecodeRun(value[..at + 4])
            == Join(DecodeRun(value[..at]), DecodeQuartet(value[at], value[at + 1], value[at + 2], value[at + 3]))
  {
    var chunk := value[at..at + 4];
    OneQuartet(chunk);
    DecodeRunSplit(value[..at], chunk);
    assert value[..at] + chunk == value[..at + 4];
  }

  /** A bad prefix spoils the whole text. */
  lemma BadPrefix(value: Bytes, at: nat)
    requires |value| % 4 == 0 && at % 4 == 0 && at <= |value| && DecodeRun(value[..at]).None?
    ensures DecodeRun(value).None?
  {
    DecodeRunSplit(value[..at], value[at..]);
    assert value[..at] + value[at..] == value;
  }

  // ----- What the decoder means -----

  lemma DecodeQuartetShape(a: Byte, b: Byte, c: Byte, d: Byte)
    ensures DecodeQuartet(a, b, c, d).Some? <==> ShapedQuartet(a, b, c, d)
    ensures forall pads: nat :: QuartetShape(a, b, c, d, pads) ==> |DecodeQuartet(a, b, c, d).value| == 3 - pads
  {
    if DecodeQuartet(a, b, c, d).Some? {
      var pads := if Sextet(d).Some? then 0 else if Sextet(c).Some? then 1 else 2;
      assert QuartetShape(a, b, c, d, pads);
    }
  }

  lemma {:induction false} RunLanguage(t: Bytes)
    requires |t| % 4 == 0
    ensures DecodeRun(t).Some? <==> forall k: nat :: 4 * k + 4 <= |t| ==> Quartet(t, k)
  {
    if t != [] {
      var rest := t[4..];
      RunLanguage(rest);
      DecodeQuartetShape(t[0], t[1], t[2], t[3]);
      assert Quartet(t, 0) <==> DecodeQuartet(t[0], t[1], t[2], t[3]).Some?;
      forall k: nat | 4 * k + 4 <= |rest|
        ensures Quartet(rest, k) <==> Quartet(t, k + 1)
      {
        assert t[4 * (k + 1)..4 * (k + 1) + 4] == rest[4 * k..4 * k + 4];
      }
      if forall k: nat :: 4 * k + 4 <= |rest| ==> Quartet(rest, k) {
        forall k: nat | 4 * k + 4 <= |t| && 0 < k ensures Quartet(t, k) {
          assert Quartet(rest, k - 1) <==> Quartet(t, k - 1 + 1);
        }
      }
    }
  }

  /** The decoder accepts exactly the nonempty runs of quartets with 0, 1 or 2 trailing pads. */
  lemma AcceptedLanguage(t: Bytes)
    ensures Decode(t).Some? <==> InLanguage(t)
  {
    if |t| % 4 == 0 { RunLanguage(t); }
  }

  lemma QuartetRoundTrip(a: Byte, b: Byte, c: Byte)
    ensures var t := EncodeOne(a); DecodeQuartet(t[0], t[1], t[2], t[3]) == Some([a])
    ensures var t := EncodeTwo(a, b); DecodeQuartet(t[0], t[1], t[2], t[3]) == Some([a, b])
    ensures var t := EncodeThree(a, b, c); DecodeQuartet(t[0], t[1], t[2], t[3]) == Some([a, b, c])
  {
    SextetsRange(a, b, c);
    SextetsRange(a, 0, 0);
    SextetsRange(a, b, 0);
    BytesOfSextets(a, b, c);
    BytesOfSextets(a, 0, 0);
    BytesOfSextets(a, b, 0);
    LetterSextet(S0(a));
    LetterSextet(S1(a, b));
    LetterSextet(S1(a, 0));
    LetterSextet(S2(b, c));
    LetterSextet(S2(b, 0));
    LetterSextet(S3(c));
  }

  lemma {:induction false} OneQuartet(t: Bytes)
    requires |t| == 4
    ensures DecodeRun(t) == DecodeQuartet(t[0], t[1], t[2], t[3])
  {
    var x := DecodeQuartet(t[0], t[1], t[2], t[3]);
    assert t[4..] == [];
    if x.Some? { assert x.value + [] == x.value; }
  }

  lemma ShortRoundTrip(bytes: Bytes)
    requires 0 < |bytes| < 3
    ensures DecodeRun(Encode(bytes)) == Some(bytes)
  {
    QuartetRoundTrip(bytes[0], if |bytes| == 2 then bytes[1] else 0, 0);
    OneQuartet(Encode(bytes));
    assert bytes == if |bytes| == 1 then [bytes[0]] else [bytes[0], bytes[1]];
  }

  lemma {:induction false} RunRoundTrip(bytes: Bytes)
    ensures DecodeRun(Encode(bytes)) == Some(bytes)
  {
    if 0 < |bytes| < 3 {
      ShortRoundTrip(bytes);
    } else if |bytes| >= 3 {
      var head, tail := EncodeThree(bytes[0], bytes[1], bytes[2]), Encode(bytes[3..]);
      RunRoundTrip(bytes[3..]);
      QuartetRoundTrip(bytes[0], bytes[1], bytes[2]);
      OneQuartet(head);
      DecodeRunSplit(head, tail);
      assert bytes == [bytes[0], bytes[1], bytes[2]] + bytes[3..];
    }
  }

  /** Decoding undoes the RFC encoder on every nonempty byte string, and only on those. */
  lemma RoundTrip(bytes: Bytes)
    ensures Decode(Encode(bytes)) == if bytes == [] then None else Some(bytes)
  {
    RunRoundTrip(bytes);
  }

  // ----- Where the decoder is laxer than the RFC -----

  /** Spare bits below the last byte of a padded quartet are zero. */
  predicate SpareBitsClear(t: Bytes, k: nat)
    requires 4 * k + 4 <= |t|
  {
    && (t[4 * k + 2] == PAD ==> Sextet(t[4 * k + 1]).Some? && Sextet(t[4 * k + 1]).value & 15 == 0)
    && (t[4 * k + 2] != PAD && t[4 * k + 3] == PAD ==> Sextet(t[4 * k + 2]).Some? && Sextet(t[4 * k + 2]).value & 3 == 0)
  }

  /** Canonical texts: only the last quartet is padded, and its spare bits are zero. */
  ghost predicate Canonical(t: Bytes) {
    && (forall k: nat :: 4 * k + 4 < |t| ==> t[4 * k + 3] != PAD)
    && (forall k: nat :: 4 * k + 4 <= |t| ==> SpareBitsClear(t, k))
  }

  lemma ReencodeOne(a: Byte, b: Byte)
    requires Sextet(a).Some? && Sextet(b).Some?
    ensures EncodeOne(B0(Sextet(a).value, Sextet(b).value)) == [a, b, PAD, PAD] <==> Sextet(b).value & 15 == 0
  {
    SextetLetter(a);
    SextetLetter(b);
    var p, q := Sextet(a).value, Sextet(b).value;
    SextetsRange(B0(p, q), 0, 0);
    SextetsOfBytes(p, q, 0, 0);
    SpareBits(p, q, 0);
    LetterInjective(S1(B0(p, q), 0), q);
    assert EncodeOne(B0(p, q))[1] == Letter(S1(B0(p, q), 0));
  }

  lemma ReencodeTwo(a: Byte, b: Byte, c: Byte)
    requires Sextet(a).Some? && Sextet(b).Some? && Sextet(c).Some?
    ensures var p, q, r := Sextet(a).value, Sextet(b).value, Sextet(c).value;
            EncodeTwo(B0(p, q), B1(q, r)) == [a, b, c, PAD] <==> r & 3 == 0
  {
    SextetLetter(a);
    SextetLetter(b);
    SextetLetter(c);
    var p, q, r := Sextet(a).value, Sextet(b).value, Sextet(c).value;
    SextetsRange(B0(p, q), B1(q, r), 0);
    SextetsOfBytes(p, q, r, 0);
    SpareBits(p, q, r);
    LetterInjective(S2(B1(q, r), 0), r);
    assert EncodeTwo(B0(p, q), B1(q, r))[2] == Letter(S2(B1(q, r), 0));
  }

  lemma ReencodeThree(a: Byte, b: Byte, c: Byte, d: Byte)
    requires Sextet(a).Some? && Sextet(b).Some? && Sextet(c).Some? && Sextet(d).Some?
    ensures var p, q, r, s := Sextet(a).value, Sextet(b).value, Sextet(c).value, Sextet(d).value;
            EncodeThree(B0(p, q), B1(q, r), B2(r, s)) == [a, b, c, d]
  {
    SextetLetter(a);
    SextetLetter(b);
    SextetLetter(c);
    SextetLetter(d);
    SextetsOfBytes(Sextet(a).value, Sextet(b).value, Sextet(c).value, Sextet(d).value);
  }

  lemma QuartetReencode(a: Byte, b: Byte, c: Byte, d: Byte)
    requires DecodeQuartet(a, b, c, d).Some?
    ensures Encode(DecodeQuartet(a, b, c, d).value) == [a, b, c, d] <==> SpareBitsClear([a, b, c, d], 0)
    ensures d != PAD ==> |DecodeQuartet(a, b, c, d).value| == 3 && SpareBitsClear([a, b, c, d], 0)
    ensures d == PAD ==> 1 <= |DecodeQuartet(a, b, c, d).value| < 3
  {
    var x := DecodeQuartet(a, b, c, d).value;
    if Sextet(c).None? {
      ReencodeOne(a, b);
      assert Encode(x) == EncodeOne(x[0]);
    } else if Sextet(d).None? {
      SextetLetter(c);
      ReencodeTwo(a, b, c);
      assert Encode(x) == EncodeTwo(x[0], x[1]);
    } else {
      SextetLetter(c);
      SextetLetter(d);
      ReencodeThree(a, b, c, d);
      assert x[3..] == [];
      assert Encode(x) == EncodeThree(x[0], x[1], x[2]) + Encode([]);
    }
  }

  lemma LetterInjective(u: Byte, v: Byte)
    requires u < 64 && v < 64
    ensures Letter(u) == Letter(v) <==> u == v
  {
    LetterSextet(u);
    LetterSextet(v);
  }

  lemma {:induction false} EncodeSplit(x: Bytes, y: Bytes)
    requires |x| == 3
    ensures Encode(x + y) == Encode(x) + Encode(y)
  {
    assert (x + y)[3..] == y;
    assert x[3..] == [];
    assert Encode(x) == EncodeThree(x[0], x[1], x[2]) + [];
  }

  lemma {:induction false} EncodeShortDiffers(x: Bytes, y: Bytes)
    requires 1 <= |x| < 3 && |y| > 0
    ensures |Encode(x + y)| >= 4 ==> Encode(x + y)[3] != PAD || |Encode(x + y)| == 4
  {
    if |x + y| >= 3 {
      var z := x + y;
      SextetsRange(z[0], z[1], z[2]);
      LetterSextet(S3(z[2]));
    }
  }

  lemma {:induction false} RunReencode(t: Bytes)
    requires |t| % 4 == 0 && DecodeRun(t).Some?
    ensures Encode(DecodeRun(t).value) == t <==> Canonical(t)
    ensures t != [] ==> |DecodeRun(t).value| > 0
  {
    if t != [] {
      var head, rest := t[..4], t[4..];
      var x, y := DecodeQuartet(t[0], t[1], t[2], t[3]).value, DecodeRun(rest).value;
      assert head == [t[0], t[1], t[2], t[3]] && t == head + rest;
      RunReencode(rest);
      QuartetReencode(t[0], t[1], t[2], t[3]);
      CanonicalSplit(t);
      if rest == [] {
        assert x + y == x;
      } else if t[3] != PAD {
        EncodeSplit(x, y);
        assert |Encode(x)| == 4;
        assert Encode(x + y) == t <==> Encode(x) == head && Encode(y) == rest by {
          if Encode(x + y) == t {
            assert Encode(x) == (Encode(x) + Encode(y))[..4] == t[..4];
            assert Encode(y) == (Encode(x) + Encode(y))[4..] == t[4..];
          }
        }
      } else {
        EncodeShortDiffers(x, y);
        assert !Canonical(t);
      }
    }
  }

  lemma NextQuartet(t: Bytes, k: nat)
    requires |t| % 4 == 0 && 4 * k + 8 <= |t|
    ensures SpareBitsClear(t[4..], k) <==> SpareBitsClear(t, k + 1)
    ensures t[4..][4 * k + 3] == t[4 * (k + 1) + 3]
  {
    var rest, at := t[4..], 4 * (k + 1);
    assert rest[4 * k + 1] == t[at + 1] && rest[4 * k + 2] == t[at + 2] && rest[4 * k + 3] == t[at + 3];
  }

  lemma CanonicalSplit(t: Bytes)
    requires |t| % 4 == 0 && |t| > 0
    ensures Canonical(t) <==> SpareBitsClear(t[..4], 0) && (|t| > 4 ==> t[3] != PAD) && Canonical(t[4..])
  {
    var rest := t[4..];
    assert SpareBitsClear(t[..4], 0) <==> SpareBitsClear(t, 0);
    if SpareBitsClear(t[..4], 0) && (|t| > 4 ==> t[3] != PAD) && Canonical(rest) {
      forall k: nat | 4 * k + 4 <= |t|
        ensures SpareBitsClear(t, k)
        ensures 4 * k + 4 < |t| ==> t[4 * k + 3] != PAD
      {
        if k > 0 { NextQuartet(t, k - 1); }
      }
    }
    if Canonical(t) {
      assert t[4 * 0 + 3] == t[3];
      forall k: nat | 4 * k + 4 <= |rest|
        ensures SpareBitsClear(rest, k)
        ensures 4 * k + 4 < |rest| ==> rest[4 * k + 3] != PAD
      {
        NextQuartet(t, k);
      }
    }
  }

  /** Re-encoding a decoded text gives the text back exactly when the text is canonical. */
  lemma ReencodeIffCanonical(t: Bytes)
    requires Decode(t).Some?
    ensures Encode(Decode(t).value) == t <==> Canonical(t)
  {
    RunReencode(t);
  }

  /** "QQ==QQ==" and "QR==" are accepted although no encoder writes them. */
  lemma LaxTexts()
    ensures var twice: Bytes := [81, 81, 61, 61, 81, 81, 61, 61];
            Decode(twice) == Some([65, 65]) && !Canonical(twice)
    ensures var spare: Bytes := [81, 82, 61, 61];
            Decode(spare) == Some([65]) && !Canonical(spare)
  {
    var twice: Bytes := [81, 81, 61, 61, 81, 81, 61, 61];
    assert twice[4..] == [81, 81, 61, 61];
    OneQuartet(twice[4..]);
    assert B0(16, 16) == 65 && B0(16, 17) == 65;
    var once: Bytes := [65];
    assert once + once == [65, 65];
    assert DecodeRun(twice) == Some(once + once);
    assert twice[4 * 0 + 3] == PAD;
    var spare: Bytes := [81, 82, 61, 61];
    OneQuartet(spare);
    assert !SpareBitsClear(spare, 0);
  }
}
