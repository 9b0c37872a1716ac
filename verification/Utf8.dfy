/**
 * UTF-8 as in section 3 of RFC 3629, and the decoder that skips what it cannot read.
 *
 * A Python string is a sequence of code points and may hold lone surrogates, which have no UTF-8
 * form; `Encodable` says when encoding succeeds.
 */
module Utf8 {

  type CodePoint = c: int | 0 <= c < 0x110000 witness 0
  type Byte = b: int | 0 <= b < 256 witness 0
  type Text = seq<CodePoint>

  predicate Surrogate(c: CodePoint) {
    0xD800 <= c < 0xE000
  }

  predicate Encodable(s: Text) {
    forall i :: 0 <= i < |s| ==> !Surrogate(s[i])
  }

  /** The number of bytes of one character. */
  function Width(c: CodePoint): (n: nat)
    ensures 1 <= n <= 4
  {
    if c < 0x80 then 1 else if c < 0x800 then 2 else if c < 0x10000 then 3 else 4
  }

  function EncodeChar(c: CodePoint): (b: seq<Byte>)
    ensures |b| == Width(c)
  {
    if c < 0x80 then [c]
    else if c < 0x800 then [0xC0 + c / 64, 0x80 + c % 64]
    else if c < 0x10000 then [0xE0 + c / 4096, 0x80 + c / 64 % 64, 0x80 + c % 64]
    else [0xF0 + c / 262144, 0x80 + c / 4096 % 64, 0x80 + c / 64 % 64, 0x80 + c % 64]
  }

  function Encode(s: Text): seq<Byte> {
    if s == [] then [] else EncodeChar(s[0]) + Encode(s[1..])
  }

  /** The length a first byte announces; 0 for a byte that starts no character. */
  function Announced(b: Byte): (n: nat)
    ensures n <= 4
  {
    if b < 0x80 then 1
    else if 0xC2 <= b < 0xE0 then 2
    else if 0xE0 <= b < 0xF0 then 3
    else if 0xF0 <= b < 0xF5 then 4
    else 0
  }

  predicate Continuation(b: Byte) {
    0x80 <= b < 0xC0
  }

  /** The second bytes that exclude overlong forms, surrogates and values above U+10FFFF. */
  predicate SecondByte(first: Byte, b: Byte) {
    && Continuation(b)
    && (first == 0xE0 ==> 0xA0 <= b)
    && (first == 0xED ==> b < 0xA0)
    && (first == 0xF0 ==> 0x90 <= b)
    && (first == 0xF4 ==> b < 0x90)
  }

  /** The bytes read in one step: a whole character, or the part of one that is skipped. */
  function StepLength(b: seq<Byte>): (n: nat)
    requires b != []
    ensures 1 <= n <= |b|
  {
    var need := Announced(b[0]);
    if need <= 1 || |b| < 2 || !SecondByte(b[0], b[1]) then 1
    else if need == 2 || |b| < 3 || !Continuation(b[2]) then 2
    else if need == 3 || |b| < 4 || !Continuation(b[3]) then 3
    else 4
  }

  /** The six bits a continuation byte carries. */
  function Low(b: Byte): (n: int)
    requires Continuation(b)
    ensures 0 <= n < 64
  {
    b - 0x80
  }

  /** The character of a complete sequence. */
  function Value(b: seq<Byte>): CodePoint
    requires b != [] && Announced(b[0]) == |b|
    requires forall i :: 1 <= i < |b| ==> Continuation(b[i])
    requires |b| > 1 ==> SecondByte(b[0], b[1])
  {
    var first: int := b[0];
    if |b| == 1 then first
    else if |b| == 2 then (first - 0xC0) * 64 + Low(b[1])
    else if |b| == 3 then (first - 0xE0) * 4096 + Low(b[1]) * 64 + Low(b[2])
    else (first - 0xF0) * 262144 + Low(b[1]) * 4096 + Low(b[2]) * 64 + Low(b[3])
  }

  /** `bytes.decode("utf-8", errors="ignore")`: each unreadable maximal subpart is dropped. */
  function DecodeIgnoring(b: seq<Byte>): Text {
    if b == [] then []
    else
      var n := StepLength(b);
      (if n == Announced(b[0]) then [Value(b[..n])] else []) + DecodeIgnoring(b[n..])
  }

  /** Every character's bytes are a complete sequence that carries exactly that character. */
  lemma EncodedCharIsComplete(c: CodePoint)
    requires !Surrogate(c)
    ensures Announced(EncodeChar(c)[0]) == Width(c)
    ensures forall i :: 1 <= i < Width(c) ==> Continuation(EncodeChar(c)[i])
    ensures Width(c) > 1 ==> SecondByte(EncodeChar(c)[0], EncodeChar(c)[1])
    ensures Value(EncodeChar(c)) == c
  {
    var e := EncodeChar(c);
    if Width(c) == 3 {
      assert c == c / 4096 * 4096 + c / 64 % 64 * 64 + c % 64;
    } else if Width(c) == 4 {
      assert c == c / 262144 * 262144 + c / 4096 % 64 * 4096 + c / 64 % 64 * 64 + c % 64;
    }
  }

  /** A byte that starts no character is dropped, and so is one whose second byte does not fit it. */
  lemma StrayByteIsDropped(b: Byte, rest: seq<Byte>)
    requires 0x80 <= b < 0xC2 || b >= 0xF5 || (b >= 0x80 && rest != [] && !SecondByte(b, rest[0]))
    ensures DecodeIgnoring([b] + rest) == DecodeIgnoring(rest)
  {
    assert ([b] + rest)[1..] == rest;
  }

  /** A character that heads the input is read back whole. */
  lemma ReadsBackChar(c: CodePoint, rest: seq<Byte>)
    requires !Surrogate(c)
    ensures DecodeIgnoring(EncodeChar(c) + rest) == [c] + DecodeIgnoring(rest)
  {
    EncodedCharIsComplete(c);
    StepOverComplete(EncodeChar(c), rest, c);
  }

  lemma StepOverComplete(e: seq<Byte>, rest: seq<Byte>, c: CodePoint)
    requires e != [] && Announced(e[0]) == |e|
    requires forall i :: 1 <= i < |e| ==> Continuation(e[i])
    requires |e| > 1 ==> SecondByte(e[0], e[1])
    requires Value(e) == c
    ensures DecodeIgnoring(e + rest) == [c] + DecodeIgnoring(rest)
  {
    var b := e + rest;
    assert StepLength(b) == |e|;
    assert b[..|e|] == e && b[|e|..] == rest;
  }

  /** A character cut short is skipped. */
  lemma SkipsCutChar(c: CodePoint, k: nat)
    requires !Surrogate(c) && k < Width(c)
    ensures DecodeIgnoring(EncodeChar(c)[..k]) == []
  {
    if k > 0 {
      EncodedCharIsComplete(c);
      var b := EncodeChar(c)[..k];
      assert StepLength(b) == k && Announced(b[0]) == Width(c);
      assert b[k..] == [];
    }
  }

  /** How many leading characters fit into `n` bytes. */
  function FittingChars(s: Text, n: int): (m: nat)
    ensures m <= |s|
    ensures 0 <= n ==> |Encode(s[..m])| <= n
    ensures forall j :: m < j <= |s| ==> |Encode(s[..j])| > n
  {
    if s == [] then 0
    else if Width(s[0]) > n then
      assert forall j :: 0 < j <= |s| ==> |Encode(s[..j])| >= Width(s[0]) by {
        forall j | 0 < j <= |s| ensures |Encode(s[..j])| >= Width(s[0]) {
          assert s[..j][0] == s[0];
        }
      }
      0
    else
      var rest := FittingChars(s[1..], n - Width(s[0]));
      assert forall j :: 0 < j <= |s| ==> s[..j][1..] == s[1..][..j - 1] && s[..j][0] == s[0];
      1 + rest
  }

  /** Cutting an encoding anywhere and decoding what is left gives the longest prefix that fits. */
  lemma {:induction false} CutDecodesToLongestPrefix(s: Text, n: nat)
    requires Encodable(s) && n <= |Encode(s)|
    ensures DecodeIgnoring(Encode(s)[..n]) == s[..FittingChars(s, n)]
  {
    if s == [] {
    } else if Width(s[0]) > n {
      assert Encode(s)[..n] == EncodeChar(s[0])[..n];
      SkipsCutChar(s[0], n);
    } else {
      var rest := n - Width(s[0]);
      assert Encode(s)[..n] == EncodeChar(s[0]) + Encode(s[1..])[..rest];
      ReadsBackChar(s[0], Encode(s[1..])[..rest]);
      CutDecodesToLongestPrefix(s[1..], rest);
      assert [s[0]] + s[1..][..FittingChars(s[1..], rest)] == s[..FittingChars(s, n)];
    }
  }

  /** Nothing is lost when nothing is cut. */
  lemma DecodeInvertsEncode(s: Text)
    requires Encodable(s)
    ensures DecodeIgnoring(Encode(s)) == s
  {
    var n := |Encode(s)|;
    assert Encode(s)[..n] == Encode(s) && s[..|s|] == s;
    CutDecodesToLongestPrefix(s, n);
    assert FittingChars(s, n) == |s|;
  }

  /** Whatever the bytes, the decoder yields encodable text. */
  lemma {:induction false} DecodedTextIsEncodable(b: seq<Byte>)
    ensures Encodable(DecodeIgnoring(b))
  {
    if b != [] {
      DecodedTextIsEncodable(b[StepLength(b)..]);
    }
  }

  lemma {:induction false} EncodeConcat(s: Text, t: Text)
    ensures Encode(s + t) == Encode(s) + Encode(t)
  {
    if s == [] {
      assert s + t == t;
    } else {
      assert (s + t)[1..] == s[1..] + t;
      EncodeConcat(s[1..], t);
    }
  }

  lemma {:induction false} AsciiTakesOneByteEach(s: Text)
    requires forall i :: 0 <= i < |s| ==> s[i] < 0x80
    ensures |Encode(s)| == |s|
  {
    if s != [] {
      AsciiTakesOneByteEach(s[1..]);
    }
  }
}
