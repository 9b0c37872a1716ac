/** `_truncate_to_budget` and `_estimate_tokens` of app/pipeline/classifier.py. */
module Truncation {
  import opened Utf8
  import opened Wrappers

  datatype Error = UnicodeEncodeError

  function Points(s: string): (t: Text)
    ensures |t| == |s|
  {
    seq(|s|, i requires 0 <= i < |s| => s[i] as int)
  }

  const MARKER: Text := Points("\n...[abgeschnitten]")

  /** `text[:n]`: a negative bound counts from the end. */
  function Head(text: Text, n: int): (t: Text)
    ensures t <= text
  {
    if n >= |text| then text
    else if n >= 0 then text[..n]
    else if |text| + n >= 0 then text[..|text| + n]
    else []
  }

  function Max(a: int, b: int): int {
    if a < b then b else a
  }

  function Truncate(text: Text, maxChars: int, maxBytes: int): Result<Text, Error> {
    var candidate := Head(text, maxChars);
    if !Encodable(candidate) then Failure(UnicodeEncodeError)
    else
      var encoded := Encode(candidate);
      if |encoded| > maxBytes then
        var contentBytes := Max(0, maxBytes - |Encode(MARKER)|);
        var kept := if contentBytes <= |encoded| then encoded[..contentBytes] else encoded;
        Success(DecodeIgnoring(kept) + MARKER)
      else Success(if |candidate| < |text| then candidate + MARKER else candidate)
  }

  lemma MarkerBytes()
    ensures |Encode(MARKER)| == |MARKER| == 19
    ensures Encodable(MARKER)
  {
    var s := "\n...[abgeschnitten]";
    assert forall c :: c in s ==> c as int < 0x80;
    AsciiTakesOneByteEach(MARKER);
  }

  /** The kept text is the longest prefix of the capped text that leaves room for the marker. */
  lemma CutKeepsLongestPrefix(text: Text, maxChars: int, maxBytes: int)
    requires Encodable(Head(text, maxChars)) && |Encode(Head(text, maxChars))| > maxBytes
    ensures Truncate(text, maxChars, maxBytes) ==
            Success(Head(text, maxChars)[..FittingChars(Head(text, maxChars), Max(0, maxBytes - 19))] + MARKER)
  {
    MarkerBytes();
    CutDecodesToLongestPrefix(Head(text, maxChars), Max(0, maxBytes - 19));
  }

  /** Truncation fails exactly when the characters it keeps contain a lone surrogate. */
  lemma FailsOnlyOnSurrogates(text: Text, maxChars: int, maxBytes: int)
    ensures Truncate(text, maxChars, maxBytes).Failure?
            <==> exists i :: 0 <= i < |Head(text, maxChars)| && Surrogate(text[i])
  {
    assert forall i :: 0 <= i < |Head(text, maxChars)| ==> Head(text, maxChars)[i] == text[i];
  }

  predicate FitsBothCaps(text: Text, maxChars: int, maxBytes: int) {
    |text| <= maxChars && |Encode(text)| <= maxBytes
  }

  /** The first `m` characters are within both caps, and one more is not, or leaves the marker no room. */
  predicate Cut(text: Text, m: nat, maxChars: nat, maxBytes: nat) {
    && m <= |text| && m <= maxChars
    && |Encode(text[..m])| <= maxBytes
    && (m < |text| && m < maxChars ==> |Encode(text[..m + 1])| > maxBytes - 19)
  }

  /**
   * For caps of zero or more: the text comes back unchanged if it fits both; otherwise the result
   * is such a prefix of it followed by the marker.
   */
  lemma TruncateIsExact(text: Text, maxChars: nat, maxBytes: nat, r: Text)
    requires Truncate(text, maxChars, maxBytes) == Success(r)
    ensures FitsBothCaps(text, maxChars, maxBytes) ==> r == text
    ensures !FitsBothCaps(text, maxChars, maxBytes) ==>
              exists m: nat :: Cut(text, m, maxChars, maxBytes) && r == text[..m] + MARKER
  {
    var candidate := Head(text, maxChars);
    if |Encode(candidate)| > maxBytes {
      var m := FittingChars(candidate, Max(0, maxBytes - 19));
      CutKeepsLongestPrefix(text, maxChars, maxBytes);
      CandidateIsPrefix(text, candidate, m);
      assert Cut(text, m, maxChars, maxBytes);
      PrefixIsShorter(text, candidate);
    } else if |candidate| < |text| {
      CandidateIsPrefix(text, candidate, |candidate|);
      assert candidate[..|candidate|] == candidate;
      assert Cut(text, |candidate|, maxChars, maxBytes);
    }
  }

  /** Whatever the character cap, the result is never longer than the byte cap and the marker. */
  lemma TruncatedSize(text: Text, maxChars: int, maxBytes: nat, r: Text)
    requires Truncate(text, maxChars, maxBytes) == Success(r)
    ensures |Encode(r)| <= maxBytes + 19
  {
    var candidate := Head(text, maxChars);
    if |Encode(candidate)| > maxBytes {
      CutKeepsLongestPrefix(text, maxChars, maxBytes);
      MarkedLength(candidate[..FittingChars(candidate, Max(0, maxBytes - 19))]);
    } else {
      MarkedLength(candidate);
    }
  }

  lemma MarkedLength(kept: Text)
    ensures |Encode(kept + MARKER)| == |Encode(kept)| + 19
  {
    MarkerBytes();
    EncodeConcat(kept, MARKER);
  }

  lemma PrefixIsShorter(text: Text, kept: Text)
    requires kept <= text
    ensures |Encode(kept)| <= |Encode(text)|
  {
    assert text == kept + text[|kept|..];
    EncodeConcat(kept, text[|kept|..]);
  }

  lemma CandidateIsPrefix(text: Text, candidate: Text, m: nat)
    requires candidate <= text && m <= |candidate|
    ensures candidate[..m] == text[..m]
    ensures m < |candidate| ==> candidate[..m + 1] == text[..m + 1]
  {
  }

  /** When bytes are cut and the cap has room for the marker, the marker is inside the cap. */
  lemma ByteCutStaysWithinCap(text: Text, maxChars: int, maxBytes: int, r: Text)
    requires 19 <= maxBytes < |Encode(Head(text, maxChars))|
    requires Truncate(text, maxChars, maxBytes) == Success(r)
    ensures |Encode(r)| <= maxBytes
  {
    CutKeepsLongestPrefix(text, maxChars, maxBytes);
    MarkedLength(Head(text, maxChars)[..FittingChars(Head(text, maxChars), maxBytes - 19)]);
  }

  /** `_estimate_tokens` of encodable text: one token for every byte, at least one. */
  function Tokens(text: Text): nat {
    Max(1, |Encode(text)|)
  }
}
