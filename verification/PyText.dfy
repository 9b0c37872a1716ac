/** `str.strip()` and its one-sided forms, over code points. */
module PyText {
  import opened Utf8

  /** `str.isspace()` of one character. */
  predicate Space(c: CodePoint) {
    || 0x9 <= c <= 0xD || 0x1C <= c <= 0x20 || c == 0x85 || c == 0xA0 || c == 0x1680
    || 0x2000 <= c <= 0x200A || c == 0x2028 || c == 0x2029 || c == 0x202F || c == 0x205F || c == 0x3000
  }

  function LeftStrip(s: Text): Text {
    if s == [] || !Space(s[0]) then s else LeftStrip(s[1..])
  }

  function RightStrip(s: Text): Text {
    if s == [] || !Space(s[|s| - 1]) then s else RightStrip(s[..|s| - 1])
  }

  predicate Stripped(s: Text) {
    s == [] || (!Space(s[0]) && !Space(s[|s| - 1]))
  }

  function Strip(s: Text): Text {
    RightStrip(LeftStrip(s))
  }

  predicate Blank(s: Text) {
    forall i :: 0 <= i < |s| ==> Space(s[i])
  }

  /** Stripping on the left removes a maximal run of blanks. */
  lemma {:induction false} LeftStripSplits(s: Text)
    ensures |LeftStrip(s)| <= |s|
    ensures var n := |s| - |LeftStrip(s)|; Blank(s[..n]) && s[n..] == LeftStrip(s)
    ensures LeftStrip(s) == [] || !Space(LeftStrip(s)[0])
  {
    if s != [] && Space(s[0]) {
      LeftStripSplits(s[1..]);
      var n := |s| - |LeftStrip(s)|;
      assert s[..n] == [s[0]] + s[1..][..n - 1];
      assert s[n..] == s[1..][n - 1..];
    }
  }

  /** Stripping on the right removes a maximal run of blanks. */
  lemma {:induction false} RightStripSplits(s: Text)
    ensures |RightStrip(s)| <= |s|
    ensures var n := |RightStrip(s)|; s[..n] == RightStrip(s) && Blank(s[n..])
    ensures RightStrip(s) == [] || !Space(RightStrip(s)[|RightStrip(s)| - 1])
  {
    if s != [] && Space(s[|s| - 1]) {
      var front := s[..|s| - 1];
      RightStripSplits(front);
      var n := |RightStrip(s)|;
      assert s[..n] == front[..n];
      assert s[n..] == front[n..] + [s[|s| - 1]];
    }
  }

  /** `s` is blanks, then its stripped form, then blanks, and the stripped form has no blank ends. */
  lemma StripSplits(s: Text) returns (before: nat, after: nat)
    ensures before <= after <= |s| && Strip(s) == s[before..after]
    ensures Blank(s[..before]) && Blank(s[after..])
    ensures Stripped(Strip(s))
  {
    var l := LeftStrip(s);
    LeftStripSplits(s);
    RightStripSplits(l);
    before := |s| - |l|;
    after := before + |RightStrip(l)|;
    assert s[after..] == l[|RightStrip(l)|..];
  }

  /** Nothing is left exactly of a text of white space. */
  lemma StripLeavesNothingIffBlank(s: Text)
    ensures Strip(s) == [] <==> Blank(s)
  {
    var before, after := StripSplits(s);
    if Strip(s) != [] {
      assert s[before] == Strip(s)[0] && !Space(s[before]);
    } else {
      assert s == s[..before] + s[after..];
    }
  }

  lemma StripIsStripped(s: Text)
    ensures Stripped(Strip(s)) && Strip(Strip(s)) == Strip(s)
  {
    var before, after := StripSplits(s);
  }

  lemma StripKeepsStripped(s: Text)
    requires Stripped(s)
    ensures Strip(s) == s
  {
  }
}
