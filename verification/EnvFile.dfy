/** The KEY=VALUE file of app/config_writer.py: its reader, its writer and their common normal form. */
module EnvFile {
  import opened Utf8
  import opened PyText
  import opened Wrappers
  import T = Truncation

  datatype Pair = Pair(key: Text, value: Text)

  datatype Error = UnicodeEncodeError

  /** An OrderedDict: no key twice, in order of first insertion. */
  type Dict = d: seq<Pair> | Unique(d) witness []

  predicate Unique(d: seq<Pair>) {
    forall i, j :: 0 <= i < j < |d| ==> d[i].key != d[j].key
  }

  function Position(d: seq<Pair>, key: Text): (n: nat)
    ensures n <= |d| && (n < |d| ==> d[n].key == key)
    ensures forall i :: 0 <= i < n ==> d[i].key != key
  {
    if d == [] || d[0].key == key then 0 else 1 + Position(d[1..], key)
  }

  function Lookup(d: Dict, key: Text): Option<Text> {
    if Position(d, key) < |d| then Some(d[Position(d, key)].value) else None
  }

  /** Assignment to a key: an old key keeps its position, a new one goes to the end. */
  function Put(d: Dict, p: Pair): (r: Dict)
    ensures forall q <- r :: q == p || q in d
  {
    var n := Position(d, p.key);
    if n < |d| then d[n := p] else d + [p]
  }

  const EQUALS: CodePoint := 0x3D
  const HASH: CodePoint := 0x23
  const NEWLINE: CodePoint := 0xA
  const RETURN: CodePoint := 0xD

  /** The characters at which `str.splitlines` ends a line. */
  predicate LineBreak(c: CodePoint) {
    0xA <= c <= 0xD || 0x1C <= c <= 0x1E || c == 0x85 || c == 0x2028 || c == 0x2029
  }

  predicate NoBreaks(s: Text) {
    forall i :: 0 <= i < |s| ==> !LineBreak(s[i])
  }

  function FirstBreak(s: Text): (n: nat)
    ensures n <= |s| && NoBreaks(s[..n]) && (n < |s| ==> LineBreak(s[n]))
  {
    if s == [] || LineBreak(s[0]) then 0 else 1 + FirstBreak(s[1..])
  }

  /** `str.splitlines()`: a carriage return and a newline after it end one line together. */
  function Lines(s: Text): seq<Text> {
    if s == [] then []
    else
      var n := FirstBreak(s);
      if n == |s| then [s]
      else
        var width := if s[n] == RETURN && n + 1 < |s| && s[n + 1] == NEWLINE then 2 else 1;
        [s[..n]] + Lines(s[n + width..])
  }

  /** Each kind of line break ends a line, a carriage return together with a newline after it; an end without one
      ends the last line. */
  lemma LinesEndAtBreaks(line: Text, rest: Text, c: CodePoint)
    requires NoBreaks(line)
    ensures Lines(line) == if line == [] then [] else [line]
    ensures LineBreak(c) <==> c in {'\n' as int, '\r' as int, 0xB, 0xC, 0x1C, 0x1D, 0x1E, 0x85, 0x2028, 0x2029}
    ensures LineBreak(c) && !(c == '\r' as int && T.Points("\n") <= rest) ==>
              Lines(line + [c] + rest) == [line] + Lines(rest)
    ensures Lines(line + T.Points("\r\n") + rest) == [line] + Lines(rest)
  {
    var n := |line|;
    if line != [] {
      assert FirstBreak(line) == n;
    }
    if LineBreak(c) && !(c == '\r' as int && T.Points("\n") <= rest) {
      LineEndsAt(line, rest, c);
    }
    ReturnAndNewlineEndOne(line, rest);
  }

  lemma LineEndsAt(line: Text, rest: Text, c: CodePoint)
    requires NoBreaks(line) && LineBreak(c) && !(c == RETURN && rest != [] && rest[0] == NEWLINE)
    ensures Lines(line + [c] + rest) == [line] + Lines(rest)
  {
    var s := line + [c] + rest;
    assert s[..|line|] == line && s[|line|] == c && s[|line| + 1..] == rest;
    FirstBreakAt(s, |line|);
  }

  lemma ReturnAndNewlineEndOne(line: Text, rest: Text)
    requires NoBreaks(line)
    ensures Lines(line + T.Points("\r\n") + rest) == [line] + Lines(rest)
  {
    var s := line + T.Points("\r\n") + rest;
    var n := |line|;
    assert T.Points("\r\n") == [RETURN, NEWLINE];
    assert s[..n] == line && s[n] == RETURN && s[n + 1] == NEWLINE && s[n + 2..] == rest;
    FirstBreakAt(s, n);
  }

  function FirstEquals(s: Text): (n: nat)
    ensures n <= |s| && EQUALS !in s[..n] && (n < |s| ==> s[n] == EQUALS)
  {
    if s == [] || s[0] == EQUALS then 0 else 1 + FirstEquals(s[1..])
  }

  /** What one line assigns; blank lines, comments and lines without "=" assign nothing. */
  function Assignment(line: Text): Option<Pair> {
    var s := Strip(line);
    if s == [] || s[0] == HASH || FirstEquals(s) == |s| then None
    else Some(Pair(Strip(s[..FirstEquals(s)]), Strip(s[FirstEquals(s) + 1..])))
  }

  /** A blank line, a comment and a line without "=" assign nothing; others are split at their first "=". */
  lemma AssignmentSplitsAtEquals(line: Text) returns (at: nat)
    ensures Assignment(line) == None
       <==> Blank(line) || T.Points("#") <= Strip(line) || '=' as int !in Strip(line)
    ensures Assignment(line).Some? ==>
              var s := Strip(line);
              && at < |s| && s[at] == '=' as int && '=' as int !in s[..at]
              && Assignment(line).value == Pair(Strip(s[..at]), Strip(s[at + 1..]))
  {
    StripLeavesNothingIffBlank(line);
    at := FirstEquals(Strip(line));
    assert Strip(line)[..|Strip(line)|] == Strip(line);
  }

  function Parsed(lines: seq<Text>): Dict {
    if lines == [] then []
    else
      var before := Parsed(lines[..|lines| - 1]);
      match Assignment(lines[|lines| - 1])
      case None => before
      case Some(p) => Put(before, p)
  }

  /** The value of the last line that assigns the key. */
  function LastAssigned(lines: seq<Text>, key: Text): Option<Text> {
    if lines == [] then None
    else
      var last := Assignment(lines[|lines| - 1]);
      if last.Some? && last.value.key == key then Some(last.value.value)
      else LastAssigned(lines[..|lines| - 1], key)
  }

  lemma PutSetsOneKey(d: Dict, p: Pair, key: Text)
    ensures Lookup(Put(d, p), key) == if key == p.key then Some(p.value) else Lookup(d, key)
  {
    var r := Put(d, p);
    var n, m := Position(d, key), Position(r, key);
    assert forall i :: 0 <= i < |d| ==> r[i].key == d[i].key;
    if n < |d| {
      assert r[n].key == key && m <= n;
      assert d[m].key == r[m].key;
    } else if key == p.key {
      assert r[n] == p && m <= n;
    }
  }

  /** Of several assignments to a key the last one counts. */
  lemma {:induction false} LastAssignmentWins(lines: seq<Text>, key: Text)
    ensures Lookup(Parsed(lines), key) == LastAssigned(lines, key)
  {
    if lines != [] {
      var front := lines[..|lines| - 1];
      LastAssignmentWins(front, key);
      var last := Assignment(lines[|lines| - 1]);
      if last.Some? {
        PutSetsOneKey(Parsed(front), last.value, key);
      }
    }
  }

  function Line(p: Pair): Text {
    p.key + [EQUALS] + p.value
  }

  function Rendered(d: seq<Pair>): Text {
    if d == [] then [] else Line(d[0]) + [NEWLINE] + Rendered(d[1..])
  }

  /** A written dictionary is one line for each pair, in order: the key, "=", the value. */
  lemma {:induction false} RenderedLineByLine(d: seq<Pair>, p: Pair)
    ensures Rendered([]) == []
    ensures Rendered(d + [p]) == Rendered(d) + p.key + T.Points("=") + p.value + T.Points("\n")
  {
    if d == [] {
      assert [p][1..] == [];
    } else {
      assert (d + [p])[1..] == d[1..] + [p];
      RenderedLineByLine(d[1..], p);
    }
  }

  // ----- The file -----

  class EnvFile {
    /** The decoded text of the file, and of its last backup; None when there is none. */
    var content: Option<Text>
    var backup: Option<Text>

    constructor (text: Option<Text>)
      ensures content == text && backup == None
    {
      content, backup := text, None;
    }

    /** read_env_file. */
    method Read() returns (values: Dict)
      ensures values == if content.None? then [] else Parsed(Lines(content.value))
    {
      values := [];
      if content.None? {
        return;
      }
      var lines := Lines(content.value);
      for i := 0 to |lines|
        invariant values == Parsed(lines[..i])
      {
        assert lines[..i + 1][..i] == lines[..i];
        var stripped := Strip(lines[i]);
        if stripped == [] || stripped[0] == HASH {
          continue;
        }
        var at := FirstEquals(stripped);
        if at == |stripped| {
          continue;
        }
        values := Put(values, Pair(Strip(stripped[..at]), Strip(stripped[at + 1..])));
      }
      assert lines[..|lines|] == lines;
    }

    /** write_env_file: a text that has no UTF-8 form fails before the file is replaced. */
    method Write(values: Dict) returns (r: Result<(), Error>)
      modifies this
      ensures r.Success? <==> Encodable(Rendered(values))
      ensures content == if r.Success? then Some(Rendered(values)) else old(content)
      ensures backup == if old(content).Some? then old(content) else old(backup)
    {
      if content.Some? {
        backup := content;
      }
      var text := Rendered(values);
      if !Encodable(text) {
        return Failure(UnicodeEncodeError);
      }
      content := Some(text);
      r := Success(());
    }
  }

  // ----- The normal form -----

  predicate Clean(p: Pair) {
    && Stripped(p.key) && Stripped(p.value)
    && NoBreaks(p.key) && NoBreaks(p.value)
    && EQUALS !in p.key
    && (p.key != [] ==> p.key[0] != HASH)
  }

  predicate AllClean(d: seq<Pair>) {
    forall p <- d :: Clean(p)
  }

  lemma FirstBreakAt(s: Text, n: nat)
    requires n < |s| && NoBreaks(s[..n]) && LineBreak(s[n])
    ensures FirstBreak(s) == n
  {
  }

  lemma FirstEqualsAt(s: Text, n: nat)
    requires n < |s| && EQUALS !in s[..n] && s[n] == EQUALS
    ensures FirstEquals(s) == n
  {
  }

  lemma CleanLineReadsBack(p: Pair)
    requires Clean(p)
    ensures Assignment(Line(p)) == Some(p) && NoBreaks(Line(p))
  {
    var s := Line(p);
    var n := |p.key|;
    assert s[..n] == p.key && s[n] == EQUALS && s[n + 1..] == p.value;
    StripKeepsStripped(s);
    FirstEqualsAt(s, n);
    StripKeepsStripped(p.key);
    StripKeepsStripped(p.value);
  }

  lemma LinesOfFirst(line: Text, rest: Text)
    requires NoBreaks(line)
    ensures Lines(line + [NEWLINE] + rest) == [line] + Lines(rest)
  {
    var s := line + [NEWLINE] + rest;
    var n := |line|;
    assert s[..n] == line && s[n] == NEWLINE && s[n + 1..] == rest;
    FirstBreakAt(s, n);
  }

  function RenderedLines(d: seq<Pair>): (r: seq<Text>)
    ensures |r| == |d|
  {
    seq(|d|, i requires 0 <= i < |d| => Line(d[i]))
  }

  lemma {:induction false} RenderedHasTheLines(d: seq<Pair>)
    requires AllClean(d)
    ensures Lines(Rendered(d)) == RenderedLines(d)
  {
    if d != [] {
      CleanLineReadsBack(d[0]);
      LinesOfFirst(Line(d[0]), Rendered(d[1..]));
      RenderedHasTheLines(d[1..]);
      assert RenderedLines(d) == [Line(d[0])] + RenderedLines(d[1..]);
    }
  }

  lemma {:induction false} ParsedRenderedLines(d: Dict)
    requires AllClean(d)
    ensures Parsed(RenderedLines(d)) == d
  {
    if d != [] {
      var n := |d| - 1;
      var front: Dict := d[..n];
      ParsedRenderedLines(front);
      assert RenderedLines(d)[..n] == RenderedLines(front);
      CleanLineReadsBack(d[n]);
      assert Position(front, d[n].key) == n;
      assert d[..n] + [d[n]] == d;
    }
  }

  lemma SliceKeeps(s: Text, i: nat, j: nat)
    requires i <= j <= |s|
    ensures NoBreaks(s) ==> NoBreaks(s[i..j])
    ensures Encodable(s) ==> Encodable(s[i..j])
    ensures EQUALS !in s ==> EQUALS !in s[i..j]
  {
    assert forall k :: 0 <= k < j - i ==> s[i..j][k] == s[i + k];
  }

  lemma StripKeeps(s: Text)
    ensures NoBreaks(s) ==> NoBreaks(Strip(s))
    ensures Encodable(s) ==> Encodable(Strip(s))
    ensures EQUALS !in s ==> EQUALS !in Strip(s)
  {
    var i, j := StripSplits(s);
    SliceKeeps(s, i, j);
  }

  lemma HeadOfStrip(s: Text, n: nat)
    requires n <= |s| && (s == [] || !Space(s[0]))
    ensures Strip(s[..n]) != [] ==> Strip(s[..n])[0] == s[0]
  {
    RightStripSplits(s[..n]);
  }

  lemma PartIsClean(s: Text, i: nat, j: nat)
    requires i <= j <= |s| && NoBreaks(s)
    ensures Stripped(Strip(s[i..j])) && NoBreaks(Strip(s[i..j]))
    ensures Encodable(s) ==> Encodable(Strip(s[i..j]))
    ensures EQUALS !in s[i..j] ==> EQUALS !in Strip(s[i..j])
  {
    SliceKeeps(s, i, j);
    StripKeeps(s[i..j]);
    StripIsStripped(s[i..j]);
  }

  /** Whatever a line holds, what it assigns is clean. */
  lemma AssignedIsClean(line: Text)
    requires NoBreaks(line) && Assignment(line).Some?
    ensures Clean(Assignment(line).value)
    ensures Encodable(line) ==> Encodable(Line(Assignment(line).value))
  {
    var s := Strip(line);
    var n := FirstEquals(s);
    StripIsStripped(line);
    StripKeeps(line);
    assert s[n + 1..|s|] == s[n + 1..] && s[0..n] == s[..n];
    PartIsClean(s, 0, n);
    PartIsClean(s, n + 1, |s|);
    HeadOfStrip(s, n);
  }

  lemma {:induction false} LinesHaveNoBreaks(s: Text)
    ensures forall line <- Lines(s) :: NoBreaks(line) && (Encodable(s) ==> Encodable(line))
  {
    if s != [] {
      var n := FirstBreak(s);
      if n == |s| {
        assert s[..n] == s;
      } else {
        var width := if s[n] == RETURN && n + 1 < |s| && s[n + 1] == NEWLINE then 2 else 1;
        SliceKeeps(s, n + width, |s|);
        assert s[n + width..|s|] == s[n + width..];
        LinesHaveNoBreaks(s[n + width..]);
      }
    }
  }

  predicate AllEncodable(d: seq<Pair>) {
    forall p <- d :: Encodable(Line(p))
  }

  lemma {:induction false} ParsedIsClean(lines: seq<Text>)
    requires forall line <- lines :: NoBreaks(line)
    ensures AllClean(Parsed(lines))
    ensures (forall line <- lines :: Encodable(line)) ==> AllEncodable(Parsed(lines))
  {
    if lines != [] {
      var n := |lines| - 1;
      ParsedIsClean(lines[..n]);
      if Assignment(lines[n]).Some? {
        AssignedIsClean(lines[n]);
      }
    }
  }

  lemma {:induction false} RenderedIsEncodable(d: seq<Pair>)
    requires AllEncodable(d)
    ensures Encodable(Rendered(d))
  {
    if d != [] {
      RenderedIsEncodable(d[1..]);
    }
  }

  /** Writing what was read from any decoded file succeeds, and reading it again changes nothing. */
  lemma ReadWriteReadIsRead(content: Text)
    requires Encodable(content)
    ensures var values := Parsed(Lines(content));
            Encodable(Rendered(values)) && Parsed(Lines(Rendered(values))) == values
  {
    LinesHaveNoBreaks(content);
    ParsedIsClean(Lines(content));
    RenderedIsEncodable(Parsed(Lines(content)));
    RenderedHasTheLines(Parsed(Lines(content)));
    ParsedRenderedLines(Parsed(Lines(content)));
  }

  /** Exactly the clean dictionaries come back as they were written. */
  lemma WriteReadRestoresIffClean(d: Dict)
    ensures Parsed(Lines(Rendered(d))) == d <==> AllClean(d)
  {
    if AllClean(d) {
      RenderedHasTheLines(d);
      ParsedRenderedLines(d);
    } else {
      LinesHaveNoBreaks(Rendered(d));
      ParsedIsClean(Lines(Rendered(d)));
    }
  }
}
