/** The budget arithmetic and assembly of `build_user_prompt` (app/pipeline/classifier.py). */
module PromptBudget {
  import opened Utf8
  import opened Truncation
  import opened Wrappers

  /** `heading`: the block's lines before "Inhalt:", which carry the title and are never cut. */
  datatype Doc = Doc(heading: Text, content: Text)

  datatype Window = Window(numCtx: int, systemTokens: Option<int>, systemChars: int, maxDocChars: int)

  datatype PromptError = ContextTooSmall | Unencodable

  const RESPONSE_RESERVE := 512
  const MIN_CONTEXT_DOC_TOKENS := 100
  const NEWLINE: Text := Points("\n")
  const CONTENT_LABEL: Text := Points("Inhalt:\n")
  const TARGET_TITLE: Text := Points("\n# Zu klassifizierendes Dokument")

  function Digits(n: nat): Text {
    (if n < 10 then [] else Digits(n / 10)) + [48 + n % 10]
  }

  function ContextTitle(count: nat): Text {
    Points("\n# Kontext: ") + Digits(count) + Points(" aehnliche bereits klassifizierte Dokumente")
  }

  function SystemTokens(w: Window): int {
    match w.systemTokens
    case Some(tokens) => tokens
    case None => if w.systemChars == 0 then 0 else Max(1, w.systemChars)
  }

  /** The tokens left for documents, given the encodable fixed sections. */
  function Available(w: Window, entities: Text, instructions: Text): int {
    w.numCtx - RESPONSE_RESERVE - SystemTokens(w)
    - (Tokens(entities) + Tokens(instructions) + 50)
  }

  /** What each part of the prompt may spend: `kept` context documents of `perDoc` bytes each. */
  datatype Budget = Budget(target: nat, perDoc: nat, kept: nat)

  function DocBudget(available: nat): nat {
    available * 85 / 100
  }

  /** Documents may spend 85 per cent of what is available, and not a byte less. */
  lemma DocBudgetIs85PerCent(available: nat)
    ensures 100 * DocBudget(available) <= 85 * available < 100 * (DocBudget(available) + 1)
  {
  }

  function BudgetFor(available: nat, contextDocs: nat): (b: Budget)
    ensures b.kept <= contextDocs
  {
    var all := DocBudget(available);
    var target := all * 6 / 10;
    var kept := Min(contextDocs, (all - target) / MIN_CONTEXT_DOC_TOKENS);
    if kept == 0 then Budget(all, 0, 0) else Budget(target, (all - target) / kept, kept)
  }

  function Min(a: nat, b: nat): nat {
    if a < b then a else b
  }

  lemma ShareIsEnoughIff(budget: nat, docs: nat)
    requires docs > 0
    ensures budget / docs >= 100 <==> docs <= budget / 100
    ensures docs * (budget / docs) <= budget
  {
    var share := budget / docs;
    assert budget == docs * share + budget % docs;
    if share >= 100 {
      assert docs * share >= docs * 100;
    } else {
      assert docs * share <= docs * 99;
    }
  }

  /** The parts never spend more than the document budget, and no kept document gets under 100 bytes. */
  lemma BudgetsStayWithinDocBudget(available: nat, contextDocs: nat)
    ensures var b := BudgetFor(available, contextDocs);
            && b.target + b.kept * b.perDoc <= DocBudget(available) <= available
            && (b.kept > 0 ==> b.perDoc >= MIN_CONTEXT_DOC_TOKENS)
            && (b.kept < contextDocs ==>
                  (DocBudget(available) - DocBudget(available) * 6 / 10) / (b.kept + 1) < MIN_CONTEXT_DOC_TOKENS)
  {
    var all := DocBudget(available);
    var share := all - all * 6 / 10;
    var kept := BudgetFor(available, contextDocs).kept;
    ShareIsEnoughIff(share, kept + 1);
    if kept > 0 {
      ShareIsEnoughIff(share, kept);
    }
  }

  /**
   * With context documents the target gets 60 per cent of the document budget and each of them an equal part of the
   * rest; as many are kept as can have 100 bytes each. Without any the target gets everything.
   */
  lemma BudgetIsSplit(available: nat, contextDocs: nat)
    ensures var b, all := BudgetFor(available, contextDocs), DocBudget(available);
            if b.kept == 0 then b.target == all && b.perDoc == 0 && (contextDocs == 0 || all - all * 6 / 10 < 100)
            else
              && 10 * b.target <= 6 * all < 10 * (b.target + 1)
              && b.kept * b.perDoc <= all - b.target < b.kept * (b.perDoc + 1)
              && b.perDoc >= 100
              && (b.kept == contextDocs || all - b.target < 100 * (b.kept + 1))
  {
    var b, all := BudgetFor(available, contextDocs), DocBudget(available);
    if b.kept > 0 {
      ShareIsEnoughIff(all - b.target, b.kept);
      SharesFillTheRest(all - b.target, b.kept);
    }
  }

  lemma SharesFillTheRest(rest: nat, n: nat)
    requires n > 0
    ensures n * (rest / n) <= rest < n * (rest / n + 1)
  {
    var share := rest / n;
    assert rest == n * share + rest % n;
    assert n * (share + 1) == n * share + n;
  }

  /** The drop loop keeps exactly the leading documents that can each have 100 bytes. */
  method SelectContext(docs: seq<Doc>, contextBudget: nat) returns (active: seq<Doc>)
    ensures active == docs[..Min(|docs|, contextBudget / MIN_CONTEXT_DOC_TOKENS)]
  {
    active := docs;
    while active != []
      invariant active <= docs
      invariant Min(|docs|, contextBudget / MIN_CONTEXT_DOC_TOKENS) <= |active|
    {
      ShareIsEnoughIff(contextBudget, |active|);
      if contextBudget / |active| >= MIN_CONTEXT_DOC_TOKENS {
        break;
      }
      active := active[..|active| - 1];
    }
  }

  function Block(doc: Doc, maxDocChars: int, maxBytes: int): Result<Text, PromptError> {
    match Truncate(doc.content, maxDocChars, maxBytes)
    case Success(content) => Success(doc.heading + CONTENT_LABEL + content + NEWLINE)
    case Failure(_) => Failure(Unencodable)
  }

  function Blocks(docs: seq<Doc>, maxDocChars: int, maxBytes: int): (r: Result<seq<Text>, PromptError>)
    ensures r.Success? ==> |r.value| == |docs|
  {
    if docs == [] then Success([])
    else
      var before := Blocks(docs[..|docs| - 1], maxDocChars, maxBytes);
      var last := Block(docs[|docs| - 1], maxDocChars, maxBytes);
      if before.Failure? || last.Failure? then Failure(Unencodable) else Success(before.value + [last.value])
  }

  function Joined(sections: seq<Text>): Text {
    if sections == [] then []
    else if |sections| == 1 then sections[0]
    else Joined(sections[..|sections| - 1]) + NEWLINE + sections[|sections| - 1]
  }

  /** The prompt of the kept context documents and the target under a budget. */
  function Assembled(b: Budget, w: Window, entities: Text, instructions: Text, target: Doc, kept: seq<Doc>)
    : Result<Text, PromptError>
  {
    var context := Blocks(kept, w.maxDocChars, b.perDoc);
    var last := Block(target, w.maxDocChars, b.target);
    if context.Failure? || last.Failure? then Failure(Unencodable)
    else
      var heads := if kept == [] then [entities] else [entities, ContextTitle(|kept|)];
      Success(Joined(heads + context.value + [TARGET_TITLE, last.value, instructions]))
  }

  function Prompt(w: Window, entities: Text, instructions: Text, target: Doc, docs: seq<Doc>)
    : Result<Text, PromptError>
  {
    if !Encodable(entities) || !Encodable(instructions) then Failure(Unencodable)
    else if Available(w, entities, instructions) < 200 then Failure(ContextTooSmall)
    else
      var b := BudgetFor(Available(w, entities, instructions), |docs|);
      Assembled(b, w, entities, instructions, target, docs[..b.kept])
  }

  method BuildUserPrompt(w: Window, entities: Text, instructions: Text, target: Doc, docs: seq<Doc>)
    returns (r: Result<Text, PromptError>)
    ensures r == Prompt(w, entities, instructions, target, docs)
  {
    if !Encodable(entities) || !Encodable(instructions) {
      return Failure(Unencodable);
    }
    var available := Available(w, entities, instructions);
    if available < 200 {
      return Failure(ContextTooSmall);
    }
    var targetBytes, contextBytes, active := SplitBudget(DocBudget(available), docs);
    ghost var b := BudgetFor(available, |docs|);
    assert active == docs[..b.kept] && targetBytes == b.target && contextBytes == b.perDoc;
    var sections := [entities];
    if active != [] {
      sections := sections + [ContextTitle(|active|)];
    }
    var context := ContextBlocks(active, w.maxDocChars, contextBytes);
    var last := Block(target, w.maxDocChars, targetBytes);
    if context.Failure? || last.Failure? {
      return Failure(Unencodable);
    }
    assert sections == if active == [] then [entities] else [entities, ContextTitle(|active|)];
    sections := sections + context.value + [TARGET_TITLE, last.value, instructions];
    r := Success(Joined(sections));
    assert r == Assembled(b, w, entities, instructions, target, docs[..b.kept]);
  }

  method ContextBlocks(active: seq<Doc>, maxDocChars: int, maxBytes: int) returns (r: Result<seq<Text>, PromptError>)
    ensures r == Blocks(active, maxDocChars, maxBytes)
  {
    var blocks: seq<Text> := [];
    for i := 0 to |active|
      invariant Blocks(active[..i], maxDocChars, maxBytes) == Success(blocks)
    {
      var block := Block(active[i], maxDocChars, maxBytes);
      BlocksStep(active, i, maxDocChars, maxBytes);
      if block.Failure? {
        BlocksFailWithAnyPart(active, i + 1, maxDocChars, maxBytes);
        return Failure(Unencodable);
      }
      blocks := blocks + [block.value];
    }
    assert active[..|active|] == active;
    r := Success(blocks);
  }

  /** The 60/40 split, undone when no context document keeps its share. */
  method SplitBudget(docBudget: nat, docs: seq<Doc>) returns (target: nat, perDoc: nat, active: seq<Doc>)
    ensures active == docs[..Min(|docs|, (docBudget - docBudget * 6 / 10) / MIN_CONTEXT_DOC_TOKENS)]
    ensures active == [] ==> target == docBudget && perDoc == 0
    ensures active != [] ==> target == docBudget * 6 / 10 && perDoc == (docBudget - target) / |active|
  {
    target, perDoc, active := docBudget, 0, docs;
    if active != [] {
      target := docBudget * 6 / 10;
      var contextBudget := docBudget - target;
      active := SelectContext(docs, contextBudget);
      if active == [] {
        target := docBudget;
      } else {
        perDoc := contextBudget / |active|;
      }
    }
  }

  lemma BlocksStep(docs: seq<Doc>, i: nat, maxDocChars: int, maxBytes: int)
    requires i < |docs|
    ensures var before := Blocks(docs[..i], maxDocChars, maxBytes);
            var last := Block(docs[i], maxDocChars, maxBytes);
            Blocks(docs[..i + 1], maxDocChars, maxBytes)
            == if before.Failure? || last.Failure? then Failure(Unencodable) else Success(before.value + [last.value])
  {
    assert docs[..i + 1][..i] == docs[..i];
  }

  lemma {:induction false} BlocksFailWithAnyPart(docs: seq<Doc>, i: nat, maxDocChars: int, maxBytes: int)
    requires i <= |docs| && Blocks(docs[..i], maxDocChars, maxBytes).Failure?
    ensures Blocks(docs, maxDocChars, maxBytes) == Failure(Unencodable)
  {
    if i == |docs| {
      assert docs[..i] == docs;
    } else {
      assert docs[..|docs| - 1][..i] == docs[..i];
      BlocksFailWithAnyPart(docs[..|docs| - 1], i, maxDocChars, maxBytes);
    }
  }

  // ----- The size of the prompt -----

  function Size(t: Text): nat {
    |Encode(t)|
  }

  function TotalSize(sections: seq<Text>): nat {
    if sections == [] then 0 else TotalSize(sections[..|sections| - 1]) + Size(sections[|sections| - 1])
  }

  lemma {:induction false} JoinedSize(sections: seq<Text>)
    requires sections != []
    ensures Size(Joined(sections)) == TotalSize(sections) + |sections| - 1
  {
    if |sections| == 1 {
      assert TotalSize(sections[..0]) == 0;
    } else {
      var front := sections[..|sections| - 1];
      JoinedSize(front);
      EncodeConcat(Joined(front) + NEWLINE, sections[|sections| - 1]);
      EncodeConcat(Joined(front), NEWLINE);
      AsciiTakesOneByteEach(NEWLINE);
    }
  }

  lemma {:induction false} TotalSizeConcat(a: seq<Text>, b: seq<Text>)
    ensures TotalSize(a + b) == TotalSize(a) + TotalSize(b)
  {
    if b == [] {
      assert a + b == a;
    } else {
      assert (a + b)[..|a + b| - 1] == a + b[..|b| - 1];
      TotalSizeConcat(a, b[..|b| - 1]);
    }
  }

  /** The bytes of a block besides its content: heading, label and newline. */
  function BlockFrame(doc: Doc): nat {
    Size(doc.heading) + 8 + 1
  }

  /** The same for all context blocks, with the newline that joins each of them. */
  function FrameAll(docs: seq<Doc>): nat {
    if docs == [] then 0 else FrameAll(docs[..|docs| - 1]) + BlockFrame(docs[|docs| - 1]) + 1
  }

  /** What is left of a document's content, in bytes; nothing if it cannot be encoded. */
  function ContentSize(doc: Doc, maxDocChars: int, maxBytes: int): nat {
    match Truncate(doc.content, maxDocChars, maxBytes)
    case Success(content) => Size(content)
    case Failure(_) => 0
  }

  function ContentsSize(docs: seq<Doc>, maxDocChars: int, maxBytes: int): nat {
    if docs == [] then 0
    else ContentsSize(docs[..|docs| - 1], maxDocChars, maxBytes) + ContentSize(docs[|docs| - 1], maxDocChars, maxBytes)
  }

  lemma LabelBytes()
    ensures Size(CONTENT_LABEL) == 8 && Size(NEWLINE) == 1
  {
    assert forall c :: c in "Inhalt:\n" ==> c as int < 0x80;
    AsciiTakesOneByteEach(CONTENT_LABEL);
    AsciiTakesOneByteEach(NEWLINE);
  }

  lemma BlockSize(doc: Doc, maxDocChars: int, maxBytes: int, block: Text)
    requires Block(doc, maxDocChars, maxBytes) == Success(block)
    ensures Size(block) == BlockFrame(doc) + ContentSize(doc, maxDocChars, maxBytes)
  {
    FourParts(doc.heading, Truncate(doc.content, maxDocChars, maxBytes).value);
  }

  lemma FourParts(heading: Text, content: Text)
    ensures Size(heading + CONTENT_LABEL + content + NEWLINE) == Size(heading) + 8 + Size(content) + 1
  {
    LabelBytes();
    EncodeConcat(heading + CONTENT_LABEL + content, NEWLINE);
    EncodeConcat(heading + CONTENT_LABEL, content);
    EncodeConcat(heading, CONTENT_LABEL);
  }

  lemma {:induction false} BlocksSize(docs: seq<Doc>, maxDocChars: int, maxBytes: int)
    requires Blocks(docs, maxDocChars, maxBytes).Success?
    ensures TotalSize(Blocks(docs, maxDocChars, maxBytes).value) + |docs|
            == FrameAll(docs) + ContentsSize(docs, maxDocChars, maxBytes)
  {
    if docs != [] {
      var n := |docs| - 1;
      BlocksStep(docs, n, maxDocChars, maxBytes);
      assert docs[..n + 1] == docs;
      BlocksSize(docs[..n], maxDocChars, maxBytes);
      var last := Block(docs[n], maxDocChars, maxBytes).value;
      BlockSize(docs[n], maxDocChars, maxBytes, last);
      LastTotal(Blocks(docs[..n], maxDocChars, maxBytes).value, last);
    }
  }

  lemma LastTotal(before: seq<Text>, last: Text)
    ensures TotalSize(before + [last]) == TotalSize(before) + Size(last)
  {
    assert (before + [last])[..|before|] == before;
  }

  /** Everything the prompt holds besides the fixed sections and the contents. */
  function Frame(target: Doc, kept: seq<Doc>): nat {
    (if kept == [] then 0 else Size(ContextTitle(|kept|)) + 1) + FrameAll(kept)
    + Size(TARGET_TITLE) + BlockFrame(target) + 3
  }

  /** ... and the markers, one for each document. */
  function Overhead(target: Doc, kept: seq<Doc>): nat {
    Frame(target, kept) + 19 * (|kept| + 1)
  }

  /** The prompt's exact size. */
  lemma AssembledSize(b: Budget, w: Window, entities: Text, instructions: Text, target: Doc, kept: seq<Doc>, p: Text)
    requires Assembled(b, w, entities, instructions, target, kept) == Success(p)
    ensures Size(p) == Size(entities) + Size(instructions) + Frame(target, kept)
                       + ContentSize(target, w.maxDocChars, b.target) + ContentsSize(kept, w.maxDocChars, b.perDoc)
  {
    var context := Blocks(kept, w.maxDocChars, b.perDoc).value;
    var last := Block(target, w.maxDocChars, b.target).value;
    var heads := if kept == [] then [entities] else [entities, ContextTitle(|kept|)];
    BlocksSize(kept, w.maxDocChars, b.perDoc);
    BlockSize(target, w.maxDocChars, b.target, last);
    JoinedTotal(heads, context, TARGET_TITLE, last, instructions);
    ShortTotals(entities, ContextTitle(|kept|));
  }

  lemma JoinedTotal(heads: seq<Text>, context: seq<Text>, a: Text, b: Text, c: Text)
    ensures Size(Joined(heads + context + [a, b, c]))
            == TotalSize(heads) + TotalSize(context) + Size(a) + Size(b) + Size(c) + |heads| + |context| + 2
  {
    JoinedSize(heads + context + [a, b, c]);
    TotalSizeConcat(heads + context, [a, b, c]);
    TotalSizeConcat(heads, context);
    ThreeTotal(a, b, c);
  }

  lemma ShortTotals(a: Text, b: Text)
    ensures TotalSize([a]) == Size(a)
    ensures TotalSize([a, b]) == Size(a) + Size(b)
  {
    assert [a][..0] == [] && [a, b][..1] == [a];
  }

  lemma ThreeTotal(a: Text, b: Text, c: Text)
    ensures TotalSize([a, b, c]) == Size(a) + Size(b) + Size(c)
  {
    ShortTotals(a, b);
    assert [a, b, c][..2] == [a, b];
  }

  // ----- When it fits -----

  /** A marker never adds more than 19 bytes to a budget. */
  lemma ContentBound(doc: Doc, maxDocChars: int, maxBytes: nat)
    ensures ContentSize(doc, maxDocChars, maxBytes) <= maxBytes + 19
  {
    var r := Truncate(doc.content, maxDocChars, maxBytes);
    if r.Success? {
      TruncatedSize(doc.content, maxDocChars, maxBytes, r.value);
    }
  }

  lemma {:induction false} ContentsBound(docs: seq<Doc>, maxDocChars: int, maxBytes: nat)
    ensures ContentsSize(docs, maxDocChars, maxBytes) <= |docs| * maxBytes + |docs| * 19
  {
    if docs != [] {
      var n := |docs| - 1;
      ContentsBound(docs[..n], maxDocChars, maxBytes);
      ContentBound(docs[n], maxDocChars, maxBytes);
      OneMore(n, maxBytes);
    }
  }

  lemma OneMore(n: nat, k: nat)
    ensures (n + 1) * k == n * k + k
  {
  }

  predicate Fits(w: Window, p: Text) {
    SystemTokens(w) + Tokens(p) + RESPONSE_RESERVE <= w.numCtx
  }

  /**
   * If headings, labels and markers fit into the headroom of 50 tokens and 15 per cent, then the
   * system prompt, the user prompt and the response reserve fit into the model's window together.
   */
  lemma PromptFitsTheWindow(w: Window, entities: Text, instructions: Text, target: Doc, docs: seq<Doc>)
    ensures var p := Prompt(w, entities, instructions, target, docs);
            var available := Available(w, entities, instructions);
            && p.Success?
            && Overhead(target, docs[..BudgetFor(available, |docs|).kept]) <= 50 + available - DocBudget(available)
            ==> Fits(w, p.value)
  {
    var p := Prompt(w, entities, instructions, target, docs);
    if p.Success? {
      var available := Available(w, entities, instructions);
      var b := BudgetFor(available, |docs|);
      BudgetsStayWithinDocBudget(available, |docs|);
      AssembledWithinOverhead(b, w, entities, instructions, target, docs[..b.kept], p.value);
    }
  }

  lemma AssembledWithinOverhead(b: Budget, w: Window, entities: Text, instructions: Text, target: Doc,
                                kept: seq<Doc>, p: Text)
    requires |kept| == b.kept && Assembled(b, w, entities, instructions, target, kept) == Success(p)
    ensures Size(p) <= Size(entities) + Size(instructions) + Overhead(target, kept) + b.target + b.kept * b.perDoc
  {
    AssembledSize(b, w, entities, instructions, target, kept, p);
    ContentBound(target, w.maxDocChars, b.target);
    ContentsBound(kept, w.maxDocChars, b.perDoc);
  }

  /** The condition is needed: a title is never cut, so one longer than the window overflows it. */
  lemma LongTitleOverflows(w: Window, entities: Text, instructions: Text, target: Doc, docs: seq<Doc>, p: Text)
    requires Prompt(w, entities, instructions, target, docs) == Success(p)
    requires Size(target.heading) > w.numCtx
    ensures Tokens(p) > w.numCtx
  {
    var b := BudgetFor(Available(w, entities, instructions), |docs|);
    AssembledSize(b, w, entities, instructions, target, docs[..b.kept], p);
  }

  // ----- The worst contents -----

  /**
   * The most that truncation can leave of any content. A content that is longer than the character
   * cap and fits the byte cap gets the marker on top; with more characters than bytes allowed, it
   * cannot do both.
   */
  function LargestContent(maxDocChars: int, maxBytes: nat): nat {
    if maxDocChars < 0 then maxBytes + 19
    else if maxDocChars <= maxBytes then Min(4 * maxDocChars, maxBytes) + 19
    else if maxBytes < 19 then 19
    else maxBytes
  }

  lemma {:induction false} WidthBounds(t: Text)
    ensures |t| <= Size(t) <= 4 * |t|
  {
    if t != [] {
      WidthBounds(t[1..]);
    }
  }

  lemma ContentWithinLargest(doc: Doc, maxDocChars: int, maxBytes: nat)
    ensures ContentSize(doc, maxDocChars, maxBytes) <= LargestContent(maxDocChars, maxBytes)
  {
    var head := Head(doc.content, maxDocChars);
    WidthBounds(head);
    if Encodable(head) {
      if Size(head) > maxBytes {
        CutSize(doc.content, maxDocChars, maxBytes);
      } else {
        MarkedLength(head);
      }
    }
  }

  /** Cut by bytes, a content takes no more than its cap, or nothing but the marker. */
  lemma CutSize(text: Text, maxDocChars: int, maxBytes: nat)
    requires Encodable(Head(text, maxDocChars)) && Size(Head(text, maxDocChars)) > maxBytes
    ensures Truncate(text, maxDocChars, maxBytes).Success?
    ensures Size(Truncate(text, maxDocChars, maxBytes).value) <= if maxBytes < 19 then 19 else maxBytes
  {
    var head := Head(text, maxDocChars);
    var m := FittingChars(head, Truncation.Max(0, maxBytes - 19));
    CutKeepsLongestPrefix(text, maxDocChars, maxBytes);
    MarkedLength(head[..m]);
  }

  lemma {:induction false} ContentsWithinLargest(docs: seq<Doc>, maxDocChars: int, maxBytes: nat)
    ensures ContentsSize(docs, maxDocChars, maxBytes) <= |docs| * LargestContent(maxDocChars, maxBytes)
  {
    if docs != [] {
      var n := |docs| - 1;
      ContentsWithinLargest(docs[..n], maxDocChars, maxBytes);
      ContentWithinLargest(docs[n], maxDocChars, maxBytes);
      OneMore(n, LargestContent(maxDocChars, maxBytes));
    }
  }

  /** A character of the given width that is no surrogate. */
  function CharOf(width: nat): CodePoint {
    if width <= 1 then 0x78 else if width == 2 then 0xE4 else if width == 3 then 0x20AC else 0x1F4C4
  }

  /** A text of exactly so many characters and bytes. */
  function Sized(chars: nat, bytes: nat): (t: Text)
    requires chars <= bytes <= 4 * chars
    ensures |t| == chars && Size(t) == bytes && Encodable(t)
    decreases chars
  {
    if chars == 0 then []
    else
      var width := Min(4, bytes - (chars - 1));
      [CharOf(width)] + Sized(chars - 1, bytes - width)
  }

  /** The content that truncation leaves most of. */
  function Worst(maxDocChars: int, maxBytes: nat): Text {
    if maxDocChars < 0 then Sized(maxBytes, maxBytes) + Sized(-maxDocChars, -maxDocChars)
    else if maxDocChars <= maxBytes then Sized(maxDocChars, Min(4 * maxDocChars, maxBytes)) + Sized(1, 1)
    else Sized(maxDocChars, maxDocChars)
  }

  /** The same block with that content. */
  function Filled(doc: Doc, maxDocChars: int, maxBytes: nat): Doc {
    Doc(doc.heading, Worst(maxDocChars, maxBytes))
  }

  lemma FilledSize(doc: Doc, maxDocChars: int, maxBytes: nat)
    ensures Truncate(Filled(doc, maxDocChars, maxBytes).content, maxDocChars, maxBytes).Success?
    ensures ContentSize(Filled(doc, maxDocChars, maxBytes), maxDocChars, maxBytes)
            == LargestContent(maxDocChars, maxBytes)
  {
    if maxDocChars > maxBytes {
      PlainCutSize(maxDocChars, maxBytes);
    } else {
      var kept, rest := if maxDocChars < 0 then Sized(maxBytes, maxBytes)
                        else Sized(maxDocChars, Min(4 * maxDocChars, maxBytes)),
                        if maxDocChars < 0 then Sized(-maxDocChars, -maxDocChars) else Sized(1, 1);
      assert (kept + rest)[..|kept|] == kept;
      assert Head(kept + rest, maxDocChars) == kept;
      MarkedLength(kept);
    }
  }

  /** Characters of one byte each, more of them than the byte cap allows, use the whole cap. */
  lemma PlainCutSize(chars: nat, maxBytes: nat)
    requires chars > maxBytes
    ensures Truncate(Sized(chars, chars), chars, maxBytes).Success?
    ensures Size(Truncate(Sized(chars, chars), chars, maxBytes).value) == if maxBytes < 19 then 19 else maxBytes
  {
    var text := Sized(chars, chars);
    var room := Truncation.Max(0, maxBytes - 19);
    CutKeepsLongestPrefix(text, chars, maxBytes);
    var m := FittingChars(text, room);
    WidthBounds(text[..m]);
    PlainPrefix(chars, room);
    MarkedLength(text[..m]);
  }

  lemma PlainPrefix(chars: nat, n: nat)
    requires n <= chars
    ensures Size(Sized(chars, chars)[..n]) == n
  {
    var text := Sized(chars, chars);
    assert text == text[..n] + text[n..];
    EncodeConcat(text[..n], text[n..]);
    WidthBounds(text[..n]);
    WidthBounds(text[n..]);
  }

  function FilledAll(docs: seq<Doc>, maxDocChars: int, maxBytes: nat): (r: seq<Doc>)
    ensures |r| == |docs|
  {
    seq(|docs|, i requires 0 <= i < |docs| => Filled(docs[i], maxDocChars, maxBytes))
  }

  lemma FilledLast(docs: seq<Doc>, maxDocChars: int, maxBytes: nat)
    requires docs != []
    ensures var n, all := |docs| - 1, FilledAll(docs, maxDocChars, maxBytes);
            all[..n] == FilledAll(docs[..n], maxDocChars, maxBytes) && all[n] == Filled(docs[n], maxDocChars, maxBytes)
  {
  }

  lemma {:induction false} FilledBlocks(docs: seq<Doc>, maxDocChars: int, maxBytes: nat)
    ensures Blocks(FilledAll(docs, maxDocChars, maxBytes), maxDocChars, maxBytes).Success?
  {
    if docs != [] {
      var n := |docs| - 1;
      FilledLast(docs, maxDocChars, maxBytes);
      FilledBlocks(docs[..n], maxDocChars, maxBytes);
      FilledSize(docs[n], maxDocChars, maxBytes);
    }
  }

  lemma {:induction false} FilledContents(docs: seq<Doc>, maxDocChars: int, maxBytes: nat)
    ensures ContentsSize(FilledAll(docs, maxDocChars, maxBytes), maxDocChars, maxBytes)
            == |docs| * LargestContent(maxDocChars, maxBytes)
  {
    if docs != [] {
      var n := |docs| - 1;
      FilledLast(docs, maxDocChars, maxBytes);
      FilledContents(docs[..n], maxDocChars, maxBytes);
      FilledSize(docs[n], maxDocChars, maxBytes);
      OneMore(n, LargestContent(maxDocChars, maxBytes));
    }
  }

  predicate SameHeadings(a: seq<Doc>, b: seq<Doc>) {
    |a| == |b| && forall i :: 0 <= i < |a| ==> a[i].heading == b[i].heading
  }

  lemma {:induction false} FrameOfHeadings(a: seq<Doc>, b: seq<Doc>)
    requires SameHeadings(a, b)
    ensures FrameAll(a) == FrameAll(b)
  {
    if a != [] {
      FrameOfHeadings(a[..|a| - 1], b[..|b| - 1]);
    }
  }

  /** The largest prompt that these headings and caps allow. */
  function LargestPrompt(b: Budget, w: Window, entities: Text, instructions: Text, target: Doc, kept: seq<Doc>): int {
    Size(entities) + Size(instructions) + Frame(target, kept)
    + LargestContent(w.maxDocChars, b.target) + b.kept * LargestContent(w.maxDocChars, b.perDoc)
  }

  lemma SizeByHeadings(b: Budget, w: Window, entities: Text, instructions: Text, target: Doc, kept: seq<Doc>,
                       t: Doc, ts: seq<Doc>, p: Text)
    requires t.heading == target.heading && SameHeadings(ts, kept)
    requires Assembled(b, w, entities, instructions, t, ts) == Success(p)
    ensures Size(p) == Size(entities) + Size(instructions) + Frame(target, kept)
                       + ContentSize(t, w.maxDocChars, b.target) + ContentsSize(ts, w.maxDocChars, b.perDoc)
  {
    AssembledSize(b, w, entities, instructions, t, ts, p);
    FrameOfHeadings(ts, kept);
  }

  lemma AssembledWithinLargest(b: Budget, w: Window, entities: Text, instructions: Text, target: Doc, kept: seq<Doc>,
                               t: Doc, ts: seq<Doc>, p: Text)
    requires |kept| == b.kept && t.heading == target.heading && SameHeadings(ts, kept)
    requires Assembled(b, w, entities, instructions, t, ts) == Success(p)
    ensures Size(p) <= LargestPrompt(b, w, entities, instructions, target, kept)
  {
    SizeByHeadings(b, w, entities, instructions, target, kept, t, ts, p);
    ContentWithinLargest(t, w.maxDocChars, b.target);
    ContentsWithinLargest(ts, w.maxDocChars, b.perDoc);
  }

  /** Every document filled up to its own cap: the target's and that of the context documents. */
  lemma FilledIsLargest(b: Budget, w: Window, entities: Text, instructions: Text, target: Doc, kept: seq<Doc>,
                        t: Doc, ts: seq<Doc>, p: Text)
    requires |kept| == b.kept
    requires t == Filled(target, w.maxDocChars, b.target) && ts == FilledAll(kept, w.maxDocChars, b.perDoc)
    ensures Assembled(b, w, entities, instructions, t, ts) == Success(p) ==>
              Size(p) == LargestPrompt(b, w, entities, instructions, target, kept)
  {
    if Assembled(b, w, entities, instructions, t, ts) == Success(p) {
      SizeByHeadings(b, w, entities, instructions, target, kept, t, ts, p);
      FilledSize(target, w.maxDocChars, b.target);
      FilledContents(kept, w.maxDocChars, b.perDoc);
    }
  }

  lemma FilledIsBuilt(b: Budget, w: Window, entities: Text, instructions: Text, target: Doc, kept: seq<Doc>)
    ensures Assembled(b, w, entities, instructions, Filled(target, w.maxDocChars, b.target),
                      FilledAll(kept, w.maxDocChars, b.perDoc)).Success?
  {
    FilledSize(target, w.maxDocChars, b.target);
    FilledBlocks(kept, w.maxDocChars, b.perDoc);
  }

  lemma FrameOfSameHeadings(t: Doc, ts: seq<Doc>, target: Doc, kept: seq<Doc>)
    requires t.heading == target.heading && SameHeadings(ts, kept)
    ensures Frame(t, ts) == Frame(target, kept)
  {
    FrameOfHeadings(ts, kept);
  }

  /** Whatever the documents contain, the prompt fits if it can be built. */
  ghost predicate AlwaysFits(w: Window, entities: Text, instructions: Text, target: Doc, docs: seq<Doc>) {
    forall t: Doc, ds: seq<Doc> ::
      t.heading == target.heading && SameHeadings(ds, docs) && Prompt(w, entities, instructions, t, ds).Success?
      ==> Fits(w, Prompt(w, entities, instructions, t, ds).value)
  }

  lemma PromptIsAssembled(w: Window, entities: Text, instructions: Text, target: Doc, docs: seq<Doc>)
    requires Encodable(entities) && Encodable(instructions) && Available(w, entities, instructions) >= 200
    ensures var b := BudgetFor(Available(w, entities, instructions), |docs|);
            Prompt(w, entities, instructions, target, docs)
            == Assembled(b, w, entities, instructions, target, docs[..b.kept])
  {
  }

  lemma EveryPromptWithinLargest(w: Window, entities: Text, instructions: Text, target: Doc, docs: seq<Doc>, b: Budget,
                                 t: Doc, ds: seq<Doc>)
    requires Encodable(entities) && Encodable(instructions) && Available(w, entities, instructions) >= 200
    requires b == BudgetFor(Available(w, entities, instructions), |docs|)
    requires t.heading == target.heading && SameHeadings(ds, docs) && Prompt(w, entities, instructions, t, ds).Success?
    ensures Size(Prompt(w, entities, instructions, t, ds).value)
            <= LargestPrompt(b, w, entities, instructions, target, docs[..b.kept])
  {
    PromptIsAssembled(w, entities, instructions, t, ds);
    AssembledWithinLargest(b, w, entities, instructions, target, docs[..b.kept], t, ds[..b.kept],
                           Prompt(w, entities, instructions, t, ds).value);
  }

  lemma LargestPromptIsBuilt(w: Window, entities: Text, instructions: Text, target: Doc, docs: seq<Doc>, b: Budget)
    requires Encodable(entities) && Encodable(instructions) && Available(w, entities, instructions) >= 200
    requires b == BudgetFor(Available(w, entities, instructions), |docs|)
    ensures var t, ds := Filled(target, w.maxDocChars, b.target), FilledAll(docs, w.maxDocChars, b.perDoc);
            && t.heading == target.heading && SameHeadings(ds, docs)
            && Prompt(w, entities, instructions, t, ds).Success?
            && Size(Prompt(w, entities, instructions, t, ds).value)
               == LargestPrompt(b, w, entities, instructions, target, docs[..b.kept])
  {
    var kept := docs[..b.kept];
    var t, ds := Filled(target, w.maxDocChars, b.target), FilledAll(docs, w.maxDocChars, b.perDoc);
    assert ds[..b.kept] == FilledAll(kept, w.maxDocChars, b.perDoc);
    PromptIsAssembled(w, entities, instructions, t, ds);
    FilledIsBuilt(b, w, entities, instructions, target, kept);
    FilledIsLargest(b, w, entities, instructions, target, kept, t, ds[..b.kept],
                    Prompt(w, entities, instructions, t, ds).value);
  }

  /**
   * The exact condition, for every character cap: the prompt fits for all contents of the documents
   * exactly when its largest form does.
   */
  lemma AlwaysFitsIffLargestFits(w: Window, entities: Text, instructions: Text, target: Doc, docs: seq<Doc>, b: Budget)
    requires Encodable(entities) && Encodable(instructions) && Available(w, entities, instructions) >= 200
    requires b == BudgetFor(Available(w, entities, instructions), |docs|)
    ensures AlwaysFits(w, entities, instructions, target, docs)
            <==> SystemTokens(w) + Max(1, LargestPrompt(b, w, entities, instructions, target, docs[..b.kept]))
                 + RESPONSE_RESERVE <= w.numCtx
  {
    LargestPromptIsBuilt(w, entities, instructions, target, docs, b);
    var largest := LargestPrompt(b, w, entities, instructions, target, docs[..b.kept]);
    forall t: Doc, ds: seq<Doc>
      | t.heading == target.heading && SameHeadings(ds, docs) && Prompt(w, entities, instructions, t, ds).Success?
      ensures Size(Prompt(w, entities, instructions, t, ds).value) <= largest
    {
      EveryPromptWithinLargest(w, entities, instructions, target, docs, b, t, ds);
    }
  }
}
