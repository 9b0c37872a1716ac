/** What the prompt says, in order, and when there is none (`build_user_prompt` of app/pipeline/classifier.py). */
module PromptText {
  import opened Utf8
  import opened Truncation
  import opened Wrappers
  import opened PromptBudget

  // ----- The window -----

  /** What the window holds besides documents: the answer, the system prompt, the fixed parts and 50 spare tokens. */
  function Reserved(w: Window, entities: Text, instructions: Text): int {
    512 + 50
    + (match w.systemTokens
       case Some(tokens) => tokens
       case None => if w.systemChars < 0 then 1 else w.systemChars)
    + (if entities == [] then 1 else |Encode(entities)|) + (if instructions == [] then 1 else |Encode(instructions)|)
  }

  lemma AvailableIsTheRest(w: Window, entities: Text, instructions: Text)
    requires Encodable(entities) && Encodable(instructions)
    ensures Available(w, entities, instructions) == w.numCtx - Reserved(w, entities, instructions)
  {
    EncodingIsNotShorter(entities);
    EncodingIsNotShorter(instructions);
  }

  lemma {:induction false} EncodingIsNotShorter(t: Text)
    requires Encodable(t)
    ensures |Encode(t)| >= |t|
  {
    if t != [] {
      EncodingIsNotShorter(t[1..]);
    }
  }

  /** Content that cannot be encoded within the character cap. */
  predicate HasSurrogate(doc: Doc, maxDocChars: int) {
    exists i :: 0 <= i < |Head(doc.content, maxDocChars)| && Surrogate(doc.content[i])
  }

  /** One of the parts that would be kept cannot be encoded. */
  predicate PartFails(target: Doc, docs: seq<Doc>, kept: nat, maxDocChars: int)
    requires kept <= |docs|
  {
    HasSurrogate(target, maxDocChars) || exists i :: 0 <= i < kept && HasSurrogate(docs[i], maxDocChars)
  }

  lemma AssembledFailsIff(b: Budget, w: Window, entities: Text, instructions: Text, target: Doc, docs: seq<Doc>)
    requires b.kept <= |docs|
    ensures var r := Assembled(b, w, entities, instructions, target, docs[..b.kept]);
            && (r.Failure? <==> PartFails(target, docs, b.kept, w.maxDocChars))
            && (r.Failure? ==> r == Failure(Unencodable))
  {
    FailsOnlyOnSurrogates(target.content, w.maxDocChars, b.target);
    BlocksFailIff(docs[..b.kept], w.maxDocChars, b.perDoc);
    assert forall i :: 0 <= i < b.kept ==> docs[..b.kept][i] == docs[i];
  }

  /** There is no prompt exactly if the window leaves documents fewer than 200 tokens, or if a part of the prompt
      cannot be encoded. */
  lemma NoPromptIff(w: Window, entities: Text, instructions: Text, target: Doc, docs: seq<Doc>)
    ensures var r := Prompt(w, entities, instructions, target, docs);
            var fixed := Encodable(entities) && Encodable(instructions);
            var rest := w.numCtx - Reserved(w, entities, instructions);
            && (r == Failure(ContextTooSmall) <==> fixed && rest < 200)
            && (r == Failure(Unencodable) <==>
                  !fixed || (rest >= 200 && PartFails(target, docs, BudgetFor(rest, |docs|).kept, w.maxDocChars)))
  {
    if Encodable(entities) && Encodable(instructions) {
      AvailableIsTheRest(w, entities, instructions);
      if Available(w, entities, instructions) >= 200 {
        var b := BudgetFor(Available(w, entities, instructions), |docs|);
        AssembledFailsIff(b, w, entities, instructions, target, docs);
      }
    }
  }

  lemma {:induction false} BlocksFailIff(docs: seq<Doc>, maxDocChars: int, maxBytes: int)
    ensures Blocks(docs, maxDocChars, maxBytes).Failure?
            <==> exists i :: 0 <= i < |docs| && HasSurrogate(docs[i], maxDocChars)
  {
    if docs != [] {
      var n := |docs| - 1;
      BlocksFailIff(docs[..n], maxDocChars, maxBytes);
      FailsOnlyOnSurrogates(docs[n].content, maxDocChars, maxBytes);
    }
  }

  // ----- The text -----

  /** A document's part: its heading, and under it what is left of its content. */
  function Part(doc: Doc, content: Text): Text {
    doc.heading + Points("Inhalt:\n") + content + Points("\n")
  }

  /** These are the documents' contents, each truncated to the same budget. */
  predicate Truncated(docs: seq<Doc>, contents: seq<Text>, maxDocChars: int, maxBytes: int) {
    |docs| == |contents|
    && forall i :: 0 <= i < |docs| ==> Truncate(docs[i].content, maxDocChars, maxBytes) == Success(contents[i])
  }

  function Parts(docs: seq<Doc>, contents: seq<Text>): (r: seq<Text>)
    requires |docs| == |contents|
    ensures |r| == |docs|
  {
    seq(|docs|, i requires 0 <= i < |docs| => Part(docs[i], contents[i]))
  }

  /** `"\n".join` puts a newline between any two sections. */
  lemma JoinedReads(sections: seq<Text>, s: Text)
    ensures Joined([s]) == s
    ensures sections != [] ==> Joined(sections + [s]) == Joined(sections) + Points("\n") + s
  {
    assert (sections + [s])[..|sections|] == sections;
  }

  lemma {:induction false} BlocksAreParts(docs: seq<Doc>, maxDocChars: int, maxBytes: int) returns (contents: seq<Text>)
    requires Blocks(docs, maxDocChars, maxBytes).Success?
    ensures Truncated(docs, contents, maxDocChars, maxBytes)
    ensures Blocks(docs, maxDocChars, maxBytes).value == Parts(docs, contents)
  {
    contents := [];
    if docs != [] {
      var n := |docs| - 1;
      var front := BlocksAreParts(docs[..n], maxDocChars, maxBytes);
      contents := front + [Truncate(docs[n].content, maxDocChars, maxBytes).value];
      PartsGrow(docs, contents, n);
      BlockIsPart(docs[n], contents[n], maxDocChars, maxBytes);
      assert forall i :: 0 <= i < n ==> docs[..n][i] == docs[i];
    }
  }

  lemma PartsGrow(docs: seq<Doc>, contents: seq<Text>, n: nat)
    requires |docs| == |contents| == n + 1
    ensures Parts(docs, contents) == Parts(docs[..n], contents[..n]) + [Part(docs[n], contents[n])]
  {
  }

  lemma BlockIsPart(doc: Doc, content: Text, maxDocChars: int, maxBytes: int)
    requires Truncate(doc.content, maxDocChars, maxBytes) == Success(content)
    ensures Block(doc, maxDocChars, maxBytes) == Success(Part(doc, content))
  {
  }

  /**
   * The prompt is the entities, the kept context documents under their title, the target under its own and the
   * instructions, a newline between any two; every content is truncated to what its document may spend.
   */
  lemma PromptReadsInOrder(w: Window, entities: Text, instructions: Text, target: Doc, docs: seq<Doc>, p: Text)
    returns (contents: seq<Text>, last: Text)
    requires Prompt(w, entities, instructions, target, docs) == Success(p)
    ensures w.numCtx - Reserved(w, entities, instructions) >= 200
    ensures var b := BudgetFor(w.numCtx - Reserved(w, entities, instructions), |docs|);
            var kept := docs[..b.kept];
            && Truncated(kept, contents, w.maxDocChars, b.perDoc)
            && Truncate(target.content, w.maxDocChars, b.target) == Success(last)
            && var head := if kept == [] then [entities] else [
                             entities,
                             Points("\n# Kontext: ") + Digits(|kept|)
                             + Points(" aehnliche bereits klassifizierte Dokumente")];
               p == Joined(head + Parts(kept, contents)
                           + [Points("\n# Zu klassifizierendes Dokument"), Part(target, last), instructions])
  {
    AvailableIsTheRest(w, entities, instructions);
    var b := BudgetFor(Available(w, entities, instructions), |docs|);
    contents := BlocksAreParts(docs[..b.kept], w.maxDocChars, b.perDoc);
    last := Truncate(target.content, w.maxDocChars, b.target).value;
    BlockIsPart(target, last, w.maxDocChars, b.target);
  }

  // ----- The number in the context title -----

  function Value(digits: Text): int {
    if digits == [] then 0 else 10 * Value(digits[..|digits| - 1]) + digits[|digits| - 1] - '0' as int
  }

  /** Digits are decimal, without a leading zero, and stand for the number. */
  lemma {:induction false} DigitsAreDecimal(n: nat)
    ensures Value(Digits(n)) == n
    ensures forall d <- Digits(n) :: '0' as int <= d <= '9' as int
    ensures Digits(n) != [] && (n > 0 ==> Digits(n)[0] != '0' as int)
  {
    if n >= 10 {
      DigitsAreDecimal(n / 10);
    }
  }
}
