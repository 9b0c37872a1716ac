/** `_normalize_classification_result` of app/pipeline/classifier.py. */
module ResultNormalizer {
  import opened Utf8
  import opened PyText
  import opened Wrappers
  import T = Truncation

  datatype Tag = Tag(name: Text, confidence: int)

  datatype Classification = Classification(
    title: Text,
    date: Option<Text>,
    correspondent: Option<Text>,
    documentType: Option<Text>,
    storagePath: Option<Text>,
    tags: seq<Tag>,
    confidence: int,
    reasoning: Text)

  /** The fields of the Paperless document that normalisation looks at. */
  datatype Target = Target(title: Option<Text>, hasStoragePath: bool)

  /** The Unicode tables behind `casefold`, `lower` and `\d`. */
  datatype Unicode = Unicode(fold: Text -> Text, lower: Text -> Text, digit: CodePoint -> bool)

  const UNTITLED: Text := T.Points("Unbenanntes Dokument")

  /** `_classification_max_tags`; None is a setting that is not a number. */
  function MaxTags(setting: Option<int>): (n: nat)
    ensures n <= 20
  {
    match setting
    case Some(n) => if n < 0 then 0 else if n > 20 then 20 else n
    case None => 4
  }

  function Clamp(n: int): (c: int)
    ensures 0 <= c <= 100
  {
    if n < 0 then 0 else if n > 100 then 100 else n
  }

  predicate DateShaped(u: Unicode, s: Text) {
    && |s| == 10 && s[4] == 0x2D && s[7] == 0x2D
    && forall i :: 0 <= i < 10 && i != 4 && i != 7 ==> u.digit(s[i])
  }

  function NormalDate(u: Unicode, value: Option<Text>): Option<Text> {
    if value.None? then None
    else
      var cleaned := Strip(value.value);
      if cleaned == [] || u.lower(cleaned) == T.Points("null") then None
      else if DateShaped(u, cleaned) then Some(cleaned) else None
  }

  function NormalName(value: Option<Text>): Option<Text> {
    if value.None? || Strip(value.value) == [] then None else Some(Strip(value.value))
  }

  function NormalTitle(title: Text, target: Target): Text {
    if Strip(title) != [] then Strip(title)
    else if target.title.Some? && target.title.value != [] && Strip(target.title.value) != []
    then Strip(target.title.value)
    else UNTITLED
  }

  function NormalReasoning(reasoning: Text): Text {
    var s := Strip(reasoning);
    if |s| > 500 then RightStrip(s[..500]) else s
  }

  // ----- Tags -----

  function Cleaned(tag: Tag): Tag {
    Tag(Strip(tag.name), Clamp(tag.confidence))
  }

  function CleanedAll(tags: seq<Tag>): (r: seq<Tag>)
    ensures |r| == |tags|
  {
    seq(|tags|, i requires 0 <= i < |tags| => Cleaned(tags[i]))
  }

  predicate Usable(u: Unicode, forbidden: set<Text>, tag: Tag) {
    tag.name != [] && u.fold(tag.name) !in forbidden
  }

  /** The case-folded names of the usable tags. */
  function UsableKeys(u: Unicode, forbidden: set<Text>, tags: seq<Tag>): set<Text> {
    if tags == [] then {}
    else
      var n := |tags| - 1;
      UsableKeys(u, forbidden, tags[..n]) + if Usable(u, forbidden, tags[n]) then {u.fold(tags[n].name)} else {}
  }

  /** A tag is kept if its name is usable and no earlier usable name is the same up to case. */
  predicate Fresh(u: Unicode, forbidden: set<Text>, tags: seq<Tag>, i: nat)
    requires i < |tags|
  {
    Usable(u, forbidden, tags[i]) && u.fold(tags[i].name) !in UsableKeys(u, forbidden, tags[..i])
  }

  /** The fresh ones of a list of cleaned tags, in their order. */
  function Kept(u: Unicode, forbidden: set<Text>, tags: seq<Tag>): seq<Tag> {
    if tags == [] then []
    else
      var n := |tags| - 1;
      Kept(u, forbidden, tags[..n]) + if Fresh(u, forbidden, tags, n) then [tags[n]] else []
  }

  /** Even a limit of zero keeps one tag, because the limit is tested after a tag is added. */
  function Limit(maxTags: nat): nat {
    if maxTags == 0 then 1 else maxTags
  }

  function NormalTags(u: Unicode, forbidden: set<Text>, tags: seq<Tag>, maxTags: nat): seq<Tag> {
    var kept := Kept(u, forbidden, CleanedAll(tags));
    if |kept| <= Limit(maxTags) then kept else kept[..Limit(maxTags)]
  }

  lemma {:induction false} KeptGrows(u: Unicode, forbidden: set<Text>, tags: seq<Tag>, i: nat)
    requires i <= |tags|
    ensures Kept(u, forbidden, tags[..i]) <= Kept(u, forbidden, tags)
  {
    if i == |tags| {
      assert tags[..i] == tags;
    } else {
      assert tags[..|tags| - 1][..i] == tags[..i];
      KeptGrows(u, forbidden, tags[..|tags| - 1], i);
    }
  }

  lemma KeptStep(u: Unicode, forbidden: set<Text>, tags: seq<Tag>, i: nat)
    requires i < |tags|
    ensures Kept(u, forbidden, tags[..i + 1])
            == Kept(u, forbidden, tags[..i]) + if Fresh(u, forbidden, tags, i) then [tags[i]] else []
    ensures UsableKeys(u, forbidden, tags[..i + 1])
            == UsableKeys(u, forbidden, tags[..i])
               + if Usable(u, forbidden, tags[i]) then {u.fold(tags[i].name)} else {}
  {
    assert tags[..i + 1][..i] == tags[..i];
  }

  method NormalizeTags(u: Unicode, forbidden: set<Text>, tags: seq<Tag>, maxTags: nat) returns (norm: seq<Tag>)
    ensures norm == NormalTags(u, forbidden, tags, maxTags)
  {
    var seen: set<Text> := {};
    norm := [];
    ghost var cleaned := CleanedAll(tags);
    for i := 0 to |tags|
      invariant norm == Kept(u, forbidden, cleaned[..i]) && |norm| < Limit(maxTags)
      invariant seen == UsableKeys(u, forbidden, cleaned[..i])
    {
      var name := Strip(tags[i].name);
      var tag := Tag(name, Clamp(tags[i].confidence));
      assert cleaned[i] == tag;
      KeptStep(u, forbidden, cleaned, i);
      if name == [] {
        continue;
      }
      var key := u.fold(name);
      if key in seen || key in forbidden {
        continue;
      }
      seen := seen + {key};
      norm := norm + [tag];
      if |norm| >= maxTags {
        KeptGrows(u, forbidden, cleaned, i + 1);
        return;
      }
    }
    assert cleaned[..|tags|] == cleaned;
  }

  function Keys(u: Unicode, tags: seq<Tag>): set<Text> {
    if tags == [] then {} else Keys(u, tags[..|tags| - 1]) + {u.fold(tags[|tags| - 1].name)}
  }

  predicate CleanTag(u: Unicode, forbidden: set<Text>, tag: Tag) {
    Usable(u, forbidden, tag) && Cleaned(tag) == tag
  }

  /** What a list of kept tags looks like: clean tags, no two the same up to case. */
  predicate Clean(u: Unicode, forbidden: set<Text>, tags: seq<Tag>) {
    tags == [] ||
    var n := |tags| - 1;
    Clean(u, forbidden, tags[..n]) && CleanTag(u, forbidden, tags[n]) && u.fold(tags[n].name) !in Keys(u, tags[..n])
  }

  lemma {:induction false} CleanPrefix(u: Unicode, forbidden: set<Text>, tags: seq<Tag>, i: nat)
    requires Clean(u, forbidden, tags) && i <= |tags|
    ensures Clean(u, forbidden, tags[..i])
  {
    if i == |tags| {
      assert tags[..i] == tags;
    } else {
      assert tags[..|tags| - 1][..i] == tags[..i];
      CleanPrefix(u, forbidden, tags[..|tags| - 1], i);
    }
  }

  lemma {:induction false} KeysHold(u: Unicode, tags: seq<Tag>, i: nat)
    requires i < |tags|
    ensures u.fold(tags[i].name) in Keys(u, tags)
  {
    if i < |tags| - 1 {
      KeysHold(u, tags[..|tags| - 1], i);
    }
  }

  lemma CleanMeansDistinct(u: Unicode, forbidden: set<Text>, tags: seq<Tag>, i: nat, j: nat)
    requires Clean(u, forbidden, tags) && i < j < |tags|
    ensures CleanTag(u, forbidden, tags[i]) && u.fold(tags[i].name) != u.fold(tags[j].name)
  {
    CleanPrefix(u, forbidden, tags, i + 1);
    CleanPrefix(u, forbidden, tags, j + 1);
    assert tags[..j + 1][..j] == tags[..j];
    KeysHold(u, tags[..j], i);
  }

  predicate AllCleaned(tags: seq<Tag>) {
    forall i :: 0 <= i < |tags| ==> Cleaned(tags[i]) == tags[i]
  }

  lemma CleanedAllIsCleaned(tags: seq<Tag>)
    ensures AllCleaned(CleanedAll(tags))
    ensures AllCleaned(tags) ==> CleanedAll(tags) == tags
  {
    forall i | 0 <= i < |tags| ensures Cleaned(CleanedAll(tags)[i]) == CleanedAll(tags)[i] {
      StripIsStripped(tags[i].name);
    }
  }

  /** Kept tags are clean, and their keys are exactly the keys of the usable tags. */
  lemma {:induction false} KeptIsCleanAndComplete(u: Unicode, forbidden: set<Text>, tags: seq<Tag>)
    requires AllCleaned(tags)
    ensures Clean(u, forbidden, Kept(u, forbidden, tags))
    ensures Keys(u, Kept(u, forbidden, tags)) == UsableKeys(u, forbidden, tags)
  {
    if tags != [] {
      var n := |tags| - 1;
      var before := Kept(u, forbidden, tags[..n]);
      KeptIsCleanAndComplete(u, forbidden, tags[..n]);
      if Fresh(u, forbidden, tags, n) {
        assert CleanTag(u, forbidden, tags[n]);
        CleanExtension(u, forbidden, before, tags[n]);
        assert Kept(u, forbidden, tags) == before + [tags[n]];
      } else {
        assert Kept(u, forbidden, tags) == before;
      }
    }
  }

  lemma CleanExtension(u: Unicode, forbidden: set<Text>, tags: seq<Tag>, tag: Tag)
    requires Clean(u, forbidden, tags) && CleanTag(u, forbidden, tag) && u.fold(tag.name) !in Keys(u, tags)
    ensures Clean(u, forbidden, tags + [tag])
    ensures Keys(u, tags + [tag]) == Keys(u, tags) + {u.fold(tag.name)}
  {
    assert (tags + [tag])[..|tags|] == tags;
  }

  lemma {:induction false} KeptOfClean(u: Unicode, forbidden: set<Text>, tags: seq<Tag>)
    requires Clean(u, forbidden, tags)
    ensures Kept(u, forbidden, tags) == tags && AllCleaned(tags)
  {
    if tags != [] {
      var n := |tags| - 1;
      KeptOfClean(u, forbidden, tags[..n]);
      KeptIsCleanAndComplete(u, forbidden, tags[..n]);
      assert tags[..n] + [tags[n]] == tags;
    }
  }

  /** Normalised tags are clean, no more than the limit, and complete when they stay under it. */
  lemma NormalTagsAreExact(u: Unicode, forbidden: set<Text>, tags: seq<Tag>, maxTags: nat)
    ensures var norm := NormalTags(u, forbidden, tags, maxTags);
            && Clean(u, forbidden, norm) && |norm| <= Limit(maxTags) && (|norm| <= maxTags || |norm| == 1)
            && (|norm| < Limit(maxTags) ==> Keys(u, norm) == UsableKeys(u, forbidden, CleanedAll(tags)))
            && NormalTags(u, forbidden, norm, maxTags) == norm
  {
    var norm := NormalTags(u, forbidden, tags, maxTags);
    CleanedAllIsCleaned(tags);
    KeptIsCleanAndComplete(u, forbidden, CleanedAll(tags));
    if |Kept(u, forbidden, CleanedAll(tags))| > Limit(maxTags) {
      CleanPrefix(u, forbidden, Kept(u, forbidden, CleanedAll(tags)), Limit(maxTags));
    }
    KeptOfClean(u, forbidden, norm);
    CleanedAllIsCleaned(norm);
  }

  // ----- The whole result -----

  function Normal(u: Unicode, forbidden: set<Text>, c: Classification, target: Target, maxTags: nat): Classification {
    Classification(
      NormalTitle(c.title, target),
      NormalDate(u, c.date),
      NormalName(c.correspondent),
      NormalName(c.documentType),
      if target.hasStoragePath then None else NormalName(c.storagePath),
      NormalTags(u, forbidden, c.tags, maxTags),
      Clamp(c.confidence),
      NormalReasoning(c.reasoning))
  }

  method NormalizeClassificationResult(u: Unicode, forbiddenNames: set<Text>, c: Classification,
                                       target: Target, setting: Option<int>)
    returns (r: Classification)
    ensures r == Normal(u, set n <- forbiddenNames :: u.fold(n), c, target, MaxTags(setting))
    ensures TitleKept(c.title, target, r.title) && DateKept(u, c.date, r.date)
    ensures NameKept(c.correspondent, r.correspondent) && NameKept(c.documentType, r.documentType)
    ensures if target.hasStoragePath then r.storagePath == None else NameKept(c.storagePath, r.storagePath)
    ensures ConfidenceKept(c.confidence, r.confidence) && ReasoningKept(c.reasoning, r.reasoning)
  {
    TitlesAreKept(c.title, target);
    DatesAreKept(u, c.date);
    NamesAreKept(c.correspondent);
    NamesAreKept(c.documentType);
    NamesAreKept(c.storagePath);
    ReasoningsAreKept(c.reasoning);
    var title := Strip(c.title);
    if title == [] {
      title := Strip(if target.title.Some? && target.title.value != [] then target.title.value else UNTITLED);
      UntitledIsStripped();
      if title == [] {
        title := UNTITLED;
      }
    }
    var storagePath := if target.hasStoragePath then None else NormalName(c.storagePath);
    var forbidden := set n <- forbiddenNames :: u.fold(n);
    var tags := NormalizeTags(u, forbidden, c.tags, MaxTags(setting));
    var reasoning := Strip(c.reasoning);
    if |reasoning| > 500 {
      reasoning := RightStrip(reasoning[..500]);
    }
    r := Classification(title, NormalDate(u, c.date), NormalName(c.correspondent), NormalName(c.documentType),
                        storagePath, tags, Clamp(c.confidence), reasoning);
  }

  // ----- The same, field by field -----

  /** A setting counts from 0 to 20; what is not a number is 4. */
  lemma MaxTagsIsSetting(setting: Option<int>)
    ensures setting == None ==> MaxTags(setting) == 4
    ensures setting.Some? ==>
              && (0 <= setting.value <= 20 ==> MaxTags(setting) == setting.value)
              && (setting.value < 0 ==> MaxTags(setting) == 0) && (setting.value > 20 ==> MaxTags(setting) == 20)
  {
  }

  /** A per cent value stays, one beyond either end becomes that end. */
  predicate ConfidenceKept(n: int, r: int) {
    0 <= r <= 100 && (0 <= n <= 100 ==> r == n) && (n < 0 ==> r == 0) && (n > 100 ==> r == 100)
  }

  /** Ten characters, "dddd-dd-dd". */
  predicate IsIsoDate(u: Unicode, s: Text) {
    && |s| == 10 && s[4] == '-' as int && s[7] == '-' as int
    && u.digit(s[0]) && u.digit(s[1]) && u.digit(s[2]) && u.digit(s[3])
    && u.digit(s[5]) && u.digit(s[6]) && u.digit(s[8]) && u.digit(s[9])
  }

  /** A date survives exactly if it is one, apart from white space around it. */
  predicate DateKept(u: Unicode, value: Option<Text>, r: Option<Text>) {
    && (r.Some? <==> value.Some? && IsIsoDate(u, Strip(value.value)) && u.lower(Strip(value.value)) != T.Points("null"))
    && (r.Some? ==> r.value == Strip(value.value))
  }

  /** A name survives exactly if it is not blank. */
  predicate NameKept(value: Option<Text>, r: Option<Text>) {
    && (r == None <==> value == None || Blank(value.value))
    && (r.Some? ==> r.value == Strip(value.value))
  }

  /** The title is the model's unless that is blank, then the document's unless that is, and then a fixed one. */
  predicate TitleKept(title: Text, target: Target, r: Text) {
    r == if !Blank(title) then Strip(title)
         else if target.title.Some? && !Blank(target.title.value) then Strip(target.title.value)
         else T.Points("Unbenanntes Dokument")
  }

  /** A reasoning of at most 500 characters stays as it is; a longer one loses what comes after, and blanks before. */
  predicate ReasoningKept(reasoning: Text, r: Text) {
    var s := Strip(reasoning);
    if |s| <= 500 then r == s
    else |r| <= 500 && s[..|r|] == r && Blank(s[|r|..500]) && (r != [] ==> !Space(r[|r| - 1]))
  }

  lemma NamesAreKept(value: Option<Text>)
    ensures NameKept(value, NormalName(value))
  {
    if value.Some? {
      StripLeavesNothingIffBlank(value.value);
    }
  }

  lemma DatesAreKept(u: Unicode, value: Option<Text>)
    ensures DateKept(u, value, NormalDate(u, value))
  {
  }

  lemma TitlesAreKept(title: Text, target: Target)
    ensures TitleKept(title, target, NormalTitle(title, target))
  {
    StripLeavesNothingIffBlank(title);
    if target.title.Some? {
      StripLeavesNothingIffBlank(target.title.value);
    }
  }

  lemma ReasoningsAreKept(reasoning: Text)
    ensures ReasoningKept(reasoning, NormalReasoning(reasoning))
  {
    var s := Strip(reasoning);
    if |s| > 500 {
      RightStripSplits(s[..500]);
      assert s[..500][..|RightStrip(s[..500])|] == s[..|RightStrip(s[..500])|];
      assert s[..500][|RightStrip(s[..500])|..] == s[|RightStrip(s[..500])|..500];
    }
  }

  /** The places of the kept tags: each is usable, and the first with its name up to case. */
  predicate Picks(u: Unicode, forbidden: set<Text>, tags: seq<Tag>, kept: seq<Tag>, at: seq<nat>) {
    && |at| == |kept|
    && (forall j :: 0 <= j < |at| ==> at[j] < |tags| && kept[j] == tags[at[j]])
    && (forall i, j :: 0 <= i < j < |at| ==> at[i] < at[j])
    && (forall j :: 0 <= j < |at| ==> Usable(u, forbidden, tags[at[j]]))
    && (forall i, j :: 0 <= j < |at| && 0 <= i < at[j] && Usable(u, forbidden, tags[i]) ==>
          u.fold(tags[i].name) != u.fold(tags[at[j]].name))
  }

  lemma {:induction false} UsableKeysHold(u: Unicode, forbidden: set<Text>, tags: seq<Tag>, i: nat)
    requires i < |tags| && Usable(u, forbidden, tags[i])
    ensures u.fold(tags[i].name) in UsableKeys(u, forbidden, tags)
  {
    if i < |tags| - 1 {
      UsableKeysHold(u, forbidden, tags[..|tags| - 1], i);
    }
  }

  lemma PickOneMore(u: Unicode, forbidden: set<Text>, tags: seq<Tag>, kept: seq<Tag>, at: seq<nat>, n: nat)
    requires n == |tags| - 1 && Picks(u, forbidden, tags[..n], kept, at) && Fresh(u, forbidden, tags, n)
    ensures Picks(u, forbidden, tags, kept + [tags[n]], at + [n])
  {
    forall i | 0 <= i < n && Usable(u, forbidden, tags[i]) ensures u.fold(tags[i].name) != u.fold(tags[n].name) {
      assert tags[..n][i] == tags[i];
      UsableKeysHold(u, forbidden, tags[..n], i);
    }
    assert forall j :: 0 <= j < |at| ==> tags[..n][at[j]] == tags[at[j]];
    assert forall i :: 0 <= i < n ==> tags[..n][i] == tags[i];
  }

  lemma PickNoMore(u: Unicode, forbidden: set<Text>, tags: seq<Tag>, kept: seq<Tag>, at: seq<nat>, n: nat)
    requires n <= |tags| && Picks(u, forbidden, tags[..n], kept, at)
    ensures Picks(u, forbidden, tags, kept, at)
  {
    assert forall j :: 0 <= j < |at| ==> tags[..n][at[j]] == tags[at[j]];
    assert forall i :: 0 <= i < n ==> tags[..n][i] == tags[i];
  }

  lemma {:induction false} KeptIsPicked(u: Unicode, forbidden: set<Text>, tags: seq<Tag>) returns (at: seq<nat>)
    ensures Picks(u, forbidden, tags, Kept(u, forbidden, tags), at)
  {
    if tags == [] {
      at := [];
    } else {
      var n := |tags| - 1;
      at := KeptIsPicked(u, forbidden, tags[..n]);
      if Fresh(u, forbidden, tags, n) {
        PickOneMore(u, forbidden, tags, Kept(u, forbidden, tags[..n]), at, n);
        at := at + [n];
      } else {
        PickNoMore(u, forbidden, tags, Kept(u, forbidden, tags[..n]), at, n);
      }
    }
  }

  /** Normalised tags are proposed ones, cleaned, in their order, each the first of its name. */
  lemma NormalTagsArePicked(u: Unicode, forbidden: set<Text>, tags: seq<Tag>, maxTags: nat) returns (at: seq<nat>)
    ensures Picks(u, forbidden, CleanedAll(tags), NormalTags(u, forbidden, tags, maxTags), at)
    ensures forall j :: 0 <= j < |at| ==>
              && NormalTags(u, forbidden, tags, maxTags)[j].name == Strip(tags[at[j]].name)
              && ConfidenceKept(tags[at[j]].confidence, NormalTags(u, forbidden, tags, maxTags)[j].confidence)
  {
    at := KeptIsPicked(u, forbidden, CleanedAll(tags));
    if |at| > Limit(maxTags) {
      at := at[..Limit(maxTags)];
    }
  }

  lemma UntitledIsStripped()
    ensures Strip(UNTITLED) == UNTITLED != []
  {
    var s := "Unbenanntes Dokument";
    assert UNTITLED[0] == s[0] as int && UNTITLED[|UNTITLED| - 1] == s[|s| - 1] as int;
    StripKeepsStripped(UNTITLED);
  }

  lemma NamesAreStable(value: Option<Text>)
    ensures NormalName(NormalName(value)) == NormalName(value)
  {
    if value.Some? {
      StripIsStripped(value.value);
    }
  }

  lemma TitleIsStable(title: Text, target: Target)
    ensures NormalTitle(NormalTitle(title, target), target) == NormalTitle(title, target) != []
  {
    UntitledIsStripped();
    StripIsStripped(title);
    if target.title.Some? {
      StripIsStripped(target.title.value);
    }
  }

  lemma DateIsStable(u: Unicode, value: Option<Text>)
    ensures NormalDate(u, NormalDate(u, value)) == NormalDate(u, value)
  {
    if value.Some? {
      StripIsStripped(value.value);
    }
  }

  lemma ReasoningIsStable(reasoning: Text)
    ensures NormalReasoning(NormalReasoning(reasoning)) == NormalReasoning(reasoning)
    ensures |NormalReasoning(reasoning)| <= 500
  {
    StripIsStripped(reasoning);
    CutIsStripped(Strip(reasoning));
  }

  lemma CutIsStripped(s: Text)
    requires Stripped(s)
    ensures |s| > 500 ==> |RightStrip(s[..500])| <= 500 && Strip(RightStrip(s[..500])) == RightStrip(s[..500])
  {
    if |s| > 500 {
      var cut := RightStrip(s[..500]);
      RightStripSplits(s[..500]);
      assert cut != [] ==> cut[0] == s[0];
      StripKeepsStripped(cut);
    }
  }

  /** Normalising a normalised result changes nothing. */
  lemma NormalisationIsIdempotent(u: Unicode, forbidden: set<Text>, c: Classification, target: Target, maxTags: nat)
    ensures var once := Normal(u, forbidden, c, target, maxTags);
            Normal(u, forbidden, once, target, maxTags) == once
  {
    TitleIsStable(c.title, target);
    DateIsStable(u, c.date);
    NamesAreStable(c.correspondent);
    NamesAreStable(c.documentType);
    NamesAreStable(c.storagePath);
    NormalTagsAreExact(u, forbidden, c.tags, maxTags);
    ReasoningIsStable(c.reasoning);
  }
}
