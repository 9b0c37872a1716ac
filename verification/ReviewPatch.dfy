/** The patch that an accepted review asks for, and the recogniser that tells
    whether a document already shows it. */
module ReviewPatch {
  import opened Wrappers
  import TagPolicy

  /** The reviewed values. A proposed tag without a usable id is None. */
  datatype Record = Record(
    title: Option<string>, date: Option<string>,
    correspondent: Option<int>, documentType: Option<int>, storagePath: Option<int>,
    tags: seq<Option<int>>,
    versionId: Option<int>, versionChecksum: Option<string>)

  /** A Paperless document. `reportsStorage`: the answer carried the storage-path field. */
  datatype Document = Document(
    title: string, date: Option<string>,
    correspondent: Option<int>, documentType: Option<int>, storagePath: Option<int>,
    tags: seq<int>,
    versionId: Option<int>, versionChecksum: Option<string>, reportsStorage: bool)

  /** The PATCH dictionary: each of its six keys is present with a value or absent. */
  datatype Fields = Fields(
    title: Option<string>, created: Option<string>,
    correspondent: Option<int>, documentType: Option<int>, storagePath: Option<int>,
    tags: Option<seq<int>>)

  const NO_FIELDS := Fields(None, None, None, None, None, None)

  /** A PATCH request as Paperless carries it out; the version is not a field. */
  function Applied(doc: Document, f: Fields): Document {
    doc.(title := if f.title.Some? then f.title.value else doc.title,
         date := if f.created.Some? then f.created else doc.date,
         correspondent := if f.correspondent.Some? then f.correspondent else doc.correspondent,
         documentType := if f.documentType.Some? then f.documentType else doc.documentType,
         storagePath := if f.storagePath.Some? then f.storagePath else doc.storagePath,
         tags := if f.tags.Some? then f.tags.value else doc.tags)
  }

  function ToSet(s: seq<int>): set<int> { set x <- s }

  /** `sorted` of a set of ids. */
  function Sorted(s: set<int>): (r: seq<int>)
    ensures ToSet(r) == s
    ensures forall i, j | 0 <= i < j < |r| :: r[i] < r[j]
  {
    if s == {} then []
    else
      LeastExists(s);
      var m :| m in s && forall x <- s :: m <= x;
      var rest := Sorted(s - {m});
      assert forall x :: x in rest <==> x in ToSet(rest);
      var r := [m] + rest;
      assert forall x :: x in r <==> x == m || x in rest;
      assert forall x :: x in ToSet(r) <==> x in s;
      assert forall i | 0 <= i < |rest| :: rest[i] in rest;
      r
  }

  lemma {:induction false} LeastExists(s: set<int>)
    requires s != {}
    ensures exists m :: m in s && forall x <- s :: m <= x
    decreases |s|
  {
    var y := Pick(s);
    if s == {y} {
      assert forall x <- s :: x == y;
    } else {
      var rest := s - {y};
      assert rest != {} && s == rest + {y};
      LeastExists(rest);
      var m :| m in rest && forall x <- rest :: m <= x;
      LeastOfTwo(s, rest, y, m);
    }
  }

  lemma LeastOfTwo(s: set<int>, rest: set<int>, y: int, m: int)
    requires s == rest + {y} && m in rest && forall x <- rest :: m <= x
    ensures exists least :: least in s && forall x <- s :: least <= x
  {
    var least := if y < m then y else m;
    assert least in s;
    assert forall x <- s :: x in rest || x == y;
  }

  /** _assignable_tag_ids: proposed ids that are neither control tags nor forbidden. */
  function AssignableTagIds(proposed: seq<Option<int>>, control: set<int>, forbidden: set<int>): (ids: set<int>)
    ensures ids !! control + forbidden
  {
    set t <- proposed | t.Some? && t.value !in control + forbidden :: t.value
  }

  predicate Given(text: Option<string>) {
    text.Some? && text.value != ""
  }

  /** What the review may still write into a document: its non-empty texts and its ids,
      a storage path only where there is none, and the assignable tags beside the present ones. */
  function Patch(record: Record, tags: seq<int>, storagePath: Option<int>, assignable: set<int>): Fields {
    Fields(
      if Given(record.title) then record.title else None,
      if Given(record.date) then record.date else None,
      record.correspondent,
      record.documentType,
      if storagePath.None? then record.storagePath else None,
      if assignable != {} then Some(Sorted(ToSet(tags) + assignable)) else None)
  }

  function PatchOf(record: Record, doc: Document, assignable: set<int>): Fields {
    Patch(record, doc.tags, doc.storagePath, assignable)
  }

  predicate Blank(text: Option<string>) {
    text == None || text == Some("")
  }

  /**
   * What an accepted review makes of a document: it adds the proposed tags that are not reserved, sets every text
   * that is not empty and every id that is proposed, a storage path only where there is none, and nothing else.
   */
  ghost predicate ShowsReview(record: Record, before: Document, after: Document, reserved: set<int>) {
    && (forall id :: id in after.tags <==> id in before.tags || (Some(id) in record.tags && id !in reserved))
    && (if Blank(record.title) then after.title == before.title else Some(after.title) == record.title)
    && after.date == (if Blank(record.date) then before.date else record.date)
    && after.correspondent == (if record.correspondent.Some? then record.correspondent else before.correspondent)
    && after.documentType == (if record.documentType.Some? then record.documentType else before.documentType)
    && after.storagePath == (if before.storagePath.Some? then before.storagePath else record.storagePath)
  }

  predicate SameVersion(a: Document, b: Document) {
    a.versionId == b.versionId && a.versionChecksum == b.versionChecksum && a.reportsStorage == b.reportsStorage
  }

  lemma PatchShowsReview(record: Record, doc: Document, control: set<int>, forbidden: set<int>)
    ensures var after := Applied(doc, PatchOf(record, doc, AssignableTagIds(record.tags, control, forbidden)));
            ShowsReview(record, doc, after, control + forbidden) && SameVersion(after, doc)
  {
    var assignable := AssignableTagIds(record.tags, control, forbidden);
    var after := Applied(doc, PatchOf(record, doc, assignable));
    TagsAfter(doc.tags, after.tags, assignable);
    forall id ensures id in assignable <==> Some(id) in record.tags && id !in control + forbidden {
      if Some(id) in record.tags && id !in control + forbidden {
        var t :| t in record.tags && t == Some(id);
        assert t.value in assignable;
      }
    }
  }

  lemma TagsAfter(before: seq<int>, after: seq<int>, added: set<int>)
    requires after == if added != {} then Sorted(ToSet(before) + added) else before
    ensures forall id :: id in after <==> id in before || id in added
  {
    assert forall id :: id in after <==> id in ToSet(after);
    assert forall id :: id in before <==> id in ToSet(before);
  }

  /** build_paperless_patch. */
  method BuildPaperlessPatch(record: Record, currentTags: seq<int>, currentStoragePath: Option<int>,
                             control: set<int>, forbidden: set<int>) returns (fields: Fields)
    ensures fields == Patch(record, currentTags, currentStoragePath, AssignableTagIds(record.tags, control, forbidden))
    ensures forall doc: Document | doc.tags == currentTags && doc.storagePath == currentStoragePath ::
              ShowsReview(record, doc, Applied(doc, fields), control + forbidden)
              && SameVersion(Applied(doc, fields), doc)
  {
    forall doc: Document | doc.tags == currentTags && doc.storagePath == currentStoragePath
      ensures var after := Applied(doc, Patch(record, currentTags, currentStoragePath,
                                              AssignableTagIds(record.tags, control, forbidden)));
              ShowsReview(record, doc, after, control + forbidden) && SameVersion(after, doc)
    {
      PatchShowsReview(record, doc, control, forbidden);
    }
    fields := NO_FIELDS;
    if Given(record.title) { fields := fields.(title := record.title); }
    if Given(record.date) { fields := fields.(created := record.date); }
    if record.correspondent.Some? { fields := fields.(correspondent := record.correspondent); }
    if record.documentType.Some? { fields := fields.(documentType := record.documentType); }
    if currentStoragePath.None? && record.storagePath.Some? { fields := fields.(storagePath := record.storagePath); }
    var tagIds := AssignableTagIds(record.tags, control, forbidden);
    if tagIds != {} { fields := fields.(tags := Some(Sorted(ToSet(currentTags) + tagIds))); }
  }

  /** The patch that an accepted review sends, with the tags of the catalogue as they are. */
  method PatchReviewed(record: Record, doc: Document, tags: seq<TagPolicy.Tag>, settings: TagPolicy.Settings)
    returns (fields: Fields)
    ensures ShowsReview(record, doc, Applied(doc, fields), TagPolicy.Reserved(tags, settings))
    ensures SameVersion(Applied(doc, fields), doc)
    ensures fields.tags.Some? ==> forall i, j | 0 <= i < j < |fields.tags.value| ::
                                    fields.tags.value[i] < fields.tags.value[j]
  {
    var control := TagPolicy.ReservedClassificationTagIds([], settings);
    var forbidden := TagPolicy.ReservedClassificationTagIds(tags, settings);
    TagPolicy.ReservedGrowsWithTags([], tags, settings);
    assert control + forbidden == forbidden;
    fields := BuildPaperlessPatch(record, doc.tags, doc.storagePath, control, forbidden);
  }

  /** paperless_document_matches_review. */
  predicate Matches(record: Record, doc: Document, assignable: set<int>) {
    && (Given(record.title) ==> doc.title == record.title.value)
    && (Given(record.date) ==> doc.date == record.date)
    && (record.correspondent.Some? ==> doc.correspondent == record.correspondent)
    && (record.documentType.Some? ==> doc.documentType == record.documentType)
    && !(doc.storagePath.None? && record.storagePath.Some?)
    && assignable <= ToSet(doc.tags)
  }

  /** The same metadata; the order and repetition of tags do not count. */
  predicate SameMetadata(a: Document, b: Document) {
    a.(tags := []) == b.(tags := []) && ToSet(a.tags) == ToSet(b.tags)
  }

  /** Applying the patch makes the recogniser say yes, and patching the result again
      changes nothing at all. */
  lemma PatchConverges(record: Record, doc: Document, assignable: set<int>)
    ensures var once := Applied(doc, PatchOf(record, doc, assignable));
            && Matches(record, once, assignable)
            && Applied(once, PatchOf(record, once, assignable)) == once
            && Applied(once, PatchOf(record, doc, assignable)) == once
  {
    var once := Applied(doc, PatchOf(record, doc, assignable));
    if assignable != {} {
      assert ToSet(once.tags) + assignable == ToSet(doc.tags) + assignable;
    }
  }

  /** The recogniser answers exactly the question whether the patch would leave the
      document's metadata as it is. */
  lemma MatchesIffPatchChangesNothing(record: Record, doc: Document, assignable: set<int>)
    ensures Matches(record, doc, assignable) <==> SameMetadata(doc, Applied(doc, PatchOf(record, doc, assignable)))
  {
    var p := PatchOf(record, doc, assignable);
    if assignable != {} {
      assert ToSet(p.tags.value) == ToSet(doc.tags) + assignable;
    }
    assert assignable <= ToSet(doc.tags) <==> ToSet(doc.tags) == ToSet(doc.tags) + assignable;
  }

  /** What a review can never do to a document: drop a tag, change a set storage path,
      or add a tag the policy reserves. */
  lemma PatchIsSafe(record: Record, doc: Document, tags: seq<TagPolicy.Tag>, settings: TagPolicy.Settings)
    ensures var assignable := AssignableTagIds(record.tags, TagPolicy.Reserved([], settings),
                                               TagPolicy.Reserved(tags, settings));
            var after := Applied(doc, PatchOf(record, doc, assignable));
            && ToSet(doc.tags) <= ToSet(after.tags)
            && (doc.storagePath.Some? ==> after.storagePath == doc.storagePath)
            && (ToSet(after.tags) - ToSet(doc.tags)) !! TagPolicy.Reserved(tags, settings)
            && (forall id | id in after.tags && id !in doc.tags :: Some(id) in record.tags)
  {
    var control, forbidden := TagPolicy.Reserved([], settings), TagPolicy.Reserved(tags, settings);
    var assignable := AssignableTagIds(record.tags, control, forbidden);
    var p := PatchOf(record, doc, assignable);
    var after := Applied(doc, p);
    if p.tags.Some? {
      assert ToSet(after.tags) == ToSet(doc.tags) + assignable;
    }
    forall id | id in after.tags && id !in doc.tags ensures id in assignable && Some(id) in record.tags {
      assert id in ToSet(after.tags);
    }
  }
}
