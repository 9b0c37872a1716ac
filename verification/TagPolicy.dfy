/** Tags that ArchiBot must never assign: the OCR control tag, the Inbox tag, and
    everything below the Inbox tag. */
module TagPolicy {
  import opened Wrappers

  datatype Tag = Tag(id: int, parent: Option<int>)

  /** Both configured ids, already read as integers; a non-positive id means "not set". */
  datatype Settings = Settings(ocrTagId: int, inboxTagId: int)

  function Seeds(s: Settings): set<int> {
    (if s.ocrTagId > 0 then {s.ocrTagId} else {}) + (if s.inboxTagId > 0 then {s.inboxTagId} else {})
  }

  predicate Child(tag: Tag, ids: set<int>) {
    tag.parent.Some? && tag.parent.value in ids
  }

  /** Closed under parent links. */
  predicate Closed(ids: set<int>, tags: seq<Tag>) {
    forall t <- tags :: Child(t, ids) ==> t.id in ids
  }

  function Ids(tags: seq<Tag>): set<int> {
    set t <- tags :: t.id
  }

  /** A chain of parent links from `id` up to a seed, in at most `steps` links. */
  ghost predicate Descends(tags: seq<Tag>, seeds: set<int>, id: int, steps: nat)
    decreases steps
  {
    id in seeds || (steps > 0 && exists t <- tags ::
        t.id == id && t.parent.Some? && Descends(tags, seeds, t.parent.value, steps - 1))
  }

  ghost predicate IsDescendant(tags: seq<Tag>, seeds: set<int>, id: int) {
    exists steps: nat :: Descends(tags, seeds, id, steps)
  }

  /** The reserved ids: the seeds and, when an Inbox tag is set, all their descendants. */
  ghost function Reserved(tags: seq<Tag>, s: Settings): set<int> {
    if s.inboxTagId <= 0 then Seeds(s)
    else set id | id in Seeds(s) + Ids(tags) && IsDescendant(tags, Seeds(s), id)
  }

  /** reserved_classification_tag_ids. */
  method ReservedClassificationTagIds(tags: seq<Tag>, s: Settings) returns (reserved: set<int>)
    ensures reserved == Reserved(tags, s)
  {
    reserved := if s.ocrTagId > 0 then {s.ocrTagId} else {};
    if s.inboxTagId <= 0 {
      return;
    }
    reserved := reserved + {s.inboxTagId};
    var seeds := Seeds(s);
    assert forall id <- seeds :: Descends(tags, seeds, id, 0);
    var changed := true;
    while changed
      invariant seeds <= reserved
      invariant forall id <- reserved :: IsDescendant(tags, seeds, id)
      invariant reserved <= seeds + Ids(tags)
      invariant !changed ==> Closed(reserved, tags)
      decreases Ids(tags) - reserved, changed
    {
      changed := false;
      ghost var before := reserved;
      for k := 0 to |tags|
        invariant before <= reserved
        invariant seeds <= reserved <= seeds + Ids(tags)
        invariant forall id <- reserved :: IsDescendant(tags, seeds, id)
        invariant !changed ==> reserved == before && forall t <- tags[..k] :: Child(t, reserved) ==> t.id in reserved
        invariant changed ==> exists id <- reserved :: id !in before && id in Ids(tags)
      {
        var tag := tags[k];
        if tag.id !in reserved && tag.parent.Some? && tag.parent.value in reserved {
          ChildDescends(tags, seeds, tag);
          assert tag in tags && tag.id in Ids(tags);
          reserved := reserved + {tag.id};
          changed := true;
        }
      }
      assert tags[..|tags|] == tags;
      if changed {
        ghost var id :| id in reserved && id !in before && id in Ids(tags);
        assert id in Ids(tags) - before && id !in Ids(tags) - reserved;
      }
    }
    ClosedContainsDescendants(tags, seeds, reserved);
  }

  lemma ChildDescends(tags: seq<Tag>, seeds: set<int>, tag: Tag)
    requires tag in tags && tag.parent.Some? && IsDescendant(tags, seeds, tag.parent.value)
    ensures IsDescendant(tags, seeds, tag.id)
  {
    var steps: nat :| Descends(tags, seeds, tag.parent.value, steps);
    assert tag in tags && Descends(tags, seeds, tag.parent.value, (steps + 1) - 1);
    assert Descends(tags, seeds, tag.id, steps + 1);
  }

  lemma {:induction false} ClosedContainsChain(tags: seq<Tag>, seeds: set<int>, ids: set<int>, id: int, steps: nat)
    requires seeds <= ids && Closed(ids, tags) && Descends(tags, seeds, id, steps)
    ensures id in ids
    decreases steps
  {
    if id !in seeds {
      var t :| t in tags && t.id == id && t.parent.Some? && Descends(tags, seeds, t.parent.value, steps - 1);
      ClosedContainsChain(tags, seeds, ids, t.parent.value, steps - 1);
    }
  }

  lemma ClosedContainsDescendants(tags: seq<Tag>, seeds: set<int>, ids: set<int>)
    requires seeds <= ids && Closed(ids, tags)
    ensures forall id | IsDescendant(tags, seeds, id) :: id in ids
  {
    forall id | IsDescendant(tags, seeds, id) ensures id in ids {
      var steps: nat :| Descends(tags, seeds, id, steps);
      ClosedContainsChain(tags, seeds, ids, id, steps);
    }
  }

  /** With an Inbox tag set the reserved ids are the least set that holds the control
      tags and is closed under parent links, whatever cycles, duplicates or dangling
      parents the tags have. */
  lemma ReservedIsLeastClosedSet(tags: seq<Tag>, s: Settings, other: set<int>)
    requires s.inboxTagId > 0
    ensures Seeds(s) <= Reserved(tags, s) && Closed(Reserved(tags, s), tags)
    ensures Seeds(s) <= other && Closed(other, tags) ==> Reserved(tags, s) <= other
  {
    var seeds := Seeds(s);
    assert forall id <- seeds :: Descends(tags, seeds, id, 0);
    forall t <- tags | Child(t, Reserved(tags, s)) ensures t.id in Reserved(tags, s) {
      ChildDescends(tags, seeds, t);
      assert t.id in Ids(tags);
    }
    if seeds <= other && Closed(other, tags) {
      ClosedContainsDescendants(tags, seeds, other);
    }
  }

  /** Without an Inbox tag only the OCR tag is reserved; with one, a reserved tag is a control tag or the child of a
      reserved one, and both control tags are. An id that is not positive means that the tag is not set. */
  lemma ReservedExactly(tags: seq<Tag>, s: Settings, id: int)
    ensures s.inboxTagId <= 0 ==> (id in Reserved(tags, s) <==> id == s.ocrTagId && id > 0)
    ensures s.inboxTagId > 0 ==>
              (id in Reserved(tags, s) <==>
                 || id == s.inboxTagId || (id == s.ocrTagId && id > 0)
                 || exists t <- tags :: t.id == id && t.parent.Some? && t.parent.value in Reserved(tags, s))
  {
    if s.inboxTagId > 0 {
      ReservedIsLeastClosedSet(tags, s, {});
      if id in Reserved(tags, s) && id !in Seeds(s) {
        ReservedHasParent(tags, s, id);
      }
      forall t <- tags | t.id == id && t.parent.Some? && t.parent.value in Reserved(tags, s)
        ensures id in Reserved(tags, s)
      {
        assert Child(t, Reserved(tags, s));
      }
    }
  }

  lemma ReservedHasParent(tags: seq<Tag>, s: Settings, id: int)
    requires s.inboxTagId > 0 && id in Reserved(tags, s) && id !in Seeds(s)
    ensures exists t <- tags :: t.id == id && t.parent.Some? && t.parent.value in Reserved(tags, s)
  {
    var steps: nat :| Descends(tags, Seeds(s), id, steps);
    var t :| t in tags && t.id == id && t.parent.Some? && Descends(tags, Seeds(s), t.parent.value, steps - 1);
    if t.parent.value !in Seeds(s) {
      assert t.parent.value in Ids(tags);
    }
    assert IsDescendant(tags, Seeds(s), t.parent.value);
  }

  lemma {:induction false} SubsetDescends(a: seq<Tag>, b: seq<Tag>, seeds: set<int>, id: int, steps: nat)
    requires (forall t <- a :: t in b) && Descends(a, seeds, id, steps)
    ensures Descends(b, seeds, id, steps)
    decreases steps
  {
    if id !in seeds {
      var t :| t in a && t.id == id && t.parent.Some? && Descends(a, seeds, t.parent.value, steps - 1);
      SubsetDescends(a, b, seeds, t.parent.value, steps - 1);
      assert t in b;
    }
  }

  /** More tags never release a reserved id; so order and repetition do not matter. */
  lemma ReservedGrowsWithTags(a: seq<Tag>, b: seq<Tag>, s: Settings)
    requires forall t <- a :: t in b
    ensures Reserved(a, s) <= Reserved(b, s)
  {
    if s.inboxTagId > 0 {
      forall id <- Reserved(a, s) ensures id in Reserved(b, s) {
        var steps: nat :| Descends(a, Seeds(s), id, steps);
        SubsetDescends(a, b, Seeds(s), id, steps);
        if id in Ids(a) {
          var t :| t in a && t.id == id;
          assert t in b;
        }
      }
    }
  }
}
