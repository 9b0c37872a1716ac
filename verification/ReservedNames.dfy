/** `reserved_classification_tag_names` and what it protects (app/pipeline/tag_policy.py). */
module ReservedNames {
  import opened Utf8
  import opened PyText
  import opened Wrappers
  import TagPolicy
  import R = ResultNormalizer

  datatype Named = Named(tag: TagPolicy.Tag, name: Text)

  function Tags(catalog: seq<Named>): seq<TagPolicy.Tag> {
    seq(|catalog|, i requires 0 <= i < |catalog| => catalog[i].tag)
  }

  /** The folded names of the catalogue's tags whose id is reserved. */
  function Names(u: R.Unicode, catalog: seq<Named>, reserved: set<int>): set<Text> {
    if catalog == [] then {}
    else
      var n := |catalog| - 1;
      var last := catalog[n];
      Names(u, catalog[..n], reserved)
      + if last.tag.id in reserved && Strip(last.name) != [] then {u.fold(Strip(last.name))} else {}
  }

  /** Exactly the names of reserved tags, stripped and folded, except blank ones. */
  lemma {:induction false} NamesAreThoseOfReservedTags(u: R.Unicode, catalog: seq<Named>, reserved: set<int>)
    ensures forall name :: name in Names(u, catalog, reserved) <==>
              exists t <- catalog :: t.tag.id in reserved && !Blank(t.name) && u.fold(Strip(t.name)) == name
  {
    if catalog != [] {
      var n := |catalog| - 1;
      NamesAreThoseOfReservedTags(u, catalog[..n], reserved);
      StripLeavesNothingIffBlank(catalog[n].name);
      assert forall t :: t in catalog <==> t in catalog[..n] || t == catalog[n];
    }
  }

  method ReservedClassificationTagNames(u: R.Unicode, catalog: seq<Named>, s: TagPolicy.Settings)
    returns (names: set<Text>)
    ensures names == Names(u, catalog, TagPolicy.Reserved(Tags(catalog), s))
  {
    var ids := TagPolicy.ReservedClassificationTagIds(Tags(catalog), s);
    names := {};
    for i := 0 to |catalog|
      invariant names == Names(u, catalog[..i], ids)
    {
      assert catalog[..i + 1][..i] == catalog[..i];
      var name := Strip(catalog[i].name);
      if catalog[i].tag.id in ids && name != [] {
        names := names + {u.fold(name)};
      }
    }
    assert catalog[..|catalog|] == catalog;
  }

  function Folded(u: R.Unicode, names: set<Text>): set<Text> {
    set n <- names :: u.fold(n)
  }

  /** No tag of the list is, up to case, one of the names. */
  ghost predicate Avoids(u: R.Unicode, tags: seq<R.Tag>, names: set<Text>) {
    forall i :: 0 <= i < |tags| ==> u.fold(tags[i].name) !in names
  }

  /**
   * The names are folded once when they are collected and once more when they are compared. So
   * normalised output avoids them for every model answer exactly when folding twice still covers
   * every name, as Unicode case folding, which is idempotent, does.
   */
  lemma NormalTagsAvoidNamesIff(u: R.Unicode, catalog: seq<Named>, reserved: set<int>, maxTags: nat)
    ensures var names := Names(u, catalog, reserved);
            names <= Folded(u, names)
            <==> forall tags: seq<R.Tag> :: Avoids(u, R.NormalTags(u, Folded(u, names), tags, maxTags), names)
  {
    var names := Names(u, catalog, reserved);
    var forbidden := Folded(u, names);
    if names <= forbidden {
      forall tags: seq<R.Tag> ensures Avoids(u, R.NormalTags(u, forbidden, tags, maxTags), names) {
        R.NormalTagsAreExact(u, forbidden, tags, maxTags);
        CleanAvoids(u, R.NormalTags(u, forbidden, tags, maxTags), forbidden);
      }
    } else {
      var n :| n in names && n !in forbidden;
      var named := NameHasTag(u, catalog, reserved, n);
      ReservedTagSlips(u, forbidden, named.name, maxTags);
      var slipped := R.NormalTags(u, forbidden, [R.Tag(named.name, 50)], maxTags);
      assert u.fold(slipped[0].name) == n;
      assert !Avoids(u, slipped, names);
    }
  }

  lemma ReservedTagSlips(u: R.Unicode, forbidden: set<Text>, name: Text, maxTags: nat)
    requires Strip(name) != [] && u.fold(Strip(name)) !in forbidden
    ensures R.NormalTags(u, forbidden, [R.Tag(name, 50)], maxTags) == [R.Tag(Strip(name), 50)]
  {
    var cleaned := R.CleanedAll([R.Tag(name, 50)]);
    assert cleaned == [R.Tag(Strip(name), 50)];
    assert cleaned[..0] == [];
    assert R.Kept(u, forbidden, cleaned) == cleaned;
  }

  lemma {:induction false} CleanAvoids(u: R.Unicode, tags: seq<R.Tag>, forbidden: set<Text>)
    requires R.Clean(u, forbidden, tags)
    ensures Avoids(u, tags, forbidden)
  {
    if tags != [] {
      CleanAvoids(u, tags[..|tags| - 1], forbidden);
    }
  }

  lemma {:induction false} NameHasTag(u: R.Unicode, catalog: seq<Named>, reserved: set<int>, name: Text)
    returns (named: Named)
    requires name in Names(u, catalog, reserved)
    ensures named in catalog && named.tag.id in reserved
    ensures Strip(named.name) != [] && u.fold(Strip(named.name)) == name
  {
    var n := |catalog| - 1;
    var last := catalog[n];
    if last.tag.id in reserved && Strip(last.name) != [] && u.fold(Strip(last.name)) == name {
      named := last;
    } else {
      named := NameHasTag(u, catalog[..n], reserved, name);
    }
  }
}
