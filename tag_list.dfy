/** The tag list that both problem forms keep: a tag is added from the text box when it is
    non-empty and not present yet, and removed by name. */
module TagList {
  import opened Common

  /** The test `tag !== t` of `tags.filter(...)`. */
  function IsNot(t: string): string -> bool {
    (x: string) => x != t
  }

  /** Whether `addTag` adds `newTag` to `tags`. */
  predicate Adds(tags: seq<string>, newTag: string) {
    newTag != "" && newTag !in tags
  }

  /** The tags after `addTag`: `newTag` at the end when it is non-empty and absent,
      otherwise the same list. */
  function AddedTag(tags: seq<string>, newTag: string): (r: seq<string>)
    ensures |r| == if Adds(tags, newTag) then |tags| + 1 else |tags|
    ensures r[..|tags|] == tags
    ensures forall x :: x in r <==> x in tags || (x == newTag && newTag != "")
    ensures NoDuplicates(tags) ==> NoDuplicates(r)
  {
    if Adds(tags, newTag) then
      var r := tags + [newTag];
      assert r[..|tags|] == tags;
      r
    else
      assert tags[..|tags|] == tags;
      tags
  }

  /** The tags after `removeTag(t)`: every copy of `t` goes, the others stay in order. */
  function WithoutTag(tags: seq<string>, t: string): (r: seq<string>)
    ensures t !in r
    ensures forall x :: x != t ==> (x in r <==> x in tags)
    ensures |r| <= |tags|
    ensures NoDuplicates(tags) ==> NoDuplicates(r)
  {
    FilterKeepsNoDuplicatesIf(tags, IsNot(t));
    Filter(tags, IsNot(t))
  }

  lemma FilterKeepsNoDuplicatesIf(s: seq<string>, p: string -> bool)
    ensures NoDuplicates(s) ==> NoDuplicates(Filter(s, p))
  {
    if NoDuplicates(s) {
      FilterKeepsNoDuplicates(s, p);
    }
  }

  /** Removing a tag from a concatenation removes it from each part: the tags that stay
      keep their order. */
  lemma WithoutTagAppend(a: seq<string>, b: seq<string>, t: string)
    ensures WithoutTag(a + b, t) == WithoutTag(a, t) + WithoutTag(b, t)
  {
    FilterAppend(a, b, IsNot(t));
  }

  /** On a single tag, removal drops exactly the removed name. Together with
      `WithoutTagAppend` this fixes the whole result, element by element. */
  lemma WithoutTagSingle(x: string, t: string)
    ensures WithoutTag([x], t) == if x == t then [] else [x]
  {
    assert [x][1..] == [];
  }

  /** Adding a tag and then removing it gives back the list it was added to. */
  lemma {:induction false} AddThenRemoveRestores(tags: seq<string>, t: string)
    requires Adds(tags, t)
    ensures WithoutTag(AddedTag(tags, t), t) == tags
  {
    FilterAppend(tags, [t], IsNot(t));
    FilterKeepsAll(tags, IsNot(t));
    assert Filter([t], IsNot(t)) == [] by {
      assert [t][1..] == [];
    }
  }

  /** Removing a tag that is absent changes nothing. */
  lemma {:induction false} RemoveAbsent(tags: seq<string>, t: string)
    requires t !in tags
    ensures WithoutTag(tags, t) == tags
  {
    FilterKeepsAll(tags, IsNot(t));
  }
}
