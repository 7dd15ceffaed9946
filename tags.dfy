/**
 * Tags in script.js: adding and removing a unit's tag, and the tag filter of
 * the execution view (`filterUnitsByTag`, `hasDescendantWithTag`), which keeps
 * a unit when it or a descendant within the template's depth carries the tag.
 */
module Tags {
  import opened Wrappers
  import opened Text
  import opened Workflow
  import opened Units
  import Seqs

  /** The unit reached from `u` by the relative address `p` (`u` itself for the empty address). */
  function Descendant(u: Node, p: Path): Option<Node>
  {
    if p == [] then Some(u) else GetByPath(u.subcategories, p)
  }

  lemma DescendantStep(u: Node, i: nat, q: Path)
    requires i < |u.subcategories|
    ensures Descendant(u, [i] + q) == Descendant(u.subcategories[i], q)
  {
    assert ([i] + q)[1..] == q;
  }

  /** Reference definition: some unit at most `n` steps below `u` (or `u` itself) carries `tag`. */
  ghost predicate TaggedWithin(u: Node, tag: string, n: nat)
  {
    exists p: Path :: |p| <= n && Descendant(u, p).Some? && NodeHasTag(Descendant(u, p).value, tag)
  }

  /** `hasDescendantWithTag(unit, tag, template, depth)` for a template with `levelCount` levels. */
  function HasDescendantWithTag(u: Node, tag: string, levelCount: nat, depth: nat): bool
    decreases u
  {
    NodeHasTag(u, tag)
    || (depth < levelCount && exists c :: c in u.subcategories && HasDescendantWithTag(c, tag, levelCount, depth + 1))
  }

  /** The filter's test for one unit: its own tag, or (above the last level) a child with a tagged descendant. */
  function KeepForTag(u: Node, tag: string, levelCount: nat, depth: nat): bool
  {
    NodeHasTag(u, tag)
    || (depth + 1 < levelCount && exists c :: c in u.subcategories && HasDescendantWithTag(c, tag, levelCount, depth + 1))
  }

  /** `filterUnitsByTag(units, tag, template, depth)`: the units passing the test, in their order. */
  function FilterUnitsByTag(units: seq<Node>, tag: string, levelCount: nat, depth: nat): (r: seq<Node>)
    ensures |r| <= |units|
    ensures forall u :: u in r <==> u in units && KeepForTag(u, tag, levelCount, depth)
  {
    if units == [] then []
    else
      var rest := FilterUnitsByTag(units[..|units| - 1], tag, levelCount, depth);
      var u := units[|units| - 1];
      assert units == units[..|units| - 1] + [u];
      if KeepForTag(u, tag, levelCount, depth) then rest + [u] else rest
  }

  /**
   * `filter` keeps the units in their order, repeats included: filtering a
   * concatenation filters each part, and a single unit is kept exactly when
   * it passes the test.
   */
  lemma {:induction false} FilterUnitsByTagAppend(a: seq<Node>, b: seq<Node>, tag: string, levelCount: nat, depth: nat)
    ensures FilterUnitsByTag(a + b, tag, levelCount, depth) == FilterUnitsByTag(a, tag, levelCount, depth) + FilterUnitsByTag(b, tag, levelCount, depth)
    ensures forall u :: FilterUnitsByTag([u], tag, levelCount, depth) == if KeepForTag(u, tag, levelCount, depth) then [u] else []
    decreases |b|
  {
    forall u
      ensures FilterUnitsByTag([u], tag, levelCount, depth) == if KeepForTag(u, tag, levelCount, depth) then [u] else []
    {
      assert [u][..0] == [];
    }
    if b == [] {
      assert a + b == a;
    } else {
      var init := b[..|b| - 1];
      var last := b[|b| - 1];
      assert (a + b)[..|a + b| - 1] == a + init;
      assert (a + b)[|a + b| - 1] == last;
      FilterUnitsByTagAppend(a, init, tag, levelCount, depth);
      var kept := if !KeepForTag(last, tag, levelCount, depth) then [] else [last];
      assert FilterUnitsByTag(a + b, tag, levelCount, depth) == FilterUnitsByTag(a + init, tag, levelCount, depth) + kept;
      assert FilterUnitsByTag(b, tag, levelCount, depth) == FilterUnitsByTag(init, tag, levelCount, depth) + kept;
      Seqs.AppendAssoc(FilterUnitsByTag(a, tag, levelCount, depth), FilterUnitsByTag(init, tag, levelCount, depth), FilterUnitsByTag(a + init, tag, levelCount, depth), kept);
    }
  }

  /**
   * `hasDescendantWithTag` at `depth` looks `levelCount - depth` steps down:
   * it holds exactly when a unit that many steps below (or the unit itself)
   * carries the tag.
   */
  lemma {:induction false} HasDescendantWithTagIff(u: Node, tag: string, levelCount: nat, depth: nat)
    ensures HasDescendantWithTag(u, tag, levelCount, depth)
      <==> TaggedWithin(u, tag, if depth < levelCount then levelCount - depth else 0)
    decreases u
  {
    var n := if depth < levelCount then levelCount - depth else 0;
    if HasDescendantWithTag(u, tag, levelCount, depth) {
      if NodeHasTag(u, tag) {
        assert Descendant(u, []) == Some(u);
      } else {
        var c :| c in u.subcategories && HasDescendantWithTag(c, tag, levelCount, depth + 1);
        var i :| 0 <= i < |u.subcategories| && u.subcategories[i] == c;
        HasDescendantWithTagIff(c, tag, levelCount, depth + 1);
        var q: Path :| |q| <= levelCount - depth - 1 && Descendant(c, q).Some? && NodeHasTag(Descendant(c, q).value, tag);
        DescendantStep(u, i, q);
        assert |[i] + q| <= n;
      }
    }
    if TaggedWithin(u, tag, n) {
      var p: Path :| |p| <= n && Descendant(u, p).Some? && NodeHasTag(Descendant(u, p).value, tag);
      if p != [] {
        var i := p[0];
        var c := u.subcategories[i];
        assert p == [i] + p[1..];
        DescendantStep(u, i, p[1..]);
        HasDescendantWithTagIff(c, tag, levelCount, depth + 1);
        assert c in u.subcategories && HasDescendantWithTag(c, tag, levelCount, depth + 1);
      }
    }
  }

  /**
   * The filter keeps a unit exactly when it or a unit at most
   * `levelCount - depth` steps below it carries the tag, except on the last
   * level (`depth >= levelCount - 1`), where only the unit's own tags count.
   */
  lemma KeepForTagIff(u: Node, tag: string, levelCount: nat, depth: nat)
    ensures KeepForTag(u, tag, levelCount, depth)
      <==> TaggedWithin(u, tag, if depth + 1 < levelCount then levelCount - depth else 0)
  {
    var n := if depth + 1 < levelCount then levelCount - depth else 0;
    if depth + 1 < levelCount {
      assert HasDescendantWithTag(u, tag, levelCount, depth) == KeepForTag(u, tag, levelCount, depth);
      HasDescendantWithTagIff(u, tag, levelCount, depth);
    } else if TaggedWithin(u, tag, 0) {
      var p: Path :| |p| <= 0 && Descendant(u, p).Some? && NodeHasTag(Descendant(u, p).value, tag);
      assert p == [];
    } else {
      assert Descendant(u, []) == Some(u);
    }
  }

  /**
   * Submitting the add-tag form: the input is trimmed; a blank tag or one the
   * unit already has changes nothing, any other is appended.
   */
  function AddTag(tags: seq<string>, input: string): seq<string>
  {
    var t := Trim(input);
    if t == "" || t in tags then tags else tags + [t]
  }

  predicate NoDuplicates(tags: seq<string>)
  {
    forall i, j :: 0 <= i < j < |tags| ==> tags[i] != tags[j]
  }

  /**
   * Adding keeps the existing tags in order and adds the trimmed input exactly
   * when it is non-blank and new, so a list without duplicates stays so.
   */
  lemma AddTagSpec(tags: seq<string>, input: string)
    ensures var r := AddTag(tags, input);
      tags <= r && |r| <= |tags| + 1
      && (forall t :: t in r <==> t in tags || (t == Trim(input) && t != ""))
      && (NoDuplicates(tags) ==> NoDuplicates(r))
  {
  }

  /** Adding the same tag a second time is a no-op. */
  lemma AddTagIdempotent(tags: seq<string>, input: string)
    ensures AddTag(AddTag(tags, input), input) == AddTag(tags, input)
  {
  }

  /** `unit.tags.filter(t => t !== tag)`. */
  function RemoveTag(tags: seq<string>, tag: string): (r: seq<string>)
    ensures |r| <= |tags|
    ensures forall t :: t in r <==> t in tags && t != tag
  {
    if tags == [] then []
    else
      var last := tags[|tags| - 1];
      assert tags == tags[..|tags| - 1] + [last];
      RemoveTag(tags[..|tags| - 1], tag) + (if last == tag then [] else [last])
  }

  /**
   * `filter` keeps the other tags in their order, repeats included: removing
   * from a concatenation removes from each part, and a single tag stays
   * exactly when it is not the removed one.
   */
  lemma {:induction false} RemoveTagAppend(a: seq<string>, b: seq<string>, tag: string)
    ensures RemoveTag(a + b, tag) == RemoveTag(a, tag) + RemoveTag(b, tag)
    ensures forall t :: RemoveTag([t], tag) == if t == tag then [] else [t]
    decreases |b|
  {
    forall t
      ensures RemoveTag([t], tag) == if t == tag then [] else [t]
    {
      assert [t][..0] == [];
    }
    if b == [] {
      assert a + b == a;
    } else {
      var init := b[..|b| - 1];
      var last := b[|b| - 1];
      assert (a + b)[..|a + b| - 1] == a + init;
      assert (a + b)[|a + b| - 1] == last;
      RemoveTagAppend(a, init, tag);
      var kept := if last == tag then [] else [last];
      assert RemoveTag(a + b, tag) == RemoveTag(a + init, tag) + kept;
      assert RemoveTag(b, tag) == RemoveTag(init, tag) + kept;
      Seqs.AppendAssoc(RemoveTag(a, tag), RemoveTag(init, tag), RemoveTag(a + init, tag), kept);
    }
  }

  /** Removing keeps every other tag in its order: a tag list the tag does not occur in is left as it is. */
  lemma {:induction false} RemoveTagAbsent(tags: seq<string>, tag: string)
    requires tag !in tags
    ensures RemoveTag(tags, tag) == tags
  {
    if tags != [] {
      RemoveTagAbsent(tags[..|tags| - 1], tag);
      assert tags == tags[..|tags| - 1] + [tags[|tags| - 1]];
    }
  }

  /** Removing twice is removing once. */
  lemma RemoveTagIdempotent(tags: seq<string>, tag: string)
    ensures RemoveTag(RemoveTag(tags, tag), tag) == RemoveTag(tags, tag)
  {
    RemoveTagAbsent(RemoveTag(tags, tag), tag);
  }

  /** Removing after adding the same tag gives what removing alone gives. */
  lemma RemoveAfterAdd(tags: seq<string>, input: string)
    ensures RemoveTag(AddTag(tags, input), Trim(input)) == RemoveTag(tags, Trim(input))
  {
    var t := Trim(input);
    if t != "" && t !in tags {
      assert (tags + [t])[..|tags|] == tags;
    }
  }

  /** The tag form applied to the unit at `path`; no unit there, nothing changes. */
  function AddTagAt(forest: seq<Node>, path: Path, input: string): seq<Node>
  {
    UpdateAt(forest, path, (n: Node) => n.(tags := AddTag(n.tags, input)))
  }

  /** `removeTag(path, tag)`. */
  function RemoveTagAt(forest: seq<Node>, path: Path, tag: string): seq<Node>
  {
    UpdateAt(forest, path, (n: Node) => n.(tags := RemoveTag(n.tags, tag)))
  }

  /** Only the addressed unit's tag list changes, and it changes as `AddTag` says. */
  lemma AddTagAtEffect(forest: seq<Node>, path: Path, input: string)
    ensures GetByPath(AddTagAt(forest, path, input), path) ==
      match GetByPath(forest, path)
      case None => None
      case Some(n) => Some(n.(tags := AddTag(n.tags, input)))
    ensures GetByPath(forest, path).None? ==> AddTagAt(forest, path, input) == forest
  {
    var f := (n: Node) => n.(tags := AddTag(n.tags, input));
    UpdateAtHit(forest, path, f);
    if GetByPath(forest, path).None? {
      UpdateAtMissing(forest, path, f);
    }
  }

  /** The addressed unit loses every occurrence of the tag; a missing unit means no change. */
  lemma RemoveTagAtEffect(forest: seq<Node>, path: Path, tag: string)
    ensures GetByPath(RemoveTagAt(forest, path, tag), path) ==
      match GetByPath(forest, path)
      case None => None
      case Some(n) => Some(n.(tags := RemoveTag(n.tags, tag)))
    ensures GetByPath(forest, path).None? ==> RemoveTagAt(forest, path, tag) == forest
  {
    var f := (n: Node) => n.(tags := RemoveTag(n.tags, tag));
    UpdateAtHit(forest, path, f);
    if GetByPath(forest, path).None? {
      UpdateAtMissing(forest, path, f);
    }
  }
}
