/**
 * The parent/child link graph between virtual controls, as the designer
 * edits it (VirtualControlDesignerEditor.cpp: LinkControl, UnlinkControl,
 * UnlinkAllControl, ChangeControlName). A child records its parent's name
 * and an offset; a parent lists its children's names. Names are FNames:
 * every lookup compares them ignoring case and takes the first match.
 *
 * These functions describe each edit's effect on the control list; the
 * designer's methods are proved to produce them.
 */
module ControlLinks {
  import opened Common
  import opened VirtualControlTypes
  import opened VirtualControlSetup

  /** TArray<FName>::Remove: drops every entry equal to `name`. */
  function RemoveName(names: seq<string>, name: string): (r: seq<string>)
    ensures |r| <= |names|
    ensures forall x :: x in r <==> x in names && !SameName(x, name)
  {
    if names == [] then []
    else
      assert names == [names[0]] + names[1..];
      (if SameName(names[0], name) then [] else [names[0]]) + RemoveName(names[1..], name)
  }

  lemma {:induction false} RemoveNameAbsent(names: seq<string>, name: string)
    requires forall k :: 0 <= k < |names| ==> !SameName(names[k], name)
    ensures RemoveName(names, name) == names
  {
    if names != [] {
      RemoveNameAbsent(names[1..], name);
    }
  }

  /** Removing each name of `removed` in turn. */
  function RemoveNames(names: seq<string>, removed: seq<string>): (r: seq<string>)
    ensures |r| <= |names|
    ensures forall x :: x in r <==> x in names && forall k :: 0 <= k < |removed| ==> !SameName(x, removed[k])
  {
    if removed == [] then names
    else RemoveName(RemoveNames(names, removed[..|removed| - 1]), removed[|removed| - 1])
  }

  /** A non-empty sequence holds its first element (a fact stated without conditions, for use in proofs). */
  lemma HeadIsMember<T>(s: seq<T>)
    ensures s != [] ==> s[0] in s
  {
  }

  /** A removed name is gone from the result. */
  lemma RemovedIsGone(names: seq<string>, removed: seq<string>, x: string)
    requires x in removed
    ensures x !in RemoveNames(names, removed)
  {
    var k :| 0 <= k < |removed| && removed[k] == x;
    assert SameName(x, removed[k]);
  }

  /** Removing every name of a list from itself leaves nothing. */
  lemma RemoveOwnNames(names: seq<string>)
    ensures RemoveNames(names, names) == []
  {
    var r := RemoveNames(names, names);
    HeadIsMember(r);
    if r != [] {
      RemovedIsGone(names, names, r[0]);
    }
  }

  /** No two controls share a name. */
  predicate UniqueNames(cs: seq<VirtualControl>)
  {
    forall i, j :: 0 <= i < |cs| && 0 <= j < |cs| && i != j ==> !SameName(cs[i].controlName, cs[j].controlName)
  }

  /**
   * The child named `n` of control `p` (as GetVirtualControlRef finds it)
   * exists, is a child, and names `p` as its parent.
   */
  predicate LinkedChild(cs: seq<VirtualControl>, p: int, n: string)
    requires 0 <= p < |cs|
  {
    var c := IndexByName(cs, n);
    !IsNone(cs[p].controlName) && c >= 0 && cs[c].link.isChild && SameName(cs[c].link.parentName, cs[p].controlName)
  }

  /** A control that is not a child carries no parent name and no offset. */
  predicate Detached(c: VirtualControl)
  {
    c.link.isChild || (c.link.parentName == NameNone && c.link.parentOffset == Zero2)
  }

  /** Every name a parent lists is a child pointing back to it. */
  predicate ChildrenLinked(cs: seq<VirtualControl>)
  {
    forall p, k :: 0 <= p < |cs| && 0 <= k < |cs[p].link.children| ==> LinkedChild(cs, p, cs[p].link.children[k])
  }

  /** The link graph the designer maintains: unique names, detached non-children, and children that point back. */
  predicate Consistent(cs: seq<VirtualControl>)
  {
    UniqueNames(cs) && (forall i :: 0 <= i < |cs| ==> Detached(cs[i])) && ChildrenLinked(cs)
  }

  /** Two lists of controls with the same names in the same order. */
  predicate SameNames(a: seq<VirtualControl>, b: seq<VirtualControl>)
  {
    |a| == |b| && forall i :: 0 <= i < |a| ==> a[i].controlName == b[i].controlName
  }

  lemma SameNamesLookup(a: seq<VirtualControl>, b: seq<VirtualControl>, n: string)
    requires SameNames(a, b)
    ensures IndexByName(a, n) == IndexByName(b, n)
    ensures NameExists(a, n) <==> NameExists(b, n)
    ensures UniqueNames(a) ==> UniqueNames(b)
  {
    var ia, ib := IndexByName(a, n), IndexByName(b, n);
    if ia >= 0 {
      assert SameName(b[ia].controlName, n);
    }
    if ib >= 0 {
      assert SameName(a[ib].controlName, n);
    }
  }

  /** In a list with unique names, the control matching a name is the one IndexByName finds. */
  lemma UniqueLookup(cs: seq<VirtualControl>, n: string, c: int)
    requires UniqueNames(cs)
    requires 0 <= c < |cs| && SameName(cs[c].controlName, n)
    ensures IndexByName(cs, n) == c
  {
    var i := IndexByName(cs, n);
    assert i >= 0;
    assert SameName(cs[i].controlName, cs[c].controlName);
  }

  // ---------------------------------------------------------------- LinkControl

  /** LinkControl's update of one control: the child gets its link fields, the parent gains the child's name. */
  function LinkOne(c: VirtualControl, parent: string, child: string, offset: Vec2): VirtualControl
  {
    var c1 := if SameName(c.controlName, child) then c.(link := c.link.(isChild := true, parentName := parent, parentOffset := offset)) else c;
    if SameName(c1.controlName, parent) then c1.(link := c1.link.(children := c1.link.children + [child])) else c1
  }

  /** LinkControl on the whole list: every control is updated, names stay. */
  function Linked(cs: seq<VirtualControl>, parent: string, child: string, offset: Vec2): (r: seq<VirtualControl>)
    ensures SameNames(cs, r)
  {
    seq(|cs|, i requires 0 <= i < |cs| => LinkOne(cs[i], parent, child, offset))
  }

  /**
   * Linking sets the link fields of every control named `child`, appends
   * `child` to the Children of every control named `parent` (without
   * removing an earlier entry), and leaves every other field alone.
   */
  lemma LinkedSpec(cs: seq<VirtualControl>, parent: string, child: string, offset: Vec2, i: int)
    requires 0 <= i < |cs|
    ensures var r := Linked(cs, parent, child, offset)[i];
      (SameName(cs[i].controlName, child) ==> r.link.isChild && r.link.parentName == parent && r.link.parentOffset == offset)
      && (!SameName(cs[i].controlName, child) ==>
            r.link.isChild == cs[i].link.isChild && r.link.parentName == cs[i].link.parentName
            && r.link.parentOffset == cs[i].link.parentOffset)
      && r.link.children == (if SameName(cs[i].controlName, parent) then cs[i].link.children + [child] else cs[i].link.children)
      && r.link.moveWhenParentRecenter == cs[i].link.moveWhenParentRecenter
      && r.(link := cs[i].link) == cs[i]
  {
  }

  // ---------------------------------------------------------------- UnlinkControl

  /** The unlinked child is placed where the viewport shows it, in the current orientation. */
  function Placed(c: VirtualControl, position: Vec2, landscape: bool): VirtualControl
  {
    if landscape then c.(landscapeCenter := position) else c.(portraitCenter := position)
  }

  /**
   * UnlinkControl: the first control named `child` loses its link fields and
   * is placed at `position`; then, if it had a parent name, the first
   * control with that name drops `child` from its Children.
   */
  function Unlinked(cs: seq<VirtualControl>, child: string, position: Vec2, landscape: bool): (r: seq<VirtualControl>)
    ensures SameNames(cs, r)
  {
    var i := IndexByName(cs, child);
    if i == -1 then cs
    else
      var parentName := cs[i].link.parentName;
      var cs1 := cs[i := Placed(cs[i].(link := cs[i].link.(isChild := false, parentName := NameNone, parentOffset := Zero2)), position, landscape)];
      if IsNone(parentName) then cs1
      else
        var p := IndexByName(cs1, parentName);
        if p == -1 then cs1
        else cs1[p := cs1[p].(link := cs1[p].link.(children := RemoveName(cs1[p].link.children, child)))]
  }

  /** The index of the parent of the first control named `n`, or -1 when it has none. */
  function ParentIndex(cs: seq<VirtualControl>, n: string): (p: int)
    ensures -1 <= p < |cs|
  {
    var i := IndexByName(cs, n);
    if i == -1 || IsNone(cs[i].link.parentName) then -1 else IndexByName(cs, cs[i].link.parentName)
  }

  /** What Unlinked does to each control: only the child's link fields, its centre and its parent's Children change. */
  lemma UnlinkedAt(cs: seq<VirtualControl>, n: string, position: Vec2, landscape: bool, q: int)
    requires 0 <= q < |cs|
    ensures var r := Unlinked(cs, n, position, landscape)[q];
      r.controlName == cs[q].controlName
      && r.link.children == (if q == ParentIndex(cs, n) then RemoveName(cs[q].link.children, n) else cs[q].link.children)
      && (q == IndexByName(cs, n) ==>
            !r.link.isChild && r.link.parentName == NameNone && r.link.parentOffset == Zero2)
      && (q != IndexByName(cs, n) ==>
            r.link.isChild == cs[q].link.isChild && r.link.parentName == cs[q].link.parentName
            && r.link.parentOffset == cs[q].link.parentOffset)
  {
    var i := IndexByName(cs, n);
    if i >= 0 {
      var cs1 := cs[i := Placed(cs[i].(link := cs[i].link.(isChild := false, parentName := NameNone, parentOffset := Zero2)), position, landscape)];
      assert SameNames(cs, cs1);
      SameNamesLookup(cs, cs1, cs[i].link.parentName);
    }
  }

  /** Under Consistent, a control that lists `n` is the parent of the control named `n`. */
  lemma ListedOnlyByParent(cs: seq<VirtualControl>, n: string, q: int, k: int)
    requires Consistent(cs)
    requires 0 <= q < |cs| && 0 <= k < |cs[q].link.children| && SameName(cs[q].link.children[k], n)
    ensures var i := IndexByName(cs, n);
      i >= 0 && cs[i].link.isChild && ParentIndex(cs, n) == q
  {
    var m := cs[q].link.children[k];
    assert LinkedChild(cs, q, m);
    var c := IndexByName(cs, m);
    UniqueLookup(cs, n, c);
    UniqueLookup(cs, cs[c].link.parentName, q);
  }

  /** Unlinking `n` from a consistent list removes `n` from every Children list and from nothing else. */
  lemma UnlinkedChildren(cs: seq<VirtualControl>, n: string, position: Vec2, landscape: bool, q: int)
    requires Consistent(cs) && 0 <= q < |cs|
    ensures Unlinked(cs, n, position, landscape)[q].link.children == RemoveName(cs[q].link.children, n)
  {
    UnlinkedAt(cs, n, position, landscape, q);
    if q != ParentIndex(cs, n) {
      forall k | 0 <= k < |cs[q].link.children|
        ensures !SameName(cs[q].link.children[k], n)
      {
        if SameName(cs[q].link.children[k], n) {
          ListedOnlyByParent(cs, n, q, k);
        }
      }
      RemoveNameAbsent(cs[q].link.children, n);
    }
  }

  /** A name still listed after unlinking `n` still points back to its parent. */
  lemma UnlinkedLinkedChild(cs: seq<VirtualControl>, n: string, position: Vec2, landscape: bool, q: int, k: int)
    requires Consistent(cs) && 0 <= q < |cs|
    requires var r := Unlinked(cs, n, position, landscape); 0 <= k < |r[q].link.children|
    ensures LinkedChild(Unlinked(cs, n, position, landscape), q, Unlinked(cs, n, position, landscape)[q].link.children[k])
  {
    var r := Unlinked(cs, n, position, landscape);
    var m := r[q].link.children[k];
    UnlinkedChildren(cs, n, position, landscape, q);
    UnlinkedAt(cs, n, position, landscape, q);
    assert m in r[q].link.children;
    assert m in cs[q].link.children && !SameName(m, n);
    var k0 :| 0 <= k0 < |cs[q].link.children| && cs[q].link.children[k0] == m;
    assert LinkedChild(cs, q, m);
    var c := IndexByName(cs, m);
    SameNamesLookup(cs, r, m);
    UnlinkedAt(cs, n, position, landscape, c);
  }

  /** Unlinking one name from a consistent list removes that name from every Children list and keeps the list consistent. */
  lemma UnlinkedEffect(cs: seq<VirtualControl>, n: string, position: Vec2, landscape: bool)
    requires Consistent(cs)
    ensures var r := Unlinked(cs, n, position, landscape);
      Consistent(r) && forall q :: 0 <= q < |cs| ==> r[q].link.children == RemoveName(cs[q].link.children, n)
  {
    var r := Unlinked(cs, n, position, landscape);
    SameNamesLookup(cs, r, n);
    forall q | 0 <= q < |cs|
      ensures r[q].link.children == RemoveName(cs[q].link.children, n)
    {
      UnlinkedChildren(cs, n, position, landscape, q);
    }
    forall q | 0 <= q < |r|
      ensures Detached(r[q])
    {
      UnlinkedAt(cs, n, position, landscape, q);
    }
    forall q, k | 0 <= q < |r| && 0 <= k < |r[q].link.children|
      ensures LinkedChild(r, q, r[q].link.children[k])
    {
      UnlinkedLinkedChild(cs, n, position, landscape, q, k);
    }
  }

  /** UnlinkControl applied to each name of `names` in turn. */
  function UnlinkEach(cs: seq<VirtualControl>, names: seq<string>, positions: string -> Vec2, landscape: bool): (r: seq<VirtualControl>)
    ensures SameNames(cs, r)
  {
    if names == [] then cs
    else
      var last := names[|names| - 1];
      Unlinked(UnlinkEach(cs, names[..|names| - 1], positions, landscape), last, positions(last), landscape)
  }

  lemma {:induction false} UnlinkEachEffect(cs: seq<VirtualControl>, names: seq<string>, positions: string -> Vec2, landscape: bool)
    requires Consistent(cs)
    ensures var r := UnlinkEach(cs, names, positions, landscape);
      Consistent(r) && forall q :: 0 <= q < |cs| ==> r[q].link.children == RemoveNames(cs[q].link.children, names)
  {
    if names != [] {
      var init := names[..|names| - 1];
      UnlinkEachEffect(cs, init, positions, landscape);
      UnlinkedEffect(UnlinkEach(cs, init, positions, landscape), names[|names| - 1], positions(names[|names| - 1]), landscape);
    }
  }

  /** UnlinkAllControl's loop over the first `q` controls. */
  function UnlinkAllUpTo(cs: seq<VirtualControl>, parent: string, q: nat, positions: string -> Vec2, landscape: bool): (r: seq<VirtualControl>)
    requires q <= |cs|
    ensures SameNames(cs, r)
  {
    if q == 0 then cs
    else
      var prev := UnlinkAllUpTo(cs, parent, q - 1, positions, landscape);
      if SameName(prev[q - 1].controlName, parent) then UnlinkEach(prev, prev[q - 1].link.children, positions, landscape)
      else prev
  }

  /** UnlinkAllControl: every control named `parent` unlinks each of its children, read before the first unlink. */
  function UnlinkAll(cs: seq<VirtualControl>, parent: string, positions: string -> Vec2, landscape: bool): seq<VirtualControl>
  {
    UnlinkAllUpTo(cs, parent, |cs|, positions, landscape)
  }

  lemma {:induction false} UnlinkAllUpToEffect(cs: seq<VirtualControl>, parent: string, q: nat, positions: string -> Vec2, landscape: bool, pi: int)
    requires q <= |cs| && Consistent(cs)
    requires 0 <= pi < |cs| && SameName(cs[pi].controlName, parent)
    ensures var r := UnlinkAllUpTo(cs, parent, q, positions, landscape);
      Consistent(r) && (pi < q ==> r[pi].link.children == [])
  {
    if q > 0 {
      UnlinkAllUpToEffect(cs, parent, q - 1, positions, landscape, pi);
      UnlinkAllStep(cs, parent, q, positions, landscape, pi);
    }
  }

  /** One iteration of UnlinkAllControl's outer loop: the one at index `q - 1`. */
  lemma UnlinkAllStep(cs: seq<VirtualControl>, parent: string, q: nat, positions: string -> Vec2, landscape: bool, pi: int)
    requires 0 < q <= |cs| && 0 <= pi < |cs| && SameName(cs[pi].controlName, parent)
    requires var prev := UnlinkAllUpTo(cs, parent, q - 1, positions, landscape);
      Consistent(prev) && (pi < q - 1 ==> prev[pi].link.children == [])
    ensures var r := UnlinkAllUpTo(cs, parent, q, positions, landscape);
      Consistent(r) && (pi < q ==> r[pi].link.children == [])
  {
    var prev := UnlinkAllUpTo(cs, parent, q - 1, positions, landscape);
    assert prev[pi].controlName == cs[pi].controlName;
    if SameName(prev[q - 1].controlName, parent) {
      UnlinkEachEffect(prev, prev[q - 1].link.children, positions, landscape);
      if q - 1 == pi {
        RemoveOwnNames(prev[pi].link.children);
      }
    }
  }

  /** UnlinkAllControl leaves the parent with no children and the link graph consistent. */
  lemma UnlinkAllEmptiesParent(cs: seq<VirtualControl>, parent: string, positions: string -> Vec2, landscape: bool)
    requires Consistent(cs)
    ensures Consistent(UnlinkAll(cs, parent, positions, landscape))
    ensures forall q :: 0 <= q < |cs| && SameName(cs[q].controlName, parent) ==>
      UnlinkAll(cs, parent, positions, landscape)[q].link.children == []
  {
    if exists q :: 0 <= q < |cs| && SameName(cs[q].controlName, parent) {
      var pi :| 0 <= pi < |cs| && SameName(cs[pi].controlName, parent);
      UnlinkAllUpToEffect(cs, parent, |cs|, positions, landscape, pi);
      forall q | 0 <= q < |cs| && SameName(cs[q].controlName, parent)
        ensures UnlinkAll(cs, parent, positions, landscape)[q].link.children == []
      {
        UnlinkAllUpToEffect(cs, parent, |cs|, positions, landscape, q);
      }
    } else {
      // No control is named `parent`: nothing is unlinked.
      UnlinkAllNoMatch(cs, parent, |cs|, positions, landscape);
    }
  }

  lemma {:induction false} UnlinkAllNoMatch(cs: seq<VirtualControl>, parent: string, q: nat, positions: string -> Vec2, landscape: bool)
    requires q <= |cs|
    requires forall i :: 0 <= i < |cs| ==> !SameName(cs[i].controlName, parent)
    ensures UnlinkAllUpTo(cs, parent, q, positions, landscape) == cs
  {
    if q > 0 {
      UnlinkAllNoMatch(cs, parent, q - 1, positions, landscape);
    }
  }

  /** Unlinking never makes a control a child. */
  lemma UnlinkedNoNewChild(cs: seq<VirtualControl>, n: string, position: Vec2, landscape: bool)
    ensures forall q :: 0 <= q < |cs| && Unlinked(cs, n, position, landscape)[q].link.isChild ==> cs[q].link.isChild
  {
    forall q | 0 <= q < |cs|
      ensures Unlinked(cs, n, position, landscape)[q].link.isChild ==> cs[q].link.isChild
    {
      UnlinkedAt(cs, n, position, landscape, q);
    }
  }

  lemma {:induction false} UnlinkEachNoNewChild(cs: seq<VirtualControl>, names: seq<string>, positions: string -> Vec2, landscape: bool)
    ensures forall q :: 0 <= q < |cs| && UnlinkEach(cs, names, positions, landscape)[q].link.isChild ==> cs[q].link.isChild
  {
    if names != [] {
      var init := names[..|names| - 1];
      UnlinkEachNoNewChild(cs, init, positions, landscape);
      UnlinkedNoNewChild(UnlinkEach(cs, init, positions, landscape), names[|names| - 1], positions(names[|names| - 1]), landscape);
    }
  }

  lemma {:induction false} UnlinkAllUpToNoNewChild(cs: seq<VirtualControl>, parent: string, q: nat, positions: string -> Vec2, landscape: bool)
    requires q <= |cs|
    ensures forall j :: 0 <= j < |cs| && UnlinkAllUpTo(cs, parent, q, positions, landscape)[j].link.isChild ==> cs[j].link.isChild
  {
    if q > 0 {
      UnlinkAllUpToNoNewChild(cs, parent, q - 1, positions, landscape);
      var prev := UnlinkAllUpTo(cs, parent, q - 1, positions, landscape);
      UnlinkEachNoNewChild(prev, prev[q - 1].link.children, positions, landscape);
    }
  }

  // ---------------------------------------------------------------- Link and unlink together

  /** A listed name still points back to its parent after linking an unlinked child. */
  lemma LinkedLinkedChild(cs: seq<VirtualControl>, parent: string, child: string, offset: Vec2, q: int, k: int)
    requires Consistent(cs)
    requires NameExists(cs, parent) && !IsNone(parent)
    requires NameExists(cs, child) && !cs[IndexByName(cs, child)].link.isChild
    requires 0 <= q < |cs|
    requires var r := Linked(cs, parent, child, offset); 0 <= k < |r[q].link.children|
    ensures LinkedChild(Linked(cs, parent, child, offset), q, Linked(cs, parent, child, offset)[q].link.children[k])
  {
    var r := Linked(cs, parent, child, offset);
    var ci := IndexByName(cs, child);
    SameNamesLookup(cs, r, r[q].link.children[k]);
    LinkedSpec(cs, parent, child, offset, q);
    if k < |cs[q].link.children| {
      var m := cs[q].link.children[k];
      assert LinkedChild(cs, q, m);
      var c := IndexByName(cs, m);
      LinkedSpec(cs, parent, child, offset, c);
      if SameName(cs[c].controlName, child) {
        UniqueLookup(cs, child, c);
      }
    } else {
      LinkedSpec(cs, parent, child, offset, ci);
    }
  }

  /**
   * Linking two existing, unlinked controls keeps the graph consistent
   * (`parent` must not be NAME_None, which UnlinkControl would ignore).
   */
  lemma LinkPreservesConsistent(cs: seq<VirtualControl>, parent: string, child: string, offset: Vec2)
    requires Consistent(cs)
    requires NameExists(cs, parent) && !IsNone(parent)
    requires NameExists(cs, child) && !cs[IndexByName(cs, child)].link.isChild
    ensures Consistent(Linked(cs, parent, child, offset))
  {
    var r := Linked(cs, parent, child, offset);
    SameNamesLookup(cs, r, child);
    forall q | 0 <= q < |r|
      ensures Detached(r[q])
    {
      LinkedSpec(cs, parent, child, offset, q);
    }
    forall q, k | 0 <= q < |r| && 0 <= k < |r[q].link.children|
      ensures LinkedChild(r, q, r[q].link.children[k])
    {
      LinkedLinkedChild(cs, parent, child, offset, q, k);
    }
  }

  /** A child that is not listed by any parent. */
  lemma UnlinkedChildIsUnlisted(cs: seq<VirtualControl>, child: string, q: int)
    requires Consistent(cs) && NameExists(cs, child) && !cs[IndexByName(cs, child)].link.isChild
    requires 0 <= q < |cs|
    ensures forall k :: 0 <= k < |cs[q].link.children| ==> !SameName(cs[q].link.children[k], child)
  {
    forall k | 0 <= k < |cs[q].link.children|
      ensures !SameName(cs[q].link.children[k], child)
    {
      if SameName(cs[q].link.children[k], child) {
        ListedOnlyByParent(cs, child, q, k);
      }
    }
  }

  /**
   * UnlinkControl undoes LinkControl: in a consistent list, linking an
   * unlinked control and unlinking it again gives back the original list,
   * except that the control now sits where the viewport placed it.
   */
  lemma UnlinkAfterLink(cs: seq<VirtualControl>, parent: string, child: string, offset: Vec2, position: Vec2, landscape: bool)
    requires Consistent(cs)
    requires NameExists(cs, parent) && !IsNone(parent) && !SameName(parent, child)
    requires NameExists(cs, child) && !cs[IndexByName(cs, child)].link.isChild
    ensures var ci := IndexByName(cs, child);
      Unlinked(Linked(cs, parent, child, offset), child, position, landscape) == cs[ci := Placed(cs[ci], position, landscape)]
  {
    var l := Linked(cs, parent, child, offset);
    var u := Unlinked(l, child, position, landscape);
    var ci := IndexByName(cs, child);
    var pi := IndexByName(cs, parent);
    SameNamesLookup(cs, l, child);
    SameNamesLookup(cs, l, parent);
    LinkedSpec(cs, parent, child, offset, ci);
    assert ParentIndex(l, child) == pi;
    var expected := cs[ci := Placed(cs[ci], position, landscape)];
    forall q | 0 <= q < |cs|
      ensures u[q] == expected[q]
    {
      LinkedSpec(cs, parent, child, offset, q);
      UnlinkedAt(l, child, position, landscape, q);
      UnlinkedPlaced(l, child, position, landscape, q);
      if q == pi {
        UnlinkedChildIsUnlisted(cs, child, pi);
        RemoveNameAppend(cs[pi].link.children, child);
      } else if q != ci {
        if SameName(cs[q].controlName, child) {
          UniqueLookup(cs, child, q);
        }
        if SameName(cs[q].controlName, parent) {
          UniqueLookup(cs, parent, q);
        }
      }
    }
  }

  /** Unlinked moves only the child, and changes nothing but link fields and that centre. */
  lemma UnlinkedPlaced(cs: seq<VirtualControl>, n: string, position: Vec2, landscape: bool, q: int)
    requires 0 <= q < |cs|
    ensures var r := Unlinked(cs, n, position, landscape)[q];
      r.(link := cs[q].link) == (if q == IndexByName(cs, n) then Placed(cs[q], position, landscape) else cs[q])
      && r.link.moveWhenParentRecenter == cs[q].link.moveWhenParentRecenter
  {
    var i := IndexByName(cs, n);
    if i >= 0 {
      var cs1 := cs[i := Placed(cs[i].(link := cs[i].link.(isChild := false, parentName := NameNone, parentOffset := Zero2)), position, landscape)];
      assert SameNames(cs, cs1);
      SameNamesLookup(cs, cs1, cs[i].link.parentName);
    }
  }

  /** Appending a name that no entry matches and removing it again gives the list back. */
  lemma {:induction false} RemoveNameAppend(names: seq<string>, name: string)
    requires forall k :: 0 <= k < |names| ==> !SameName(names[k], name)
    ensures RemoveName(names + [name], name) == names
  {
    if names == [] {
      assert [name][1..] == [];
    } else {
      assert (names + [name])[1..] == names[1..] + [name];
      RemoveNameAppend(names[1..], name);
    }
  }

  // ---------------------------------------------------------------- ChangeControlName

  /** Every name of `names` is the name of some control (GetVirtualControlRef's check). */
  predicate AllExist(cs: seq<VirtualControl>, names: seq<string>)
  {
    forall k :: 0 <= k < |names| ==> NameExists(cs, names[k])
  }

  /** ChangeControlName's loop over the children: each child found by name gets `newName` as its ParentName. */
  function SetParentNames(cs: seq<VirtualControl>, children: seq<string>, newName: string): (r: seq<VirtualControl>)
    requires AllExist(cs, children)
    ensures SameNames(cs, r)
  {
    if children == [] then cs
    else
      var init := children[..|children| - 1];
      var prev := SetParentNames(cs, init, newName);
      SameNamesLookup(cs, prev, children[|children| - 1]);
      var c := IndexByName(prev, children[|children| - 1]);
      prev[c := prev[c].(link := prev[c].link.(parentName := newName))]
  }

  /** The control at `q` is the one some name of `children` finds. */
  predicate FoundBy(cs: seq<VirtualControl>, children: seq<string>, q: int)
  {
    exists k :: 0 <= k < |children| && IndexByName(cs, children[k]) == q
  }

  /** A control with its ParentName replaced. */
  function WithParentName(c: VirtualControl, name: string): VirtualControl
  {
    c.(link := c.link.(parentName := name))
  }

  /** SetParentNames changes exactly the ParentName of the controls the names find. */
  lemma {:induction false} SetParentNamesAt(cs: seq<VirtualControl>, children: seq<string>, newName: string, q: int)
    requires AllExist(cs, children) && 0 <= q < |cs|
    ensures SetParentNames(cs, children, newName)[q] == (if FoundBy(cs, children, q) then WithParentName(cs[q], newName) else cs[q])
  {
    if children != [] {
      var init := children[..|children| - 1];
      var last := children[|children| - 1];
      SetParentNamesAt(cs, init, newName, q);
      var prev := SetParentNames(cs, init, newName);
      SameNamesLookup(cs, prev, last);
      FoundBySnoc(cs, children, q);
    }
  }

  lemma FoundBySnoc(cs: seq<VirtualControl>, children: seq<string>, q: int)
    requires children != []
    ensures FoundBy(cs, children, q) <==>
      FoundBy(cs, children[..|children| - 1], q) || IndexByName(cs, children[|children| - 1]) == q
  {
    var init := children[..|children| - 1];
    if FoundBy(cs, children, q) {
      var k :| 0 <= k < |children| && IndexByName(cs, children[k]) == q;
      if k < |init| {
        assert init[k] == children[k];
      }
    }
    if FoundBy(cs, init, q) {
      var k :| 0 <= k < |init| && IndexByName(cs, init[k]) == q;
      assert children[k] == init[k];
    }
  }

  /** The parent-side edit of ChangeControlName: a child's parent swaps the old name for the new one at the end of Children. */
  function SwapInParent(cs: seq<VirtualControl>, i: int, oldName: string, newName: string): (r: seq<VirtualControl>)
    requires 0 <= i < |cs|
    requires cs[i].link.isChild ==> NameExists(cs, cs[i].link.parentName)
    ensures SameNames(cs, r)
  {
    if !cs[i].link.isChild then cs
    else
      var p := IndexByName(cs, cs[i].link.parentName);
      cs[p := cs[p].(link := cs[p].link.(children := RemoveName(cs[p].link.children, oldName) + [newName]))]
  }

  /** What ChangeControlName's check() calls demand: the parent of a child, and each child of a parent, exists. */
  predicate CanRename(cs: seq<VirtualControl>, oldName: string, newName: string)
  {
    var i := IndexByName(cs, oldName);
    i >= 0 ==>
      (cs[i].link.isChild ==> NameExists(cs, cs[i].link.parentName))
      && AllExist(cs, SwapInParent(cs, i, oldName, newName)[i].link.children)
  }

  /**
   * ChangeControlName: the first control named `oldName` is renamed; if it
   * is a child, its parent's Children lose `oldName` and gain `newName`; if
   * it is a parent, each child's ParentName becomes `newName`.
   */
  function Renamed(cs: seq<VirtualControl>, oldName: string, newName: string): (r: seq<VirtualControl>)
    requires CanRename(cs, oldName, newName)
    ensures |r| == |cs|
  {
    var i := IndexByName(cs, oldName);
    if i == -1 then cs
    else
      var cs1 := SwapInParent(cs, i, oldName, newName);
      assert forall k :: 0 <= k < |cs1[i].link.children| ==> NameExists(cs1, cs1[i].link.children[k]) by {
        forall k | 0 <= k < |cs1[i].link.children| ensures NameExists(cs1, cs1[i].link.children[k]) {
          SameNamesLookup(cs, cs1, cs1[i].link.children[k]);
        }
      }
      var cs2 := if cs1[i].IsParent() then SetParentNames(cs1, cs1[i].link.children, newName) else cs1;
      cs2[i := cs2[i].(controlName := newName)]
  }

  /**
   * ChangeControlName's effect on each control: only the renamed control's
   * name, its parent's Children and its children's ParentName change.
   */
  lemma RenamedAt(cs: seq<VirtualControl>, oldName: string, newName: string, q: int)
    requires CanRename(cs, oldName, newName) && 0 <= q < |cs|
    ensures var i := IndexByName(cs, oldName);
      var r := Renamed(cs, oldName, newName)[q];
      (i == -1 ==> r == cs[q])
      && (i >= 0 ==>
            var listed := SwapInParent(cs, i, oldName, newName)[i].link.children;
            r.controlName == (if q == i then newName else cs[q].controlName)
            && r.link.children == (if cs[i].link.isChild && q == IndexByName(cs, cs[i].link.parentName)
                                   then RemoveName(cs[q].link.children, oldName) + [newName] else cs[q].link.children)
            && r.link.parentName == (if FoundBy(cs, listed, q) then newName else cs[q].link.parentName)
            && r.(controlName := cs[q].controlName, link := cs[q].link) == cs[q]
            && r.link.(parentName := cs[q].link.parentName, children := cs[q].link.children) == cs[q].link)
  {
    var i := IndexByName(cs, oldName);
    if i >= 0 {
      RenamedIs(cs, oldName, newName, q);
    }
  }

  lemma RenamedIs(cs: seq<VirtualControl>, oldName: string, newName: string, q: int)
    requires CanRename(cs, oldName, newName) && 0 <= q < |cs|
    requires IndexByName(cs, oldName) >= 0
    ensures var i := IndexByName(cs, oldName);
      var cs1 := SwapInParent(cs, i, oldName, newName);
      var c2 := if FoundBy(cs, cs1[i].link.children, q) then WithParentName(cs1[q], newName) else cs1[q];
      Renamed(cs, oldName, newName)[q] == if q == i then c2.(controlName := newName) else c2
  {
    var i := IndexByName(cs, oldName);
    var cs1 := SwapInParent(cs, i, oldName, newName);
    var listed := cs1[i].link.children;
    forall k | 0 <= k < |listed| ensures NameExists(cs1, listed[k]) {
      SameNamesLookup(cs, cs1, listed[k]);
    }
    FoundBySameNames(cs, cs1, listed, q);
    if cs1[i].IsParent() {
      SetParentNamesAt(cs1, listed, newName, q);
    }
  }

  /** Lists with the same names find the same indices. */
  lemma FoundBySameNames(a: seq<VirtualControl>, b: seq<VirtualControl>, names: seq<string>, q: int)
    requires SameNames(a, b)
    ensures FoundBy(a, names, q) <==> FoundBy(b, names, q)
  {
    if FoundBy(a, names, q) {
      var k :| 0 <= k < |names| && IndexByName(a, names[k]) == q;
      SameNamesLookup(a, b, names[k]);
    }
    if FoundBy(b, names, q) {
      var k :| 0 <= k < |names| && IndexByName(b, names[k]) == q;
      SameNamesLookup(a, b, names[k]);
    }
  }
}
