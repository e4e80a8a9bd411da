/** The file explorer's multi-select rules (selection-manager.tsx): the
    selected paths in selection order, and the anchor `lastSelectedItem` that
    shift-click reads. Each updater of the hook is a function from the old
    pair to the new one. */
module Selection {
  import opened Common

  datatype Selection = Selection(items: seq<string>, anchor: Option<string>)

  /** The modifier keys of the click event. */
  datatype Click = Click(ctrl: bool, meta: bool, shift: bool)

  const Empty := Selection([], None)

  predicate NoDup(s: seq<string>)
  {
    forall i, j :: 0 <= i < j < |s| ==> s[i] != s[j]
  }

  /** `isSelected(p)`: `selectedItems.includes(p)`. */
  function IsSelected(sel: Selection, p: string): (b: bool)
    ensures b <==> exists i :: 0 <= i < |sel.items| && sel.items[i] == p
  {
    p in sel.items
  }

  /** `prev.filter(item => item !== p)`. */
  function Remove(s: seq<string>, p: string): (r: seq<string>)
    ensures p !in r
    ensures forall x :: x != p ==> (x in r <==> x in s)
    ensures p !in s ==> r == s
  {
    if s == [] then [] else (if s[0] == p then [] else [s[0]]) + Remove(s[1..], p)
  }

  /** The toggle both ctrl-click and `toggleSelection` perform. */
  function Toggle(s: seq<string>, p: string): seq<string>
  {
    if p in s then Remove(s, p) else s + [p]
  }

  /** `lastSelectedItem` used as a condition: null and `''` are falsy. */
  predicate HasAnchor(sel: Selection)
  {
    sel.anchor.Some? && sel.anchor.value != ""
  }

  /** `selectItem(path, event)`. */
  function SelectItem(sel: Selection, path: string, click: Click): Selection
  {
    if click.ctrl || click.meta then Selection(Toggle(sel.items, path), Some(path))
    else if click.shift && HasAnchor(sel) then
      sel.(items := if path !in sel.items then sel.items + [path] else sel.items)
    else Selection([path], Some(path))
  }

  /** `selectAll(items)`: a copy of the list; the anchor is kept. */
  function SelectAll(sel: Selection, items: seq<string>): Selection
  {
    sel.(items := items)
  }

  /** `clearSelection()`. */
  function ClearSelection(sel: Selection): Selection
  {
    Empty
  }

  /** `toggleSelection(path)`: the anchor is kept. */
  function ToggleSelection(sel: Selection, path: string): Selection
  {
    sel.(items := Toggle(sel.items, path))
  }

  /** `Array.indexOf`: the first position of `x`, or -1. */
  function IndexOf(s: seq<string>, x: string): (i: int)
    ensures -1 <= i < |s|
    ensures i == -1 <==> x !in s
    ensures 0 <= i ==> s[i] == x && x !in s[..i]
  {
    if s == [] then -1
    else if s[0] == x then 0
    else
      var j := IndexOf(s[1..], x);
      if j == -1 then -1
      else
        assert s[..j + 1] == [s[0]] + s[1..][..j];
        j + 1
  }

  /** `Array.from(new Set(acc ++ s))` when `acc` has no duplicates: `s` scanned
      left to right, each element appended the first time it is met. */
  function DedupInto(acc: seq<string>, s: seq<string>): seq<string>
    decreases |s|
  {
    if s == [] then acc else DedupInto(if s[0] in acc then acc else acc + [s[0]], s[1..])
  }

  /** `Array.from(new Set(s))`. */
  function Dedup(s: seq<string>): seq<string>
  {
    DedupInto([], s)
  }

  /** The items `selectRange` adds: `allItems.slice(min, max + 1)` over the two
      endpoints' first positions. */
  function RangeItems(all: seq<string>, a: string, b: string): seq<string>
    requires a in all && b in all
  {
    var i, j := IndexOf(all, a), IndexOf(all, b);
    if i <= j then all[i..j + 1] else all[j..i + 1]
  }

  /** `selectRange(start, end, allItems)`. */
  function SelectRange(sel: Selection, startPath: string, endPath: string, allItems: seq<string>): Selection
  {
    if IndexOf(allItems, startPath) == -1 || IndexOf(allItems, endPath) == -1 then sel
    else sel.(items := Dedup(sel.items + RangeItems(allItems, startPath, endPath)))
  }

  // ---------------------------------------------------------------------
  // Properties of the rules.

  /** A plain click selects exactly the clicked path and anchors there; so
      does a shift-click without an anchor. */
  lemma PlainClick(sel: Selection, path: string, click: Click)
    requires !click.ctrl && !click.meta && (!click.shift || !HasAnchor(sel))
    ensures SelectItem(sel, path, click) == Selection([path], Some(path))
  {
  }

  /** Ctrl- or meta-click flips the clicked path, leaves every other path as
      it was, and anchors at the clicked path. */
  lemma CtrlClick(sel: Selection, path: string, click: Click)
    requires click.ctrl || click.meta
    ensures var r := SelectItem(sel, path, click);
      && (path in r.items <==> path !in sel.items)
      && (forall x :: x != path ==> (x in r.items <==> x in sel.items))
      && r.anchor == Some(path)
  {
  }

  /** Shift-click with an anchor adds the path at the end if it is missing and
      keeps the anchor. */
  lemma ShiftClick(sel: Selection, path: string, click: Click)
    requires !click.ctrl && !click.meta && click.shift && HasAnchor(sel)
    ensures var r := SelectItem(sel, path, click);
      && r.anchor == sel.anchor
      && (path in sel.items ==> r.items == sel.items)
      && (path !in sel.items ==> r.items == sel.items + [path])
  {
  }

  /** Removing keeps the order and multiplicity of the other paths, exactly as
      a filter does. */
  lemma {:induction false} RemoveConcat(a: seq<string>, b: seq<string>, p: string)
    ensures Remove(a + b, p) == Remove(a, p) + Remove(b, p)
    decreases |a|
  {
    if a == [] {
      assert a + b == b;
    } else {
      assert (a + b)[0] == a[0] && (a + b)[1..] == a[1..] + b;
      RemoveConcat(a[1..], b, p);
    }
  }

  /** Toggling twice restores a selection that did not hold the path; one that
      held it once ends with the path moved to the end. The anchor is never
      touched. */
  lemma ToggleTwice(sel: Selection, p: string)
    ensures ToggleSelection(ToggleSelection(sel, p), p).anchor == sel.anchor
    ensures p !in sel.items ==> ToggleSelection(ToggleSelection(sel, p), p) == sel
    ensures p in sel.items ==> ToggleSelection(ToggleSelection(sel, p), p).items == Remove(sel.items, p) + [p]
  {
    if p !in sel.items {
      RemoveConcat(sel.items, [p], p);
      assert Remove([p], p) == [];
    }
  }

  /** The dedup scan: `acc` is kept as a prefix, the result has no duplicates
      when `acc` has none, and it holds exactly the paths of `acc` and `s`. */
  lemma {:induction false} DedupIntoFacts(acc: seq<string>, s: seq<string>)
    requires NoDup(acc)
    ensures acc <= DedupInto(acc, s)
    ensures NoDup(DedupInto(acc, s))
    ensures forall x :: x in DedupInto(acc, s) <==> x in acc || x in s
    decreases |s|
  {
    if s != [] {
      var acc' := if s[0] in acc then acc else acc + [s[0]];
      assert NoDup(acc');
      DedupIntoFacts(acc', s[1..]);
      forall x ensures x in s <==> x == s[0] || x in s[1..] {
        assert s == [s[0]] + s[1..];
      }
    }
  }

  /** Scanning a concatenation is scanning its parts in turn. */
  lemma {:induction false} DedupIntoConcat(acc: seq<string>, a: seq<string>, b: seq<string>)
    ensures DedupInto(acc, a + b) == DedupInto(DedupInto(acc, a), b)
    decreases |a|
  {
    if a == [] {
      assert a + b == b;
    } else {
      assert (a + b)[0] == a[0] && (a + b)[1..] == a[1..] + b;
      DedupIntoConcat(if a[0] in acc then acc else acc + [a[0]], a[1..], b);
    }
  }

  /** A scan over paths that are already there adds nothing. */
  lemma {:induction false} DedupIntoSeen(acc: seq<string>, s: seq<string>)
    requires forall x :: x in s ==> x in acc
    ensures DedupInto(acc, s) == acc
    decreases |s|
  {
    if s != [] {
      assert s[0] in s;
      forall x | x in s[1..] ensures x in acc {
        assert x in s;
      }
      DedupIntoSeen(acc, s[1..]);
    }
  }

  /** A list without duplicates is its own dedup. */
  lemma {:induction false} DedupOfNoDup(s: seq<string>)
    requires NoDup(s)
    ensures Dedup(s) == s
    decreases |s|
  {
    if s != [] {
      var init := s[..|s| - 1];
      assert s == init + [s[|s| - 1]];
      assert NoDup(init);
      DedupOfNoDup(init);
      DedupIntoConcat([], init, [s[|s| - 1]]);
      assert s[|s| - 1] !in init;
    }
  }

  /** `selectRange` with a missing endpoint changes nothing. */
  lemma RangeNeedsBothEnds(sel: Selection, a: string, b: string, all: seq<string>)
    requires a !in all || b !in all
    ensures SelectRange(sel, a, b, all) == sel
  {
  }

  /** The range does not depend on which endpoint is named first. */
  lemma RangeSymmetric(sel: Selection, a: string, b: string, all: seq<string>)
    ensures SelectRange(sel, a, b, all) == SelectRange(sel, b, a, all)
  {
  }

  /** `Array.from(new Set([...prev, ...range]))` on a `prev` without duplicates:
      `prev` in order, then the paths of `range` it lacked, each once, in order. */
  lemma DedupUnion(prev: seq<string>, range: seq<string>)
    requires NoDup(prev)
    ensures Dedup(prev + range) == DedupInto(prev, range)
    ensures prev <= Dedup(prev + range) && NoDup(Dedup(prev + range))
    ensures forall x :: x in Dedup(prev + range) <==> x in prev || x in range
  {
    DedupIntoConcat([], prev, range);
    DedupOfNoDup(prev);
    DedupIntoFacts(prev, range);
  }

  /** On a selection without duplicates, `selectRange` keeps the selection in
      order and appends the paths of the range it lacked, each once, in list
      order; the anchor is kept. */
  lemma RangeAppendsNewPaths(sel: Selection, a: string, b: string, all: seq<string>)
    requires NoDup(sel.items) && a in all && b in all
    ensures var r := SelectRange(sel, a, b, all);
      && r.anchor == sel.anchor
      && r.items == DedupInto(sel.items, RangeItems(all, a, b))
      && sel.items <= r.items && NoDup(r.items)
      && (forall x :: x in r.items <==> x in sel.items || x in RangeItems(all, a, b))
  {
    DedupUnion(sel.items, RangeItems(all, a, b));
  }

  /** A range whose paths are all selected already changes nothing, on a
      selection without duplicates. */
  lemma RangeAlreadySelected(sel: Selection, a: string, b: string, all: seq<string>)
    requires NoDup(sel.items) && a in all && b in all
    requires forall x :: x in RangeItems(all, a, b) ==> x in sel.items
    ensures SelectRange(sel, a, b, all) == sel
  {
    DedupUnion(sel.items, RangeItems(all, a, b));
    DedupIntoSeen(sel.items, RangeItems(all, a, b));
  }

  /** `selectAll` replaces the selection with the given list; `clearSelection`
      empties it and drops the anchor. */
  lemma SelectAllAndClear(sel: Selection, items: seq<string>)
    ensures SelectAll(sel, items).items == items && SelectAll(sel, items).anchor == sel.anchor
    ensures ClearSelection(sel).items == [] && !HasAnchor(ClearSelection(sel))
  {
  }
}
