/**
 The accordion's open-panel controller. The state is the list of open panel
 ids, in the order they were opened; it starts empty. Clicking a panel header
 toggles that id. With `allowMultiple` the id is appended or filtered out;
 without it (the default) at most one panel is ever open.
 */
module Accordion {
  import Lists

  /** The open list when the accordion mounts. */
  const InitialOpen: seq<string> := []

  /** `toggleItem`: the id is open afterwards iff it was closed before. */
  function Toggle(open: seq<string>, id: string, allowMultiple: bool): (r: seq<string>)
    ensures id in r <==> id !in open
    ensures !allowMultiple ==> (id in open ==> r == []) && (id !in open ==> r == [id])
    ensures allowMultiple && id !in open ==> r == open + [id]
    ensures allowMultiple ==> forall x :: x != id ==> (x in r <==> x in open)
    ensures allowMultiple && id in open ==>
      Lists.IsSubsequence(r, open) && multiset(r) == multiset(open)[id := 0]
  {
    if allowMultiple then
      if id in open then Lists.RemoveAll(open, id) else open + [id]
    else
      if id in open then [] else [id]
  }

  /** The open list after the headers `clicks` were clicked in order, from mount. */
  function Run(clicks: seq<string>, allowMultiple: bool): seq<string>
  {
    if |clicks| == 0 then InitialOpen
    else Toggle(Run(clicks[..|clicks| - 1], allowMultiple), clicks[|clicks| - 1], allowMultiple)
  }

  // ---------------------------------------------------------------------------
  // Properties
  // ---------------------------------------------------------------------------

  /** In multi-expand mode, the ids other than the toggled one keep their
      relative order: filtering the toggled id out of the result leaves the
      same list as filtering it out of the input. */
  lemma {:induction false} MultiOthersKeepOrder(open: seq<string>, id: string)
    ensures Lists.RemoveAll(Toggle(open, id, true), id) == Lists.RemoveAll(open, id)
  {
    if id !in open {
      Lists.RemoveAllConcat(open, [id], id);
      assert Lists.RemoveAll([id], id) == [];
    }
  }

  /** A toggle never introduces a duplicate. */
  lemma ToggleNoDuplicates(open: seq<string>, id: string, allowMultiple: bool)
    requires Lists.NoDuplicates(open)
    ensures Lists.NoDuplicates(Toggle(open, id, allowMultiple))
  {
    if allowMultiple {
      if id in open {
        Lists.RemoveAllNoDuplicates(open, id);
      } else {
        Lists.SnocNoDuplicates(open, id);
      }
    }
  }

  /** Every reachable open list is duplicate-free, and in single-expand mode
      it has at most one element. */
  lemma {:induction false} RunInvariant(clicks: seq<string>, allowMultiple: bool)
    ensures Lists.NoDuplicates(Run(clicks, allowMultiple))
    ensures !allowMultiple ==> |Run(clicks, allowMultiple)| <= 1
  {
    if |clicks| > 0 {
      var before := clicks[..|clicks| - 1];
      RunInvariant(before, allowMultiple);
      ToggleNoDuplicates(Run(before, allowMultiple), clicks[|clicks| - 1], allowMultiple);
    }
  }

  /** In multi-expand mode, toggling a closed id twice restores the list exactly. */
  lemma {:induction false} ToggleTwiceClosed(open: seq<string>, id: string)
    requires id !in open
    ensures Toggle(Toggle(open, id, true), id, true) == open
  {
    Lists.RemoveAllConcat(open, [id], id);
    assert Lists.RemoveAll([id], id) == [];
  }

  /** In multi-expand mode, toggling an open id twice restores the same set of
      open ids but moves the id to the end. */
  lemma ToggleTwiceOpen(open: seq<string>, id: string)
    requires id in open
    ensures Toggle(Toggle(open, id, true), id, true) == Lists.RemoveAll(open, id) + [id]
    ensures forall x :: x in Toggle(Toggle(open, id, true), id, true) <==> x in open
  {
  }

  /** In single-expand mode, toggling twice from any reachable list (at most
      one id) keeps the id open if it alone was open, and otherwise closes
      everything, including another panel that was open before. */
  lemma SingleToggleTwice(open: seq<string>, id: string)
    requires |open| <= 1
    ensures Toggle(Toggle(open, id, false), id, false) == (if open == [id] then [id] else [])
  {
  }

  /** Single-expand mode: opening "a" then "b" leaves only "b" open, and
      clicking "b" again closes everything. Multi-expand mode: both stay open. */
  lemma ClickExamples()
    ensures Run(["a", "b"], false) == ["b"]
    ensures Run(["a", "b", "b"], false) == []
    ensures Run(["a", "b"], true) == ["a", "b"]
  {
  }
}
