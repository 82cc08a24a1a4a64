/**
 * The chain of expansion records behind a macro invocation, and
 * `topmost_expn_info`, which walks it back to the invocation a
 * programmer wrote, stopping at the boundary of an `include!`.
 *
 * Records live in an arena: a parent is named by its index, and a parent
 * is always created before its children, so its index is smaller.
 */
module Expansion {
  import opened Wrappers

  /** A region of the source map, as byte offsets. */
  datatype Span = Span(lo: nat, hi: nat)

  /**
   * One macro expansion: the callee's name, the span of the invocation,
   * and the expansion that produced that span (`call_site.expn_info`).
   */
  datatype ExpnInfo = ExpnInfo(callee: string, callSite: Span, parent: Option<nat>)

  /** The callee name at which the walk stops: expansion by textual inclusion. */
  const IncludeName: string := "include"

  /** Every parent points at an earlier record, so no chain has a cycle. */
  predicate WellFormed(expns: seq<ExpnInfo>)
  {
    forall i :: 0 <= i < |expns| && expns[i].parent.Some? ==> expns[i].parent.value < i
  }

  /** The walk ends at record `i`: it has no parent, or its parent is an `include!` expansion. */
  predicate StopsAt(expns: seq<ExpnInfo>, i: nat)
    requires WellFormed(expns) && i < |expns|
  {
    match expns[i].parent
    case None => true
    case Some(p) => expns[p].callee == IncludeName
  }

  /** `topmost_expn_info`: follow parents until the record whose parent is absent or is an `include!`. */
  function Topmost(expns: seq<ExpnInfo>, i: nat): (r: nat)
    requires WellFormed(expns) && i < |expns|
    ensures r <= i && StopsAt(expns, r)
    decreases i
  {
    match expns[i].parent
    case None => i
    case Some(p) => if expns[p].callee == IncludeName then i else Topmost(expns, p)
  }

  /** The records from `i` up to the root of its chain, each followed by its parent. */
  function Ancestry(expns: seq<ExpnInfo>, i: nat): (c: seq<nat>)
    requires WellFormed(expns) && i < |expns|
    ensures |c| >= 1 && c[0] == i
    ensures forall j :: 0 <= j < |c| ==> c[j] <= i
    ensures forall j :: 0 <= j < |c| - 1 ==> expns[c[j]].parent == Some(c[j + 1])
    ensures expns[c[|c| - 1]].parent.None?
    decreases i
  {
    match expns[i].parent
    case None => [i]
    case Some(p) => [i] + Ancestry(expns, p)
  }

  /**
   * The result lies on the chain of `i`, and it is the first record of that
   * chain at which the walk may stop: every record before it has a parent
   * that is not an `include!` expansion, so no inclusion boundary is crossed.
   */
  lemma {:induction false} TopmostOnChain(expns: seq<ExpnInfo>, i: nat)
    requires WellFormed(expns) && i < |expns|
    ensures Topmost(expns, i) in Ancestry(expns, i)
    ensures var c, r := Ancestry(expns, i), Topmost(expns, i);
      forall j :: 0 <= j < |c| && c[j] > r ==>
        expns[c[j]].parent.Some? && expns[expns[c[j]].parent.value].callee != IncludeName
    decreases i
  {
    match expns[i].parent
    case None =>
    case Some(p) =>
      if expns[p].callee != IncludeName {
        TopmostOnChain(expns, p);
        assert Ancestry(expns, i) == [i] + Ancestry(expns, p);
      }
  }

  /** Record `i` is its own topmost record exactly when the walk stops there. */
  lemma TopmostIsSelf(expns: seq<ExpnInfo>, i: nat)
    requires WellFormed(expns) && i < |expns|
    ensures Topmost(expns, i) == i <==> StopsAt(expns, i)
  {
  }

  /** Walking again from the topmost record stays there. */
  lemma TopmostIdempotent(expns: seq<ExpnInfo>, i: nat)
    requires WellFormed(expns) && i < |expns|
    ensures Topmost(expns, Topmost(expns, i)) == Topmost(expns, i)
  {
  }

  /**
   * The topmost record is the only record of the chain at which the walk
   * may stop while stopping nowhere earlier.
   */
  lemma TopmostUnique(expns: seq<ExpnInfo>, i: nat, x: nat)
    requires WellFormed(expns) && i < |expns|
    requires x in Ancestry(expns, i)
    ensures x == Topmost(expns, i) <==>
      StopsAt(expns, x) &&
      forall j :: 0 <= j < |Ancestry(expns, i)| && Ancestry(expns, i)[j] > x ==> !StopsAt(expns, Ancestry(expns, i)[j])
  {
    TopmostOnChain(expns, i);
    var c, r := Ancestry(expns, i), Topmost(expns, i);
    if x < r && StopsAt(expns, x) {
      var j :| 0 <= j < |c| && c[j] == r;
      assert c[j] > x && StopsAt(expns, c[j]);
    }
  }

  /**
   * Through ordinary macro layers only (no ancestor of `i` is an
   * `include!` expansion), the walk reaches the root of the chain: the
   * outermost invocation the programmer wrote.
   */
  lemma {:induction false} TopmostWithoutInclude(expns: seq<ExpnInfo>, i: nat)
    requires WellFormed(expns) && i < |expns|
    requires forall j :: 1 <= j < |Ancestry(expns, i)| ==> expns[Ancestry(expns, i)[j]].callee != IncludeName
    ensures var c := Ancestry(expns, i); Topmost(expns, i) == c[|c| - 1]
    decreases i
  {
    match expns[i].parent
    case None =>
    case Some(p) =>
      var c := Ancestry(expns, i);
      assert c == [i] + Ancestry(expns, p);
      assert c[1] == p && expns[p].callee != IncludeName;
      var c' := Ancestry(expns, p);
      forall j | 1 <= j < |c'| ensures expns[c'[j]].callee != IncludeName {
        assert c'[j] == c[j + 1];
      }
      TopmostWithoutInclude(expns, p);
  }

  /**
   * Two nested inclusions: file A includes B, B includes C, and in C an
   * ordinary macro `m!` expands to `line!()`. The walk leaves `line!` for
   * `m!` and stops there, below the nearest inclusion.
   */
  lemma TopmostNearestIncludeExample()
    ensures var expns := [
        ExpnInfo(IncludeName, Span(10, 20), None),
        ExpnInfo(IncludeName, Span(110, 120), Some(0)),
        ExpnInfo("m", Span(210, 215), Some(1)),
        ExpnInfo("line", Span(300, 307), Some(2))];
      WellFormed(expns) && Topmost(expns, 3) == 2
  {
  }
}
