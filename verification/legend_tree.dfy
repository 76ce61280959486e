/** Deleting line-item legends of one template version, singly and by subtree. */
module LegendTree {
  import opened Basics
  import opened Text

  type Code = string

  datatype Node = Node(parentCode: Option<Code>, codePath: seq<Code>)

  type Tree = map<Code, Node>

  datatype Error = HasChildren | NotFound

  predicate HasChild(t: Tree, c: Code) { exists d | d in t :: t[d].parentCode == Some(c) }

  /** The records a subtree deletion matches: those whose codePath contains the code. */
  function Matching(t: Tree, c: Code): set<Code> { set d | d in t && c in t[d].codePath }

  /** Following parentCode from d leads to c. */
  ghost predicate IsChain(t: Tree, s: seq<Code>, d: Code, c: Code) {
    && |s| > 0 && s[0] == d && s[|s| - 1] == c && (forall i :: 0 <= i < |s| ==> s[i] in t)
    && forall i :: 0 <= i < |s| - 1 ==> t[s[i]].parentCode == Some(s[i + 1])
  }

  ghost predicate Descends(t: Tree, d: Code, c: Code) { exists s :: IsChain(t, s, d, c) }

  ghost predicate Resolvable(t: Tree) { forall d :: d in t && t[d].parentCode.Some? ==> t[d].parentCode.value in t }

  /** codePath is the parent's codePath and the own code; a legend without parent may have none, as computed ones. */
  ghost predicate PathConsistent(t: Tree) {
    forall d :: d in t ==>
      match t[d].parentCode
      case None => t[d].codePath == [d] || t[d].codePath == []
      case Some(p) => p in t && t[d].codePath == t[p].codePath + [d]
  }

  function Elements(path: seq<Code>): set<Code> { set c | c in path }

  function ParentElements(t: Tree, d: Code): set<Code>
    requires d in t
  {
    var p := t[d].parentCode;
    if p.Some? && p.value in t then Elements(t[p.value].codePath) else {}
  }

  predicate HasPath(t: Tree, c: Code) { c in t && t[c].codePath != [] }

  /** What exact subtree deletion needs of the paths: as sets, each that is not empty adds its own code to its parent's. */
  ghost predicate SetConsistent(t: Tree) {
    forall d :: d in t ==> Elements(t[d].codePath) == (if HasPath(t, d) then {d} else {}) + ParentElements(t, d)
  }

  /** As a set, every path contains the parent's. */
  ghost predicate ContainsParents(t: Tree) {
    forall d :: d in t ==> ParentElements(t, d) <= Elements(t[d].codePath)
  }

  /** No cycle through parentCode. */
  ghost predicate Ranked(t: Tree, rank: Code -> nat) {
    forall d :: d in t && t[d].parentCode.Some? && t[d].parentCode.value in t ==> rank(t[d].parentCode.value) < rank(d)
  }

  class LegendCollection {
    var legends: Tree

    constructor (legends: Tree)
      ensures this.legends == legends
    {
      this.legends := legends;
    }

    /** The schema trims the code when it looks for the record, but not when it looks for children. */
    method DeleteLegend(c: Code) returns (r: Result<Node, Error>)
      modifies this
      ensures r == if HasChild(old(legends), c) then Failure(HasChildren)
                   else if Trim(c) !in old(legends) then Failure(NotFound) else Success(old(legends)[Trim(c)])
      ensures legends == AfterDelete(old(legends), Leaf(c))
    {
      if HasChild(legends, c) { return Failure(HasChildren); }
      var stored := Trim(c);
      if stored !in legends {
        assert legends == legends - {stored};
        return Failure(NotFound);
      }
      r := Success(legends[stored]);
      legends := legends - {stored};
    }

    method DeleteLegendSubtree(c: Code) returns (r: Result<set<Code>, Error>)
      modifies this
      ensures r == if Matching(old(legends), c) == {} then Failure(NotFound) else Success(Matching(old(legends), c))
      ensures legends == AfterDelete(old(legends), Subtree(c))
    {
      var found := Matching(legends, c);
      if found == {} {
        assert legends == legends - found;
        return Failure(NotFound);
      }
      legends := legends - found;
      r := Success(found);
    }
  }

  datatype Delete = Leaf(code: Code) | Subtree(code: Code)

  function AfterDelete(t: Tree, op: Delete): Tree {
    match op
    case Leaf(c) => if HasChild(t, c) then t else t - {Trim(c)}
    case Subtree(c) => t - Matching(t, c)
  }

  function AfterDeletes(t: Tree, ops: seq<Delete>): Tree {
    if ops == [] then t else AfterDelete(AfterDeletes(t, ops[..|ops| - 1]), ops[|ops| - 1])
  }

  // ----- what a subtree deletion removes

  lemma ChainStep(t: Tree, d: Code, c: Code)
    requires d in t && d != c
    ensures Descends(t, d, c) <==> t[d].parentCode.Some? && t[d].parentCode.value in t && Descends(t, t[d].parentCode.value, c)
  {
    if s :| IsChain(t, s, d, c) {
      assert IsChain(t, s[1..], s[1], c);
    }
    var p := t[d].parentCode;
    if p.Some? && p.value in t && Descends(t, p.value, c) {
      var s :| IsChain(t, s, p.value, c);
      assert IsChain(t, [d] + s, d, c);
    }
  }

  lemma {:induction false} SetConsistentPathsAreAncestors(t: Tree, rank: Code -> nat, d: Code, c: Code)
    requires SetConsistent(t) && Ranked(t, rank) && d in t
    ensures c in t[d].codePath <==> HasPath(t, c) && Descends(t, d, c)
    decreases rank(d)
  {
    assert c in t[d].codePath <==> c in Elements(t[d].codePath);
    if d == c {
      assert IsChain(t, [d], d, c);
      if c in ParentElements(t, d) {
        SetConsistentPathsAreAncestors(t, rank, t[d].parentCode.value, c);
      }
    } else {
      ChainStep(t, d, c);
      var p := t[d].parentCode;
      if p.Some? && p.value in t {
        SetConsistentPathsAreAncestors(t, rank, p.value, c);
      }
    }
  }

  /** Subtree deletion of every code removes the legend, if it has a path, and its transitive descendants. */
  ghost predicate Exact(t: Tree) {
    forall c, d :: d in t ==> (d in Matching(t, c) <==> HasPath(t, c) && Descends(t, d, c))
  }

  lemma ExactPathsAddUp(t: Tree, d: Code)
    requires Exact(t) && d in t
    ensures Elements(t[d].codePath) == (if HasPath(t, d) then {d} else {}) + ParentElements(t, d)
  {
    var p := t[d].parentCode;
    forall c ensures c in Elements(t[d].codePath) <==> c in (if HasPath(t, d) then {d} else {}) + ParentElements(t, d) {
      assert d in Matching(t, c) <==> HasPath(t, c) && Descends(t, d, c);
      assert p.Some? && p.value in t ==> (p.value in Matching(t, c) <==> HasPath(t, c) && Descends(t, p.value, c));
      if c == d {
        assert IsChain(t, [d], d, c);
      } else {
        ChainStep(t, d, c);
      }
    }
  }

  ghost predicate NoStrayAt(t: Tree, d: Code)
    requires d in t
  {
    forall c :: c in t[d].codePath ==> HasPath(t, c) && Descends(t, d, c)
  }

  /** Every code on a path is that of a legend with a path, to which parentCode leads. */
  ghost predicate NoStray(t: Tree) { forall d {:trigger NoStrayAt(t, d)} :: d in t ==> NoStrayAt(t, d) }

  lemma {:induction false} ChainIsOnPath(t: Tree, s: seq<Code>, d: Code, c: Code)
    requires SetConsistent(t) && HasPath(t, c) && IsChain(t, s, d, c)
    ensures c in t[d].codePath
  {
    assert c in t[d].codePath <==> c in Elements(t[d].codePath);
    if |s| == 1 {
      assert d == c;
    } else {
      ChainIsOnPath(t, s[1..], s[1], c);
      assert c in ParentElements(t, d);
    }
  }

  lemma {:induction false} ExactHasNoStray(t: Tree, d: Code)
    requires Exact(t) && d in t
    ensures NoStrayAt(t, d)
  {
    forall c | c in t[d].codePath ensures HasPath(t, c) && Descends(t, d, c) {
      assert d in Matching(t, c);
    }
  }

  lemma {:induction false} StraylessIsExactAt(t: Tree, c: Code, d: Code)
    requires SetConsistent(t) && d in t && NoStrayAt(t, d)
    ensures d in Matching(t, c) <==> HasPath(t, c) && Descends(t, d, c)
  {
    if HasPath(t, c) && Descends(t, d, c) {
      var s :| IsChain(t, s, d, c);
      ChainIsOnPath(t, s, d, c);
    }
  }

  /** Subtree deletion is exact if and only if the paths add up as sets and hold no stray code. */
  lemma {:induction false} SubtreeDeletionIsExactWhen(t: Tree)
    ensures Exact(t) <==> SetConsistent(t) && NoStray(t)
  {
    if Exact(t) {
      forall d | d in t { ExactPathsAddUp(t, d); }
      forall d | d in t ensures NoStrayAt(t, d) { ExactHasNoStray(t, d); }
    } else if SetConsistent(t) && NoStray(t) {
      forall c, d | d in t ensures d in Matching(t, c) <==> HasPath(t, c) && Descends(t, d, c) {
        assert NoStrayAt(t, d);
        StraylessIsExactAt(t, c, d);
      }
    }
  }

  lemma {:induction false} RankedHasNoStray(t: Tree, rank: Code -> nat, d: Code)
    requires Ranked(t, rank) && SetConsistent(t) && d in t
    ensures NoStrayAt(t, d)
  {
    forall c | c in t[d].codePath ensures HasPath(t, c) && Descends(t, d, c) {
      SetConsistentPathsAreAncestors(t, rank, d, c);
    }
  }

  /** Without a cycle through parentCode, paths that add up hold no stray code. */
  lemma WithoutCyclesIsExactWhen(t: Tree, rank: Code -> nat)
    requires Ranked(t, rank)
    ensures Exact(t) <==> SetConsistent(t)
  {
    SubtreeDeletionIsExactWhen(t);
    if SetConsistent(t) {
      forall d | d in t ensures NoStrayAt(t, d) { RankedHasNoStray(t, rank, d); }
    }
  }

  /** Two legends that name each other as parent can share a code that is nobody's. */
  lemma CycleKeepsStrayCode() returns (t: Tree)
    ensures Resolvable(t) && SetConsistent(t) && !Exact(t)
  {
    var path := ["900", "110", "120"];
    t := map["110" := Node(Some("120"), path), "120" := Node(Some("110"), path)];
    assert Elements(path) == {"110"} + Elements(path) && Elements(path) == {"120"} + Elements(path);
    assert "900" in path && "110" in Matching(t, "900") && !HasPath(t, "900");
  }

  function Depth(t: Tree): Code -> nat { (c: Code) => if c in t then |t[c].codePath| else 0 }

  lemma PathConsistentIsSetConsistent(t: Tree)
    requires PathConsistent(t)
    ensures Ranked(t, Depth(t)) && SetConsistent(t) && Resolvable(t) && ContainsParents(t)
  {
    forall d | d in t
      ensures Elements(t[d].codePath) == (if HasPath(t, d) then {d} else {}) + ParentElements(t, d)
    {
      match t[d].parentCode
      case None =>
      case Some(p) => assert t[d].codePath == t[p].codePath + [d];
    }
  }

  /**
   In a path-consistent store a subtree deletion removes exactly the legend and its transitive descendants. It finds
   nothing for a code that is not stored, nor for a legend without a path, such as a computed one, which it cannot delete.
   */
  lemma PathConsistentIsEnough(t: Tree, c: Code)
    requires PathConsistent(t)
    ensures forall d :: d in t ==> (d in Matching(t, c) <==> HasPath(t, c) && Descends(t, d, c))
    ensures Matching(t, c) == {} <==> !HasPath(t, c)
  {
    PathConsistentIsSetConsistent(t);
    forall d | d in t ensures d in Matching(t, c) <==> HasPath(t, c) && Descends(t, d, c) {
      SetConsistentPathsAreAncestors(t, Depth(t), d, c);
    }
    if HasPath(t, c) {
      assert IsChain(t, [c], c, c);
      assert c in Matching(t, c);
    }
  }

  // ----- what deletions keep

  lemma SubtreeDeletionKeepsParents(t: Tree, c: Code)
    requires Resolvable(t) && ContainsParents(t)
    ensures Resolvable(AfterDelete(t, Subtree(c)))
  {
    var t' := AfterDelete(t, Subtree(c));
    forall d | d in t' && t'[d].parentCode.Some? ensures t'[d].parentCode.value in t' {
      var p := t[d].parentCode.value;
      assert c in t[p].codePath ==> c in ParentElements(t, d);
    }
  }

  /**
   In a store whose parentCodes all resolve, every subtree deletion keeps them so if and only if every path contains
   the parent's.
   */
  lemma SubtreeDeletionKeepsParentsExactlyWhen(t: Tree)
    requires Resolvable(t)
    ensures (forall c :: Resolvable(AfterDelete(t, Subtree(c)))) <==> ContainsParents(t)
  {
    if ContainsParents(t) {
      forall c ensures Resolvable(AfterDelete(t, Subtree(c))) { SubtreeDeletionKeepsParents(t, c); }
    } else {
      var d, c :| d in t && c in ParentElements(t, d) && c !in Elements(t[d].codePath);
      var t' := AfterDelete(t, Subtree(c));
      assert d in t' && t'[d] == t[d] && t[d].parentCode.value !in t';
    }
  }

  predicate HasOtherChild(t: Tree, c: Code) { exists d | d in t :: d != c && t[d].parentCode == Some(c) }

  /**
   A leaf deletion keeps every parentCode resolvable unless the code, as given, has no children and, trimmed, is that
   of a legend with children.
   */
  lemma LeafDeletionKeepsParentsExactlyWhen(t: Tree, c: Code)
    requires Resolvable(t)
    ensures Resolvable(AfterDelete(t, Leaf(c))) <==> HasChild(t, c) || Trim(c) !in t || !HasOtherChild(t, Trim(c))
  {
    var t' := AfterDelete(t, Leaf(c));
    if !HasChild(t, c) && Trim(c) in t && HasOtherChild(t, Trim(c)) {
      var d :| d in t && d != Trim(c) && t[d].parentCode == Some(Trim(c));
      assert d in t' && t'[d] == t[d];
    }
  }

  /** White space around the code is enough to delete a legend from above its child. */
  lemma WhiteSpaceOrphansChild(t: Tree, d: Code)
    requires Resolvable(t) && (forall c :: c in t ==> IsTrimmed(c))
    requires d in t && t[d].parentCode.Some? && t[d].parentCode.value != d
    ensures !Resolvable(AfterDelete(t, Leaf(" " + t[d].parentCode.value)))
  {
    var p := t[d].parentCode.value;
    TrimTrimmed(p);
    assert (" " + p)[0] == ' ';
    assert HasOtherChild(t, p);
    LeafDeletionKeepsParentsExactlyWhen(t, " " + p);
  }

  /** A leaf is named as it is stored, without white space around it. */
  predicate NamedAsStored(op: Delete) { op.Leaf? ==> Trim(op.code) == op.code }

  predicate AllNamedAsStored(ops: seq<Delete>) { forall i :: 0 <= i < |ops| ==> NamedAsStored(ops[i]) }

  lemma DeleteKeepsContainment(t: Tree, op: Delete)
    requires Resolvable(t) && ContainsParents(t) && NamedAsStored(op)
    ensures Resolvable(AfterDelete(t, op)) && ContainsParents(AfterDelete(t, op))
  {
    if op.Subtree? { SubtreeDeletionKeepsParents(t, op.code); }
    var t' := AfterDelete(t, op);
    forall d | d in t' ensures ParentElements(t', d) <= Elements(t'[d].codePath) {
      assert ParentElements(t, d) <= Elements(t[d].codePath);
    }
  }

  lemma {:induction false} DeletesKeepContainment(t: Tree, ops: seq<Delete>)
    requires Resolvable(t) && ContainsParents(t) && AllNamedAsStored(ops)
    ensures Resolvable(AfterDeletes(t, ops)) && ContainsParents(AfterDeletes(t, ops))
    ensures forall d :: d in AfterDeletes(t, ops) ==> d in t && AfterDeletes(t, ops)[d] == t[d]
  {
    if ops != [] {
      DeletesKeepContainment(t, ops[..|ops| - 1]);
      DeleteKeepsContainment(AfterDeletes(t, ops[..|ops| - 1]), ops[|ops| - 1]);
    }
  }

  lemma {:induction false} OneDelete(t: Tree, op: Delete)
    ensures AfterDeletes(t, []) == t && AfterDeletes(t, [op]) == AfterDelete(t, op)
  {
    assert [op][..0] == [];
  }

  /**
   Every mix of leaf and subtree deletions leaves every remaining parentCode resolvable if and only if they all are
   resolvable at the start and every path contains the parent's.
   */
  lemma {:induction false} DeletesKeepParents(t: Tree)
    ensures (forall ops | AllNamedAsStored(ops) :: Resolvable(AfterDeletes(t, ops))) <==> Resolvable(t) && ContainsParents(t)
  {
    if !Resolvable(t) {
      OneDelete(t, Leaf(""));
      assert AllNamedAsStored([]) && !Resolvable(AfterDeletes(t, []));
    } else if ContainsParents(t) {
      forall ops | AllNamedAsStored(ops) ensures Resolvable(AfterDeletes(t, ops)) { DeletesKeepContainment(t, ops); }
    } else {
      SubtreeDeletionKeepsParentsExactlyWhen(t);
      var c :| !Resolvable(AfterDelete(t, Subtree(c)));
      OneDelete(t, Subtree(c));
      assert AllNamedAsStored([Subtree(c)]) && !Resolvable(AfterDeletes(t, [Subtree(c)]));
    }
  }

  /** Path consistency is kept as well, so that subtree deletion stays exact. */
  lemma {:induction false} DeletesKeepPathConsistency(t: Tree, ops: seq<Delete>)
    requires PathConsistent(t) && AllNamedAsStored(ops)
    ensures PathConsistent(AfterDeletes(t, ops))
  {
    PathConsistentIsSetConsistent(t);
    DeletesKeepContainment(t, ops);
  }

  /** A child that does not have its parent on its path, below a parent that has itself on its own. */
  lemma SubtreeOrphans(t: Tree, d: Code)
    requires d in t && t[d].parentCode.Some? && t[d].parentCode.value in t
    requires t[d].parentCode.value in t[t[d].parentCode.value].codePath && t[d].parentCode.value !in t[d].codePath
    ensures !Resolvable(AfterDelete(t, Subtree(t[d].parentCode.value)))
  {
    var t' := AfterDelete(t, Subtree(t[d].parentCode.value));
    assert d in t' && t'[d] == t[d];
  }
}
