/**
 * The label-directed editor of the front-end program tree: visitors that
 * insert a statement before, or remove, the first child of a statement block
 * whose label resolves to a target; the program-level facade around them
 * (insert-before, remove, insert-after, function-declaration insertion and
 * cloning, loop-body cloning); and the schedule node wrappers that append
 * blocks and materialise themselves as tree statements.
 *
 * Statements are values: a nested body is the sequence of its statements, so
 * copying a statement is cloning it. The objects the editor mutates in place
 * (statement blocks, function declarations, the program's element list and
 * the wrappers' fields) are classes.
 */
module LowLevelSchedule {
  import opened Wrappers

  /** The iteration domain of a for loop, kept only to be carried along. */
  datatype RangeDomain = RangeDomain(lower: string, upper: string)

  /** A statement of the tree; every statement has a label, "" when it has none. */
  datatype Stmt =
    | ForStmt(stmtLabel: string, loopVar: string, domain: RangeDomain, body: seq<Stmt>)
    | NameStmt(stmtLabel: string, body: seq<Stmt>)
    | OtherStmt(stmtLabel: string, text: string)

  /** A statement block of the tree, whose statement list is replaced in place. */
  class StmtBlock {
    var stmts: seq<Stmt>

    constructor (stmts: seq<Stmt>)
      ensures this.stmts == stmts
    {
      this.stmts := stmts;
    }
  }

  /** A function declaration of the tree. */
  class FuncDecl {
    const name: string
    const body: StmtBlock

    constructor (name: string, body: StmtBlock)
      ensures this.name == name && this.body == body
    {
      this.name := name;
      this.body := body;
    }

    /** A deep copy: a fresh declaration whose fresh body holds the same statements. */
    method Clone() returns (c: FuncDecl)
      ensures fresh(c) && fresh(c.body)
      ensures c.name == name && c.body.stmts == body.stmts
    {
      var b := new StmtBlock(body.stmts);
      c := new FuncDecl(name, b);
    }
  }

  /** A top-level element of the program: a function declaration or anything else. */
  datatype Element = FuncDeclElem(decl: FuncDecl) | OtherElem(text: string)

  /** The program: its ordered top-level elements. */
  class Program {
    var elems: seq<Element>

    constructor (elems: seq<Element>)
      ensures this.elems == elems
    {
      this.elems := elems;
    }
  }

  // ---------------------------------------------------------------------
  // Label matching within one block
  // ---------------------------------------------------------------------

  /**
   * A statement matches when it has a label and that label, resolved through
   * the label scope in force at its block, equals the target.
   */
  predicate Matches(s: Stmt, target: string, tryScope: string -> string)
  {
    s.stmtLabel != "" && tryScope(s.stmtLabel) == target
  }

  /** The index of the first matching statement, if any; `FirstMatchIsFirst` says it is the first. */
  function FirstMatch(stmts: seq<Stmt>, target: string, tryScope: string -> string): (r: Option<nat>)
    ensures r.Some? ==> r.value < |stmts| && Matches(stmts[r.value], target, tryScope)
  {
    if stmts == [] then None
    else if Matches(stmts[0], target, tryScope) then Some(0)
    else
      match FirstMatch(stmts[1..], target, tryScope)
      case None => None
      case Some(i) => Some(i + 1)
  }

  /**
   * The scan stops at the first match: no statement before the index it
   * reports matches, and it reports nothing exactly when no statement does.
   */
  lemma {:induction false} FirstMatchIsFirst(stmts: seq<Stmt>, target: string, tryScope: string -> string)
    ensures var r := FirstMatch(stmts, target, tryScope);
      r.Some? ==> forall j :: 0 <= j < r.value ==> !Matches(stmts[j], target, tryScope)
    ensures FirstMatch(stmts, target, tryScope).None?
        <==> forall j :: 0 <= j < |stmts| ==> !Matches(stmts[j], target, tryScope)
  {
    if stmts != [] && !Matches(stmts[0], target, tryScope) {
      FirstMatchIsFirst(stmts[1..], target, tryScope);
      assert forall j :: 1 <= j < |stmts| ==> stmts[j] == stmts[1..][j - 1];
    }
  }

  /** The block contents after inserting `fragment` before the first match. */
  function InsertBeforeFirst(stmts: seq<Stmt>, fragment: seq<Stmt>, target: string,
                             tryScope: string -> string): seq<Stmt>
  {
    match FirstMatch(stmts, target, tryScope)
    case None => stmts
    case Some(i) => stmts[..i] + (fragment + stmts[i..])
  }

  /** The block contents after erasing the first match. */
  function RemoveFirst(stmts: seq<Stmt>, target: string, tryScope: string -> string): seq<Stmt>
  {
    match FirstMatch(stmts, target, tryScope)
    case None => stmts
    case Some(i) => stmts[..i] + stmts[i + 1..]
  }

  /**
   * Inserting before a found label: the prefix before the match is untouched,
   * the fragment sits at the match's index, the matched child and everything
   * after it shift right by the fragment's length.
   */
  lemma InsertBeforeFirstFound(stmts: seq<Stmt>, fragment: seq<Stmt>, target: string,
                               tryScope: string -> string, i: nat)
    requires FirstMatch(stmts, target, tryScope) == Some(i)
    ensures var r := InsertBeforeFirst(stmts, fragment, target, tryScope);
      && |r| == |stmts| + |fragment|
      && (forall k :: 0 <= k < i ==> r[k] == stmts[k])
      && (forall k :: 0 <= k < |fragment| ==> r[i + k] == fragment[k])
      && (forall k :: i <= k < |stmts| ==> r[k + |fragment|] == stmts[k])
  {
    var r := InsertBeforeFirst(stmts, fragment, target, tryScope);
    assert r == stmts[..i] + (fragment + stmts[i..]);
  }

  /** With no matching child, insertion and removal leave the block as it was. */
  lemma NoMatchUnchanged(stmts: seq<Stmt>, fragment: seq<Stmt>, target: string, tryScope: string -> string)
    requires forall j :: 0 <= j < |stmts| ==> !Matches(stmts[j], target, tryScope)
    ensures InsertBeforeFirst(stmts, fragment, target, tryScope) == stmts
    ensures RemoveFirst(stmts, target, tryScope) == stmts
  {
  }

  /**
   * Removing a found label: the length drops by one, the children before the
   * match stay in place and the children after it move left by one.
   */
  lemma RemoveFirstFound(stmts: seq<Stmt>, target: string, tryScope: string -> string, i: nat)
    requires FirstMatch(stmts, target, tryScope) == Some(i)
    ensures var r := RemoveFirst(stmts, target, tryScope);
      && |r| == |stmts| - 1
      && (forall k :: 0 <= k < i ==> r[k] == stmts[k])
      && (forall k :: i <= k < |r| ==> r[k] == stmts[k + 1])
      && multiset(r) + multiset{stmts[i]} == multiset(stmts)
  {
    var r := RemoveFirst(stmts, target, tryScope);
    assert stmts == stmts[..i] + [stmts[i]] + stmts[i + 1..];
    assert r == stmts[..i] + stmts[i + 1..];
  }

  /** Statements without a label are invisible to both edits, wherever they stand. */
  lemma {:induction false} UnlabeledPrefixSkipped(prefix: seq<Stmt>, stmts: seq<Stmt>, target: string,
                                                   tryScope: string -> string)
    requires forall j :: 0 <= j < |prefix| ==> prefix[j].stmtLabel == ""
    ensures FirstMatch(prefix + stmts, target, tryScope)
         == match FirstMatch(stmts, target, tryScope)
            case None => None
            case Some(i) => Some(i + |prefix|)
  {
    FirstMatchOfConcat(prefix, stmts, target, tryScope);
  }

  /**
   * Looking a label up in a concatenation: a match in the first part wins;
   * otherwise a match in the second part, shifted by the first part's length.
   */
  lemma {:induction false} FirstMatchOfConcat(a: seq<Stmt>, b: seq<Stmt>, target: string,
                                              tryScope: string -> string)
    ensures FirstMatch(a + b, target, tryScope)
         == match FirstMatch(a, target, tryScope)
            case Some(i) => Some(i)
            case None =>
              match FirstMatch(b, target, tryScope)
              case None => None
              case Some(i) => Some(i + |a|)
  {
    if a == [] {
      assert a + b == b;
    } else {
      assert (a + b)[0] == a[0];
      if !Matches(a[0], target, tryScope) {
        assert (a + b)[1..] == a[1..] + b;
        FirstMatchOfConcat(a[1..], b, target, tryScope);
      }
    }
  }

  /** Where the first match lies once one statement has been inserted before the old first match. */
  lemma FirstMatchAfterInsert(stmts: seq<Stmt>, x: Stmt, target: string, tryScope: string -> string, i: nat)
    requires FirstMatch(stmts, target, tryScope) == Some(i)
    ensures FirstMatch(stmts[..i] + ([x] + stmts[i..]), target, tryScope)
         == if Matches(x, target, tryScope) then Some(i) else Some(i + 1)
  {
    var rest := [x] + stmts[i..];
    FirstMatchOfConcat(stmts[..i], rest, target, tryScope);
    assert FirstMatch(stmts[..i], target, tryScope) == None by {
      FirstMatchIsFirst(stmts, target, tryScope);
      FirstMatchIsFirst(stmts[..i], target, tryScope);
      assert forall j :: 0 <= j < i ==> stmts[..i][j] == stmts[j];
    }
    if !Matches(x, target, tryScope) {
      assert rest[1..] == stmts[i..];
      assert rest[1] == stmts[i];
      assert FirstMatch(rest, target, tryScope) == Some(1);
    }
  }

  /** Erasing at the insertion point, or just after it, of a sequence with one statement spliced in. */
  lemma SpliceIdentities(stmts: seq<Stmt>, x: Stmt, i: nat)
    requires i < |stmts|
    ensures var inserted := stmts[..i] + ([x] + stmts[i..]);
      && inserted[..i] + inserted[i + 1..] == stmts
      && inserted[..i + 1] + inserted[i + 2..] == stmts[..i] + [x] + stmts[i + 1..]
  {
    var inserted := stmts[..i] + ([x] + stmts[i..]);
    assert inserted[..i] == stmts[..i];
    assert inserted[i + 1..] == stmts[i..];
    assert stmts[..i] + stmts[i..] == stmts;
    assert inserted[..i + 1] == stmts[..i] + [x];
    assert inserted[i + 2..] == stmts[i + 1..];
  }

  /** Two insertions at the same index: the later one ends up in front of the earlier one. */
  lemma SpliceTwice(s: seq<Stmt>, i: nat, first: seq<Stmt>, second: seq<Stmt>)
    requires i <= |s|
    ensures var once := s[..i] + (first + s[i..]);
      once[..i] + (second + once[i..]) == s[..i] + ((second + first) + s[i..])
  {
    var once := s[..i] + (first + s[i..]);
    assert once[..i] == s[..i];
    assert once[i..] == first + s[i..];
    assert second + (first + s[i..]) == (second + first) + s[i..];
  }

  /**
   * Removing the label right after inserting one statement before it undoes
   * the insertion when the inserted statement carries the target label itself;
   * otherwise it erases the originally matched child.
   */
  lemma InsertThenRemove(stmts: seq<Stmt>, x: Stmt, target: string, tryScope: string -> string, i: nat)
    requires FirstMatch(stmts, target, tryScope) == Some(i)
    ensures var inserted := InsertBeforeFirst(stmts, [x], target, tryScope);
      RemoveFirst(inserted, target, tryScope)
        == if Matches(x, target, tryScope) then stmts else stmts[..i] + [x] + stmts[i + 1..]
  {
    var inserted := InsertBeforeFirst(stmts, [x], target, tryScope);
    assert inserted == stmts[..i] + ([x] + stmts[i..]);
    FirstMatchAfterInsert(stmts, x, target, tryScope, i);
    SpliceIdentities(stmts, x, i);
    if Matches(x, target, tryScope) {
      assert RemoveFirst(inserted, target, tryScope) == inserted[..i] + inserted[i + 1..];
    } else {
      assert RemoveFirst(inserted, target, tryScope) == inserted[..i + 1] + inserted[i + 2..];
    }
  }


  /**
   * The scan both visitors run over a block's children: an index counter
   * that skips unlabeled children and stops at the first match.
   */
  method ScanForLabel(stmts: seq<Stmt>, target: string, tryScope: string -> string)
    returns (found: bool, idx: nat)
    ensures found <==> FirstMatch(stmts, target, tryScope).Some?
    ensures found ==> idx == FirstMatch(stmts, target, tryScope).value
    ensures !found ==> idx == |stmts|
  {
    idx := 0;
    found := false;
    while idx < |stmts|
      invariant idx <= |stmts|
      invariant forall j :: 0 <= j < idx ==> !Matches(stmts[j], target, tryScope)
    {
      if stmts[idx].stmtLabel != "" {
        if tryScope(stmts[idx].stmtLabel) == target {
          found := true;
          break;
        }
      }
      idx := idx + 1;
    }
    FirstMatchIsFirst(stmts, target, tryScope);
  }

  // ---------------------------------------------------------------------
  // Schedule node wrappers
  // ---------------------------------------------------------------------

  /** Wraps a tree statement block. */
  class StmtBlockNode {
    const firStmtBlock: StmtBlock

    constructor (firStmtBlock: StmtBlock)
      ensures this.firStmtBlock == firStmtBlock
    {
      this.firStmtBlock := firStmtBlock;
    }

    /** The statements this node materialises as. */
    function Emitted(): seq<Stmt>
      reads firStmtBlock
    {
      firStmtBlock.stmts
    }

    /**
     * Appends the other block's statements after this block's own, keeping
     * both orders; the other block is read before this one is written.
     */
    method AppendStmtBlockNode(stmtBlock: StmtBlockNode)
      modifies firStmtBlock
      ensures Emitted() == old(Emitted()) + old(stmtBlock.Emitted())
      ensures stmtBlock.firStmtBlock != firStmtBlock ==> stmtBlock.Emitted() == old(stmtBlock.Emitted())
    {
      var otherStmtBlk := stmtBlock.Emitted();
      firStmtBlock.stmts := firStmtBlock.stmts + otherStmtBlk;
    }
  }

  /** Wraps a tree function declaration. */
  class FuncDeclNode {
    const firFuncDecl: FuncDecl

    constructor (firFuncDecl: FuncDecl)
      ensures this.firFuncDecl == firFuncDecl
    {
      this.firFuncDecl := firFuncDecl;
    }

    /** Appends a block's statements to the end of the declaration's body. */
    method AppendFuncDeclBody(funcDeclBody: StmtBlockNode)
      modifies firFuncDecl.body
      ensures firFuncDecl.body.stmts == old(firFuncDecl.body.stmts) + old(funcDeclBody.Emitted())
    {
      var otherStmtBlk := funcDeclBody.Emitted();
      var stmts := firFuncDecl.body.stmts;
      stmts := stmts + otherStmtBlk;
      firFuncDecl.body.stmts := stmts;
    }
  }

  /** A for loop under construction: label, loop variable, domain, and a body that may be absent. */
  class ForStmtNode {
    const stmtLabel: string
    const loopVar: string
    const rangeDomain: RangeDomain
    var body: StmtBlockNode?

    constructor (stmtLabel: string, loopVar: string, rangeDomain: RangeDomain, body: StmtBlockNode?)
      ensures this.stmtLabel == stmtLabel && this.loopVar == loopVar
      ensures this.rangeDomain == rangeDomain && this.body == body
    {
      this.stmtLabel := stmtLabel;
      this.loopVar := loopVar;
      this.rangeDomain := rangeDomain;
      this.body := body;
    }

    /** The tree for statement this node materialises as; it carries the node's label. */
    function Emit(): (s: Stmt)
      reads this, if body != null then {body.firStmtBlock} else {}
      requires body != null
      ensures s.ForStmt? && s.stmtLabel == stmtLabel && s.loopVar == loopVar && s.domain == rangeDomain
      ensures s.body == body.Emitted()
    {
      ForStmt(stmtLabel, loopVar, rangeDomain, body.Emitted())
    }

    /** Adopts the block as the body when there is none; otherwise appends it to the body. */
    method AppendLoopBody(stmtBlock: StmtBlockNode)
      modifies this`body, if body != null then {body.firStmtBlock} else {}
      ensures old(body) == null ==> body == stmtBlock
      ensures old(body) != null ==>
        body == old(body) && body.Emitted() == old(body.Emitted()) + old(stmtBlock.Emitted())
    {
      if body == null {
        body := stmtBlock;
      } else {
        body.AppendStmtBlockNode(stmtBlock);
      }
    }
  }

  /** A named scope under construction. */
  class NameNode {
    const stmtLabel: string
    const body: StmtBlockNode

    constructor (stmtLabel: string, body: StmtBlockNode)
      ensures this.stmtLabel == stmtLabel && this.body == body
    {
      this.stmtLabel := stmtLabel;
      this.body := body;
    }

    /** The tree name node this node materialises as; it carries the node's label. */
    function Emit(): (s: Stmt)
      reads body.firStmtBlock
      ensures s.NameStmt? && s.stmtLabel == stmtLabel && s.body == body.Emitted()
    {
      NameStmt(stmtLabel, body.Emitted())
    }
  }

  // ---------------------------------------------------------------------
  // The editing visitors
  // ---------------------------------------------------------------------

  /**
   * One statement block reached by the traversal, with the label resolver
   * (the label scope) in force there.
   */
  datatype BlockVisit = BlockVisit(block: StmtBlock, tryScope: string -> string)

  function Blocks(visits: seq<BlockVisit>): set<StmtBlock>
  {
    set k | 0 <= k < |visits| :: visits[k].block
  }

  /** The traversal reaches each block once: the program is a tree. */
  predicate DistinctBlocks(visits: seq<BlockVisit>)
  {
    forall i, j :: 0 <= i < j < |visits| ==> visits[i].block != visits[j].block
  }

  /** Whether some visited block has a child matching the target. */
  ghost predicate AnyMatch(visits: seq<BlockVisit>, target: string)
    reads Blocks(visits)
  {
    exists k :: 0 <= k < |visits| && FirstMatch(visits[k].block.stmts, target, visits[k].tryScope).Some?
  }

  /**
   * The statements inserted at a match: the name node's and then the for
   * node's, since each is inserted at the same index and the name node goes
   * in second. A for node is only ever emitted with a body (the visitors
   * require one whenever they emit it).
   */
  function Fragment(forNode: ForStmtNode?, nameNode: NameNode?): seq<Stmt>
    reads forNode, FragmentBlocks(forNode, nameNode)
  {
    (if nameNode != null then [nameNode.Emit()] else [])
      + (if forNode != null && forNode.body != null then [forNode.Emit()] else [])
  }

  /** A for node can only be emitted once it has a body. */
  predicate ForBodyReady(forNode: ForStmtNode?)
    reads forNode
  {
    forNode != null ==> forNode.body != null
  }

  /** The blocks whose contents the fragment is emitted from. */
  function FragmentBlocks(forNode: ForStmtNode?, nameNode: NameNode?): set<StmtBlock>
    reads forNode
  {
    (if forNode != null && forNode.body != null then {forNode.body.firStmtBlock} else {})
      + (if nameNode != null then {nameNode.body.firStmtBlock} else {})
  }

  class InsertBeforeLabelVisitor {
    var targetLabel: string
    var inputForStmtNode: ForStmtNode?
    var inputNameNode: NameNode?
    var successFlag: bool

    constructor ()
      ensures targetLabel == "" && inputForStmtNode == null && inputNameNode == null
    {
      targetLabel := "";
      inputForStmtNode := null;
      inputNameNode := null;
    }

    /**
     * The statements of a block with the input nodes inserted at `idx`: the
     * for node first, then the name node, each emitted at that moment.
     */
    method InsertInputsAt(blkStmts: seq<Stmt>, idx: nat) returns (r: seq<Stmt>)
      requires idx <= |blkStmts|
      requires ForBodyReady(inputForStmtNode)
      ensures r == blkStmts[..idx] + (Fragment(inputForStmtNode, inputNameNode) + blkStmts[idx..])
    {
      r := blkStmts;
      ghost var forPart := if inputForStmtNode != null then [inputForStmtNode.Emit()] else [];
      ghost var namePart := if inputNameNode != null then [inputNameNode.Emit()] else [];
      if inputForStmtNode != null {
        r := r[..idx] + [inputForStmtNode.Emit()] + r[idx..];
      }
      assert r == blkStmts[..idx] + (forPart + blkStmts[idx..]);
      ghost var once := r;
      if inputNameNode != null {
        r := r[..idx] + [inputNameNode.Emit()] + r[idx..];
      }
      assert r == once[..idx] + (namePart + once[idx..]);
      SpliceTwice(blkStmts, idx, forPart, namePart);
    }

    /**
     * Visits one block: at the first child whose non-empty label resolves to
     * the target, inserts the for node and then the name node at that index,
     * sets the success flag, and stops.
     */
    method Visit(v: BlockVisit)
      requires FirstMatch(v.block.stmts, targetLabel, v.tryScope).Some? ==> ForBodyReady(inputForStmtNode)
      modifies this`successFlag, v.block
      ensures successFlag == (old(successFlag) || FirstMatch(old(v.block.stmts), targetLabel, v.tryScope).Some?)
      ensures v.block.stmts == InsertBeforeFirst(old(v.block.stmts), old(Fragment(inputForStmtNode, inputNameNode)),
                                                 targetLabel, v.tryScope)
    {
      var blkStmts := v.block.stmts;
      var found, idx := ScanForLabel(blkStmts, targetLabel, v.tryScope);
      if found {
        successFlag := true;
        blkStmts := InsertInputsAt(blkStmts, idx);
      }
      v.block.stmts := blkStmts;
    }

    /** The traversal: the per-block visit applied to every reached block, in order. */
    method Accept(visits: seq<BlockVisit>)
      requires DistinctBlocks(visits)
      requires Blocks(visits) !! FragmentBlocks(inputForStmtNode, inputNameNode)
      requires AnyMatch(visits, targetLabel) ==> ForBodyReady(inputForStmtNode)
      modifies this`successFlag, Blocks(visits)
      ensures successFlag == (old(successFlag) || old(AnyMatch(visits, targetLabel)))
      ensures forall k :: 0 <= k < |visits| ==>
        visits[k].block.stmts == InsertBeforeFirst(old(visits[k].block.stmts), old(Fragment(inputForStmtNode, inputNameNode)), targetLabel, visits[k].tryScope)
    {
      ghost var fragment := Fragment(inputForStmtNode, inputNameNode);
      var n := 0;
      while n < |visits|
        invariant n <= |visits|
        invariant Fragment(inputForStmtNode, inputNameNode) == fragment
        invariant successFlag == (old(successFlag) || exists k :: 0 <= k < n && FirstMatch(old(visits[k].block.stmts), targetLabel, visits[k].tryScope).Some?)
        invariant forall k :: 0 <= k < |visits| ==>
          visits[k].block.stmts == if k < n then InsertBeforeFirst(old(visits[k].block.stmts), fragment, targetLabel, visits[k].tryScope) else old(visits[k].block.stmts)
      {
        assert forall k :: 0 <= k < |visits| && k != n ==> visits[k].block != visits[n].block;
        assert visits[n].block !in FragmentBlocks(inputForStmtNode, inputNameNode);
        Visit(visits[n]);
        n := n + 1;
      }
    }

    /** Insert-before for a for node: reset the flag, record the inputs, traverse. */
    method InsertBeforeLabelFor(visits: seq<BlockVisit>, forStmtNode: ForStmtNode?, labelName: string)
      returns (success: bool)
      requires DistinctBlocks(visits)
      requires Blocks(visits) !! FragmentBlocks(forStmtNode, inputNameNode)
      requires AnyMatch(visits, labelName) ==> ForBodyReady(forStmtNode)
      modifies this, Blocks(visits)
      ensures inputForStmtNode == forStmtNode && inputNameNode == old(inputNameNode) && targetLabel == labelName
      ensures success == old(AnyMatch(visits, labelName))
      ensures successFlag == success
      ensures forall k :: 0 <= k < |visits| ==>
        visits[k].block.stmts == InsertBeforeFirst(old(visits[k].block.stmts), old(Fragment(forStmtNode, inputNameNode)), labelName, visits[k].tryScope)
    {
      successFlag := false;
      targetLabel := labelName;
      inputForStmtNode := forStmtNode;
      assert Fragment(inputForStmtNode, inputNameNode) == old(Fragment(forStmtNode, inputNameNode));
      Accept(visits);
      success := successFlag;
    }

    /** Insert-before for a name node: reset the flag, record the inputs, traverse. */
    method InsertBeforeLabelName(visits: seq<BlockVisit>, nameNode: NameNode?, labelName: string)
      returns (success: bool)
      requires DistinctBlocks(visits)
      requires Blocks(visits) !! FragmentBlocks(inputForStmtNode, nameNode)
      requires AnyMatch(visits, labelName) ==> ForBodyReady(inputForStmtNode)
      modifies this, Blocks(visits)
      ensures inputNameNode == nameNode && inputForStmtNode == old(inputForStmtNode) && targetLabel == labelName
      ensures success == old(AnyMatch(visits, labelName))
      ensures successFlag == success
      ensures forall k :: 0 <= k < |visits| ==>
        visits[k].block.stmts == InsertBeforeFirst(old(visits[k].block.stmts), old(Fragment(inputForStmtNode, nameNode)), labelName, visits[k].tryScope)
    {
      successFlag := false;
      targetLabel := labelName;
      inputNameNode := nameNode;
      assert Fragment(inputForStmtNode, inputNameNode) == old(Fragment(inputForStmtNode, nameNode));
      Accept(visits);
      success := successFlag;
    }
  }

  class RemoveLabelVisitor {
    var targetLabel: string
    var successFlag: bool

    constructor ()
    {
    }

    /** Visits one block: erases its first child whose non-empty label resolves to the target. */
    method Visit(v: BlockVisit)
      modifies this`successFlag, v.block
      ensures successFlag == (old(successFlag) || FirstMatch(old(v.block.stmts), targetLabel, v.tryScope).Some?)
      ensures v.block.stmts == RemoveFirst(old(v.block.stmts), targetLabel, v.tryScope)
    {
      var blkStmts := v.block.stmts;
      var found, idx := ScanForLabel(blkStmts, targetLabel, v.tryScope);
      if found {
        successFlag := true;
        blkStmts := blkStmts[..idx] + blkStmts[idx + 1..];
      }
      v.block.stmts := blkStmts;
    }

    /** The traversal: the per-block visit applied to every reached block, in order. */
    method Accept(visits: seq<BlockVisit>)
      requires DistinctBlocks(visits)
      modifies this`successFlag, Blocks(visits)
      ensures successFlag == (old(successFlag) || old(AnyMatch(visits, targetLabel)))
      ensures forall k :: 0 <= k < |visits| ==>
        visits[k].block.stmts == RemoveFirst(old(visits[k].block.stmts), targetLabel, visits[k].tryScope)
    {
      var n := 0;
      while n < |visits|
        invariant n <= |visits|
        invariant successFlag == (old(successFlag) || exists k :: 0 <= k < n && FirstMatch(old(visits[k].block.stmts), targetLabel, visits[k].tryScope).Some?)
        invariant forall k :: 0 <= k < |visits| ==>
          visits[k].block.stmts == if k < n then RemoveFirst(old(visits[k].block.stmts), targetLabel, visits[k].tryScope) else old(visits[k].block.stmts)
      {
        assert forall k :: 0 <= k < |visits| && k != n ==> visits[k].block != visits[n].block;
        Visit(visits[n]);
        n := n + 1;
      }
    }

    /** Remove: reset the flag, record the target, traverse. */
    method RemoveLabel(visits: seq<BlockVisit>, labelName: string) returns (success: bool)
      requires DistinctBlocks(visits)
      modifies this, Blocks(visits)
      ensures targetLabel == labelName
      ensures success == old(AnyMatch(visits, labelName))
      ensures successFlag == success
      ensures forall k :: 0 <= k < |visits| ==>
        visits[k].block.stmts == RemoveFirst(old(visits[k].block.stmts), labelName, visits[k].tryScope)
    {
      successFlag := false;
      targetLabel := labelName;
      Accept(visits);
      success := successFlag;
    }
  }

  // ---------------------------------------------------------------------
  // The program editing facade
  // ---------------------------------------------------------------------

  /** The index of the first top-level function declaration with the given name. */
  function FindFuncDecl(elems: seq<Element>, funcName: string): (r: Option<nat>)
    ensures r.Some? ==>
      r.value < |elems| && elems[r.value].FuncDeclElem? && elems[r.value].decl.name == funcName
    ensures r.Some? ==> forall j :: 0 <= j < r.value ==>
      !(elems[j].FuncDeclElem? && elems[j].decl.name == funcName)
    ensures r.None? <==> forall j :: 0 <= j < |elems| ==>
      !(elems[j].FuncDeclElem? && elems[j].decl.name == funcName)
  {
    if elems == [] then None
    else if elems[0].FuncDeclElem? && elems[0].decl.name == funcName then Some(0)
    else
      match FindFuncDecl(elems[1..], funcName)
      case None => None
      case Some(i) => Some(i + 1)
  }

  /**
   * A declaration just prepended is the one found under its name; any other
   * name is found where it was before, one position later.
   */
  lemma FindAfterPrepend(decl: FuncDecl, elems: seq<Element>, funcName: string)
    ensures FindFuncDecl([FuncDeclElem(decl)] + elems, funcName)
         == if decl.name == funcName then Some(0)
            else match FindFuncDecl(elems, funcName)
                 case None => None
                 case Some(i) => Some(i + 1)
  {
    assert ([FuncDeclElem(decl)] + elems)[1..] == elems;
  }

  class ProgramNode {
    const firProgram: Program

    constructor (firProgram: Program)
      ensures this.firProgram == firProgram
    {
      this.firProgram := firProgram;
    }

    /**
     * Inserts the materialised name node before the first child labelled
     * `labelName` in every reached block; true iff some block had such a child.
     */
    method InsertBeforeName(nameNode: NameNode?, labelName: string, visits: seq<BlockVisit>) returns (found: bool)
      requires DistinctBlocks(visits)
      requires Blocks(visits) !! FragmentBlocks(null, nameNode)
      modifies Blocks(visits)
      ensures found == old(AnyMatch(visits, labelName))
      ensures forall k :: 0 <= k < |visits| ==>
        visits[k].block.stmts == InsertBeforeFirst(old(visits[k].block.stmts), old(Fragment(null, nameNode)), labelName, visits[k].tryScope)
      ensures nameNode != null ==> old(Fragment(null, nameNode)) == [old(nameNode.Emit())]
      ensures nameNode == null ==> old(Fragment(null, nameNode)) == []
    {
      var insertBeforeVisitor := new InsertBeforeLabelVisitor();
      found := insertBeforeVisitor.InsertBeforeLabelName(visits, nameNode, labelName);
    }

    /**
     * Inserts the materialised loop before the first child labelled `labelName` in
     * every reached block; true iff some block had such a child. The loop is
     * only materialised at a match, so its body must exist only then.
     */
    method InsertBeforeFor(forStmt: ForStmtNode?, labelName: string, visits: seq<BlockVisit>) returns (found: bool)
      requires DistinctBlocks(visits)
      requires Blocks(visits) !! FragmentBlocks(forStmt, null)
      requires AnyMatch(visits, labelName) ==> ForBodyReady(forStmt)
      modifies Blocks(visits)
      ensures found == old(AnyMatch(visits, labelName))
      ensures forall k :: 0 <= k < |visits| ==>
        visits[k].block.stmts == InsertBeforeFirst(old(visits[k].block.stmts), old(Fragment(forStmt, null)), labelName, visits[k].tryScope)
      ensures found && forStmt != null ==> old(forStmt.body) != null && old(Fragment(forStmt, null)) == [old(forStmt.Emit())]
      ensures forStmt == null ==> old(Fragment(forStmt, null)) == []
    {
      var insertBeforeVisitor := new InsertBeforeLabelVisitor();
      found := insertBeforeVisitor.InsertBeforeLabelFor(visits, forStmt, labelName);
    }

    /** Erases the first child labelled `labelName` in every reached block; true iff some block had one. */
    method RemoveLabelNode(labelName: string, visits: seq<BlockVisit>) returns (found: bool)
      requires DistinctBlocks(visits)
      modifies Blocks(visits)
      ensures found == old(AnyMatch(visits, labelName))
      ensures forall k :: 0 <= k < |visits| ==>
        visits[k].block.stmts == RemoveFirst(old(visits[k].block.stmts), labelName, visits[k].tryScope)
    {
      var removeLabelVisitor := new RemoveLabelVisitor();
      found := removeLabelVisitor.RemoveLabel(visits, labelName);
    }

    /** Not implemented by the editor: reports success and changes nothing. */
    method InsertAfterFor(forStmt: ForStmtNode?, labelName: string) returns (ok: bool)
      ensures ok
    {
      ok := true;
    }

    /** Not implemented by the editor: reports success and changes nothing. */
    method InsertAfterName(nameNode: NameNode?, labelName: string) returns (ok: bool)
      ensures ok
    {
      ok := true;
    }

    /** Prepends the wrapped declaration to the program's top-level elements. */
    method InsertFuncDecl(funcDeclNode: FuncDeclNode)
      modifies firProgram
      ensures firProgram.elems == [FuncDeclElem(funcDeclNode.firFuncDecl)] + old(firProgram.elems)
    {
      firProgram.elems := [FuncDeclElem(funcDeclNode.firFuncDecl)] + firProgram.elems;
    }

    /**
     * Wraps the block that the loop-body cloning traversal produced for
     * `labelName`, with `clonedBody` standing for that traversal's result.
     */
    method CloneLabelLoopBody(labelName: string, clonedBody: StmtBlock?) returns (r: StmtBlockNode?)
      ensures r == null <==> clonedBody == null
      ensures r != null ==> fresh(r) && r.firStmtBlock == clonedBody
    {
      if clonedBody == null {
        return null;
      }
      r := new StmtBlockNode(clonedBody);
    }

    /** A deep copy of the first top-level declaration named `funcName`, or null. */
    method CloneFuncDecl(funcName: string) returns (r: FuncDeclNode?)
      ensures r == null <==> FindFuncDecl(firProgram.elems, funcName).None?
      ensures r != null ==> fresh(r) && fresh(r.firFuncDecl) && fresh(r.firFuncDecl.body)
      ensures r != null ==>
        var original := firProgram.elems[FindFuncDecl(firProgram.elems, funcName).value].decl;
        r.firFuncDecl.name == original.name && r.firFuncDecl.body.stmts == original.body.stmts
    {
      r := null;
      var elems := firProgram.elems;
      var n := 0;
      while n < |elems|
        invariant n <= |elems| && r == null
        invariant forall j :: 0 <= j < n ==> !(elems[j].FuncDeclElem? && elems[j].decl.name == funcName)
      {
        if elems[n].FuncDeclElem? {
          var firFuncDecl := elems[n].decl;
          if firFuncDecl.name == funcName {
            var firFuncDeclClone := firFuncDecl.Clone();
            r := new FuncDeclNode(firFuncDeclClone);
            assert FindFuncDecl(elems, funcName) == Some(n);
            break;
          }
        }
        n := n + 1;
      }
    }

    /** The body of a deep copy of the first top-level declaration named `funcName`, or null. */
    method CloneFuncBody(funcName: string) returns (r: StmtBlockNode?)
      ensures r == null <==> FindFuncDecl(firProgram.elems, funcName).None?
      ensures r != null ==> fresh(r) && fresh(r.firStmtBlock)
      ensures r != null ==>
        r.Emitted() == firProgram.elems[FindFuncDecl(firProgram.elems, funcName).value].decl.body.stmts
    {
      r := null;
      var elems := firProgram.elems;
      var n := 0;
      while n < |elems|
        invariant n <= |elems| && r == null
        invariant forall j :: 0 <= j < n ==> !(elems[j].FuncDeclElem? && elems[j].decl.name == funcName)
      {
        if elems[n].FuncDeclElem? {
          var firFuncDecl := elems[n].decl;
          if firFuncDecl.name == funcName {
            var firFuncDeclClone := firFuncDecl.Clone();
            var outputFuncDecl := new FuncDeclNode(firFuncDeclClone);
            r := new StmtBlockNode(outputFuncDecl.firFuncDecl.body);
            assert FindFuncDecl(elems, funcName) == Some(n);
            break;
          }
        }
        n := n + 1;
      }
    }
  }
}
