/**
 * The edge-apply function declaration generator of the backend: for one
 * edge-set traversal carrying a schedule, it derives the canonical name of
 * the generated function, builds its template and value parameter lists,
 * and appends a declaration header to the output stream.
 */
module EdgeApplyFuncDecl {
  import opened Wrappers

  /** The three kinds of traversal node: push, pull, and anything else (hybrid). */
  datatype Direction = Push | Pull | Hybrid

  /** A mid-level edge-set apply expression, reduced to the attributes the generator reads. */
  datatype EdgeSetApplyExpr = EdgeSetApplyExpr(
    direction: Direction,
    isParallel: bool,
    enableDeduplication: bool,
    fromFunc: string,
    toFunc: string,
    inputFunctionName: string)

  /** How an endpoint restriction is given: absent, a declared filter function, or a vertex subset. */
  datatype EndpointKind = NoEndpoint | FilterFunc | VertexSet

  /** The schedule tuple the canonical name is a function of. */
  datatype Schedule = Schedule(
    direction: Direction,
    parallel: bool,
    dedup: bool,
    from: EndpointKind,
    to: EndpointKind)

  /** The kind of one endpoint, given the set of names the program declares as functions. */
  function EndpointKindOf(f: string, functionNames: set<string>): (k: EndpointKind)
    ensures k == NoEndpoint <==> f == ""
    ensures k == FilterFunc <==> f != "" && f in functionNames
    ensures k == VertexSet <==> f != "" && f !in functionNames
  {
    if f == "" then NoEndpoint
    else if f in functionNames then FilterFunc
    else VertexSet
  }

  function ScheduleOf(apply: EdgeSetApplyExpr, functionNames: set<string>): Schedule
  {
    Schedule(apply.direction, apply.isParallel, apply.enableDeduplication,
             EndpointKindOf(apply.fromFunc, functionNames),
             EndpointKindOf(apply.toFunc, functionNames))
  }

  // ---------------------------------------------------------------------
  // Canonical names
  // ---------------------------------------------------------------------

  const NameBase := "edgeset_apply"
  /** The deduplication suffix, spelled as the generator spells it. */
  const DedupSuffixText := "_deduplicatied"

  function DirectionSuffix(d: Direction): string
  {
    match d
    case Push => "_push"
    case Pull => "_pull"
    case Hybrid => "_hybrid"
  }

  function ParallelSuffix(parallel: bool): string
  {
    if parallel then "_parallel" else "_serial"
  }

  function DedupSuffix(dedup: bool): string
  {
    if dedup then DedupSuffixText else ""
  }

  function FromSuffix(k: EndpointKind): string
  {
    match k
    case NoEndpoint => ""
    case FilterFunc => "_from_filter_func"
    case VertexSet => "_from_vertexset"
  }

  function ToSuffix(k: EndpointKind): string
  {
    match k
    case NoEndpoint => ""
    case FilterFunc => "_to_filter_func"
    case VertexSet => "_to_vertexset"
  }

  /** The canonical name: the base followed by one suffix per axis, in the fixed axis order. */
  function ScheduleName(s: Schedule): string
  {
    NameBase + (DirectionSuffix(s.direction) + (ParallelSuffix(s.parallel) +
      (DedupSuffix(s.dedup) + (FromSuffix(s.from) + ToSuffix(s.to)))))
  }

  /** The name of the function generated for one traversal node. */
  function FunctionName(apply: EdgeSetApplyExpr, functionNames: set<string>): string
  {
    ScheduleName(ScheduleOf(apply, functionNames))
  }

  /**
   * Regrouping of string concatenation. Dafny knows this fact already; calling it
   * at a chosen step keeps the text proofs below from searching for the grouping.
   */
  lemma Associative(a: string, b: string, c: string)
    ensures a + (b + c) == (a + b) + c
  {
  }

  /** The name read as the generator builds it: each suffix appended to what came before. */
  lemma ScheduleNameLeftToRight(s: Schedule)
    ensures ScheduleName(s) == NameBase + DirectionSuffix(s.direction) + ParallelSuffix(s.parallel)
      + DedupSuffix(s.dedup) + FromSuffix(s.from) + ToSuffix(s.to)
  {
    var d, p, dd, f, t := DirectionSuffix(s.direction), ParallelSuffix(s.parallel),
      DedupSuffix(s.dedup), FromSuffix(s.from), ToSuffix(s.to);
    Associative(dd, f, t);
    Associative(p, dd + f, t);
    Associative(p, dd, f);
    Associative(d, p + dd + f, t);
    Associative(d, p + dd, f);
    Associative(d, p, dd);
    Associative(NameBase, d + p + dd + f, t);
    Associative(NameBase, d + p + dd, f);
    Associative(NameBase, d + p, dd);
    Associative(NameBase, d, p);
  }

  lemma FunctionNameLeftToRight(apply: EdgeSetApplyExpr, functionNames: set<string>)
    ensures var s := ScheduleOf(apply, functionNames);
      FunctionName(apply, functionNames) == NameBase + DirectionSuffix(s.direction) + ParallelSuffix(s.parallel)
        + DedupSuffix(s.dedup) + FromSuffix(s.from) + ToSuffix(s.to)
  {
    ScheduleNameLeftToRight(ScheduleOf(apply, functionNames));
  }

  // ---------------------------------------------------------------------
  // Reading a canonical name back: the inverse that makes names unique
  // ---------------------------------------------------------------------

  function DropPrefix(p: string, s: string): (r: Option<string>)
    ensures r.Some? <==> p <= s
    ensures r.Some? ==> s == p + r.value
  {
    if p <= s then
      assert s == p + s[|p|..];
      Some(s[|p|..])
    else None
  }

  function ParseTo(s: string): Option<EndpointKind>
  {
    if s == "" then Some(NoEndpoint)
    else if s == "_to_filter_func" then Some(FilterFunc)
    else if s == "_to_vertexset" then Some(VertexSet)
    else None
  }

  function ParseEndpoints(s: string): Option<(EndpointKind, EndpointKind)>
  {
    var (from, rest) :=
      if "_from_filter_func" <= s then (FilterFunc, s[|"_from_filter_func"|..])
      else if "_from_vertexset" <= s then (VertexSet, s[|"_from_vertexset"|..])
      else (NoEndpoint, s);
    match ParseTo(rest)
    case None => None
    case Some(to) => Some((from, to))
  }

  function ParseDedup(s: string): Option<(bool, EndpointKind, EndpointKind)>
  {
    var (dedup, rest) :=
      if DedupSuffixText <= s then (true, s[|DedupSuffixText|..]) else (false, s);
    match ParseEndpoints(rest)
    case None => None
    case Some((from, to)) => Some((dedup, from, to))
  }

  function ParseParallelism(s: string): Option<(bool, string)>
  {
    if "_parallel" <= s then Some((true, s[|"_parallel"|..]))
    else if "_serial" <= s then Some((false, s[|"_serial"|..]))
    else None
  }

  function ParseDirection(s: string): Option<(Direction, string)>
  {
    if "_push" <= s then Some((Push, s[|"_push"|..]))
    else if "_pull" <= s then Some((Pull, s[|"_pull"|..]))
    else if "_hybrid" <= s then Some((Hybrid, s[|"_hybrid"|..]))
    else None
  }

  /** Recovers the schedule tuple from a canonical name, or None for any other string. */
  function ParseScheduleName(name: string): Option<Schedule>
  {
    match DropPrefix(NameBase, name)
    case None => None
    case Some(afterBase) =>
      match ParseDirection(afterBase)
      case None => None
      case Some((direction, afterDirection)) =>
        match ParseParallelism(afterDirection)
        case None => None
        case Some((parallel, afterParallel)) =>
          match ParseDedup(afterParallel)
          case None => None
          case Some((dedup, from, to)) => Some(Schedule(direction, parallel, dedup, from, to))
  }

  /** A tag followed by the rest: the tag is a prefix, and dropping it leaves the rest. A helper of the parser proofs. */
  lemma PrefixDropped(p: string, rest: string)
    ensures p <= p + rest
    ensures (p + rest)[|p|..] == rest
  {
  }

  lemma ParseToSuffix(k: EndpointKind)
    ensures ParseTo(ToSuffix(k)) == Some(k)
  {
  }

  lemma ParseEndpointSuffixes(from: EndpointKind, to: EndpointKind)
    ensures ParseEndpoints(FromSuffix(from) + ToSuffix(to)) == Some((from, to))
  {
    var s := FromSuffix(from) + ToSuffix(to);
    PrefixDropped(FromSuffix(from), ToSuffix(to));
    ParseToSuffix(to);
    match from
    case FilterFunc =>
    case VertexSet =>
      assert s[6] == 'v';
    case NoEndpoint =>
      assert s == ToSuffix(to);
      assert s == "" || s[1] == 't';
  }

  lemma ParseDedupSuffixes(dedup: bool, from: EndpointKind, to: EndpointKind)
    ensures ParseDedup(DedupSuffix(dedup) + (FromSuffix(from) + ToSuffix(to))) == Some((dedup, from, to))
  {
    var tail := FromSuffix(from) + ToSuffix(to);
    PrefixDropped(DedupSuffix(dedup), tail);
    ParseEndpointSuffixes(from, to);
    if !dedup {
      assert DedupSuffix(dedup) + tail == tail;
      assert tail == "" || tail[1] == 'f' || tail[1] == 't';
    }
  }

  lemma ParseParallelismSuffix(parallel: bool, rest: string)
    ensures ParseParallelism(ParallelSuffix(parallel) + rest) == Some((parallel, rest))
  {
    PrefixDropped(ParallelSuffix(parallel), rest);
    if !parallel {
      assert (ParallelSuffix(parallel) + rest)[1] == 's';
    }
  }

  lemma ParseDirectionSuffix(d: Direction, rest: string)
    ensures ParseDirection(DirectionSuffix(d) + rest) == Some((d, rest))
  {
    var s := DirectionSuffix(d) + rest;
    PrefixDropped(DirectionSuffix(d), rest);
    match d
    case Push =>
    case Pull =>
      assert s[3] == 'l';
    case Hybrid =>
      assert s[1] == 'h';
  }

  /** Parsing a canonical name gives back exactly the schedule it was built from. */
  lemma {:induction false} ParseScheduleNameRoundTrip(s: Schedule)
    ensures ParseScheduleName(ScheduleName(s)) == Some(s)
  {
    var afterParallel := DedupSuffix(s.dedup) + (FromSuffix(s.from) + ToSuffix(s.to));
    var afterDirection := ParallelSuffix(s.parallel) + afterParallel;
    var afterBase := DirectionSuffix(s.direction) + afterDirection;
    PrefixDropped(NameBase, afterBase);
    ParseDirectionSuffix(s.direction, afterDirection);
    ParseParallelismSuffix(s.parallel, afterParallel);
    ParseDedupSuffixes(s.dedup, s.from, s.to);
  }

  /** Distinct schedule tuples get distinct names (and equal tuples equal ones). */
  lemma ScheduleNameInjective(s1: Schedule, s2: Schedule)
    ensures ScheduleName(s1) == ScheduleName(s2) <==> s1 == s2
  {
    if ScheduleName(s1) == ScheduleName(s2) {
      ParseScheduleNameRoundTrip(s1);
      ParseScheduleNameRoundTrip(s2);
    }
  }

  /**
   * Every axis of the schedule can be read off the generated name: the
   * direction, the parallelism, the deduplication flag (present exactly when
   * enabled) and the kinds of both endpoints.
   */
  lemma FunctionNameAxes(apply: EdgeSetApplyExpr, functionNames: set<string>)
    ensures NameBase <= FunctionName(apply, functionNames)
    ensures ParseScheduleName(FunctionName(apply, functionNames)).Some?
    ensures var s := ParseScheduleName(FunctionName(apply, functionNames)).value;
      && s.direction == apply.direction
      && s.parallel == apply.isParallel
      && s.dedup == apply.enableDeduplication
      && (s.from == NoEndpoint <==> apply.fromFunc == "")
      && (s.from == FilterFunc <==> apply.fromFunc != "" && apply.fromFunc in functionNames)
      && (s.to == NoEndpoint <==> apply.toFunc == "")
      && (s.to == FilterFunc <==> apply.toFunc != "" && apply.toFunc in functionNames)
  {
    var s := ScheduleOf(apply, functionNames);
    ParseScheduleNameRoundTrip(s);
    PrefixDropped(NameBase, ScheduleName(s)[|NameBase|..]);
  }

  /** Two traversal nodes get the same name exactly when their schedule tuples agree. */
  lemma FunctionNameDeterminedBySchedule(a1: EdgeSetApplyExpr, a2: EdgeSetApplyExpr, functionNames: set<string>)
    ensures FunctionName(a1, functionNames) == FunctionName(a2, functionNames)
        <==> ScheduleOf(a1, functionNames) == ScheduleOf(a2, functionNames)
  {
    ScheduleNameInjective(ScheduleOf(a1, functionNames), ScheduleOf(a2, functionNames));
  }

  // ---------------------------------------------------------------------
  // Template and value parameter lists
  // ---------------------------------------------------------------------

  function FromTemplates(f: string, functionNames: set<string>): seq<string>
  {
    if f != "" && f in functionNames then ["typename FROM_FUNC"] else []
  }

  function ToTemplates(f: string, functionNames: set<string>): seq<string>
  {
    if f != "" && f in functionNames then ["typename TO_FUNC"] else []
  }

  function FromArguments(f: string, functionNames: set<string>): seq<string>
  {
    if f == "" then []
    else if f in functionNames then ["FROM_FUNC " + f]
    else ["VertexSubset<NodeID>* " + f]
  }

  function ToArguments(f: string, functionNames: set<string>): seq<string>
  {
    if f == "" then []
    else if f in functionNames then ["TO_FUNC " + f]
    else ["VertexSubset<NodeID>* " + f]
  }

  function Templates(apply: EdgeSetApplyExpr, functionNames: set<string>): seq<string>
  {
    FromTemplates(apply.fromFunc, functionNames)
      + ToTemplates(apply.toFunc, functionNames)
      + ["typename APPLY_FUNC"]
  }

  function Arguments(apply: EdgeSetApplyExpr, functionNames: set<string>): seq<string>
  {
    FromArguments(apply.fromFunc, functionNames)
      + ToArguments(apply.toFunc, functionNames)
      + ["APPLY_FUNC " + apply.inputFunctionName]
  }

  function Count(b: bool): nat { if b then 1 else 0 }

  /**
   * The shape of the two lists: one argument per present endpoint and one
   * template per function endpoint, the from entry before the to entry, and
   * the apply callback always last in both.
   */
  lemma SignatureShape(apply: EdgeSetApplyExpr, functionNames: set<string>)
    ensures var args := Arguments(apply, functionNames);
      var from := EndpointKindOf(apply.fromFunc, functionNames);
      var to := EndpointKindOf(apply.toFunc, functionNames);
      && |args| == 1 + Count(from != NoEndpoint) + Count(to != NoEndpoint)
      && args[|args| - 1] == "APPLY_FUNC " + apply.inputFunctionName
      && (from == FilterFunc ==> args[0] == "FROM_FUNC " + apply.fromFunc)
      && (from == VertexSet ==> args[0] == "VertexSubset<NodeID>* " + apply.fromFunc)
      && (to == FilterFunc ==> args[|args| - 2] == "TO_FUNC " + apply.toFunc)
      && (to == VertexSet ==> args[|args| - 2] == "VertexSubset<NodeID>* " + apply.toFunc)
    ensures var temps := Templates(apply, functionNames);
      var from := EndpointKindOf(apply.fromFunc, functionNames);
      var to := EndpointKindOf(apply.toFunc, functionNames);
      && |temps| == 1 + Count(from == FilterFunc) + Count(to == FilterFunc)
      && temps[|temps| - 1] == "typename APPLY_FUNC"
      && (from == FilterFunc ==> temps[0] == "typename FROM_FUNC")
      && (to == FilterFunc ==> temps[|temps| - 2] == "typename TO_FUNC")
  {
  }

  // ---------------------------------------------------------------------
  // Emitted text
  // ---------------------------------------------------------------------

  /** The pieces of text the generator writes around a function name. */
  const TemplateText := "template <typename Function > "
  const ReturnTypeText := "VertexSubset<NodeID>* "
  const OpenBodyText := "() { "
  const CloseBodyText := "} "
  /** What `endl` writes. */
  const Newline := "\n"

  /** The header written for a function of the given name. */
  function Header(name: string): string
  {
    TemplateText + ReturnTypeText + name + OpenBodyText + Newline
  }

  /** What a push or pull visit appends: the header and the closing brace. */
  function Declaration(name: string): string
  {
    Header(name) + CloseBodyText + Newline
  }

  /** The emitted declaration is a fixed opening, the name, and a fixed closing. */
  lemma DeclarationText(name: string)
    ensures Declaration(name)
         == (TemplateText + ReturnTypeText) + name + (OpenBodyText + Newline + CloseBodyText + Newline)
  {
    var front := TemplateText + ReturnTypeText + name;
    Associative(front, OpenBodyText, Newline);
    Associative(front, OpenBodyText + Newline, CloseBodyText);
    Associative(front, OpenBodyText + Newline + CloseBodyText, Newline);
  }

  /** Text framed by the same opening and closing is equal exactly when the framed parts are. */
  lemma FramedEqual(open: string, a: string, b: string, close: string)
    requires open + a + close == open + b + close
    ensures a == b
  {
    var t1, t2 := open + a + close, open + b + close;
    assert |a| == |b|;
    assert a == t1[|open|..|open| + |a|];
    assert b == t2[|open|..|open| + |b|];
  }

  /**
   * The emitted declaration identifies the schedule: two traversal nodes
   * produce the same text exactly when their schedule tuples agree, whatever
   * their endpoint and callback identifiers (which the text never mentions).
   */
  lemma DeclarationIdentifiesSchedule(a1: EdgeSetApplyExpr, a2: EdgeSetApplyExpr, functionNames: set<string>)
    ensures Declaration(FunctionName(a1, functionNames)) == Declaration(FunctionName(a2, functionNames))
        <==> ScheduleOf(a1, functionNames) == ScheduleOf(a2, functionNames)
  {
    var n1, n2 := FunctionName(a1, functionNames), FunctionName(a2, functionNames);
    FunctionNameDeterminedBySchedule(a1, a2, functionNames);
    if Declaration(n1) == Declaration(n2) {
      DeclarationText(n1);
      DeclarationText(n2);
      FramedEqual(TemplateText + ReturnTypeText, n1, n2, OpenBodyText + Newline + CloseBodyText + Newline);
    }
  }

  /** The generator; `functionNames` stands for the mid-level context's function table. */
  class EdgesetApplyFunctionDeclGenerator {
    const functionNames: set<string>
    /** The output stream, as the text written to it so far. */
    var oss: string

    constructor (functionNames: set<string>)
      ensures this.functionNames == functionNames && oss == ""
    {
      this.functionNames := functionNames;
      oss := "";
    }

    /** Builds the canonical name suffix by suffix. */
    method GenFunctionName(apply: EdgeSetApplyExpr) returns (outputName: string)
      ensures outputName == ScheduleName(ScheduleOf(apply, functionNames))
    {
      ghost var s := ScheduleOf(apply, functionNames);
      outputName := NameBase;

      ghost var beforeDirection := outputName;
      match apply.direction {
        case Push => outputName := outputName + "_push";
        case Pull => outputName := outputName + "_pull";
        case Hybrid => outputName := outputName + "_hybrid";
      }
      assert outputName == beforeDirection + DirectionSuffix(s.direction);

      ghost var beforeParallel := outputName;
      if apply.isParallel {
        outputName := outputName + "_parallel";
      } else {
        outputName := outputName + "_serial";
      }
      assert outputName == beforeParallel + ParallelSuffix(s.parallel);

      ghost var beforeDedup := outputName;
      if apply.enableDeduplication {
        outputName := outputName + DedupSuffixText;
      } else {
        assert beforeDedup + "" == beforeDedup;
      }
      assert outputName == beforeDedup + DedupSuffix(s.dedup);

      ghost var beforeFrom := outputName;
      if apply.fromFunc != "" {
        if apply.fromFunc in functionNames {
          outputName := outputName + "_from_filter_func";
        } else {
          outputName := outputName + "_from_vertexset";
        }
      } else {
        assert beforeFrom + "" == beforeFrom;
      }
      assert outputName == beforeFrom + FromSuffix(s.from);

      ghost var beforeTo := outputName;
      if apply.toFunc != "" {
        if apply.toFunc in functionNames {
          outputName := outputName + "_to_filter_func";
        } else {
          outputName := outputName + "_to_vertexset";
        }
      } else {
        assert beforeTo + "" == beforeTo;
      }
      assert outputName == beforeTo + ToSuffix(s.to);

      ScheduleNameLeftToRight(s);
    }

    /** Builds the template and argument lists, pushing entries in the generator's order. */
    method SignatureLists(apply: EdgeSetApplyExpr) returns (templates: seq<string>, arguments: seq<string>)
      ensures templates == Templates(apply, functionNames)
      ensures arguments == Arguments(apply, functionNames)
    {
      templates := [];
      arguments := [];

      if apply.fromFunc != "" {
        if apply.fromFunc in functionNames {
          templates := templates + ["typename FROM_FUNC"];
          arguments := arguments + ["FROM_FUNC " + apply.fromFunc];
        } else {
          arguments := arguments + ["VertexSubset<NodeID>* " + apply.fromFunc];
        }
      }

      if apply.toFunc != "" {
        if apply.toFunc in functionNames {
          templates := templates + ["typename TO_FUNC"];
          arguments := arguments + ["TO_FUNC " + apply.toFunc];
        } else {
          arguments := arguments + ["VertexSubset<NodeID>* " + apply.toFunc];
        }
      }

      templates := templates + ["typename APPLY_FUNC"];
      arguments := arguments + ["APPLY_FUNC " + apply.inputFunctionName];
    }

    /** Computes the name and the two lists and writes the header; the lists are not written. */
    method GenEdgeApplyFunctionSignature(apply: EdgeSetApplyExpr)
      modifies this`oss
      ensures oss == old(oss) + Header(FunctionName(apply, functionNames))
    {
      var funcName := GenFunctionName(apply);
      var templates, arguments := SignatureLists(apply);
      ghost var before := oss;
      oss := oss + TemplateText;
      oss := oss + ReturnTypeText + funcName + OpenBodyText + Newline;
      Associative(before, TemplateText, ReturnTypeText);
      Associative(before, TemplateText + ReturnTypeText, funcName);
      Associative(before, TemplateText + ReturnTypeText + funcName, OpenBodyText);
      Associative(before, TemplateText + ReturnTypeText + funcName + OpenBodyText, Newline);
    }

    method VisitPush(pushApply: EdgeSetApplyExpr)
      requires pushApply.direction == Push
      modifies this`oss
      ensures oss == old(oss) + Declaration(FunctionName(pushApply, functionNames))
    {
      ghost var before := oss;
      GenEdgeApplyFunctionSignature(pushApply);
      ghost var header := Header(FunctionName(pushApply, functionNames));
      oss := oss + CloseBodyText + Newline;
      Associative(before, header, CloseBodyText);
      Associative(before, header + CloseBodyText, Newline);
    }

    method VisitPull(pullApply: EdgeSetApplyExpr)
      requires pullApply.direction == Pull
      modifies this`oss
      ensures oss == old(oss) + Declaration(FunctionName(pullApply, functionNames))
    {
      ghost var before := oss;
      GenEdgeApplyFunctionSignature(pullApply);
      ghost var header := Header(FunctionName(pullApply, functionNames));
      oss := oss + CloseBodyText + Newline;
      Associative(before, header, CloseBodyText);
      Associative(before, header + CloseBodyText, Newline);
    }
  }

  // ---------------------------------------------------------------------
  // Worked examples
  // ---------------------------------------------------------------------

  /** A push, serial traversal without endpoints: one template and one argument, the callback. */
  lemma PushSerialExample()
    ensures var a := EdgeSetApplyExpr(Push, false, false, "", "", "updateEdge");
      && FunctionName(a, {}) == "edgeset_apply_push_serial"
      && Templates(a, {}) == ["typename APPLY_FUNC"]
      && Arguments(a, {}) == ["APPLY_FUNC updateEdge"]
  {
    assert "APPLY_FUNC " + "updateEdge" == "APPLY_FUNC updateEdge";
  }

  /** A pull, parallel, deduplicated traversal from a declared filter function. */
  lemma PullFromFilterExample()
    ensures var a := EdgeSetApplyExpr(Pull, true, true, "isActive", "", "updateEdge");
      && FunctionName(a, {"isActive"}) == "edgeset_apply" + "_pull" + "_parallel" + "_deduplicatied" + "_from_filter_func"
      && Templates(a, {"isActive"}) == ["typename FROM_FUNC", "typename APPLY_FUNC"]
      && Arguments(a, {"isActive"}) == ["FROM_FUNC isActive", "APPLY_FUNC updateEdge"]
  {
    var a := EdgeSetApplyExpr(Pull, true, true, "isActive", "", "updateEdge");
    FunctionNameLeftToRight(a, {"isActive"});
    assert "FROM_FUNC " + "isActive" == "FROM_FUNC isActive";
    assert "APPLY_FUNC " + "updateEdge" == "APPLY_FUNC updateEdge";
  }

  /** A hybrid traversal from a vertex subset to a declared filter function. */
  lemma HybridVertexsetToFilterExample()
    ensures var a := EdgeSetApplyExpr(Hybrid, true, false, "frontier", "isNew", "updateEdge");
      && FunctionName(a, {"isNew"}) == "edgeset_apply" + "_hybrid" + "_parallel" + "_from_vertexset" + "_to_filter_func"
      && Templates(a, {"isNew"}) == ["typename TO_FUNC", "typename APPLY_FUNC"]
      && Arguments(a, {"isNew"}) == ["VertexSubset<NodeID>* frontier", "TO_FUNC isNew", "APPLY_FUNC updateEdge"]
  {
    var a := EdgeSetApplyExpr(Hybrid, true, false, "frontier", "isNew", "updateEdge");
    FunctionNameLeftToRight(a, {"isNew"});
    assert "edgeset_apply" + "_hybrid" + "_parallel" + "" == "edgeset_apply" + "_hybrid" + "_parallel";
    assert "VertexSubset<NodeID>* " + "frontier" == "VertexSubset<NodeID>* frontier";
    assert "TO_FUNC " + "isNew" == "TO_FUNC isNew";
    assert "APPLY_FUNC " + "updateEdge" == "APPLY_FUNC updateEdge";
  }
}
