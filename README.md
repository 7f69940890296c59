# graphit scheduling core in Dafny

This project models two parts of the graphit graph-DSL compiler:

- **The low-level scheduling API of the front end** (`low_level_schedule.dfy`, module
  `LowLevelSchedule`). This API edits a parsed FIR program in place. It can insert an
  emitted `for` statement or name node before the first statement whose scoped label
  matches. It can remove the first such statement. It can also prepend a function
  declaration, clone a function declaration or its body, and append statement blocks to
  loop and function bodies. The two visitors are classes with their own fields
  (`successFlag`, `targetLabel`, the input nodes), and each edits the statement blocks it
  visits in place. The label scan inside each visitor's `visit` is a loop, proved against
  the specification functions `FirstMatch`, `InsertBeforeFirst` and `RemoveFirst`.
  Lemmas state what those functions mean: the first match, the insertion position and the
  statements kept. They also cover inserting one statement and then removing the label.
  When the inserted statement itself matches, the original block comes back. Otherwise
  the original match is erased and the inserted statement stays in its place.
- **The edgeset-apply function declaration generator of the back end**
  (`gen_edge_apply_func_decl.dfy`, module `EdgeApplyFuncDecl`). It builds the name of the
  runtime function that an edgeset-apply expression calls from five axes: direction,
  parallelism, deduplication, the kind of source filter, and the kind of destination
  filter. It then writes that function's declaration header to an output stream. The name
  builder is a method that appends step by step. It is proved against the specification
  function `ScheduleName`. A parser `ParseScheduleName` is proved to invert the name, so
  the name is injective: two apply expressions get the same function name exactly when
  they agree on all five axes.

`wrappers.dfy` holds the `Option` type that stands for a null pointer or a "not found"
outcome.

Where the source's comments and its code differ, the model follows the code:

- The deduplication suffix is spelled `_deduplicatied`, exactly as the code writes it.
- The comment announces 48 schedules. The code has three directions (push, pull and a
  fall-through "hybrid"), two parallelism choices, two deduplication choices, three
  source kinds and three destination kinds, which is 108 distinct names.
  `ScheduleNameInjective` proves that all of them are distinct.
- In the signature header that `genEdgeApplyFunctionSignature` writes, the only varying
  part is the function name; the rest is fixed text. The template and argument lists it
  builds are never written.
- `insertAfter` (both overloads) changes nothing and reports success.

## Model

| member | source | states |
|---|---|---|
| LowLevelSchedule.FirstMatch | src/frontend/low_level_schedule.cpp:44-64 | the index the scan stops at lies within the block, and the statement there has a non-empty label whose scoped name equals the target |
| LowLevelSchedule.FirstMatchIsFirst | src/frontend/low_level_schedule.cpp:44-64 | no statement before the reported index matches, and the scan reports nothing exactly when no statement of the block matches |
| LowLevelSchedule.ScanForLabel | src/frontend/low_level_schedule.cpp:44-64 | the `idx` loop with its early `break` finds a match exactly when one exists; `idx` then equals the first matching position, and otherwise runs to the end of the block |
| LowLevelSchedule.InsertBeforeFirstFound | src/frontend/low_level_schedule.cpp:51-59 | when the first match is at `i`, the block after insertion keeps `stmts[..i]`, then holds the fragment, then `stmts[i..]`; the length grows by the fragment's length |
| LowLevelSchedule.NoMatchUnchanged | src/frontend/low_level_schedule.cpp:46-66 | when no statement matches, both the insert and the remove leave the block exactly as it was |
| LowLevelSchedule.RemoveFirstFound | src/frontend/low_level_schedule.cpp:99-105 | when the first match is at `i`, erasing it keeps every statement before `i` in place and shifts every later one down by one; the block loses exactly that one statement (as a multiset) |
| LowLevelSchedule.UnlabeledPrefixSkipped | src/frontend/low_level_schedule.cpp:47 | unlabelled statements never match, so a prefix of them only shifts the first match by its length |
| LowLevelSchedule.FirstMatchOfConcat | src/frontend/low_level_schedule.cpp:46-64 | the first match in `a + b` is the first match in `a` when there is one, and otherwise the first match in `b` shifted by `|a|` |
| LowLevelSchedule.FirstMatchAfterInsert | src/frontend/low_level_schedule.cpp:51-61 | after inserting a statement at the first match position, the first match is at that position if the new statement matches, and one past it otherwise |
| LowLevelSchedule.InsertThenRemove | src/frontend/low_level_schedule.cpp:43-67 | inserting a single matching statement and then removing the label restores the original block; inserting a non-matching one and then removing replaces the original match with the inserted statement |
| LowLevelSchedule.InsertBeforeLabelVisitor.InsertInputsAt | src/frontend/low_level_schedule.cpp:51-59 | inserting the for node and then the name node at one index leaves the name node's statement first, then the for node's, then the statements from that index on |
| LowLevelSchedule.InsertBeforeLabelVisitor.Visit | src/frontend/low_level_schedule.cpp:43-67 | the flag becomes set exactly when the block holds a match; the block's new statements are the old ones with the emitted name node and then the for node inserted before the first match |
| LowLevelSchedule.InsertBeforeLabelVisitor.Accept | src/frontend/low_level_schedule.cpp:28 | `visits` stands for the outermost blocks the traversal reaches (blocks nested in their statements are not visited, since `visit` does not recurse); visiting them sets the flag exactly when one of them matches and rewrites each as `Visit` does |
| LowLevelSchedule.InsertBeforeLabelVisitor.InsertBeforeLabelFor | src/frontend/low_level_schedule.cpp:22-30 | the flag is reset first, so the result, which is also the visitor's final flag, reports whether any reached block holds the label; every reached block gets the emitted for node (nothing when the node is null) before its first match |
| LowLevelSchedule.InsertBeforeLabelVisitor.InsertBeforeLabelName | src/frontend/low_level_schedule.cpp:32-40 | the same as the for overload, with the emitted name node (nothing when it is null) as the fragment |
| LowLevelSchedule.RemoveLabelVisitor.Visit | src/frontend/low_level_schedule.cpp:95-111 | the flag becomes set exactly when the block holds a match; the first match is erased and nothing else changes |
| LowLevelSchedule.RemoveLabelVisitor.Accept | src/frontend/low_level_schedule.cpp:90 | over the outermost reached blocks (nested blocks are not visited), the flag is set exactly when one of them matches, and each loses its first match |
| LowLevelSchedule.RemoveLabelVisitor.RemoveLabel | src/frontend/low_level_schedule.cpp:86-92 | the result, which is also the visitor's final flag, reports whether any reached block holds the label; each reached block loses its first matching statement |
| LowLevelSchedule.ProgramNode.InsertBeforeName | src/frontend/low_level_schedule.cpp:144-147 | a fresh visitor inserts the emitted name node before the first match in every reached block; a null name node inserts nothing; the result reports whether the label was found |
| LowLevelSchedule.ProgramNode.InsertBeforeFor | src/frontend/low_level_schedule.cpp:149-152 | a fresh visitor inserts the emitted for node before the first match in every reached block; when the label is found and the node is not null, it has a body and the fragment is exactly its emitted statement; a null node inserts nothing |
| LowLevelSchedule.ProgramNode.RemoveLabelNode | src/frontend/low_level_schedule.cpp:154-157 | a fresh visitor erases the first labelled match of every reached block (nested blocks are not visited); the result reports whether the label was found |
| LowLevelSchedule.ProgramNode.InsertAfterFor | src/frontend/low_level_schedule.cpp:134-137 | not implemented: it always reports success and changes nothing |
| LowLevelSchedule.ProgramNode.InsertAfterName | src/frontend/low_level_schedule.cpp:139-142 | not implemented: it always reports success and changes nothing |
| LowLevelSchedule.ProgramNode.InsertFuncDecl | src/frontend/low_level_schedule.cpp:159-161 | the program's element list becomes the declaration followed by the old elements |
| LowLevelSchedule.FindAfterPrepend | src/frontend/low_level_schedule.cpp:159-161 | after prepending a declaration, a lookup by that declaration's name finds it first; a lookup by another name finds the old match shifted by one |
| LowLevelSchedule.FindFuncDecl | src/frontend/low_level_schedule.cpp:171-181 | the first element that is a function declaration with the given name, with no earlier one; None exactly when there is none |
| LowLevelSchedule.ProgramNode.CloneFuncDecl | src/frontend/low_level_schedule.cpp:185-197 | null exactly when no declaration has the name; otherwise a fresh wrapper around a fresh copy of the first such declaration, with the same name and body statements |
| LowLevelSchedule.ProgramNode.CloneFuncBody | src/frontend/low_level_schedule.cpp:169-183 | null exactly when no declaration has the name; otherwise a fresh block node whose statements are the first such declaration's body |
| LowLevelSchedule.ProgramNode.CloneLabelLoopBody | src/frontend/low_level_schedule.cpp:119-132 | null exactly when the cloning visitor returns null; otherwise a fresh block node wrapping the cloned block |
| LowLevelSchedule.FuncDecl.Clone | src/frontend/low_level_schedule.cpp:175 | a fresh declaration with a fresh body block, the same name and the same statements |
| LowLevelSchedule.ForStmtNode.Emit | src/frontend/low_level_schedule.cpp:199-210 | the emitted for statement carries the node's label, loop variable, range domain and current body statements |
| LowLevelSchedule.ForStmtNode.AppendLoopBody | src/frontend/low_level_schedule.cpp:212-217 | an empty body is replaced by the given block; otherwise the given block's statements are appended to the existing body |
| LowLevelSchedule.NameNode.Emit | src/frontend/low_level_schedule.cpp:219-224 | the emitted name node carries the node's label and current body statements |
| LowLevelSchedule.StmtBlockNode.AppendStmtBlockNode | src/frontend/low_level_schedule.cpp:226-232 | the block's statements become the old ones followed by the other block's old ones; the other block is unchanged unless it is the same block |
| LowLevelSchedule.FuncDeclNode.AppendFuncDeclBody | src/frontend/low_level_schedule.cpp:234-240 | the declaration's body statements become the old ones followed by the given block's |
| EdgeApplyFuncDecl.EndpointKindOf | src/backend/gen_edge_apply_func_decl.cpp:91-109 | an empty endpoint name means no filter; a name the context knows as a function means a filter function; any other name means a vertex set |
| EdgeApplyFuncDecl.EdgesetApplyFunctionDeclGenerator.GenFunctionName | src/backend/gen_edge_apply_func_decl.cpp:60-113 | the name built step by step equals the specification name of the apply expression's schedule |
| EdgeApplyFuncDecl.ScheduleNameLeftToRight | src/backend/gen_edge_apply_func_decl.cpp:68-109 | the name is the base `edgeset_apply` followed by the direction, parallelism, deduplication, source and destination suffixes, in that order |
| EdgeApplyFuncDecl.ParseDirectionSuffix | src/backend/gen_edge_apply_func_decl.cpp:71-77 | the direction suffix can be read back, whatever follows it |
| EdgeApplyFuncDecl.ParseParallelismSuffix | src/backend/gen_edge_apply_func_decl.cpp:80-84 | the parallelism suffix can be read back, whatever follows it |
| EdgeApplyFuncDecl.ParseDedupSuffixes | src/backend/gen_edge_apply_func_decl.cpp:87-109 | the optional deduplication suffix and the endpoint suffixes after it can be read back |
| EdgeApplyFuncDecl.ParseEndpointSuffixes | src/backend/gen_edge_apply_func_decl.cpp:91-109 | the optional source and destination suffixes can be read back |
| EdgeApplyFuncDecl.ParseToSuffix | src/backend/gen_edge_apply_func_decl.cpp:101-109 | the optional destination suffix can be read back |
| EdgeApplyFuncDecl.ParseScheduleNameRoundTrip | src/backend/gen_edge_apply_func_decl.cpp:60-113 | parsing a generated name gives back its schedule, for every schedule |
| EdgeApplyFuncDecl.ScheduleNameInjective | src/backend/gen_edge_apply_func_decl.cpp:60-113 | two schedules get the same name exactly when they are equal, so each point of the schedule space has its own runtime function |
| EdgeApplyFuncDecl.FunctionNameAxes | src/backend/gen_edge_apply_func_decl.cpp:60-113 | every generated name starts with `edgeset_apply`, and each of its five axes can be read back from it: direction, parallelism, deduplication, source kind, destination kind |
| EdgeApplyFuncDecl.FunctionNameDeterminedBySchedule | src/backend/gen_edge_apply_func_decl.cpp:60-113 | two apply expressions get the same function name exactly when they agree on direction, parallelism, deduplication and both endpoint kinds; the apply function's name plays no part |
| EdgeApplyFuncDecl.EdgesetApplyFunctionDeclGenerator.SignatureLists | src/backend/gen_edge_apply_func_decl.cpp:24-50 | the template and argument lists equal the specification lists of the apply expression |
| EdgeApplyFuncDecl.SignatureShape | src/backend/gen_edge_apply_func_decl.cpp:24-50 | one argument per present endpoint plus the apply function; one template per filter-function endpoint plus `typename APPLY_FUNC`; the apply entries come last and the source entry precedes the destination entry |
| EdgeApplyFuncDecl.EdgesetApplyFunctionDeclGenerator.GenEdgeApplyFunctionSignature | src/backend/gen_edge_apply_func_decl.cpp:21-57 | the stream gains the header `template <typename Function > VertexSubset<NodeID>* NAME() { ` and a newline, and nothing else |
| EdgeApplyFuncDecl.EdgesetApplyFunctionDeclGenerator.VisitPush | src/backend/gen_edge_apply_func_decl.cpp:9-13 | the stream gains the header for the push expression's name followed by the closing `} ` line |
| EdgeApplyFuncDecl.EdgesetApplyFunctionDeclGenerator.VisitPull | src/backend/gen_edge_apply_func_decl.cpp:15-19 | the stream gains the header for the pull expression's name followed by the closing `} ` line |
| EdgeApplyFuncDecl.DeclarationText | src/backend/gen_edge_apply_func_decl.cpp:9-19 | a declaration is the fixed opening text, the name and the fixed closing text |
| EdgeApplyFuncDecl.DeclarationIdentifiesSchedule | src/backend/gen_edge_apply_func_decl.cpp:9-19 | two emitted declarations are equal exactly when the two apply expressions have the same schedule |
| EdgeApplyFuncDecl.PushSerialExample | src/backend/gen_edge_apply_func_decl.cpp:68-84 | a serial push with no filters and no deduplication is named `edgeset_apply_push_serial`, with arguments `APPLY_FUNC updateEdge` only |
| EdgeApplyFuncDecl.PullFromFilterExample | src/backend/gen_edge_apply_func_decl.cpp:68-98 | a parallel, deduplicated pull from a filter function is named `edgeset_apply_pull_parallel_deduplicatied_from_filter_func`, with the `FROM_FUNC` template |
| EdgeApplyFuncDecl.HybridVertexsetToFilterExample | src/backend/gen_edge_apply_func_decl.cpp:75-108 | an expression that is neither push nor pull is named as hybrid; a source vertex set and a destination filter function give `_from_vertexset_to_filter_func` |

## Left out

- The FIR visitor framework (`accept`) is not modelled. A traversal is given as the list `visits` of the outermost statement blocks it reaches, each paired with the label resolver in force there. Both visitors override `visit` for a statement block without recursing into its statements, so a block nested inside a visited block (the body of a `for` inside a function body, say) is never visited and a label there is not found. The blocks must be distinct, as they are in a tree. The fragment being inserted must not be one of the visited blocks.
- ForStmtNode.Emit, InsertBeforeLabelVisitor.Visit, InsertBeforeLabelVisitor.Accept, InsertBeforeLabelFor, InsertBeforeLabelVisitor.InsertBeforeLabelName, ProgramNode.InsertBeforeFor: these require a for node that has a body whenever it is emitted, that is whenever a reached block matches. For `InsertBeforeLabelName` this is the for node a reused visitor still holds from an earlier call. The source dereferences `body_` unchecked, and `appendLoopBody` shows that it can be null, so inserting a body-less for node before a found label is a null dereference there; the model does not describe that failure. A null for node or name node is modelled: the flag is set at a match and nothing is inserted for it.
- `DropPrefix`, `PrefixDropped` and `Associative` are helpers of the parser and text proofs; the source strips no prefixes.
- `label_scope_.tryScope` is not modelled: each visited block carries it as an opaque function from a statement label to its scoped name.
- `CloneLoopBodyVisitor` is not part of this model. `CloneLabelLoopBody` takes the block that visitor returns as a parameter.
- `fir::FuncDecl::clone` is modelled as copying the name and the body's statements. Other declaration fields (arguments, result, type) are not modelled.
- `emitFIRRangeDomain`, `StmtBlockNode::emitFIRNode`, `FuncDeclNode::emitFIRNode` and `FuncDeclNode::getBody`: these are not part of this model beyond what each returns. A range domain is the pair of its bounds, and a block node emits its block's statements.
- Nested statements are values (`Stmt`), so the model does not capture sharing of a nested body between two places in the tree. Only the top-level blocks, declarations, program and wrapper nodes are objects with identity.
- `updateFuncReferences` has an empty body in the source and is not modelled.
- The dynamically cast `target` in `genEdgeApplyFunctionSignature` is never used and is not modelled.
- `mir_context_->isFunction` is represented by the set of function names known to the generator.
- The output stream is modelled as the string written so far, with `endl` as `"\n"`; flushing is not modelled.
- Shared-pointer allocation (`make_shared`) and ownership are modelled as fresh object allocation.
