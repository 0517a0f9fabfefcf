# dfgo: a verified model

dfgo runs pipelines that are written as DOT graphs. This project models its core
in Dafny and proves what the parts promise, over every input, run or interleaving.

| part | modules | main results |
|---|---|---|
| pipeline engine | EngineSpec, EngineChoices, EngineMoves, EngineBudget, EngineTermination, EngineGates, EngineLeaving, EngineOrder, EngineResume, EngineCompleted, EngineMeaning, EngineExamples, Engine | legal moves, retry budget, termination bound, goal gates, resume equals continue |
| from text to run | Pipeline, Validation | legality and gate verdicts of every process of a run of any parsed and styled text |
| what it calls | Model, Selector, SelectorMeaning, Cond, CondMeaning, Runtime, RetryMeaning, TextMeaning | unique best edge, conjunction of conditions, delay bounds |
| DOT language | DotLexer, DotPrinter, DotGrammar, DotParser, DotProgram, DotTheorems, LexMeaning, DotMeaning, DotForms | round trip of arbitrary graphs, well-formed parses, desugaring |
| parallel fan-out and fan-in | Parallel, ParallelMeaning, Join, JoinMeaning | safety and progress over all interleavings, agreement of the two verdicts |
| server-sent events | Broadcaster, Delivery, SseScanner, SseMeaning | delivery over all interleavings, round trip of the event format |
| agent session | Transcript, Session, SessionMeaning | transcript grammar, conservation of messages and usage |
| model streams | AnthropicStream, StreamMeaning | streamed answer equals parsed answer under any chunking |
| companions | Reachability, Stylesheet, StyleMeaning | exact reachability, cascade resolution |

How to read it: code that updates state is a class or a method with loops, proved
against functions (`Step`, `Run`, `Lex`, `Statements`, `Exec`, `ScanFrom`, `Read` and
so on); the results are lemmas about those functions. The modules whose names end in
Meaning say in plain terms, on inputs and results alone, what single steps do.

## What is arbitrary

- Handlers, the clock, the random generator and cancellation are the `Answer` of an
  iteration of the engine. A handler may write and delete any context entry, append
  to the log, fail, or return any outcome; the text that `executeNode` stores as a
  preamble is part of what a handler writes. The decoded parallel results arrive with
  the answer, in the order in which the map is walked.
- Unicode classes, lower-casing and `strconv.ParseFloat` are parameters (`Charset`,
  `Platform`). Results that print text ask, with `Sane`, that the marks of the
  language are no letters, digits or spaces. Weights are real numbers.
- Delays are real numbers with a draw anywhere in [0, 1); durations are whole
  milliseconds.
- In the agent session, model replies, tool results, and the Steer and FollowUp calls
  of other goroutines are arbitrary. Such calls arrive in any number before the points
  where the loop reads its queues; the loop detector and the context-window check are
  callers of Steer like any other.
- Goroutines and locks are step systems: every theorem about them quantifies over all
  sequences of enabled steps.
- A saved checkpoint and stored parallel results are exact copies. A map is walked in
  any order. `sort.Slice` is a stable insertion sort under the same comparison.

## What the code does that a reader may not expect

Each comes with its exact condition, and the failing ones with an input; the runs in
EngineExamples are on graphs that pass validation (`Validation.Passes`).

- A goal gate whose ID is the empty string is reported as "no gate", so the exit lets
  it pass: `CheckPasses` and `RunGates` say exactly when, `NamelessGateEscapes` is a run.
- docs/design/engine.md calls the PARTIAL_SUCCESS of an exhausted `allow_partial` node
  a success for edge selection. The visit log keeps the raw RETRY, so the exit check
  sees it otherwise: in this case and no other (`LeftNodeSucceeded`, `ExitDisagrees`).
  `PartialGateFailsTheRun` is a run that fails over such a gate.
- docs/design/validation.md says a gate without `max_retries` fails at once. It does
  exactly when the graph's `default_max_retry`, or 50, is not positive
  (`FirstFailOfGate`; `FirstFailIsRetried` is a run in which it does not).
- docs/design/engine.md says a resumed run skips completed nodes. The completed set is
  never consulted (`CompletedIsNotRead`), and the node a run lands on is executed
  (`LandingIsExecuted`, `CompletedNodeRunsAgain`).
- An exit redirect records the gate, so a run resumed from that checkpoint goes there
  even if the run went to a retry target; and a finished run starts over
  (`ResumeRebuilds`, `RedirectResumesAtGate`, `RedirectedRunResumesElsewhere`,
  `FinishedRunStartsOver`).
- Edge selection finds an edge whenever there is one, so the retry-target fallback
  behind it (internal/attractor/engine.go:493-501) is never reached: the contract of
  `Selector.Select` and the body of `Engine.Leave`.
- The comment on `Subscribe` promises all of the history. A subscriber gets all of it
  exactly when at most 64 events had been accepted (`ReplayIsCut`, `SixtyFiveAreCut`).
- The scanner trims every carriage return at the end of a line, not just the one of
  CRLF (`EventRoundTrip`, `TrailingReturnIsLost`). The format is that of section 9.2.6
  of the WHATWG HTML standard.
- A signature delta is read from its text field; a field for the signature itself does
  not exist (internal/llm/provider/anthropic_stream.go:79-87). What is accumulated
  equals what is parsed exactly when the text fields carried the signatures
  (`StreamedEqualsParsedIff`), so without them exactly when nothing is signed
  (`SignaturesAreLost`, `SignedBlockIsLost`).
- A stream is never finished exactly when its consumer takes fewer events than are sent,
  a closing failure event aside (`ReadStream`, `FirstEventIsNeeded`).
- A second pass of a stylesheet can add properties, because a shape or class given by
  the first makes more rules match (`ApplyTwice`, `SecondPassCanAdd`).
- When two parallel children set a context key to different values, the order in which
  a map is walked decides which stays, and nothing but such keys (`OrderDecidesLittle`,
  `OrderDecidesDisputes`).
- Merging a repeated node counts the node order up as well, so a parsed graph printed
  and parsed again has its nodes renumbered (`WellFormedRoundTrip`,
  `MergingLeavesGaps`).

## Model

| member | source | states |
|---|---|---|
| Engine.Engine.constructor | internal/attractor/engine.go:252-291 | a new engine stands where a fresh run starts, or, given a checkpoint, exactly in the state rebuilt from it: context merged over the initial one, logs, counters, completed set and visit log taken over |
| Engine.Engine.SaveCheckpoint | internal/attractor/engine.go:620-648 | the written checkpoint holds the whole state under the given node; nothing else changes |
| Engine.Engine.CheckGoalGates | internal/attractor/engine.go:577-596 | reads the visit log with the last visit winning and reports the first unsatisfied gate by ID |
| Engine.Engine.ResolveRetryTarget | internal/attractor/engine.go:601-618 | the first of the four candidates that is present in the graph |
| Engine.Engine.RecordOutcome | internal/attractor/engine.go:391-404 | the engine's own writes after a handler, and the visit under the status that was returned |
| Engine.Engine.AtExit | internal/attractor/engine.go:327-353 | the exit branch is one step of the state machine: redirect with a charged counter and a checkpoint under the gate, failure, or completion |
| Engine.Engine.RetryNode | internal/attractor/engine.go:406-429 | a retry charges the counter, saves, and waits the policy's delay or is cancelled in it |
| Engine.Engine.FindConvergence | internal/attractor/engine.go:712-740 | the successor-set search computes the convergence node of the specification, whose firstness is ConvergenceIsFirst |
| Engine.Engine.HandleParallelComplete | internal/attractor/engine.go:653-685 | absorbs the children's outcomes in the order walked and finds where to go on |
| Engine.Engine.HandleManagerLoopComplete | internal/attractor/engine.go:690-708 | marks the children completed, logs no visit, and finds where to go on |
| Engine.Engine.Leave | internal/attractor/engine.go:463-507 | completing a node, jumping over its children or following the selected edge, with the checkpoint of each; the fallback of lines 493-501 is never reached |
| Engine.Engine.AtStage | internal/attractor/engine.go:355-507 | the whole non-exit part of an iteration is one step of the state machine |
| Engine.Engine.Iterate | internal/attractor/engine.go:315-507 | one iteration of the loop is one step of the state machine |
| Engine.Engine.Execute | internal/attractor/engine.go:296-510 | for every sequence of handler answers the loop produces the run of the state machine, from a fresh start or a checkpoint |
| Engine.Engine.Finalize | internal/attractor/engine.go:742-746 | the final checkpoint has an empty current node |
| EngineChoices.FirstUnsatisfiedIsFirst | internal/attractor/engine.go:576-596 | the reported gate is unsatisfied, all gates declared before it are satisfied, and none is reported only when all are |
| EngineChoices.FirstPresentIsFirst | internal/attractor/engine.go:598-618 | the retry target is the highest-priority candidate that is non-empty and names a node, or none exists |
| EngineChoices.ConvergenceIsFirst | internal/attractor/engine.go:710-740 | the convergence node is the first declared node that is a successor of every child, or there is none |
| EngineChoices.FirstGrandchildIsFirst | internal/attractor/engine.go:687-708 | a manager continues over the first edge of its first child that has one, or no child has one |
| EngineMoves.StepIsLegal | internal/attractor/engine.go:315-507 | every iteration moves along an edge, over two edges of the graph, in place, or from an exit back for a gate to a named target; a gate is never left with final status FAIL; "node not found" does not happen; the loop ends well only at an exit or at a node without out-edges |
| EngineMoves.RunIsLegal | internal/attractor/engine.go:296-510 | in every run on a well-formed graph each move is legal and starts where the previous one ended |
| EngineMoves.LeapIsTwoEdges | internal/attractor/engine.go:465-483 | parallel and manager jumps cross exactly two edges, through a child, and leave counters and checkpoint alone |
| EngineBudget.StepChargesOnce | internal/attractor/engine.go:328-346 | an iteration that retries (in place, for a gate, or by exit redirect) spends exactly one unit of one node that had one left and waits at most its policy's cap; every other iteration leaves all counters alone |
| EngineBudget.RunAccounts | internal/attractor/engine.go:406-461 | over any run counters stay within max(0, max_retries) and never decrease, retry moves equal the growth of the counters, and the wait is at most the caps of the units spent |
| EngineBudget.RetryBudget | internal/attractor/engine.go:328-461 | from a fresh start: number of retry moves = sum of counters <= sum of allowances, and total sleep <= sum of allowance times the node's maximal delay |
| EngineTermination.ExecuteTerminates | internal/attractor/engine.go:296-510 | on an acyclic well-formed graph every run makes at most (R+1)*N (the number of nodes) iterations, R the sum of max(0, max_retries), and stops when that many answers are given |
| EngineTermination.RunEnds | internal/attractor/engine.go:296-510 | the same from any reachable state, with the measure (unspent retries, longest remaining path) |
| EngineTermination.RankDropsAlongEdges | internal/attractor/engine.go:485-506 | on an acyclic graph the longest remaining path shrinks along every edge |
| EngineGates.LatestStatusIsLastVisit | internal/attractor/engine.go:578-582 | the fold of the visit log finds exactly the nodes visited, and a success exactly when the last entry of the node is one |
| EngineGates.CheckPasses | internal/attractor/engine.go:576-596 | when the check reports no gate, all gates have succeeded if and only if a gate with an empty ID (reported as "no gate") has |
| EngineGates.RunGates | internal/attractor/engine.go:327-353 | every run that ends through an exit carries that verdict in its final visit log |
| EngineGates.GatesEnforced | internal/attractor/engine.go:327-353 | without a gate of empty ID, every run ending through an exit has SUCCESS or PARTIAL_SUCCESS as the last entry of every goal gate; if every non-exit node has an out-edge, every nil return has |
| EngineGates.CompletedRunsEnd | internal/attractor/engine.go:347-352 | a nil return ends at an exit node or at a non-exit node without out-edges |
| EngineExamples.NamelessGateEscapes | internal/attractor/engine.go:327-331 | a run on a graph that passes validation in which a gate with an empty ID is gone round, never visited, and the run completes |
| EngineLeaving.StageLeaves | internal/attractor/engine.go:400-463 | a stage is left exactly when its status asks for no retry or none is left, unless it is a failed gate; it goes with its final status while the log keeps the returned one, with the absorbed children's entries behind it |
| EngineLeaving.LeftNodeSucceeded | internal/attractor/engine.go:400-404 | for a stage of any type that has been left, the exit check sees a success if and only if the last report under its ID, its own returned status or a child's, is one |
| EngineLeaving.ExitDisagrees | internal/attractor/engine.go:431-437 | the edge and the exit check disagree about a left node if and only if it returned RETRY under allow_partial (when no child reports under its ID); the log never has a success that the edge did not |
| EngineLeaving.PartialGateStaysUnsatisfied | internal/attractor/engine.go:406-438 | a gate of any type with allow_partial that has run out of retries is left with PARTIAL_SUCCESS and, unless a child reports under its ID, is not satisfied |
| EngineExamples.PartialGateFailsTheRun | internal/attractor/engine.go:327-346 | a run on a graph that passes validation that leaves such a gate over an edge with PARTIAL_SUCCESS and is failed over it at the exit |
| EngineLeaving.FirstFailOfGate | internal/attractor/engine.go:441-461 | the first FAIL of a gate without max_retries ends the run if and only if the graph's default, or 50, is not positive; otherwise it is retried with its counter at 1 |
| EngineExamples.FirstFailIsRetried | internal/attractor/engine.go:441-457 | a run on a graph that passes validation in which a gate without max_retries fails and is retried |
| EngineCompleted.CompletedIsNotRead | internal/attractor/engine.go:315-507 | runs from states that differ only in the completed set and the checkpoint take the same moves to the same verdict and stay alike |
| EngineCompleted.LandingIsExecuted | internal/attractor/engine.go:302-306 | a resumed run executes the node it lands on, completed or not: one more visit of it is logged |
| EngineExamples.CompletedNodeRunsAgain | internal/attractor/engine.go:742-746 | a finished run on a graph that passes validation that, resumed, executes a node of its completed set again |
| EngineOrder.OrderDecidesLittle | internal/attractor/engine.go:664-680 | the order in which the results of parallel children are walked decides neither the completed set nor any node's last visit, so not the verdict of the gates, and of the context at most the keys that two children set differently |
| EngineOrder.OrderDecidesDisputes | internal/attractor/engine.go:664-680 | a key that two children set differently it does decide |
| Pipeline.StylingKeepsWellFormed | internal/attractor/engine.go:165-177 | styling the nodes of a well-formed graph by any rules leaves it well formed, with the same IDs |
| Pipeline.FileIsPlaced | internal/attractor/engine.go:620-648 | after any number of processes of one run, each resuming what the last one left, the checkpoint file names a node of the graph or no node |
| Pipeline.EveryProcessIsLegal | internal/attractor/engine.go:62-119 | of every text that parses, styled by any rules: each process of a run, the first or one that resumes, makes legal moves only, never fails to find a node, and ends through an exit with the exact verdict of the gates over the log of all processes |
| EngineResume.StepSavesState | internal/attractor/engine.go:418-506 | every iteration that goes on has saved its whole resulting state, under the node it moved to or, for an exit redirect, under the gate |
| EngineResume.RunSavesState | internal/attractor/engine.go:418-506 | hence whenever a run goes on, its checkpoint mirrors its state |
| EngineResume.ResumeRebuilds | internal/attractor/engine.go:273-306 | loading such a checkpoint rebuilds exactly the state that went on if and only if no initial context key was deleted and the recorded node (the start, for an empty ID) is where the run went |
| EngineResume.RunKeepsKeys | internal/attractor/engine.go:258-260 | if no handler deletes an initial key, no run loses one |
| EngineResume.RunInTwo | internal/attractor/engine.go:315-507 | a run over a + b is the run over a, then from its state the run over b |
| EngineResume.ResumeContinues | internal/attractor/engine.go:273-306 | from any state with the initial keys, stop anywhere, load the checkpoint, go on with the same answers: state, verdict and trace are those of the uninterrupted run |
| EngineResume.FreshRunResumes | internal/attractor/engine.go:273-306 | the same for a fresh run |
| EngineResume.InterruptedStepSaves | internal/attractor/engine.go:418-427 | an iteration cancelled in its retry delay has saved exactly what it would have gone on with |
| EngineResume.ResumeAfterInterrupt | internal/attractor/engine.go:418-427 | a run cancelled in a retry delay, once resumed, does what it would have done without the cancellation |
| EngineResume.RedirectResumesAtGate | internal/attractor/engine.go:337-343 | the checkpoint of an exit redirect resumes at the gate, so where the run went if and only if the gate was its own target |
| EngineExamples.RedirectedRunResumesElsewhere | internal/attractor/engine.go:337-343 | a run on a graph that passes validation whose checkpoint, loaded, goes to the gate while the run went to its retry target |
| EngineResume.FinishedRunStartsOver | internal/attractor/engine.go:742-746 | the checkpoint of a finished run is resumed at the start node |
| EngineMeaning.StageEnds | internal/attractor/engine.go:406-461 | how a stage ends, status by status: retried exactly when it asks for that (RETRY, or FAIL of a gate) and has a retry left; with none left a gate fails the run on FAIL, and on RETRY without allow_partial; other stages that returned RETRY are left as PARTIAL_SUCCESS with allow_partial and as FAIL without; every other status is left as it is |
| EngineMeaning.ExitEnds | internal/attractor/engine.go:327-353 | how an exit ends: completed with one first successful visit logged, a redirect with one retry charged, or failed over the reported gate |
| EngineMeaning.MaxRetriesMeans | internal/attractor/engine.go:332 | the node's max_retries if it is a number, else the graph's default_max_retry if it is one, else 50 |
| EngineMeaning.ContextAfterLeaving | internal/attractor/engine.go:355-398 | every context key after a stage: the preferred label and the returned status from the engine, else the outcome's update, else what the handler wrote or deleted, else the current node, else what was there |
| EngineMeaning.ContextAfterRetry | internal/attractor/engine.go:406-412 | after a retry the same, but for the key internal.retry_count.<node>, which has the new counter |
| EngineMeaning.CounterText | internal/attractor/engine.go:411 | the decimal text of a counter reads back as the counter |
| EngineMeaning.InitialContextMeans | internal/attractor/engine.go:252-260 | a fresh run knows the goal under two names unless its configuration says otherwise, then its configuration, and nothing else |
| EngineMeaning.EdgeSeesFinalStatus | internal/attractor/engine.go:485-506 | the edge taken from a plain stage is the best one for the status it is left with and the context as it is then |
| EngineMeaning.RedirectPriority | internal/attractor/engine.go:598-618 | the gate's retry_target, its fallback, the graph's two, in this order, each if it names a node; else the gate |
| EngineMeaning.ParallelJumps | internal/attractor/engine.go:465-473 | a parallel stage with decoded results jumps over its first child to the convergence node |
| EngineMeaning.ManagerJumps | internal/attractor/engine.go:475-483 | a manager stage jumps over its first child with a successor, all its children completed |
| EngineMeaning.RetryDelay | internal/attractor/engine.go:419-420 | a retry waits the delay of the policy named by retry_policy, or the standard one, at the counter after the retry |
| EngineMeaning.GatesEndWell | internal/attractor/engine.go:327-353 | every goal gate of a run that ends through an exit has an entry SUCCESS or PARTIAL_SUCCESS and none behind it |
| Selector.Pick | internal/attractor/edge/selector.go:20-81 | the simple form: none only without edges, else a member better than every other under the five tiers |
| Selector.BestIsUnique | internal/attractor/edge/selector.go:20-81 | only one edge is best |
| Selector.Select | internal/attractor/edge/selector.go:20-81 | the staged search with early returns and the sort by weight finds that edge; nil only without out-edges |
| SelectorMeaning.Preference | internal/attractor/edge/selector.go:30-80 | of two edges: one whose condition holds is preferred, then the label, then a suggestion, then one without a condition; ties go by declaration |
| SelectorMeaning.EarlierSuggestion | internal/attractor/edge/selector.go:55-64 | an edge to an earlier suggestion is preferred to one to a later |
| SelectorMeaning.HeavierEdge | internal/attractor/edge/selector.go:66-77 | of two unconditional edges the heavier is preferred, a missing or unreadable weight counting zero |
| Selector.FilterUnconditional | internal/attractor/edge/selector.go:83-91 | keeps exactly the edges without a condition |
| Selector.SelectByCondition | internal/attractor/edge/selector.go:30-45 | the first edge whose condition holds is the best of the first tier, or that tier is empty |
| Selector.SelectByLabel | internal/attractor/edge/selector.go:47-54 | with the first tier empty, the first edge with the preferred label is best, or the second tier is empty |
| Selector.SelectSuggested | internal/attractor/edge/selector.go:55-64 | the nested loop over suggested IDs finds the best edge of that tier or shows the tier empty |
| Selector.SelectEdgeIsBest | internal/attractor/edge/selector.go:20-81 | on a well-formed graph the engine's selection is best among the node's out-edges |
| CondMeaning.OutcomeMeans | internal/attractor/cond/cond.go:77-146 | the texts outcome=v, outcome!=v and outcome hold exactly when the status is v, is not v, is not empty |
| CondMeaning.PreferredLabelMeans | internal/attractor/cond/cond.go:77-146 | the same for preferred_label |
| CondMeaning.ContextMeans | internal/attractor/cond/cond.go:77-146 | the same for context.key: equal, not equal, present and not empty |
| CondMeaning.BareKeyMeans | internal/attractor/cond/cond.go:77-146 | the same for any other key, which is a context key |
| Cond.SplitAndLoop | internal/attractor/cond/cond.go:61-75 | the index loop computes the left-to-right split at "&&" |
| Cond.AndMeansBoth | internal/attractor/cond/cond.go:43-131 | a "&&" b is well formed and true exactly when a and b are and neither is blank, for any a whose last part does not end in an ampersand |
| Cond.ParseOfParts | internal/attractor/cond/cond.go:43-59 | trimming the whole text before splitting matters only for a blank text |
| Model.OutEdges | internal/attractor/model/graph.go:74-85 | exactly the edges from the node, sorted by declaration order |
| Model.Successors | internal/attractor/model/graph.go:123-129 | exactly the targets of the node's edges |
| Model.OutEdgesInDeclarationOrder | internal/attractor/model/graph.go:74-85 | on a well-formed graph the sort changes nothing and orders are strictly increasing |
| Model.MutableGraph.AddNode | internal/attractor/model/graph.go:46-58 | appends, or merges attributes into the node of that ID without moving or reordering it; index and list stay in agreement |
| Model.MutableGraph.AddEdge | internal/attractor/model/graph.go:61-66 | appends the edge |
| Model.MutableGraph.HasID | internal/attractor/model/graph.go:69-71 | the index knows an ID exactly when the list has it |
| Model.WithNode | internal/attractor/model/graph.go:46-58 | adding keeps IDs distinct and adds exactly this ID |
| Model.MergedNode | internal/attractor/model/graph.go:46-58 | a node with a known ID keeps place and order; each attribute takes the new value if there is one and keeps the old if not; nothing else changes |
| Model.AppendedNode | internal/attractor/model/graph.go:46-58 | a node with a new ID comes last as it is |
| Model.StartIsFirst | internal/attractor/model/graph.go:102-109 | the start node is the first of that shape, or there is none |
| TextMeaning.NextDigit | internal/attractor/model/graph.go:141-151 | the value of a decimal text with one more digit is ten times the value before plus that digit |
| TextMeaning.IntegerMeans | internal/attractor/model/graph.go:141-151 | an integer attribute is decimal digits with at most one sign, within 64 bits |
| TextMeaning.OtherwiseNoInteger | internal/attractor/model/graph.go:141-151 | any other text is no integer, so the default counts |
| TextMeaning.TruthMeans | internal/attractor/model/graph.go:154-164 | six texts are true, six are false, no other is either |
| TextMeaning.TrimMeans | internal/attractor/cond/cond.go:44-52 | trimming takes off the space at both ends and nothing else |
| Runtime.PolicyByName | internal/attractor/runtime/retry.go:34-48 | every preset, and the default, has 0 <= initial <= maximal delay and factor >= 1 |
| Runtime.DelayBounds | internal/attractor/runtime/retry.go:19-32 | every delay lies between half the initial and the maximal delay, jitter included |
| RetryMeaning.DelayGrows | internal/attractor/runtime/retry.go:19-32 | the first delay is the initial one, each further one the previous times the factor, capped |
| RetryMeaning.JitterMeans | internal/attractor/runtime/retry.go:19-32 | jitter goes down to half the delay; without it the delay is whole |
| RetryMeaning.PoliciesWait | internal/attractor/runtime/retry.go:34-48 | none never waits, linear always waits one second, the others start, grow and are capped as their presets say; any other name is standard |
| Runtime.Context.Merge | internal/attractor/runtime/context.go:43-49 | the loop over the map, in any order, gives the overlay |
| LexMeaning.EscapeMeans | internal/attractor/dot/lexer.go:162-190 | backslash n is a line break, backslash t a tab, an escaped quote or backslash itself, any other pair stays |
| LexMeaning.LineCommentIsSkipped | internal/attractor/dot/lexer.go:116-160 | a comment with two slashes or a hash is as good as nothing up to the end of its line |
| LexMeaning.BlockCommentIsSkipped | internal/attractor/dot/lexer.go:122-136 | a block comment is as good as nothing up to its first star and slash |
| LexMeaning.WordIsToken | internal/attractor/dot/lexer.go:192-206 | a letter or underscore with letters, digits, underscores and dots behind it, or a digit with digits and dots, is one name token unless it is a keyword |
| LexMeaning.PlaceMeans | internal/attractor/dot/lexer.go:95-108 | lines and columns count from one, and a line break starts the next line at column one |
| DotLexer.Lexer.SkipWhitespaceAndComments | internal/attractor/dot/lexer.go:138-160 | skips exactly the longest run of spaces and comments |
| DotLexer.Lexer.ReadQuoted | internal/attractor/dot/lexer.go:162-190 | reads a string with its escapes up to the closing quote, or reports none |
| DotLexer.Lexer.ReadWord | internal/attractor/dot/lexer.go:200-206 | reads the longest word |
| DotLexer.Lexer.TokenAt | internal/attractor/dot/lexer.go:229-277 | reads the token of the lexical grammar that starts here, or fails exactly where there is none |
| DotLexer.Lexer.NextToken | internal/attractor/dot/lexer.go:218-277 | the token, its line and column, and the remaining text are those of the lexical grammar; errors exactly where it has none |
| DotPrinter.ReadStringUnquotes | internal/attractor/dot/lexer.go:162-190 | readString undoes the quoting of any string, whatever follows |
| DotPrinter.LexPrinted | internal/attractor/dot/lexer.go:138-277 | lexing the print of any printable token stream gives the stream back |
| DotPrinter.NormalisedLexesAlike | internal/attractor/dot/lexer.go:138-277 | a text that lexes without error lexes like its own normalised print |
| DotParser.Parser.ParseAttrList | internal/attractor/dot/parser.go:287-324 | the loop reads exactly the attribute list of the grammar, later entries winning |
| DotParser.Parser.ParseAttrEntry | internal/attractor/dot/parser.go:293-318 | one key = value entry with its optional separator |
| DotParser.Parser.ParseAttrStmt | internal/attractor/dot/parser.go:97-144 | graph, node and edge attribute statements change the graph or the defaults in scope |
| DotParser.Parser.ParseChain | internal/attractor/dot/parser.go:232-251 | the loop reads the whole edge chain |
| DotParser.Parser.ParseEdgeStmt | internal/attractor/dot/parser.go:232-285 | missing chain nodes are added with the node defaults, then one edge per pair with defaults under explicit attributes, orders counted up |
| DotParser.Parser.AddChain | internal/attractor/dot/parser.go:262-284 | missing nodes with the node defaults, then the edges pair by pair with the edge defaults under explicit attributes |
| DotParser.Parser.ParseNode | internal/attractor/dot/parser.go:215-230 | a node statement adds or merges, and counts the node order up either way |
| DotParser.Parser.ParseNodeOrEdgeStmt | internal/attractor/dot/parser.go:189-230 | dispatch on what follows the name |
| DotParser.Parser.ParseSubgraph | internal/attractor/dot/parser.go:159-187 | the body is parsed with a copy of the defaults; the parent's are untouched |
| DotParser.Parser.ParseStmt | internal/attractor/dot/parser.go:97-157 | one statement of the grammar, with its effect |
| DotParser.Parser.ParseStmtList | internal/attractor/dot/parser.go:76-95 | statements up to the closing brace, semicolons optional |
| DotParser.Parser.ParseDigraph | internal/attractor/dot/parser.go:46-74 | the graph object built is that of the grammar |
| DotParser.Parse | internal/attractor/dot/parser.go:18-24 | every text gives a well-formed graph object equal to the grammar's graph, or none on an error |
| DotGrammar.ParsedIsWellFormed | internal/attractor/dot/parser.go:46-324 | every parsed graph has distinct IDs, present edge ends and edge orders equal to positions |
| DotProgram.ProgramParses | internal/attractor/dot/parser.go:46-324 | the printed text of any program of statements (nested subgraphs included) parses to the program's meaning |
| DotMeaning.GraphAttrsMean | internal/attractor/dot/parser.go:97-113 | the latest statement that sets a graph attribute decides it |
| DotMeaning.AssignMeans | internal/attractor/dot/parser.go:189-212 | the same for key = value |
| DotMeaning.DefaultsMean | internal/attractor/dot/parser.go:115-147 | the latest statement that sets a default decides it, for its own kind only |
| DotMeaning.NodeStmtMeans | internal/attractor/dot/parser.go:215-228 | for each attribute of its node a node statement decides by its last item for the key, then the defaults, then what the node had; a known node keeps place and order, a new one comes last |
| DotMeaning.MentionedNode | internal/attractor/dot/parser.go:261-271 | a chain leaves a known node as it is and appends a new one with exactly the node defaults |
| DotMeaning.ChainMeans | internal/attractor/dot/parser.go:232-285 | edge j of a chain goes from its j-th to its next node, is numbered on, and has for each key the chain's last item, then the edge default |
| DotMeaning.LastNodeStatementWins | internal/attractor/dot/parser.go:215-228 | on texts: the last node statement decides the keys it names, whatever came before |
| DotMeaning.RepeatedNodeTakesLaterLabel | internal/attractor/dot/parser.go:215-228 | a text with two labels for one node gives it the later |
| DotForms.QuotesDoNotMatter | internal/attractor/dot/parser.go:189-324 | token streams that differ only in names, keys and values being identifiers or strings parse to the same graph |
| DotForms.GraphMayBeNameless | internal/attractor/dot/parser.go:46-58 | a graph without a name is one with the empty name |
| DotForms.SubgraphNameDoesNotMatter | internal/attractor/dot/parser.go:159-172 | a subgraph is the same with any name or none |
| DotForms.AttrsMayBeMissing | internal/attractor/dot/parser.go:215-222 | no attribute list is an empty one |
| DotForms.SeparatorMayBeMissing | internal/attractor/dot/parser.go:293-318 | behind an attribute there may be a comma, a semicolon or nothing |
| DotForms.SemicolonsMayBeMissing | internal/attractor/dot/parser.go:86-93 | behind a statement any number of semicolons or none |
| DotTheorems.GraphRoundTrip | internal/attractor/dot/parser.go:18-324 | for every canonical graph with arbitrary strings as IDs, keys and values, parsing its quoted print gives back exactly that graph |
| DotTheorems.WellFormedRoundTrip | internal/attractor/dot/parser.go:18-324 | every well-formed graph, so every parsed one, comes back from its quoted print with nodes renumbered by position: unchanged if and only if its node orders are its positions |
| DotTheorems.MergingLeavesGaps | internal/attractor/dot/parser.go:223-228 | a program that repeats a node gives a graph whose node orders have a gap |
| DotTheorems.ChainDesugars | internal/attractor/dot/parser.go:232-285 | in any context an edge chain with attributes parses to the same graph, orders included, as its pairwise edge statements |
| DotTheorems.ChainIsPairwise | internal/attractor/dot/parser.go:251-285 | the same on scopes: the chain's effect is that of its pairs in sequence |
| DotTheorems.SubgraphInlines | internal/attractor/dot/parser.go:159-187 | a subgraph whose own level sets no defaults parses to the same graph as its body inlined |
| DotTheorems.SiblingsKeepDefaults | internal/attractor/dot/parser.go:159-187 | for any body, setting defaults anywhere and any number of times, what follows the subgraph runs on the nodes, edges and attributes it built and under the defaults of what precedes it |
| DotTheorems.OnlyBuiltIsSeen | internal/attractor/dot/parser.go:159-187 | whatever defaults a subgraph ends with, later siblings depend only on the nodes, edges and attributes its body builds: bodies that build the same in every scope are interchangeable |
| DotTheorems.DefaultsStayInside | internal/attractor/dot/parser.go:159-187 | as an instance, adding a default as the last statement of a body changes no parse |
| Parallel.StepInv | internal/attractor/handler/parallel.go:82-113 | every enabled step of a goroutine, of the parent's cancel included, keeps the invariant |
| Parallel.EveryInterleaving | internal/attractor/handler/parallel.go:72-113 | in every interleaving: at most max(1, max_parallel) children run, each result is written at most once and under its own child's ID, a goroutine whose slot came after the cancel never starts its child, and under fail_fast with one slot no child starts after a failing one returned |
| Parallel.SomeoneMoves | internal/attractor/handler/parallel.go:84-113 | while a goroutine is unfinished, some goroutine can move: no deadlock on the semaphore |
| Parallel.JoinSeesEverything | internal/attractor/handler/parallel.go:113-122 | every interleaving has at most 6n+1 steps, and when all are done each of the n results was written exactly once and all slots are free |
| ParallelMeaning.ResultsAreTold | internal/attractor/handler/parallel.go:82-113 | in every interleaving a result is what its own child returned, or the failure of a child cancelled before it started; only the parent, or a failing child under fail_fast, cancels; at most max_parallel children run, one if that is less than one |
| JoinMeaning.PoliciesMean | internal/attractor/handler/parallel.go:154-213 | wait_all: every branch succeeded; first_success: some did; k_of_n: at least k did; quorum: more than half did; any other text: always |
| JoinMeaning.IgnoreMeans | internal/attractor/handler/parallel.go:127-139 | with error_policy=ignore the fan-out fails without a success, and with one only if k_of_n asks for more |
| JoinMeaning.OthersMean | internal/attractor/handler/parallel.go:141-143 | under any other error_policy the status is the join policy's on all outcomes |
| JoinMeaning.LastResultStands | internal/attractor/handler/parallel.go:115-122 | of several results for one child the last stands |
| JoinMeaning.ErrorsMean | internal/attractor/handler/parallel.go:115-122 | a child has an error exactly when one of its results has |
| JoinMeaning.BestMeans | internal/attractor/handler/fan_in.go:18-70 | the best branch has SUCCESS if any has, else PARTIAL_SUCCESS, else RETRY, else FAIL, and of those with its status the least ID |
| JoinMeaning.FanInMeans | internal/attractor/handler/fan_in.go:77-90 | the fan-in fails exactly when there are results and none is SUCCESS or PARTIAL_SUCCESS |
| Join.CountBranches | internal/attractor/handler/parallel.go:155-173 | whatever the order of the map, the counters are the numbers of good and bad branches |
| Join.JoinParallelResults | internal/attractor/handler/parallel.go:154-213 | the joined status is a function of the outcomes and errors alone |
| Join.FilterFailures | internal/attractor/handler/parallel.go:128-134 | deleting while walking the map, in any order, keeps exactly the good outcomes |
| Join.Finish | internal/attractor/handler/parallel.go:115-143 | stored results and verdict of a finished fan-out under every error policy |
| Join.PoliciesAreNested | internal/attractor/handler/parallel.go:177-213 | quorum is exactly 2*good > total; wait_all success (of some branch) implies quorum success, which implies first_success |
| Join.FanIn | internal/attractor/handler/fan_in.go:38-90 | the sort finds the minimum by (status priority, ID), and the verdict is failure exactly when no stored result is a success |
| Join.FanInAgrees | internal/attractor/handler/fan_in.go:60-90 | a fan-out that succeeds under wait_all, quorum or first_success makes the fan-in over its stored results succeed with a successful best branch |
| Join.BestIsUnique | internal/attractor/handler/fan_in.go:60-70 | the best branch is unique |
| Broadcaster.Broadcaster.Publish | internal/server/sse/broadcaster.go:45-66 | the locked body is the Publish step: appended and trimmed history, a non-blocking send to each subscriber |
| Broadcaster.Broadcaster.FanOut | internal/server/sse/broadcaster.go:59-65 | walking the subscribers in any order offers the event once to each |
| Broadcaster.Broadcaster.Subscribe | internal/server/sse/broadcaster.go:71-112 | a new subscription with the replayed history, registered unless closed |
| Broadcaster.Broadcaster.Unregister | internal/server/sse/broadcaster.go:99-109 | closes the channel only of a subscription still registered |
| Broadcaster.Broadcaster.Close | internal/server/sse/broadcaster.go:124-136 | closes every registered channel once and forgets them; a second call does nothing |
| Broadcaster.Broadcaster.History | internal/server/sse/broadcaster.go:115-121 | the latest accepted events |
| Broadcaster.StepInv | internal/server/sse/broadcaster.go:45-136 | no operation panics in a reachable state, and each keeps the invariant |
| Broadcaster.EveryInterleaving | internal/server/sse/broadcaster.go:45-136 | over all interleavings: no send on a closed channel, no double close, the history is the last min(n, 1024) accepted events, channels are closed exactly when unregistered, and each has carried accepted events in order and none twice |
| Delivery.HistoryIsLast | internal/server/sse/broadcaster.go:52-56 | the history is the last events accepted, at most 1024 |
| Delivery.NewChannelHolds | internal/server/sse/broadcaster.go:71-91 | a new channel holds the first min(64, n) events of the history: all of it if and only if there are at most 64 |
| Delivery.ReplayIsCut | internal/server/sse/broadcaster.go:71-97 | after any operations, a new subscription finds the first 64 of the last 1024 events: the whole history if and only if at most 64 events were accepted |
| Delivery.SixtyFiveAreCut | internal/server/sse/broadcaster.go:71-97 | after 65 events a subscriber is handed 64 of a history of 65 |
| Delivery.DropsMeanFull | internal/server/sse/broadcaster.go:58-65 | a registered channel loses no event if and only if it was not full whenever one was published |
| Delivery.SubscriberGets | internal/server/sse/broadcaster.go:71-112 | a subscription between any operations gets an in-order, duplicate-free part of the history it found followed by what was published after it; while registered it gets all of that if and only if at most 64 events preceded it and its channel was never full at a later publish |
| Session.Session.constructor | internal/agent/session.go:39-50 | an empty session; a round limit that is not positive becomes 200 |
| Session.Session.Steer | internal/agent/session.go:97-101 | queues behind the steering messages already waiting |
| Session.Session.FollowUp | internal/agent/session.go:104-108 | queues behind the follow-ups already waiting |
| Session.Session.AnswerCalls | internal/agent/session.go:229-271 | the loop appends one result per call, in order, under the call's ID and with that call's own content and error flag, while steering may arrive |
| Session.Session.InjectSteering | internal/agent/session.go:273-282 | moves the whole steering queue to the transcript |
| Session.Session.NextFollowUp | internal/agent/session.go:205-222 | consumes the oldest follow-up, or reports none |
| Session.Session.HandleResponse | internal/agent/session.go:191-282 | after a response the session goes on awaiting a reply, or ends on an assistant message without calls and an empty follow-up queue |
| Session.Session.Run | internal/agent/session.go:111-286 | keeps the transcript grammar; the exchanges it adds are, in order, one for each successful round: the assistant's message made of that round's reply and each call's own result; rounds never exceed the limit and count the replies; usage grows by the sum over successful responses; user messages are the input and the consumed follow-ups in order; steering in the transcript plus queue is all Steer calls in order; the exit fits the replies (three failures in a row, a final failure, the limit, or a natural end) |
| SessionMeaning.ReplyComesBack | internal/agent/session.go:377-439 | a reply that went into the transcript goes back to the model with its text and its calls |
| SessionMeaning.OthersGoAs | internal/agent/session.go:377-423 | user text goes as the user's, steering as the user's with a mark, a tool's result as it is |
| SessionMeaning.RequestIsAll | internal/agent/session.go:352-363 | a request is the system prompt and every message in order |
| SessionMeaning.UsageIsSum | internal/agent/session.go:173-181 | each of the six usage figures is added up on its own over the successful replies |
| SessionMeaning.LastTextIs | internal/agent/session.go:197-199 | the final text is that of the last reply that had any |
| SessionMeaning.GoesOnMeans | internal/agent/session.go:158-171 | the loop goes on exactly as long as no failure is fatal and no three replies in a row failed |
| SessionMeaning.CircuitBreaks | internal/agent/session.go:160-164 | the circuit breaks on the first third failure in a row |
| Transcript.GrammarByPosition | internal/agent/session.go:191-282 | position by position: k calls are followed at once by their k results in order, and every tool result answers a call of the nearest such message |
| Transcript.TranslationKeepsCalls | internal/agent/session.go:377-423 | translation to a model message keeps the tool calls |
| Transcript.RequestKeepsPairing | internal/agent/session.go:335-423 | every request built from a grammatical transcript pairs each call with its result in order |
| SseScanner.Scanner.Next | internal/llm/sse.go:31-99 | one call consumes exactly one event's text and yields its fields, or reaches the end |
| SseScanner.ScanOfEncoding | internal/llm/sse.go:31-99 | scanning any encoding (LF or CRLF per piece, comments and blank lines between frames) yields exactly its events, each line without trailing CRs |
| SseScanner.EventRoundTrip | internal/llm/sse.go:31-99 | printing and scanning are inverse if and only if no field line ends in CR |
| SseScanner.TrailingReturnIsLost | internal/llm/sse.go:31-99 | a concrete event whose data ends in CR and does not come back |
| SseMeaning.FieldMeans | internal/llm/sse.go:62-88 | event, data and id lines set their field, one blank behind the colon taken off if there is one |
| SseMeaning.OthersAreIgnored | internal/llm/sse.go:62-88 | a field of another name changes nothing |
| SseMeaning.NameWithoutColon | internal/llm/sse.go:62-88 | a line of just the name is the empty value |
| SseMeaning.UnfinishedEvent | internal/llm/sse.go:31-60 | an event that the input ends on is delivered at a clean end and lost on a read error |
| SseScanner.ServerFrame | internal/server/handlers.go:91-104 | the frame the server writes is an instance of that encoding |
| AnthropicStream.ParseResponse | internal/llm/provider/anthropic.go:260-319 | the loop builds the parts of the blocks in order, and the finish reason is a tool call exactly for tool_use, the length exactly for max_tokens, a stop otherwise |
| AnthropicStream.ReadStream | internal/llm/provider/anthropic_stream.go:104-319 | reads as the fold over events while the consumer takes them; it ends without Finish if and only if the consumer takes fewer events than are sent apart from a closing failure event, and then after exactly those taken |
| StreamMeaning.ParsedFits | internal/llm/provider/anthropic.go:294-318 | identity, finish reason and each usage figure of a parsed answer |
| StreamMeaning.PartsInOrder | internal/llm/provider/anthropic.go:267-292 | the parts of a list of blocks are those of its pieces, in order |
| StreamMeaning.BlockMeans | internal/llm/provider/anthropic.go:268-291 | a text, tool and thinking block each become one part with what they hold, any other none |
| StreamMeaning.StreamIsExactly | internal/llm/provider/anthropic_stream.go:123-285 | the consumer of any message sees exactly the identity, for each block its start, one delta per chunk and its stop, and the usage with the finish reason, which are also those of the accumulated answer |
| StreamMeaning.UnknownBlockIsIgnored | internal/llm/provider/anthropic_stream.go:182-219 | deltas and stops of a block that was never started change nothing |
| StreamMeaning.UnfinishedIsError | internal/llm/provider/anthropic_stream.go:287-318 | a stream that ends before message_stop, or reports an error, is an error after what came before |
| StreamMeaning.SynthesizedIsExactly | internal/llm/stream.go:165-205 | the synthesized stream has exactly the identity, start, delta and stop of each part, and the usage |
| AnthropicStream.FirstEventIsNeeded | internal/llm/provider/anthropic_stream.go:138-144 | of any message some event is needed, so a consumer that takes none leaves its stream unfinished |
| AnthropicStream.StreamedEqualsParsed | internal/llm/provider/anthropic_stream.go:123-285 | for any blocks, any chunking of their payloads and pings anywhere, the accumulated response equals the parse of the non-streaming body, and the deltas per index concatenate to the payloads sent under it |
| AnthropicStream.StreamedEqualsParsedButSigned | internal/llm/provider/anthropic_stream.go:195-198 | if the body's thinking signatures differ from what the stream carried, everything else is still equal |
| AnthropicStream.StreamedEqualsParsedIff | internal/llm/provider/anthropic_stream.go:195-245 | of blocks sent up to their signatures, the accumulated response is the parsed one if and only if the signatures were sent as well |
| AnthropicStream.SignaturesAreLost | internal/llm/provider/anthropic_stream.go:79-87 | when no signature delta carries text, the two are equal if and only if the message has no signed thinking |
| AnthropicStream.SignedBlockIsLost | internal/llm/provider/anthropic_stream.go:195-198 | a concrete signed thinking block whose signature the accumulated response does not have |
| AnthropicStream.ItemsTextIsPayload | internal/llm/provider/anthropic_stream.go:200-209 | with distinct indices, that concatenation is the payload of the block |
| AnthropicStream.CompleteToStream | internal/llm/stream.go:148-209 | emits the synthesized events of a response, none for an error, and its buffer never blocks a send |
| AnthropicStream.SynthesizedDeltas | internal/llm/stream.go:172-198 | in the synthesized stream the deltas at an index are the payload of that content part, and there are none elsewhere |
| Reachability.Walker.Walk | internal/attractor/validate/rules.go:78-91 | the recursive walk terminates on cyclic graphs, marks only nodes reachable from its argument, and leaves what it marked closed under edges |
| Reachability.Walker.Apply | internal/attractor/validate/rules.go:70-101 | reports, in declaration order, precisely the nodes with no edge path from the start node |
| Stylesheet.Winner | internal/attractor/style/stylesheet.go:155-184 | the simple form: the matching rule greatest in (specificity, position) that sets the property |
| StyleMeaning.WinnerBeatsAll | internal/attractor/style/stylesheet.go:155-184 | a property comes from a matching rule that beats every other that sets it: ID before class before universal, later before earlier |
| StyleMeaning.IDMatchesOne | internal/attractor/style/stylesheet.go:57-75 | the universal selector matches every node, an ID selector the node of that ID alone |
| StyleMeaning.ClassMatches | internal/attractor/style/stylesheet.go:57-75 | a class selector matches the shape or any name of the comma-separated class list, space aside |
| Stylesheet.Resolve | internal/attractor/style/stylesheet.go:156-184 | collect, sort and overlay give each property its winner's value, and no other property |
| Stylesheet.Apply | internal/attractor/style/stylesheet.go:144-153 | every node gets the resolved properties it did not have; explicit attributes stay |
| Stylesheet.ApplyTwice | internal/attractor/style/stylesheet.go:144-184 | a second pass changes nothing if and only if every rule that comes to match through a shape or class given by the first pass has no further property to give |
| Stylesheet.SecondPassCanAdd | internal/attractor/style/stylesheet.go:144-184 | two concrete rules and a bare node for which the second pass adds a property |
| Stylesheet.ApplyIsIdempotent | internal/attractor/style/stylesheet.go:144-184 | in particular when no rule sets shape or class |

## Left out

- DotLexer.Lexer.NextToken: which error message a lexical error carries is not modelled, only that there is an error.
- DotParser.Parse: error positions and messages are not modelled; a failing text gives no graph.
- DotTheorems.DefaultsStayInside: speaks of a default at the end of a body, since an earlier one does reach the rest of that body; SiblingsKeepDefaults is about defaults anywhere.
- Broadcaster.Broadcaster.Subscribe: drawing the subscription number and the locked part are one step; the number is drawn before the lock and used by nobody else.
- Session.Session.Run: a Steer or FollowUp call takes effect at the next point where the loop reads the queue; reading and appending are separate critical sections in the code, and nothing else appends to the messages.
- AnthropicStream.StreamedEqualsParsed: JSON is decoded, and a tool's arguments are its payload text; blocks arrive one after another, not interleaved.
- AnthropicStream.CompleteToStream: content parts without data, and kinds other than text, tool call and thinking, emit nothing in the code and are not among the parts here.
- Selector.Select: weights that parse as NaN or infinity are excluded.
- Stylesheet.Apply: nodes are values in an array, so that two entries sharing one attribute map is not expressed.
- Join.Finish: a fan-out without children or without an executor succeeds before any goroutine starts; those two early returns are not modelled.
- Parallel.EveryInterleaving: the executor of a child is an arbitrary outcome; a fan-out nested in a child is part of it.
- `ParseStylesheet` and its property syntax.
- LLM HTTP calls, API keys, request building, the OpenAI and Gemini adapters, retry middleware.
- JSON, checkpoint files, manifests, status files, failures to write them.
- CXDB recording, events and logging, the artifact store.
- The HTTP server beyond the frame it writes, Last-Event-ID reconnection (its counter numbers delivered events), the CLI, interviewers, tools and processes.
- `Next`, `Close` and `Err` of a stream: nothing is claimed about their return after a cancel.
- Handler bodies other than parallel and fan-in; the registry; variable expansion.
- The code of the lint rules other than reachability: each is one filter over nodes or edges. Those whose findings are errors appear as the conditions of `Validation.Passes`, except that a stylesheet parses.
- The loop detector, output truncation, context fidelity and preamble texts.
