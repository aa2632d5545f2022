# RiteSmith workflow plans: a verified model

RiteSmith turns a structured plan (calls, waits, sequences, conditions, parallel branches and at most one
repeat) into a flat graph of nodes, which Trama runs. This project models the plan compiler, the offline
simulator that gives the graphs their meaning, the static checks that decide which graphs may run, the rewrites
applied to a graph on its way out, and the ledgers that bound what generating one may cost. It proves that the
compiled graphs do what the plans say, and where they do not, exactly when.

How to read it:

- `Json`, `Plan`, `Graph` and `Meaning` hold the definitions everything else is about. `Graph.Walk` is the
  simulator. `Meaning.EvalOps` and `Meaning.Passes` are the reference: a recursive evaluator that knows no
  graph, no renamed pass, no copied exit and no continuation. A first pass reads the repeat's initial state
  itself, as the rules of the plan language say.
- `Writing` is about seeds as compiled source holds them: spelled in templates, behind the literal wrapper in
  conditions. A carry says which way its seeds are read. Blocks are compiled from written carries, the plain loop
  starts from one that is not, and `Writing.LoopWrites` is what makes the two first passes one.
- `Compiler` gives the result of every compilation step as a function; `PlanCompiler` is the compiler itself, a
  class that mutates its nodes, ids, scopes and branch results and is proved to compute those functions.
  `Simulator` is the simulator as a class with its clock, counters and compensation stack.
- Plans without a repeat: `Agreement`, `Realization`, `Construction`, `LoopFree`.
- One block of a repeat, at most 20 renamed passes: from `Moving` to `Handover`, and `Finishing`.
- Chains of blocks, each compiled from what the one before handed on: `Chain`, `Repeats` and what they rest on.
  A chain is compared with the plain loop, cut at the ends of blocks: `Sowing.Resumes` says that the carry there
  has every seed the next block is compiled with, `Unbroken.FaithfulCarry` that what it carries is read the same
  as a seed and live. `Repeats.ChainRuns` asks nothing of the values.
- What the ids of a parallel read behind it: `Exposure`.
- Static checks: `InitCheck`, `Branches`, `Initialised`, `Cycles`, `Termination`, `WellFormed`, `FirstPasses`,
  `EndlessBlocks`.
- Rewrites: `Completion`, `Compact`, `Sources`, `Transport`, `Aliases`, `Dumps`, `CachedPlans`. State
  machines: `Presence`, `SpendBudget`, `Recovery`, `Saga`.

The capabilities of the outside world are a parameter (`Graph.World`): a reply may depend on the name, the
arguments and every call made so far. So are the payload, `str()` and the comparison operators that Python
types dynamically. Time is virtual and real-valued, as in the simulator.

## Findings

What the code does differently from what its documentation, or the plain reading of a plan, suggests: for each a
lemma at a concrete input, and one that says exactly when.

- A repeat longer than 20 passes is compiled block by block, and references to the previous pass become seeds
  taken from the retained state. A path the state lacks stops the second block from compiling, where a plain
  loop would read null: `Shortfalls.MissingSeed`. A resumed block compiles exactly when its carry has every
  seed: `Resumable.ResumedCompiles`. A chain is rejected exactly where one hands on a carry that does not:
  `Repeats.ChainRuns`, and on the plain loop's carries `Repeats.RejectedExactlyWithoutSeeds`.
- A seed in a template is spelled at compile time, as `true`, `false` or `0`; the same value read live is spelled
  `True` or not at all, and a lone placeholder keeps its type only when it is live: `Shortfalls.SeedIsSpelled`, and
  for the initial state of a first pass `Shortfalls.FirstPassSpells`. `Spelling.SameIsFaithful` says exactly when
  the two agree.
- Every block restarts the tick's `iteration` at zero: `Shortfalls.CounterRestarts`. Of the tick's fields it is the
  only seed that differs from the live value: `Unbroken.SeedIffSteady`.
- A condition over a seed that is a list, an object or text with `{{` raises, because the literal wrapper is no
  JSONLogic operator: in a resumed block, `Shortfalls.SeedRaises`, and in the very first pass when the initial
  state holds such a value, `Shortfalls.FirstPassRaises`. `Writing.DecidesIffTestable` and, for values carried over
  from an earlier block, `Unbroken.DecidedIffFaithful` are the exact conditions. In a template such a seed is
  rejected when the block is compiled.
- A continuation whose `remaining_iterations` is null makes a counted repeat endless: the plan that was
  compiled cleanly at first is then reported by the initialisation check, because its after-steps can be reached
  before the pass whose output they read: `EndlessBlocks.ForgottenCount`. For calls and waits behind the repeat
  `EndlessBlocks.EndlessExactly` says when.
- After a parallel, every id a branch can end at reads the branch's last result: one that never ran reads
  another's, `Exposure.ReadsAnother`; `Exposure.ExposedIffRan` is the condition.
- Settling a response that cannot be read raises outside the handler: the call stays reserved and the process goes
  on reserving, `SpendBudget.ReservesPastLost`, `SpendBudget.LostReservesOn`; only the next process is stopped,
  `SpendBudget.LostStaysReserved`. The end of a wait stops its own process exactly when the call failed or its
  answer was read and did not account for it: `SpendBudget.BlockedIffAccounted`.
- Aliasing a cached plan again changes nothing when no repeat is called like another's tick,
  `Aliases.AliasedTwice`; with repeats `a` and `a_tick` it does: `Aliases.TwoCanClash`. The compiler accepts one
  repeat only, so it never meets that.
- The compact form does not survive a round trip when the version or a `next` is left out, a field is null, a
  call's target is empty or its input no object, or an action's address begins with the base mark:
  `Compact.RoundTrip` is the exact condition.
- A failed response without a message does not fail its task: `Saga.SilentFailure`, `Saga.FailsIffSaid`.
- A continuation's deadline at time zero counts as none when the block chooses its deadline, yet is its seed:
  `Chain.ZeroIsNotChosen`, `Chain.DeadlineChosen`.

## Model

| member | source | states |
|---|---|---|
| LoopFree.StraightPlanMeaning | ritesmith/workflows/semantic.py:276-345 | A compiled plan without a repeat, parallels nested and ending anyhow included, is simulated as it is evaluated: same calls with the same arguments at the same times, same failure, compensations and final clock, and every id reads the same afterwards; in no more steps than it has operations |
| Realization.Simulates | ritesmith/workflows/simulation.py:185-295 | From the entry of an operation's nodes the walk fails as its evaluation fails, or stands behind the operation with an agreeing frame, in any scope |
| Construction.EndsAre | ritesmith/workflows/semantic.py:329-342 | The new nodes that end their execution are exactly the calls and waits the operation can end at, and joins of the compiler's own |
| Exposure.ExposedIffRan | ritesmith/workflows/semantic.py:329-342 | Behind a parallel an id its branch can end at reads what it gave, or null, if and only if it ran or the branch's last result has no output |
| Exposure.ReadsAnother | ritesmith/workflows/semantic.py:329-342 | A plan whose last call is given, under the name of a call that never ran, another call's result |
| PlanCompiler.PlanCompiler.CompilePlan | ritesmith/workflows/semantic.py:768-791 | The compiler's class, which edits its nodes, ids, scopes and branch results in place, returns what the compilation functions say, or raises when they do |
| Simulator.WorkflowSimulator.Simulate | ritesmith/workflows/simulation.py:185-295 | The simulator's class, with its clock, counters, node results and compensation stack, ends as the recursive walk ends |
| Handover.BlockMeans | ritesmith/workflows/semantic.py:358-766 | Walking one compiled block, first or resumed, counted, timed or continuous, does what evaluating its passes and, once it is left, its after-steps does, if the values its first pass reads can be written into source; an unfinished block hands on its counters and state |
| Finishing.SpentMeans | ritesmith/workflows/semantic.py:590-597 | A repeat resumed with nothing left runs its after-steps once, on the retained state, if what they read of it can be written into source |
| ChainSteps.TickAdvances | ritesmith/runtime/providers/stat.py:264-293 | On what a pass's tick is given, stat.chain_step leaves the counters, deadline, state and end the plain loop has |
| ChainSteps.ClockAdvances | ritesmith/runtime/providers/stat.py:264-293 | On what a pass's clock is given, stat.chain_step finds the deadline in force and whether it has passed |
| Chain.ChunkedIffLong | ritesmith/workflows/semantic.py:181-189 | The constructor's test, which divides, holds exactly when the later count, which rounds up, needs a second block |
| Chain.LinkMeans | ritesmith/workflows/semantic.py:599-646 | Whatever block of a plan compiles, afresh or from a continuation, its walk is its evaluation on the values it is compiled from, if those can be written into source |
| Writing.DecidesIffTestable | ritesmith/workflows/semantic.py:347-356 | A condition over seeds as they are compiled decides as over the values themselves, and raises if and only if they raise there too or one of them needs the literal wrapper |
| Chain.DeadlineChosen | ritesmith/workflows/semantic.py:651 | A repeat with a deadline of its own takes a continuation's if and only if that is not zero or is the same |
| Chain.ZeroIsNotChosen | ritesmith/workflows/semantic.py:651 | A repeat that ends at 50 is given zero, ends at 50, and its first pass reads zero |
| Resumable.ResumedCompiles | ritesmith/workflows/semantic.py:395-436 | The rest of a repeat whose first block compiled compiles exactly when the carry handed on has every seed its source refers to |
| FirstBlocks.BlockCompiles | ritesmith/workflows/semantic.py:358-533 | A block, with a deadline or without, compiles exactly when the names its passes and exits reserve are distinct and free, calls, raw paths and templates are well made, and the carry it starts from has every seed |
| FirstBlocks.PlainBlockCompiles | ritesmith/workflows/semantic.py:276-284 | With ids without underscores and no deadline, the names are so exactly when no id is given twice |
| Succession.NextNames | ritesmith/workflows/semantic.py:448-449 | The names a later, shorter block reserves are as distinct and as free as those of the first |
| Repeats.ChainRuns | benchmarks/generation_latency/reliability.py:300-330 | Whatever values it carries, a chain of compilations, each resumed from its predecessor's continuation, runs the passes block by block on the values handed on: same run, same failure, same carry; it is rejected exactly where a carry lacks a seed |
| Repeats.RepeatAcrossBlocks | benchmarks/generation_latency/reliability.py:300-330 | Such a chain follows the plain loop: same calls, times, failures, after-steps once, same carry handed on; it is refused exactly where the loop's carry lacks a seed. Asked of the values, the initial ones and those carried over: that they are read the same as seeds and live |
| Repeats.CourseFollows | ritesmith/workflows/semantic.py:599-646 | The course a chain follows is the uncut loop of passes, or its first passes up to a carry that lacks a seed |
| Repeats.RejectedExactlyWithoutSeeds | ritesmith/workflows/semantic.py:429-436 | Under the same condition a chain is rejected if and only if the loop, cut at a block's end, carries a state without a seed; what has run is the loop's first passes |
| Counted.CoveredRepeat | ritesmith/workflows/semantic.py:648-764 | If references to the previous pass are mapped by repeat.state or name a retained key, and none is spelled or tested, no block is ever rejected and the chain is the loop |
| Counted.CountedRepeat | ritesmith/workflows/semantic.py:648-764 | Such a repeat of n passes ends, within enough blocks of 20, as the loop of n passes ends: same run, same failure |
| Spelling.SameIsFaithful | ritesmith/workflows/semantic.py:466-487 | A template some of whose placeholders became seeds renders the same value if and only if the seeds are spelled as they would be live and none of them decides whether the rest stands alone |
| Unbroken.DecidedIffFaithful | ritesmith/workflows/semantic.py:347-356 | A condition of a resumed block raises if and only if the unbroken repeat's would or a value it reads of the previous pass would have to be wrapped; otherwise both decide alike |
| Unbroken.SeedIffSteady | ritesmith/workflows/semantic.py:403-410 | A seed of the repeat's own tick is what the unbroken repeat reads if and only if it is not the iteration counter |
| Shortfalls.MissingSeed | ritesmith/workflows/semantic.py:429-436 | A plan of 21 passes whose loop finishes and whose chain is rejected after 20 |
| Shortfalls.SeedIsSpelled | ritesmith/workflows/semantic.py:466-487 | A plan of 21 passes whose last call is given v=True by the loop and v=true by the chain |
| Shortfalls.FirstPassSpells | ritesmith/workflows/semantic.py:466-487 | A plan of one pass whose call is given v=True by the loop and v=true by the compiled block |
| Shortfalls.CounterRestarts | ritesmith/workflows/semantic.py:403-410 | A plan of 21 passes whose last call is given 20 by the loop and 0 by the chain |
| Shortfalls.SeedRaises | ritesmith/workflows/semantic.py:347-356 | A plan of 21 passes whose loop finishes and whose chain raises in its second block |
| Shortfalls.FirstPassRaises | ritesmith/workflows/semantic.py:347-356 | A plan of 21 passes whose loop finishes and whose first block raises in its first pass |
| WellFormed.CompiledIsWellFormed | ritesmith/workflows/semantic.py:768-791 | Every compiled graph, of a straight plan or any block, has proper ids, resolves every edge, reaches every node from its entry and has no cycle |
| WellFormed.CompiledRunsEnd | ritesmith/workflows/validator.py:249-255 | Every run of a compiled graph ends within a bound that depends on the graph alone, although max_iterations switches the cycle check off |
| FirstPasses.BlocksAreInitialised | ritesmith/workflows/semantic.py:395-533 | If references name earlier operations of the same pass or retained state, the initialisation check has nothing to report on any block that compiles, first, resumed, endless or spent |
| EndlessBlocks.EndlessMisses | ritesmith/workflows/semantic.py:648-764 | In a block without a number of passes, any call among the after-steps that reads an output of the repeat is reported |
| EndlessBlocks.EndlessExactly | ritesmith/workflows/semantic.py:648-764 | A block without a number of passes, followed by calls and waits, has nothing missing if and only if none of those calls reads an output of the repeat |
| EndlessBlocks.ForgottenCount | ritesmith/workflows/semantic.py:359-388 | A counted plan with nothing missing from scratch, and something missing when it is resumed with a null number of passes left |
| InitCheck.Available | ritesmith/workflows/semantic_validation.py:62-87 | Whatever the order of recomputation, it ends, and a reachable node is available at another exactly when it, or an edge whose guard guarantees it, is on every route |
| InitCheck.UninitializedReferences | ritesmith/workflows/semantic_validation.py:88-118 | A reference to a reachable node is reported exactly when it is the task's own or some route lacks it; nothing is reported when nothing is missing |
| InitCheck.GuardHolds | ritesmith/workflows/semantic_validation.py:28-60 | When a guard is truthy, every node it is said to guarantee has run |
| Initialised.EveryRunFindsAll | ritesmith/workflows/semantic_validation.py:11-118 | If the split rules and the initialisation check accept a graph, cyclic or not, every task of every run finds each node it refers to among the results of its own execution |
| Initialised.SplitFreeIsAccepted | ritesmith/workflows/semantic_validation.py:11-118 | Without splits the check alone is enough |
| Initialised.Check | ritesmith/workflows/semantic_validation.py:88-118 | The computed verdict is what that theorem asks for |
| Branches.BranchNodes | ritesmith/workflows/validator.py:145-180 | The worklist gathers exactly the nodes that run inside some branch |
| Cycles.DetectCycles | ritesmith/workflows/validator.py:403-428 | The recursive search with its visited and on-stack sets reports a cycle exactly when one can be reached from the entrypoint |
| Termination.AcceptedRunsEnd | ritesmith/workflows/validator.py:403-428 | Every run of an accepted graph ends, branches and joins included, whatever its switches decide |
| Termination.SplitFreeRunsEnd | ritesmith/workflows/validator.py:403-428 | Without splits every run of a graph the cycle check accepts takes at most one step for each node |
| Saga.FailureUnwinds | ritesmith/workflows/simulation.py:194-263 | In every graph a failing task pays back the tasks its own execution, or branch, completed before it, latest first; itself never, the executions around a branch never, and any other end nothing |
| Saga.FailsIffSaid | ritesmith/workflows/simulation.py:234-256 | A task whose capability answers with a failure fails if and only if the failure has a message; without one the walk goes on |
| Saga.SilentFailure | ritesmith/workflows/simulation.py:234-256 | A run that ends well although its only call failed without a message |
| Completion.Definition.InjectCompletion | ritesmith/core/workflow_generation.py:40-85 | The in-place rewiring gives the redirected graph with one completion node, or leaves a completed graph alone |
| Completion.InjectionIsIdempotent | ritesmith/core/workflow_generation.py:40-85 | Injecting twice changes nothing more |
| Completion.InjectionCompletes | ritesmith/core/workflow_generation.py:40-85 | Every top-level run of the injected graph is the original run, completed exactly once and last if it ends; branches, calls, times and failures are unchanged |
| Sources.ProtectedSurvives | ritesmith/workflows/semantic.py:347-356 | Any data, placeholders and wrappers in it included, renders to itself once protected |
| Transport.PreparedTwice | ritesmith/workflows/transport.py:28-99 | Preparing a request again changes nothing |
| Transport.TypedWorkflow | ritesmith/workflows/transport.py:28-99 | Requests are prepared in place on a copy, all or none, and the result is a fixed point |
| Transport.HandedOnSurvives | ritesmith/workflows/transport.py:80-99 | Intent, constraints and cached plan of a continuation request reach the next compilation as they were |
| Aliases.AliasedTwice | ritesmith/workflows/semantic.py:123-159 | Aliasing an aliased plan again changes nothing, if no repeat is called like another's tick |
| Aliases.TwoCanClash | ritesmith/workflows/semantic.py:123-159 | With repeats a and a_tick it changes a reference again |
| Dumps.SameParse | ritesmith/workflows/semantic.py:618-620 | A plan that was aliased, parsed and dumped without its defaults is aliased and parsed to the same plan |
| CachedPlans.SamePlanAgain | ritesmith/workflows/semantic.py:602-632 | However the request that hands a plan of one repeat on is prepared and rendered, the next compilation parses the very same plan from its dump and resumes the same repeat |
| Compact.RoundTrip | ritesmith/workflows/compact.py:86-175 | Compressing a definition and expanding it gives it back if and only if it is written as the expansion writes definitions |
| Compact.CompileWorkflow | ritesmith/workflows/compact.py:116-152 | The expanding loop gives what the round trip is about |
| Compact.CompactWorkflow | ritesmith/workflows/compact.py:155-175 | So does the compressing loop over the copied definition |
| SpendBudget.NeverOverLimit | ritesmith/llm/spend_budget.py:23-175 | In every state of every run, with crashes at any point and interleaved dispatches, what was charged within token bounds stays within the limit on file |
| SpendBudget.LimitIsKept | ritesmith/llm/spend_budget.py:23-39 | Once there is a file its limit never changes |
| SpendBudget.LimitWasGiven | ritesmith/llm/spend_budget.py:23-39 | That limit was given to a process started when there was no file |
| SpendBudget.FrozenForGood | ritesmith/llm/spend_budget.py:47-76 | From a frozen state on, no event of any run reserves a call |
| SpendBudget.UnknownFreezes | ritesmith/llm/spend_budget.py:159-175 | Giving a call up keeps its reservation, and nothing is reserved ever after |
| SpendBudget.UnfinishedStopsAll | ritesmith/llm/spend_budget.py:23-39 | With an unfinished call on file no call is added again, however often the process restarts |
| SpendBudget.BlockedIffAccounted | ritesmith/llm/spend_budget.py:117-175 | The end of a wait stops the process that waited if and only if the call failed or its answer could be read and did not account for it |
| SpendBudget.LostReservesOn | ritesmith/llm/spend_budget.py:117-157 | After a response whose settling raises, the next order is reserved exactly when it would have been before |
| SpendBudget.ReservesPastLost | ritesmith/llm/spend_budget.py:117-157 | A run that reserves two more calls with an unfinished one on file and in the process |
| SpendBudget.LostStaysReserved | ritesmith/llm/spend_budget.py:117-157 | A call whose answer was lost stays reserved for good, and once the process is gone none after it reserves |
| SpendBudget.Budget.Reserve | ritesmith/llm/spend_budget.py:78-115 | The order's ceiling is reserved and saved, or the ledger stops with the reason |
| SpendBudget.Budget.Settle | ritesmith/llm/spend_budget.py:117-157 | The reservation becomes the cost, or stays and stops the ledger; a response that cannot be read raises and changes nothing, in the process or on file |
| SpendBudget.CostWithinCeiling | ritesmith/observability/costs.py:9-15 | Within its token bounds no call costs more than was reserved |
| Recovery.WithinAllowance | ritesmith/core/repair.py:44-101 | However attempts go, those after the first and the transport retries granted inside them are together within the allowance |
| Recovery.RunRepairLoop | ritesmith/core/repair.py:44-101 | The loop performs the attempts and grants the retries so described, and what is left of the allowance is what was not used |
| Presence.RemindsOnce | ritesmith/core/presence_workflow.py:16-114 | For every stream of readings the reminder is sent at most once, exactly when a present reading follows an absent one, at the first that does |
| Presence.WalkWatches | ritesmith/core/presence_workflow.py:16-114 | Walking the reminder graph is watching the readings: polls, waits, transitions and the message |
| Presence.WatchSeesArrival | README.md:687-694 | The arrival is seen with the first reading that completes one, and with no earlier one |

## Left out

- LoopFree.StraightPlanMeaning: asks that references name ids the plan gives, or data roots. A plan can also refer to ids the compiler chooses (`rs_3`, `x_join`), or put `nodes.…` into plain text; neither is modelled.
- Simulator.WorkflowSimulator.Simulate: fixtures keyed by node, raw actions, callbacks and the `stat.*` capabilities other than `chain_step` are not modelled; the Mustache mode is not either.
- Repeats.RepeatAcrossBlocks: repeats whose body or after-steps hold a parallel or a compensation, and state read through `payload.continuation.state`, are not modelled (`Assembly.LoopingOk`). Ids like automatic ones (`rs_` and digits) are excluded. Reading the tick's `iteration`, and values read differently as seeds and live, are excluded because there the loop and the chain do differ (see the findings); `Repeats.ChainRuns` includes both.
- Repeats.RejectedExactlyWithoutSeeds: has the same limits; `Repeats.ChainRuns` says when a chain is rejected without asking anything of the values.
- Handover.BlockMeans: has the same limits on bodies and after-steps; `Handover.BlockWalks` holds of values that cannot be written into source too.
- Chain.LinkMeans: has the same limits on bodies and after-steps; `Chain.LinkWalks` holds of all values.
- Finishing.SpentMeans: has the same limits on after-steps.
- Resumable.ResumedCompiles: has the same limits on bodies, after-steps and ids.
- FirstBlocks.BlockCompiles: has the same limits on bodies, after-steps and ids.
- EndlessBlocks.EndlessExactly: after-steps are calls and waits; behind a condition a guard may itself guarantee the output that is read.
- FirstPasses.BlocksAreInitialised: bodies are calls, waits, sequences and conditions; "surely over" is what no condition can skip.
- Completion.InjectionCompletes: explicit `next` fields, no split inside a branch, and branches entered only through their split.
- The payload is the same in every block of a chain.
- A response whose dump raises, lacks a field or holds a null count is modelled by what settling it does, not by its fields; other types in those places are not.
- Decimal indices of a lookup are an optional minus sign and ASCII digits; Python's `int()` also takes blanks, underscores, a plus sign and other digits.
- A template's pieces are scanned once, before anything is put together: braces formed across the parts of a template, or by a value that was put in, are not scanned again.
- Numbers are reals: no floating-point or `Decimal` rounding, and no difference between `1` and `1.0`.
- `and`, `or` and `!!` take a list of operands; defaults of `var` and operators outside the supported ones raise.
- Asynchronous capabilities of the simulator.
- Pydantic's coercions (`"5"` for a count, `true` for a number): fields have their schema's types.
- `failureHandling`, `max_iterations` and retries of a node.
- The reminder's alias and message are literal text; one that holds `{{ … }}` would be rendered by the simulator.
- The order of reported errors, and the texts of exceptions.
- Model providers, prompts, the HTTP interface, storage, metrics and the policy tables of the validators: glue or heuristics.
- The elapsed time of repair attempts: what a claim finds left of the wall-clock budget is a parameter.
