# Verification of the tool gateway

An agent's tool call runs through a pipeline of steps. A call the policy gates becomes a *ticket*: an
operator decides it, and whoever claims it first runs it, once. Waiters inside the approval gate,
`resume` and `gateway.check` callers, operators and dying processes on several replicas race over the
same tickets. This project models that, and proves what the gateway is for:

* **Safety of every run** (`Protocol`, `Moves`, `Lifecycle`, `History`, `Safety`, `Lease`, `Progress`,
  `Waiting`, `Deadline`, `Ownership`). The ticket lifecycle is a transition system: a shared store, a clock,
  any number of threads with a program counter and the stale values they read, crashes, lost signals, clocks
  read early. A thread's step is what the code does between two awaits. In every reachable state a call was
  dispatched at most once, only when its ticket was approved at that instant, with the operator's edit;
  exactly one decide wins; results are final but for one exact exception, which does happen; nothing stays
  stuck under any interference; the wait is bounded, and no waiter gives up before its deadline.
* **The code refines that system** (`Gateway`). `_await_decision`, `handle_call`, `run_once`, `resume`,
  `decide` and `_check` are methods with their own branches and loop. Before each await of a thread
  `Interfere` stands for anything the others may do; each method is verified against its contract, so every
  interleaving is covered, and each is shown to take only steps of the transition system. What each answers
  is said of the tickets: the caller that wins a claim ends as the execution of the approved call does, an
  own ticket is never denied to its agent, and a known ticket is decided after any decide.
* **Two stores, one machine** (`TicketMachine`, `MemoryStore`, `Table`, `SqlStore`, `Glob`, `Paging`,
  `Http`). The dictionary store and the row store, with its conditional updates, refine the same abstract
  machine, and following `next` misses and repeats no ticket while the queue changes. The glob-to-LIKE
  translation is exact if and only if the filter has no `?` and no `[` that opens a class.
* **The policy** (`Policy`, `PolicyDocument`, `PolicyReplica`, `PolicyRefresh`, `Visibility`, `Refusal`).
  `may_call` never hides a tool `grant_for` could grant; when the listing is exact is characterised; hints
  of untrusted upstreams change nothing; every replica's policy was really published, and converges, and
  when its versions can go back is known exactly.
* **The pipeline** (`Pipeline`, `Steps`, `Assembly`, `StraightLine`, `Outcomes`, `Trail`). For arbitrary
  steps: composition, audit trails, sending at most once, and equality of the blocking path and the
  ticket-plus-resume path. For the built-in ones: the assembled pipeline is a straight-line program, how
  each call ends follows from the answers of the ports, and what a successful one records is known event by
  event.
* **The limiter, the signal and the secrets** (`Limiter`, `Signal`, `Secrets`).

`dafny verify dfyconfig.toml` checks everything.

## What the code does and its documentation does not say

* `tools/list` is documented to show only tools the policy could let the agent call. `may_call` can list a
  tool no arguments are granted (`Policy.ListedButNeverGranted`); `Policy.ListingIsExactIff` says exactly when.
* A ticket's result is documented to be set once. `complete` is unconditional, so an executor that is slow
  but alive replaces the interruption a stale close stored: `Progress.ResultsCanBeOverwritten` is such a run,
  `Safety.ResultTransitions` says that a stored result changes exactly then, and `Lease.ResultsAreWriteOnce`
  that it cannot while executors report within the lease.
* `audited` is documented to record an outcome once. It is once per wrapper the error passes
  (`Pipeline.ErrorLeavesATrail`).
* `?` and character classes in a queue filter mean different things to the two stores.
* A limit below 1 lists everything in the in-memory store; in the SQL one 0 lists nothing and a negative one
  lists everything or fails, as the database has it. The HTTP surface never asks for either (`Http.Clamp`).
* A publish is documented to apply at once and refreshes to bring replicas up to date; both can take a replica
  back to an older version (`PolicyRefresh.GoesBackIffOvertaken` says when).

## Model

| member | source | states |
|---|---|---|
| `Safety.DispatchedAtMostOnce` | src/tool_gateway/approval.py:43-65 | in every reachable state no two upstream dispatches belong to the same ticket, whatever waiters, resumes, checks, crashes and lease closures did |
| `Safety.OnlyApprovedCallsAreDispatched` | src/tool_gateway/gateway.py:152-169 | every dispatched ticket is approved, and was sent the operator's edit (else the filed arguments) with its secret refs resolved |
| `Safety.ApprovedAtTheInstantOfDispatch` | src/tool_gateway/approval.py:54-65 | a step that dispatches is one step of one thread, adds one dispatch of its ticket, and the ticket is approved in the state it starts from although neither claim nor the step looks |
| `Safety.NothingIsUndone` | src/tool_gateway/adapters/memory.py:126-148 | over any run from a reachable state the filed call is unchanged, a verdict is final, a claim is never freed and a result never goes back to none |
| `Safety.ExactlyOneDecideWins` | src/tool_gateway/adapters/memory.py:126-131 | a ticket is decided exactly when some decide returned True for it, that is the stored verdict, and no second one ever does |
| `Safety.WaiterActsOnTheStoredVerdict` | src/tool_gateway/approval.py:135-140 | whenever the gate is about to apply a decision, it is the one stored on the ticket, even when an operator decided between its last read and its timeout |
| `Safety.PendingTicketsAreUntouched` | src/tool_gateway/adapters/memory.py:133-138 | a pending ticket has neither claim nor result |
| `Safety.StoredResults` | src/tool_gateway/approval.py:50-65 | over all runs a ticket is written at most an interruption and then the executor's outcome, and every result handed to a caller is one that was written |
| `Safety.ResultTransitions` | src/tool_gateway/adapters/memory.py:140-169 | a stored result changes in a step if and only if the executor of that very ticket reports in it with anything but the interruption, and what it replaces is then the interruption; a first result is exactly what an executor reports or the interruption of a stale close |
| `Safety.StepWrites` | src/tool_gateway/adapters/memory.py:140-169 | a step changes a ticket's result by what it writes on it and in no other way |
| `Progress.LateExecutorOverwrites` | src/tool_gateway/approval.py:54-65 | from any reachable state with an executor past its lease, some run closes the ticket as interrupted and its report then replaces that |
| `Progress.ResultsCanBeOverwritten` | src/tool_gateway/approval.py:50-65 | such a state is reachable: for any outcome a run claims, dispatches, passes the lease, closes the ticket and completes it late, so a stored result is not set once |
| `Safety.OnlyRunningDispatches` | src/tool_gateway/approval.py:58-60 | of all steps of run_once only the one running the pipeline dispatches, exactly once, its own ticket |
| `Lifecycle.StepKeepsInv` | src/tool_gateway/approval.py:43-141 | the invariant tying every thread's stale reads to the store survives every step of every thread, and the step only moves the state forward |
| `Lifecycle.RunKeepsInv` | src/tool_gateway/approval.py:43-141 | and therefore every run |
| `History.StepKeepsHistory` | src/tool_gateway/approval.py:43-65 | the recorded verdicts and results stay consistent with the store under every step |
| `History.StepVerdicts` | src/tool_gateway/adapters/memory.py:126-131 | a step decides at most one ticket, a pending one, and records exactly that |
| `History.StepResults` | src/tool_gateway/approval.py:50-65 | a step stores at most one result, by the owner of the claim or by closing a claim older than the lease |
| `Protocol.Advance` | src/tool_gateway/approval.py:101-141 | a thread's step between two awaits moves no other thread |
| `Lease.TimelyStepKeepsResults` | src/tool_gateway/adapters/memory.py:140-148 | while executors report within the lease no step overwrites a result |
| `Lease.ResultsAreWriteOnce` | src/tool_gateway/approval.py:43-65 | over whole runs with timely executors a result is final once stored and every caller ever handed a result was handed that one |
| `Lease.CloseAfterTheLease` | src/tool_gateway/approval.py:50-57 | whatever happens between a loser's reread, which saw no result, and its close: at or after claim time plus lease it returns and stores the interruption, and raises PendingApproval if and only if a result was written since the reread; before that it changes nothing |
| `Progress.ResumeNeverSticks` | src/tool_gateway/gateway.py:152-169 | from any reachable state with a stale claim and in every run that follows, a resume that is granted and reads the clock takes at most five own steps, can always take the next one, and ends with a result, or reports pending only because another caller wrote one since it began |
| `Lease.ResumeUnsticks` | src/tool_gateway/gateway.py:152-169 | from any reachable state with a stale claim there is such a run, which touches no other thread |
| `Waiting.ReadsAreBounded` | src/tool_gateway/approval.py:101-112 | the decision loop makes at most ceil(timeout / recheck) + 1 reads whatever signals arrive |
| `Waiting.NapsAreShort` | src/tool_gateway/approval.py:112 | a sleeper wakes within one recheck interval and by the deadline even if every signal is lost |
| `Waiting.SignalIsKept` | src/tool_gateway/adapters/memory.py:172-188 | once a ticket's event is set no step but its waiter's clears it |
| `Waiting.SignalWakes` | src/tool_gateway/adapters/memory.py:179-185 | with the event set the sleeper can wake at once and its next read acts on the stored verdict |
| `Waiting.SleeperFindsTheVerdict` | src/tool_gateway/approval.py:105-112 | however a sleeper wakes, if its ticket has been decided its next read goes on with that verdict |
| `Deadline.NoEarlyTimeout` | src/tool_gateway/approval.py:101-138 | however a run goes on, a ticket is not recorded as timed out before the whole timeout has passed since its waiter armed |
| `Deadline.TimeoutWriter` | src/tool_gateway/approval.py:135-138 | a ticket times out only in a step of the waiter that filed it |
| `Deadline.WaiterSeesNoTimeout` | src/tool_gateway/approval.py:105-108 | while its waiter waits a ticket is there and is never found timed out |
| `Deadline.WaiterSleepsUntilItsDeadline` | src/tool_gateway/approval.py:105-112 | a waiter that reads its ticket pending looks at the clock, and before its deadline sleeps next, a recheck interval or what is left; at the deadline it times out |
| `Ownership.LosersOwnNothing` | src/tool_gateway/approval.py:50-58 | in every reachable state a thread not past its claim owns no ticket, and one that lost the claim finds another owner |
| `Moves.OperatorsVerdictIsTried` | src/tool_gateway/gateway.py:136-140 | either verdict on a known ticket goes on to the decide, which records it exactly when the ticket is pending |
| `Moves.CallersReadTheTicket` | src/tool_gateway/mcp.py:167-175 | a check goes on to resume exactly a decided ticket of its agent, executed or not; a resume returns the result of an executed ticket and goes on with the call and verdict of any other decided one |
| `Moves.ClaimIsStamped` | src/tool_gateway/adapters/memory.py:133-138 | a claim wins exactly when there is neither claim nor result, and carries the clock it was made with |
| `Moves.TimeoutIsRecorded` | src/tool_gateway/approval.py:135-138 | a timeout is recorded on a ticket still pending and gives way to any verdict that is there |
| `Moves.EditReplacesTheArguments` | src/tool_gateway/approval.py:68-75 | an approved call goes on with the operator's arguments as a whole if there are any, else its own; any other verdict ends it |
| `Moves.InterruptionIsAnError` | src/tool_gateway/approval.py:37-57 | a close stores on exactly a claim at least the lease old without a result, and what it stores and returns is an error |
| `Gateway.ToolGateway.AwaitDecision` | src/tool_gateway/approval.py:101-112 | under any interference the loop takes only protocol steps and ends holding the verdict stored on the ticket, or a timeout of its own, and then the whole timeout has passed; with a positive recheck interval it ends within a number of passes fixed by timeout and recheck, and with none the same is said of any number of passes |
| `Gateway.ToolGateway.LookOnce` | src/tool_gateway/approval.py:105-112 | one pass: the stored verdict if there is one, a timeout of its own only at the deadline or later, else a sleep and back to reading |
| `Gateway.ToolGateway.Settle` | src/tool_gateway/approval.py:135-138 | after the timeout race the local decision is the stored verdict, and a timeout only once the whole timeout has passed |
| `Gateway.ToolGateway.ApplyDecision` | src/tool_gateway/approval.py:68-80 | anything but an approval is refused with that decision; after an approval the ticket is claimed, and the caller that won the claim ends as the execution with the edit does |
| `Gateway.ToolGateway.HandleCall` | src/tool_gateway/approval.py:114-141 | auto mode touches no ticket; async or a caller that cannot wait files exactly one ticket, the call pending, last in the queue, and gets its id; a caller that waits ends with its ticket decided, timed out only after the whole timeout; it is refused with that verdict if it was turned down, and otherwise ends as the execution of the approved call does if it won the claim, with a stored result or told to wait if not |
| `Gateway.ToolGateway.RunOnce` | src/tool_gateway/approval.py:43-65 | under any interference the ticket ends up claimed: a caller that won, its claim stamped with the clock, ends as the steps come to (their failure, the missing secret, or the reply to the call, then dispatched) and that is stored; any other returns a stored result or reports pending, on a claim older than the lease only because another caller wrote a result after its reread |
| `Gateway.ToolGateway.LoseTheClaim` | src/tool_gateway/approval.py:50-57 | the loser returns the result its reread found; else it stores and returns the interruption of an expired claim, or reports pending, on an expired claim only because a result was written since the reread |
| `Gateway.ToolGateway.Execute` | src/tool_gateway/approval.py:58-65 | the winner stores its outcome: the refusal of a step or the missing secret, and then nothing of the ticket was ever sent, or the reply to the call, which was then dispatched with its secrets resolved |
| `Gateway.ToolGateway.SendAndStore` | src/tool_gateway/approval.py:60-65 | the call is dispatched with its secrets resolved, and the upstream's reply to it is what is stored and returned or raised |
| `Gateway.ToolGateway.Fail` | src/tool_gateway/approval.py:61-64 | a failure is stored as its message and raised again, and nothing of the ticket was ever sent |
| `Gateway.ToolGateway.Complete` | src/tool_gateway/approval.py:60-65 | the upstream's answer is stored and returned, its refusal stored as its message and raised |
| `Gateway.ToolGateway.Resume` | src/tool_gateway/gateway.py:152-169 | a ticket with a result is never run again but returns one; a turned-down one ends in that denial, or in ToolNotAllowed when no longer granted; an approved one that is granted ends up claimed, by this caller, whose outcome is then that of the execution of the ticket's call with its edit, or by another, and without a grant it is not run; one still undecided at the end is pending; an id is unknown only if no such ticket was there; a claim older than the lease gives way only to a result written after the reread |
| `Gateway.ToolGateway.ResumeTicket` | src/tool_gateway/gateway.py:153-169 | the same from the first read on |
| `Gateway.ToolGateway.ResumeDecided` | src/tool_gateway/gateway.py:160-169 | from the grant on, with the call and verdict read before |
| `Gateway.ToolGateway.Check` | src/tool_gateway/mcp.py:167-183 | an agent learns nothing but NoTicket about a ticket that is not its own, and of each of its own exactly what a resume comes to: the result, the denial, the outcome of the execution it won, or to wait; its own expired ones never keep it waiting |
| `Gateway.ToolGateway.ReadOwn` | src/tool_gateway/mcp.py:168-174 | the ticket is handed on if and only if it is this agent's, and a pending one ends the check |
| `Gateway.ToolGateway.Decide` | src/tool_gateway/gateway.py:131-141 | only approvals and rejections are accepted; after an accepted one a known ticket is decided; Recorded means this verdict is the stored one, the first on record for the ticket, and the signal went out; TicketAlreadyDecided that another one was on record before; UnknownTicket that the ticket was not there |
| `Gateway.ToolGateway.RecordVerdict` | src/tool_gateway/gateway.py:139-141 | the decide and, if it won, the signal: this verdict is recorded exactly when none was on record at that instant |
| `Gateway.ToolGateway.WaitForDecision` | src/tool_gateway/adapters/memory.py:179-185 | the waiter goes back to reading when the signal is heard, which it consumes, and then the ticket is decided, or else not before the time is up |
| `Gateway.Later` | src/tool_gateway/adapters/memory.py:126-148 | what any earlier state of the same run said of a ticket still holds |
| `Gateway.StaysSo` | src/tool_gateway/gateway.py:153-158 | executed stays executed; turned down stays turned down and is never executed |
| `TicketMachine.CreateEvolves` | src/tool_gateway/adapters/memory.py:119-120 | filing a ticket puts it last and changes no other |
| `TicketMachine.DecideEvolves` | src/tool_gateway/adapters/memory.py:126-131 | deciding keeps the queue's order, every earlier verdict, claim and result |
| `TicketMachine.ClaimEvolves` | src/tool_gateway/adapters/memory.py:133-138 | claiming does too |
| `TicketMachine.CompleteEvolves` | src/tool_gateway/adapters/memory.py:168-169 | completing does too, and never takes a result away |
| `TicketMachine.CreatedTicket` | src/tool_gateway/adapters/memory.py:119-120 | a filed ticket is the call as it is, pending, unclaimed, without a result, behind all others |
| `TicketMachine.DecidedTicket` | src/tool_gateway/adapters/memory.py:126-131 | exactly a pending ticket can be decided, by any verdict, and nothing else of it or of another changes |
| `TicketMachine.ClaimedTicket` | src/tool_gateway/adapters/memory.py:133-138 | exactly a ticket without claim and result can be claimed, and not twice |
| `TicketMachine.ClosedTicket` | src/tool_gateway/adapters/memory.py:140-148 | exactly a claim at least the lease old without a result can be closed, and not twice |
| `TicketMachine.CompletedTicket` | src/tool_gateway/adapters/memory.py:168-169 | completing stores the result on a known ticket over any earlier one and changes nothing else |
| `Domain.FailuresReadAsErrors` | src/tool_gateway/approval.py:61-64 | a stored failure is marked as an error and reads as the exception's message |
| `MemoryStore.MemoryTicketStore.Create` | src/tool_gateway/adapters/memory.py:119-120 | refines the abstract create; a reused id overwrites in place |
| `MemoryStore.MemoryTicketStore.Get` | src/tool_gateway/adapters/memory.py:122-124 | returns the abstract machine's ticket, or none |
| `MemoryStore.MemoryTicketStore.Decide` | src/tool_gateway/adapters/memory.py:126-131 | True exactly when the ticket exists and is pending; the new contents are the abstract decide's |
| `MemoryStore.MemoryTicketStore.Claim` | src/tool_gateway/adapters/memory.py:133-138 | True exactly when there is no claim and no result; refines the abstract claim |
| `MemoryStore.MemoryTicketStore.CloseStaleClaim` | src/tool_gateway/adapters/memory.py:140-148 | True exactly when a claim at least the lease old has no result; refines the abstract close |
| `MemoryStore.MemoryTicketStore.Complete` | src/tool_gateway/adapters/memory.py:168-169 | refines the abstract complete; an unknown id fails and changes nothing |
| `MemoryStore.MemoryTicketStore.PendingPage` | src/tool_gateway/adapters/memory.py:150-166 | the scan yields exactly the page of the abstract queue behind the cursor, each id with its ticket |
| `SqlStore.SqlTicketStore.Create` | src/tool_gateway_sql/store.py:65-78 | inserts a row unless the id exists; with a creation time later than all others it is the abstract create, otherwise the others still keep their order |
| `SqlStore.SqlTicketStore.Get` | src/tool_gateway_sql/store.py:80-89 | returns the abstract machine's ticket, or none |
| `SqlStore.SqlTicketStore.Decide` | src/tool_gateway_sql/store.py:91-101 | rowcount is 1 exactly when the ticket is pending, because the status column always equals the decision's; refines the abstract decide |
| `SqlStore.SqlTicketStore.Claim` | src/tool_gateway_sql/store.py:103-110 | the conditional update refines the abstract claim |
| `SqlStore.SqlTicketStore.CloseStaleClaim` | src/tool_gateway_sql/store.py:112-125 | the cutoff comparison is the abstract staleness; refines the abstract close |
| `SqlStore.SqlTicketStore.Complete` | src/tool_gateway_sql/store.py:148-152 | refines the abstract complete; an unknown id changes nothing |
| `SqlStore.SqlTicketStore.PendingPage` | src/tool_gateway_sql/store.py:127-146 | the keyset query yields the page of the abstract queue behind the cursor, whether or not the cursor's ticket is still pending; a negative limit lists all of it or fails, as the database has it |
| `SqlStore.SqlTicketStore.CreatedAt` | src/tool_gateway_sql/store.py:139-142 | the cursor's creation time, none for an unknown id |
| `SqlStore.PlainFiltersSelectTheSame` | src/tool_gateway_sql/store.py:132-136 | for filters without `?` and without a `[` that opens a class both stores select the same tickets |
| `Table.KeysetIsTail` | src/tool_gateway_sql/store.py:143-145 | rows past (created_at, id) of the cursor are exactly what follows it in the order of the query |
| `Glob.ToLikeIsCharByChar` | src/tool_gateway_sql/store.py:133 | the four replaces in sequence are one translation per character |
| `Glob.PlainPatternsAgree` | src/tool_gateway_sql/store.py:132-134 | for patterns without `?` and without a `[` that opens a class, LIKE on the translation and fnmatchcase agree on every string |
| `Glob.ToLikeIsFaithfulIffPlain` | src/tool_gateway_sql/store.py:132-134 | they agree on every string if and only if the pattern has no `?` and no `[` that opens a class, whatever the classes match |
| `Glob.LiteralThenStar` | src/tool_gateway/adapters/memory.py:161 | a literal pattern matches itself alone, and with a star at its end what begins with it |
| `Glob.ClassMatchesOne` | src/tool_gateway/adapters/memory.py:161 | a character class stands for exactly one character and ends at the first closing bracket that is not its first member, which may follow a '!' |
| `Paging.PageProperties` | src/tool_gateway/adapters/memory.py:150-166 | a page holds selected tickets behind the cursor in queue order, and whatever it leaves out comes after a full page |
| `Paging.SelectedMeans` | src/tool_gateway/adapters/memory.py:155-163 | a ticket is selected exactly if it is pending, its full name matches the tool glob and its agent is the one asked for, where given |
| `Paging.WalkMissesNothing` | src/tool_gateway/http.py:27-44 | following `next` with creates and decides in between lists every ticket that was there and stayed selected, whatever the store's filter means by its pattern |
| `Paging.WalkIsInOrder` | src/tool_gateway/http.py:27-44 | the pages concatenate in queue order |
| `Paging.WalkNeverRepeats` | src/tool_gateway/http.py:27-44 | no ticket is listed twice |
| `Paging.QuietWalkListsAll` | src/tool_gateway/http.py:27-44 | on a queue nobody touches the walk ends and its pages concatenate to the whole filtered queue |
| `Paging.QuietWalkIsAWalk` | src/tool_gateway/http.py:27-44 | and it is one of the walks the other three speak of |
| `Http.Clamp` | src/tool_gateway/http.py:34 | any requested limit becomes one in 1..500, itself when it already is |
| `Http.TicketController.Pending` | src/tool_gateway/http.py:27-44 | the answer is the page of the clamped limit and the cursor a walk goes on from |
| `Policy.MayCallIsSound` | src/tool_gateway/policy.py:240-266 | if grant_for allows the call with any arguments, may_call is true |
| `Policy.FirstMatchDecides` | src/tool_gateway/policy.py:240-249 | the first rule that matches decides, by its own mode and schema or as a denial; the default if none does; nothing without a policy |
| `Policy.MatchMeans` | src/tool_gateway/policy.py:100-113 | a rule matches exactly if its tool glob, one of its agent globs, every hint it names (declared if the upstream is trusted, else defaulted) and every condition on an argument that is there do |
| `Policy.FirstFinalDecides` | src/tool_gateway/policy.py:251-266 | the first rule that targets the call and is unconditional or an allow settles the listing; the default if there is none |
| `Policy.GrantableIffOffered` | src/tool_gateway/policy.py:240-249 | some arguments are granted exactly when a reached allow is satisfiable by arguments no earlier conditional deny matches, or the default is reached |
| `Policy.MayCallIsGrantForNoArguments` | src/tool_gateway/policy.py:251-266 | with no conditional allow before the first unconditional match, may_call is grant_for on empty arguments |
| `Policy.ListingIsExactIff` | src/tool_gateway/policy.py:251-266 | listed equals grantable if and only if there is no such conditional allow or something offers the call |
| `Policy.ListedButNeverGranted` | src/tool_gateway/policy.py:262-265 | a policy under which every tool is listed and none is ever granted |
| `Policy.HintsAreConsistent` | src/tool_gateway/policy.py:56-64 | each hint is as declared, else as the protocol defaults it (destructive and open-world), and a read-only tool is never destructive |
| `Policy.UntrustedHintsDoNotMatter` | src/tool_gateway/policy.py:100-113 | for an upstream nobody trusts, two annotation maps give the same grant and the same listing |
| `PolicyDocument.CompileRule` | src/tool_gateway/policy.py:116-143 | the loops accept exactly the good rules and build the rule described |
| `PolicyDocument.Compile` | src/tool_gateway/policy.py:153-164 | the loop over rules computes that compilation |
| `PolicyDocument.NamesMean` | src/tool_gateway/policy.py:44-64 | what each operator, mode and hint name stands for |
| `PolicyDocument.RuleMeans` | src/tool_gateway/policy.py:116-143 | what a good rule compiles to, field by field: its globs, its conditions and hints in the sense of their names, denial, mode and schema |
| `PolicyDocument.PolicyMeans` | src/tool_gateway/policy.py:153-164 | a good document compiles to its rules in order, its trust list, and a grant by default only as its default says |
| `PolicyReplica.MemoryPolicySource.Store` | src/tool_gateway/policy.py:179-181 | each publish is a new version |
| `PolicyReplica.DeclarativePolicy.Publish` | src/tool_gateway/policy.py:268-273 | a bad document changes nothing anywhere; a good one is stored and in force here at once |
| `PolicyReplica.DeclarativePolicy.RefreshIfDue` | src/tool_gateway/policy.py:283-299 | asks at most once per interval, installs a newer document that compiles, keeps the last good policy otherwise |
| `PolicyReplica.DeclarativePolicy.Refresh` | src/tool_gateway/policy.py:275-278 | asks now |
| `PolicyReplica.DeclarativePolicy.GrantFor` | src/tool_gateway/policy.py:240-249 | the policy then in force, which is the source's own when the replica was due and outdated, else the one before, grants what its first matching rule says, with that rule's mode and schema; its default if none matches; nothing if nothing is loaded |
| `PolicyReplica.DeclarativePolicy.MayCall` | src/tool_gateway/policy.py:251-266 | the same for the first rule that settles the listing |
| `PolicyReplica.FirstMatch` | src/tool_gateway/policy.py:245-249 | the loop answers by the first rule that matches: None for a denial, else that rule's own mode and schema; the default if none does |
| `PolicyReplica.FirstFinal` | src/tool_gateway/policy.py:261-266 | the loop answers by the first rule that settles the listing, else by the default |
| `PolicyRefresh.StepKeepsInv` | src/tool_gateway/policy.py:268-299 | every version in force or in flight is one the source held, compiled from its document |
| `PolicyRefresh.InForceWasPublished` | src/tool_gateway/policy.py:268-299 | in every run a replica has nothing in force or a version the source really held, compiled from exactly that document |
| `PolicyRefresh.RefreshConverges` | src/tool_gateway_sql/store.py:184-196 | once publishing stopped on a good document, a refresh begun afterwards and answered installs the latest version and no later refresh changes that |
| `PolicyRefresh.ConvergedStays` | src/tool_gateway/policy.py:283-299 | a converged replica stays converged under any refreshes, failed ones included |
| `PolicyRefresh.VersionsCanGoBack` | src/tool_gateway/policy.py:268-273 | a reachable state in which the second of two racing publishes takes one replica from version 2 to 1 |
| `PolicyRefresh.RefreshesCanGoBack` | src/tool_gateway/policy.py:283-299 | a reachable state in which a refresh that got version 1 before a publish installed 2 does so |
| `PolicyRefresh.StepGoesBackIff` | src/tool_gateway/policy.py:268-299 | a step takes a replica back if and only if it installs there an older version than the one in force, a publish's or a refresh's |
| `PolicyRefresh.PunctualRunsNeverGoBack` | src/tool_gateway/policy.py:268-299 | over any run whose installs on a replica do not overlap a later store its versions never fall |
| `PolicyRefresh.GoesBackIffOvertaken` | src/tool_gateway/policy.py:268-299 | in every run, a replica can go back without the source changing again if and only if a publish about to be installed there is older than something in force, in flight or latest, or a refresh older than something in force or another publish |
| `Pipeline.ChainConcat` | src/tool_gateway/pipeline.py:41-47 | running a concatenation is running the first part with the second as continuation, for arbitrary steps |
| `Pipeline.ErrorLeavesATrail` | src/tool_gateway/pipeline.py:50-65 | an error raised at one position and raised again all the way out, whatever else the steps on its way do and log, leaves exactly one event of each audited one of them, innermost first, and none of a deeper one |
| `Steps.GateLetsPass` | src/tool_gateway/approval.py:58-65 | the gate, which stores the failure and raises it again, is a step of such a path |
| `Pipeline.ChainSendsAtMostOnce` | src/tool_gateway/pipeline.py:41-47 | steps that call on at most once, before a terminal that sends once, send at most once |
| `Pipeline.AuditedCallsNextAtMostOnce` | src/tool_gateway/pipeline.py:60-65 | auditing a step does not change that |
| `Pipeline.BlindChain` | src/tool_gateway/pipeline.py:41-47 | a chain of steps that do not read hidden bag entries does not read them |
| `Pipeline.AuditedIsBlind` | src/tool_gateway/pipeline.py:60-65 | auditing a step does not make it read them |
| `Steps.BlockingIsResuming` | src/tool_gateway/gateway.py:101-104 | interactive approval and ticket plus resume under the same grant give the same outcome, world, calls sent and events from there on, for arbitrary after-approval steps that read no bag entry left before the gate; a denial is the same on both and sends nothing |
| `Steps.BuiltInsBlockAsTheyResume` | src/tool_gateway/gateway.py:73-104 | with the built-in steps no such condition on the steps is needed |
| `Steps.BuiltInsAreBlind` | src/tool_gateway/steps.py:48-100 | validate, materialize and redact read nothing the steps before the gate left |
| `Steps.LastAgrees` | src/tool_gateway/steps.py:103-121 | dispatch reads one bag entry, the edit note |
| `Steps.ChangedFields` | src/tool_gateway/approval.py:73-80 | the edit note names exactly the fields whose values differ; it names none only when the edit turned missing fields into nulls or back |
| `Steps.EditReachesTheAgent` | src/tool_gateway/steps.py:117-119 | after an operator's edit the first note of the agent's result is the one about it |
| `StraightLine.PipelineIsStraightLine` | src/tool_gateway/gateway.py:73-114 | the pipeline assembled from the built-in steps, with its sort, wrappers, gate and continuations, ends every call as a straight-line program does (budget, grant, approval, schema, secrets, upstream, redaction, in that order, each with its own error), and the calls it adds to the record are exactly that program's |
| `StraightLine.OnlyValidCallsAreSent` | src/tool_gateway/steps.py:48-121 | after the gate the calls added to the record are exactly this one with its secrets in place if its (edited) arguments satisfy the schema and no secret is missing, and none otherwise |
| `StraightLine.DeniedIsRefused` | src/tool_gateway/steps.py:25-45 | a denied call is refused for its budget first, else as not allowed, and nothing is sent |
| `StraightLine.AssembledBefore` | src/tool_gateway/gateway.py:73-86 | built-ins alone sort to rate limit, authorize before the gate |
| `StraightLine.AssembledAfter` | src/tool_gateway/gateway.py:73-87 | and to validate, materialize, redact after it |
| `Outcomes.OverBudget` | src/tool_gateway/steps.py:25-28 | an agent over its budget is told so and nothing is sent |
| `Outcomes.StoppedAtTheGate` | src/tool_gateway/approval.py:128-139 | a granted call the gate does not let pass is not sent: its caller gets the ticket, or the verdict that turned it down |
| `Outcomes.InvalidIsRefused` | src/tool_gateway/steps.py:57-62 | a call that passed is not sent if its arguments, the operator's edit included, break the schema of the grant |
| `Outcomes.MissingSecretIsRefused` | src/tool_gateway/steps.py:74-82 | nor if it names an undefined secret |
| `Outcomes.ValidIsSent` | src/tool_gateway/steps.py:85-121 | every other call is sent exactly once, with its secrets in place, and its agent sees the redacted answer with the operator's note first, or the upstream's failure, or no more than that the answer leaked |
| `Outcomes.GateStoresTheOutcome` | src/tool_gateway/approval.py:58-65 | the gate stores the outcome of an approved call, a failure as its message, before its caller hears of it |
| `Outcomes.WithdrawnGrantStopsAResume` | src/tool_gateway/gateway.py:162-165 | a resume without a grant ends in ToolNotAllowed with nothing run and nothing recorded |
| `Trail.SuccessLeavesATrail` | src/tool_gateway/steps.py:40-121 | a call that returns through the assembled built-in pipeline adds exactly these events in this order: authorized; gated and decided if it had to be approved; refs_materialized if it has secrets; the call sent; call |
| `Steps.UnauthorizedIsNotSent` | src/tool_gateway/steps.py:31-45 | without a grant the run ends in ToolNotAllowed and nothing is sent, whatever comes after |
| `Steps.BuiltInsCallNextAtMostOnce` | src/tool_gateway/steps.py:17-100 | each built-in step calls on at most once and sends nothing itself |
| `Steps.GateCallsNextAtMostOnce` | src/tool_gateway/approval.py:114-141 | so does the gate |
| `Steps.LastSends` | src/tool_gateway/steps.py:103-121 | dispatch sends exactly the call it was given, once |
| `Steps.PipelineSendsAtMostOnce` | src/tool_gateway/gateway.py:101-104 | one run of any pipeline of such steps sends at most one call |
| `Assembly.Assemble` | src/tool_gateway/gateway.py:73-104 | a contributed step without a stage is refused; otherwise the full pipeline is before, gate, after, dispatch and the other is after, dispatch |
| `Assembly.FullAfterTheGateIsPost` | src/tool_gateway/gateway.py:101-104 | after the gate the full pipeline is exactly the one a resumed ticket runs |
| `Assembly.SortIsStable` | src/tool_gateway/gateway.py:85-87 | the sort is ascending, keeps the same steps and keeps those of equal order as they were |
| `Assembly.StableSortIsUnique` | src/tool_gateway/gateway.py:85-87 | any sort with these properties gives the same sequence |
| `Assembly.BuiltInsGoFirst` | src/tool_gateway/gateway.py:84-87 | at equal order a built-in runs before a contributed step |
| `Assembly.StandsInItsStage` | src/tool_gateway/gateway.py:86-87 | every step stands in its stage after all of lower order |
| `Assembly.NoExecutionSkipsABuiltIn` | src/tool_gateway/gateway.py:73-104 | whatever is contributed, every approved execution validates, then materializes, then redacts |
| `Assembly.DeniedIsNeverSent` | src/tool_gateway/gateway.py:101-114 | a call the resolver denies runs through the whole assembled pipeline without being sent, if contributed before-approval steps pass the call on as it is |
| `Visibility.PartitionRejoins` | src/tool_gateway/gateway.py:125 | splitting a name at its first dot and joining gives it back exactly when it has one |
| `Visibility.ListingAsksByName` | src/tool_gateway/gateway.py:123-127 | the listing asks may_call for that very tool and agent, with no arguments and the entry's own hints |
| `Visibility.EdgeCallsTheNamedTool` | src/tool_gateway/mcp.py:146-159 | exactly a dotted name is callable, and the call is that tool, as this agent, with its arguments and the hints of the first entry of the name, or none |
| `Visibility.VisibleTools` | src/tool_gateway/gateway.py:116-129 | the loop lists the specs may_call admits; without may_call all of them |
| `Visibility.ListedIffMayCall` | src/tool_gateway/gateway.py:123-129 | a spec is listed exactly when it is in the catalog and may_call admits it |
| `Visibility.ListedPartByPart` | src/tool_gateway/gateway.py:122-129 | the listing keeps the catalog's order and asks about each entry once |
| `Visibility.DroppedIsNeverGranted` | src/tool_gateway/mcp.py:146-165 | if the first catalog entry of a name was dropped, no call the edge builds for the name is granted under the same policy |
| `Visibility.EveryDroppedToolIsRefused` | src/tool_gateway/mcp.py:146-165 | with unique names that is every dropped tool |
| `Visibility.DroppedIsRefusedIffHintsAgree` | src/tool_gateway/mcp.py:146-165 | for any catalog, a dropped entry is refused under every policy if and only if its name cannot be called or it has the effective hints of the first entry of its name |
| `Visibility.RepeatedNameIsShadowed` | src/tool_gateway/mcp.py:150 | a catalog, policy and dropped entry whose calls are granted |
| `Refusal.HiddenToolIsNeverSent` | src/tool_gateway/gateway.py:116-129 | a tool the listing dropped is never sent upstream by the full pipeline, for every argument map |
| `Refusal.HiddenToolIsRefused` | src/tool_gateway/gateway.py:116-129 | with the built-in steps its caller gets ToolNotAllowed, or RateLimited first, and nothing is sent |
| `Limiter.WindowRateLimiter.AdmitCall` | src/tool_gateway/adapters/memory.py:230-237 | with a clock that does not run backwards an attempt is admitted exactly when fewer than the limit of the agent's came before it in its minute; a limit of zero admits all |
| `Limiter.AdmittedIffFewBefore` | src/tool_gateway/adapters/memory.py:230-237 | the same of every position of a trace |
| `Limiter.BudgetPerMinute` | src/tool_gateway/adapters/memory.py:216-237 | exactly min(attempts, limit) calls of an agent get through in a clock minute |
| `Limiter.AtMostTwiceTheBudget` | src/tool_gateway/adapters/memory.py:216-237 | at most twice the limit in any half-open sixty seconds |
| `Limiter.TwiceIsReached` | src/tool_gateway/adapters/memory.py:233-236 | and that bound is met |
| `Limiter.OthersDoNotMatter` | src/tool_gateway/adapters/memory.py:236-237 | an agent's admissions are those of its own attempts alone |
| `Signal.MemoryDecisionSignal.WaitForDecision` | src/tool_gateway/adapters/memory.py:179-185 | a signal sent before or during the wait is heard, once; a timeout clears nothing |
| `Signal.MemoryDecisionSignal.SignalDecision` | src/tool_gateway/adapters/memory.py:187-188 | sets that ticket's event and no other |
| `Secrets.DictSecretResolver.Materialize` | src/tool_gateway/adapters/memory.py:68-80 | every ref is replaced by its secret and reported in order, or the first undefined ref is reported |
| `Secrets.RefsBeginWithTheScheme` | src/tool_gateway/adapters/memory.py:68-80 | a ref is a string that begins with secret:// and names what follows it |
| `Secrets.ResolvedArguments` | src/tool_gateway/adapters/memory.py:68-80 | resolving puts the named secret in the place of each ref and leaves every other argument alone |
| `Secrets.UsedPartByPart` | src/tool_gateway/adapters/memory.py:68-80 | the refs reported are those of the arguments in their order, once for each |

## Left out

- Gateway.ToolGateway.Interfere: has an empty body on purpose; what its callers are verified against is its contract, which allows any run of the other threads, the operators and the clock.
- Gateway.ToolGateway.AwaitDecision: with a recheck interval of zero or less it says what any number of passes does, not that the loop ends, which then depends on the clock moving.
- Gateway.ToolGateway.HandleCall: the notifier and the audit log are not in it; the source lets neither change the ticket, and a failing notifier is only logged.
- Gateway.ToolGateway.Check: the texts and codes of its MCP answers are not modelled; a pending answer is the outcome PendingApproval.
- Gateway.ToolGateway.WaitForDecision: which of a signal and an expired timer a wait returns on is left to the environment.
- Protocol.Advance: a dispatch is one step and its answer another; what the steps after the gate do in between is a refusal, or the secrets the resolver holds, decided by the environment, so contributed after-approval steps that rewrite arguments are covered by `Steps` and `Pipeline` only.
- Protocol.Advance: one clock for all replicas, real-valued, without rounding; ids of new tickets are fresh.
- Http.TicketController.Pending: written against the in-memory store; the SQL store's page has the same specification.
- Limiter.WindowRateLimiter.AdmitCall: says nothing of the count when the clock runs backwards.
- MemoryStore.MemoryTicketStore.Get: tickets are values, so the deep copies of the source are snapshots by construction and aliasing is not modelled.
- SqlStore.SqlTicketStore.PendingPage: which of the two a database does with a negative limit is a parameter; its tickets carry no result, as in the source; `Safety.PendingTicketsAreUntouched` says none is lost.
- SqlStore.SqlTicketStore.Decide: each statement is one atomic step on a sequence of rows; sessions, JSON encoding and schema creation are not modelled, and LIKE is case-sensitive.
- PolicyReplica.DeclarativePolicy.RefreshIfDue: one caller at a time; `PolicyRefresh` has the interleavings.
- PolicyDocument.Compile: the defaults of missing JSON keys are assumed filled in, as is the constructor's inline rule set.
- Secrets.DictSecretResolver.Materialize: the same dictionary's redaction is a parameter of `Steps.Redact`.
- Steps.BlockingIsResuming: both callers win the claim (who does is `Safety`'s matter); a context is passed and returned instead of being updated in place, because a step's continuation is a first-class function; the wording of notes and error lists is a parameter.
- Assembly.Assemble: orders are integers.
- Character classes of globs and the comparison operators of policy conditions are abstract; only that a missing argument fails its condition is used.
- `FilePolicySource` appears in `PolicyRefresh` as a source that may also be edited by hand to a document that does not compile; versions are numbered as the SQL source numbers them, and file access and hashing are not modelled.
- `MiniSchemaValidator` is a parameter of the validation step: a straightforward loop with nothing spanning operations.
- MCP sessions, upstream servers, the webhook notifier, authentication, roles, wiring and settings are outside the model; an upstream call is an arbitrary result or failure.
