# PARTEE in Dafny

A verified model of the PARTEE task-parallel runtime.  A parent spawns tasks that
declare what they read and write; a block-level analysis orders conflicting siblings;
worker threads run ready tasks from bounded work-stealing deques; each task allocates
from a memory region of its own.  `dafny verify dfyconfig.toml` checks everything.

Concurrent code is modelled twice.  A transition system has one step per shared access
(sequentially consistent, any number of tasks and threads), and theorems are about
every run of it.  A class in the form of the C code has the same loops, branches and
in-place updates; before each of its shared accesses an arbitrary burst of steps of
other threads happens (the field `schedule`), and its `Valid()` says that the whole
history is a run of the transition system.  So what is proved about runs holds of the
loops: swapping two accesses, skipping one or taking another branch leaves a history
that is not a run.  The contracts name the thread's own steps in that history (`Did`, `Climbs`).
The class ClosableStack.Stack is the exception: it keeps the list of pushes instead of a
history, its rivals push and close in one step, at the moment when that takes effect, and
its contracts say what the bursts played have pushed.

| modules | source | contents |
|---|---|---|
| DepMachine, DepCount, DepOrder, DepFragment, DepLimits, DepSerial, DepProgress | src/deps.c, src/runtime.c | one parent's tasks: spawning and analysing, scheduling, running, releasing, firing; counting, ordering, serial equivalence, progress |
| DepExact, DepCalls, DepArgs | src/deps.c | exactly when two siblings are ordered, and for exactly which argument lists |
| DepDeques, DepWhole, DepTwice, DepSettle | src/deps.c, src/runtime.c, src/queue.c, src/stack.c | the same tasks over the deques of src/queue.c, access by access, and pushes and locks as a read and compare-and-swaps: a refinement, the main theorems over it, exactly when they hold, what happens when they do not, and completion |
| DepRuntime | src/deps.c, src/runtime.c | `create_dependencies`, `schedule_task` and `fire_dependencies` as loops under interference |
| Bytes, Deque, DequeRuns, DequeRuntime | src/queue.c | the deque with 8-bit counters that wrap |
| ClosableStack | src/stack.c | the `to_notify` stack: transition system, and methods over linked nodes |
| ReleaseTree, ReleaseRuntime | src/runtime.c | child counters and who releases whom |
| Layout, PagePool, Regions | src/alloc.c, src/pages.c, src/regions.c | page pool, regions, bump allocation, clearing, the fast path, deletion |
| Serialize, Trie, Blocks, Sums | src/serialize.c, src/trie.c, src/balloc.c | the region serializer, the look-up table, blocks and their allocation; sums |

Words used below.  A task is *started* when its status is SCHEDULED or later, and
*released* when it is RELEASING or COMPLETE.  `Safe(i, j)` means that i is released or
that j sits in a chain of `to_notify` stacks leading back to i.  The swap of a thief is
*fair* when `top` has not come round to the byte that the thief read before, or when what
it takes is what is first on the deque at that moment.

What the proofs found out about the code:

* WAR ordering can fail.  When the first reader of an element is already releasing, a
  new reader replaces the element together with its list (src/deps.c:455, 498-501),
  and readers still running are forgotten.  `DepLimits.WarCanBeLost` is a run in which
  a writer is scheduled before such a reader has run.  A comment at src/deps.c:452-454
  calls the test that causes this redundant.  Not every such replacement does harm: what
  counts is whether the reader is waited for in the end, and `DepExact.OrderIsExact` says
  exactly that, for any argument lists and any conflict: between two calls, j can never
  start before i is released, whatever happens later, if and only if `Safe(i, j)`.
* RAW ordering can fail, depending on the argument list of a task: `dependent_metadata`
  stays unset when `deps_last` or a self-dependency makes the push unnecessary
  (src/deps.c:424-433), and is overwritten when the argument has another block
  (src/deps.c:450).  `DepArgs.RawSafeIsExact` finds the lists for which it cannot: every
  block that the list reads is written later in the list, or is the block of a one-block
  IN argument in front of all others that the list never writes.  For any other list
  there is a run among tasks of the simplest kind in which a reader starts before an
  earlier writer is released (`DepLimits.RawCanBeLost` is one of them, step by step).
* A thief that sleeps through exactly 256 advances of `top` can take a task for the second
  time (`DequeRuns.WrapCanDuplicate`).  `DepTwice.BodyCanRunTwice` is such a run of the
  whole machine: 257 tasks, each called once, and at the end the first body has run twice,
  and the last task, SCHEDULED, is on no deque and in no thread's hands.  Over all runs:
  every scheduled task is in exactly one place up to a state if and only if every swap
  before it was fair (`DepWhole.OnePlaceIsExact`, and `DequeRuns.ConservationIsExact` for
  one deque); fewer than 256 advances between a thief's read and its swap are enough
  (`DepWhole.StalenessSuffices`).  The theorems of DepProgress and DepSerial are about
  ideal deques; DepWhole and DepSettle carry them over to src/queue.c, for fair swaps.
* The decrement of the parent's counter and the test of its status (src/runtime.c:271-278)
  are two accesses.  A zero can be stale when it is acted on, and a task is then released
  before its children have run (`ReleaseTree.StaleZero`).  In every run the descendants
  of released tasks are COMPLETE exactly as long as every swap that has won found the
  children of its task COMPLETE (`ReleaseTree.CompletionIsExact`); a zero counter at the
  swap is enough (`ReleaseTree.ZeroSuffices`).  Every task is still released exactly once.
* On the path for big objects the computed number of pages suffices for all sizes if and
  only if the second alignment divides the offset of the first part (src/alloc.c:97-98,
  148-151; `Layout.BigPathIsExact`).  The alignments in use satisfy it.

## Model

| member | source | states |
|---|---|---|
| DepMachine.StepWF | src/deps.c:176-714 | every step of parent and releasing threads keeps stacks, elements, table and deques well formed; in particular a `to_notify` stack of task k only ever holds later siblings of k, so dependence edges run from earlier to later |
| DepCount.StepKeeps | src/deps.c:592-714 | the counting invariant is inductive for every interleaving: pushes, pops and `fired` balance, one delivery per scheduled task, and some agent answers for every task whose counters are about to agree |
| DepCount.RunKeeps | src/deps.c:592-714 | it holds in every state of every run |
| DepCount.PushesEqual | src/deps.c:637-644 | successful pushes of a task = its entries on stacks + pops not yet counted + `fired`; nothing is outstanding once it is SCHEDULED |
| DepCount.SwapKeeps | src/runtime.c:538-546 | the compare-and-swap of a releasing thread always finds CREATED |
| DepOrder.WriterOrder | src/deps.c:267-289 | WAW, RAW and first use of a block keep the ordering invariant |
| DepOrder.ReaderOrder | src/deps.c:302-347 | each step of the WAR walk over the readers keeps it, with `deps_last` skips and failed pushes |
| DepOrder.JoinOrder | src/deps.c:451-497 | joining the readers and pushing to the last writer keeps it, if the join is sound |
| DepOrder.ReplaceOrder | src/deps.c:498-501 | replacing a reader element keeps it; its WAR part if the readers dropped are released, or waited for already |
| DepOrder.StepOrder | src/deps.c:176-507 | so does every step of every thread |
| DepOrder.RunOrder | src/deps.c:176-507 | the invariant holds in every state of every run whose joins (and, for WAR, replacements) are sound |
| DepOrder.ConflictOrdering | src/deps.c:176-507 | in those runs a started task finds every earlier conflicting sibling released, at any block |
| DepFragment.SimpleArgsReadFirst | src/deps.c:509-583 | at most one single-block IN argument, in front: then no access after the first is a read |
| DepFragment.SimpleIsRawSafe | src/deps.c:509-583 | such lists are RawSafe: every block read is written later in the list, or is the block of a one-block IN argument in front that the list never writes |
| DepFragment.JoinIsSafe | src/deps.c:463-497 | for RawSafe lists every join is sound: the element's `dependent_metadata` is the last writer, or the writer is released, or the task waits for it already |
| DepFragment.StepFragment | src/deps.c:413-502 | the invariant behind it (which writer a reader element knows) is kept by every step |
| DepFragment.FragmentOrder | src/deps.c:176-507 | both invariants hold in every state of every run of such tasks |
| DepFragment.WritersFirst | src/deps.c:413-450 | RAW and WAW for RawSafe lists without further hypothesis: a started task finds all earlier writers of its blocks released |
| DepFragment.ConflictsInOrder | src/deps.c:267-347 | RAW, WAW and WAR, when no reader is dropped that must still be waited for |
| DepFragment.DropIsExact | src/deps.c:498-501 | one step: a replacement keeps the ordering invariant if and only if each reader it drops is the newest task, released, or waited for by the newest task already |
| DepArgs.RawSafeIsExact | src/deps.c:413-450 | in all runs among tasks with simple lists no reader starts before an earlier writer of its block is released, if and only if the list is RawSafe |
| DepArgs.OwnWriteLost | src/deps.c:424-433 | a list that reads a block after its last write to it: its own write is forgotten |
| DepArgs.SkippedWriteLost | src/deps.c:424-433 | a block read first at a later access, never written: a push that deps_last makes unnecessary leaves the writer unremembered |
| DepArgs.OverwrittenLost | src/deps.c:450-450 | a first IN argument with a second block: the writer of the first block is overwritten |
| DepArgs.WriterLost | src/deps.c:413-450 | one of these happens for every list that is not RawSafe |
| DepCalls.TakeAccess | src/deps.c:176-507 | what one access leaves behind while nobody is being released: the element in force, `dependent_metadata`, deps_last |
| DepCalls.LastReader | src/deps.c:451-497 | a reader that joins an element with the writer forgotten waits for nobody that leads back to it |
| DepExact.OrderIsExact | src/deps.c:176-714 | between two calls of any run: task j never starts before i is released, in any continuation, if and only if i is released or a chain of stacks leads from j back to i |
| DepExact.Overtake | src/deps.c:655-714 | the continuation in which it does: everything that does not wait for i runs to its end |
| DepLimits.JoinIsExact | src/deps.c:451-497 | one step: the push after a join keeps the ordering invariant if and only if it orders every earlier writer of the block |
| DepLimits.RawCanBeLost | src/deps.c:424-450 | a run in which a reader is scheduled while an earlier writer of its block is not released |
| DepLimits.WarCanBeLost | src/deps.c:498-501 | a run of simple argument lists in which a writer is scheduled while an earlier reader is not released |
| DepSerial.RunExec | src/deps.c:176-507 | in every state of a parallel execution, each block holds what its last started writer, as far as it has got in the serial run, leaves there |
| DepSerial.ReadsAreSerial | src/deps.c:176-507 | every body, at every moment, has read exactly the values it reads in the serial run |
| DepSerial.SerialEquivalence | src/deps.c:176-507 | when all tasks are released the store equals that of running them in spawn order, and every body has seen its serial history; bodies are arbitrary functions of what they read from declared blocks, and argument lists are arbitrary: it is enough that at the end of each call's analysis `Safe(i, j)` holds for its task j and every earlier task i that j conflicts with; ideal deques |
| DepSerial.ChainedStep | src/deps.c:655-714 | every step of every thread keeps those chains |
| DepSerial.RawSafeSerial | src/deps.c:176-507 | the calls are so chained, and serial equivalence follows, for RawSafe lists when no reader is dropped that must still be waited for |
| DepProgress.FiredWithinWaitfor | src/deps.c:690-699 | after creation `waitfor` = `fired` + what is outstanding; the two are equal once started |
| DepProgress.ClaimsSucceed | src/runtime.c:538-546 | both swaps from CREATED to SCHEDULED succeed whenever they are reached |
| DepProgress.OneClaimant | src/deps.c:698-700 | no two agents ever head for the swap of one task |
| DepProgress.BodiesRunOnce | src/runtime.c:536-567 | over ideal deques: a body starts at most once, not before SCHEDULED, and exactly once by EXECUTED, over pop, steal and inline execution |
| DepProgress.ExecutedByEnd | src/runtime.c:387-391 | a task reaches EXECUTED only by the end of its body |
| DepProgress.ScheduledWhileRunning | src/runtime.c:387-391 | the assertion after the body: the status is SCHEDULED as long as the body runs |
| DepProgress.EqualCountersMeanReleased | src/deps.c:655-701 | once `fired` equals `waitfor`, every task it was ever pushed on is released |
| DepProgress.IdleMeansQueued | src/deps.c:655-702 | over ideal deques: an incomplete task and nothing in flight means that some deque is not empty |
| DepProgress.NoDeadlock | src/runtime.c:906-931 | while a call is under way or a task is incomplete, some step other than a spawn is possible |
| DepProgress.StepsDescend | src/deps.c:655-702 | every step except a spawn descends in a well-founded order over statuses, counters and pending notifications |
| DepProgress.Quiescence | src/deps.c:655-702 | from every state that a run can reach, everything called so far can be brought to COMPLETE without further calls, and then each body has run exactly once |
| DepDeques.StepSimulates | src/queue.c:125-261 | the machine over byte-counted deques, and over pushes and locks that are a read and compare-and-swaps, refines the ideal one step by step, for every fair swap and every other access |
| DepDeques.CoreSim | src/stack.c:23-85 | its part for stack_push and stack_lock: each access is the whole operation, or a retry that nobody notices |
| DepWhole.Projects | src/runtime.c:536-567 | every run whose swaps are fair projects to a run of DepMachine that ends in the state it stands for |
| DepWhole.BodiesRunOnce | src/runtime.c:536-567 | over the deques of src/queue.c, swaps being fair: a body starts at most once, not before SCHEDULED, and exactly once by EXECUTED |
| DepWhole.OnePlaceIsExact | src/runtime.c:536-567 | in every run: in all states up to n every scheduled task is on one deque, on its way there, in the hands of one thread that has taken it, or run, exactly one of these once, and no other task is anywhere, if and only if every swap before n was fair |
| DepWhole.StalenessSuffices | src/queue.c:239-251 | fewer than 256 advances of `top` between a thief's read and its swap make all swaps of the run fair |
| DepTwice.BodyCanRunTwice | src/queue.c:251-256 | a run over 257 tasks, one deque and one thief, at whose end one body has run twice and a SCHEDULED task is in no place at all |
| DepWhole.IdleMeansQueued | src/runtime.c:906-931 | over these deques, swaps being fair: an incomplete task and nothing in flight means that some deque holds a task |
| DepWhole.SerialEquivalence | src/deps.c:176-507 | over them, swaps being fair and calls chained as above: the store and all that the bodies read are those of the serial run |
| DepWhole.RawSafeSerial | src/deps.c:176-507 | the same for RawSafe lists when no reader is dropped that must still be waited for |
| DepSettle.Quiescence | src/runtime.c:906-931 | over these deques: from every state of a run whose swaps are fair, in the middle of whatever calls, pushes and locks, some continuation without further calls of tpc_call ends with every task COMPLETE, every body run exactly once, and all deques empty |
| DepSettle.Perform | src/deps.c:655-714 | when no call on a deque is about to return, every step that DepMachine can take has a sequence of accesses, all of them possible and fair, that brings the machine nearer to completion |
| DepSettle.Drive | src/queue.c:125-218 | an enqueue, or a dequeue_front of a deque that is not empty, ends in its effect if its thread alone goes on |
| DepRuntime.RivalSpawner | src/deps.c:176-507 | what no other thread changes while the parent analyses: table, elements, argument lists and its place in the analysis |
| DepRuntime.RivalAgent | src/deps.c:664-701 | what no other thread changes while a task is being released: its status, its closed stack and what was taken off it |
| DepRuntime.AccessAt | src/deps.c:219-219 | the loop over blocks visits the accesses of the transition system in their order |
| DepRuntime.Siblings.StackPush | src/stack.c:23-58 | pushes exactly when the stack is open, and changes nothing else |
| DepRuntime.Siblings.TryPush | src/deps.c:273-288 | self and `deps_last` tests, push, and the new `deps_last` |
| DepRuntime.Siblings.VisitReader | src/deps.c:308-346 | one Reader step of the WAR walk, and what it adds to `waitfor` |
| DepRuntime.Siblings.VisitReaders | src/deps.c:303-347 | the whole walk: one Reader step for each reader, and one to leave |
| DepRuntime.Siblings.OverWriter | src/deps.c:267-289 | WAW: one Analyse step |
| DepRuntime.Siblings.OutBlock | src/deps.c:219-348 | one block of an OUT argument: an Analyse step, and the walk if there are readers |
| DepRuntime.Siblings.PushAfterJoin | src/deps.c:468-497 | the JoinPush step |
| DepRuntime.Siblings.JoinReaders | src/deps.c:455-497 | insert_front in the Analyse step, then the JoinPush step |
| DepRuntime.Siblings.AfterWriter | src/deps.c:413-450 | RAW: one Analyse step, with `dependent_metadata` set only after a successful push |
| DepRuntime.Siblings.InBlock | src/deps.c:380-503 | one block of an IN argument: an Analyse step, and a JoinPush step after a join |
| DepRuntime.Siblings.CreateDependency | src/deps.c:176-507 | its steps are the analysis of each block of the argument in turn, and its result the growth of `waitfor` |
| DepRuntime.Siblings.HandleArgument | src/deps.c:509-583 | no step for SAFE arguments, the analysis of each block for others |
| DepRuntime.Siblings.Publish | src/deps.c:637-644 | its steps are Finish, the swap and the enqueue when nothing was pushed, else Finish (`waitfor`) and then CREATED |
| DepRuntime.Siblings.ScheduleNewest | src/runtime.c:536-567 | schedule_task by the spawning thread: the swap, which never fails, and the enqueue |
| DepRuntime.Siblings.Put | src/runtime.c:550-567 | enqueue, or inline execution when the deque is full |
| DepRuntime.Siblings.CreateDependencies | src/deps.c:592-645 | from CREATING to CREATED under interference: one more task; its own steps are the spawn, the analysis of every access, and the publication |
| DepRuntime.Siblings.StackLock | src/deps.c:664-666 | the Lock step: closes the stack and takes what is on it |
| DepRuntime.Siblings.PopAndCount | src/deps.c:670-678 | the Pop and Fire steps: the first entry, and its `fired` incremented |
| DepRuntime.Siblings.AwaitCreated | src/deps.c:685-689 | true exactly when the task has left CREATING, with the one step that says so; false only when the task is CREATING and the other threads have played all they had to do |
| DepRuntime.Siblings.ScheduleFired | src/deps.c:692-700 | both tests on fresh reads, then the swap and the enqueue if they pass |
| DepRuntime.Siblings.SwapFired | src/runtime.c:544-546 | the swap from CREATED to SCHEDULED, which never fails |
| DepRuntime.Siblings.ScheduleTask | src/runtime.c:536-567 | schedule_task by a releasing thread: the swap and the enqueue |
| DepRuntime.Siblings.FireNext | src/deps.c:670-701 | one round: pop, count, wait, test, and schedule if the counters agree; unfinished only while the task just counted is CREATING and nothing else can happen |
| DepRuntime.Siblings.FireDependencies | src/deps.c:655-714 | its own steps are Lock, a round for every entry, and COMPLETE at the end; if it does not finish they are Lock, the rounds done and the first two steps of one more, whose task is CREATING; so a call at whose end no task is CREATING has finished |
| Bytes.SameByte | src/queue.c:83-93 | two counters have the same byte if and only if they differ by a multiple of 256 |
| Bytes.SlotOf | src/queue.c:140-140 | the slot mask gives the counter modulo 128 |
| Bytes.Opposite | src/queue.c:103-113 | the XOR test holds if and only if the counters differ by 128 modulo 256 |
| Deque.StepRefines | src/queue.c:125-261 | every step of owner and thieves keeps the invariant and appends, takes last, takes first or leaves the abstract sequence alone, as its result says |
| Deque.FullTest | src/queue.c:136-138 | the test is exact: full if and only if 128 tasks are held |
| Deque.LookTest | src/queue.c:169-202 | what the comparisons in dequeue_front mean on the counters |
| Deque.SwapRefines | src/queue.c:239-260 | a thief's swap takes the first task, and fails only if another took it |
| Deque.EmptyTest | src/queue.c:243-245 | the test of dequeue_back for up-to-date reads |
| DequeRuns.RunInv | src/queue.c:125-261 | the invariant holds in every state of every run whose swaps are fair |
| DequeRuns.DequeRefinement | src/queue.c:125-261 | every run whose swaps are fair explains its operations by an abstract sequence: append at the end, owner takes the last, thieves the first |
| DequeRuns.Conservation | src/queue.c:125-261 | stored = returned + about to be returned + held, for every task at every moment of a run whose swaps are fair: none lost, none doubled |
| DequeRuns.ConservationIsExact | src/queue.c:125-261 | in every run: that equation holds for all tasks in all states up to n if and only if every swap before n was fair |
| DequeRuns.CountersWithin | src/queue.c:103-113 | -1 <= bottom - top <= 128, and the XOR test holds exactly at 128 |
| DequeRuns.NullMeansEmpty | src/queue.c:160-218 | after a NULL the deque stays empty until the owner stores again |
| DequeRuns.IsEmptyHolds | src/runtime.c:453-454 | the assertion in pop_task, although isEmpty_Queue reads `bottom` and `top` at different moments |
| DequeRuns.StalenessSuffices | src/queue.c:239-251 | fewer than 256 advances of `top` between a thief's read and its swap make all swaps of the run fair |
| DequeRuns.LapIsExact | src/queue.c:251-251 | one swap refines the abstract deque if and only if it is fair |
| DequeRuns.WrapCanDuplicate | src/queue.c:251-256 | after 256 advances one task, stored once, is returned twice |
| DequeRuntime.WorkQueue.TestFull | src/queue.c:133-138 | the full test with its two reads; refuses only when 128 tasks were held at that moment |
| DequeRuntime.WorkQueue.WriteEntry | src/queue.c:140-141 | the entry is written before it is published |
| DequeRuntime.WorkQueue.StoreTask | src/queue.c:140-143 | the task is appended, at one moment during the call |
| DequeRuntime.WorkQueue.Enqueue | src/queue.c:125-148 | true: appended, in the last of four accesses; false: full, found in the second of two; the owner does nothing else |
| DequeRuntime.WorkQueue.ReserveBottom | src/queue.c:169-169 | the decrement of `bottom` |
| DequeRuntime.WorkQueue.LookAtBottom | src/queue.c:169-202 | empty, one element left, or the last one taken |
| DequeRuntime.WorkQueue.RestoreBottom | src/queue.c:179-183 | the empty case puts `bottom` back |
| DequeRuntime.WorkQueue.RaceForLast | src/queue.c:208-217 | the race for the last element: taken at one moment, or lost |
| DequeRuntime.WorkQueue.CloseRace | src/queue.c:213-213 | `bottom` goes past the last element either way |
| DequeRuntime.WorkQueue.DequeueFront | src/queue.c:160-218 | the last task, taken at one moment during the call, or NULL and then nothing is held; the accesses are those of the empty case, of two or more tasks, or of the race, and the result is what the look or the race took |
| DequeRuntime.WorkQueue.LookAtTop | src/queue.c:240-245 | the two reads and the empty test of a thief |
| DequeRuntime.WorkQueue.ReadFirst | src/queue.c:248-249 | the entry a thief reads before it swaps |
| DequeRuntime.WorkQueue.TrySwap | src/queue.c:251-260 | won: the first task, removed at that moment; lost: another thread advanced `top` |
| DequeRuntime.WorkQueue.DequeueBack | src/queue.c:232-261 | the thief swaps exactly when the result is not 0, and takes a task, the first, exactly when it is 1; 0: the empty test held on the two values read; -1: another thread took a task during the call |
| ClosableStack.StepKeeps | src/stack.c:23-107 | an invariant of any number of pushers and one closer |
| ClosableStack.DrainReverses | src/stack.c:93-107 | the drained list is the reverse of the order of the successful pushes, each exactly once, no refused one |
| ClosableStack.ClosedForGood | src/stack.c:43-57 | a push is refused only after the close, and nothing gets in afterwards |
| ClosableStack.LockedOnce | src/stack.c:75-82 | both assertions of stack_lock |
| ClosableStack.Stack.SwapIn | src/stack.c:43-49 | the swap that makes the node the top |
| ClosableStack.Stack.TryPush | src/stack.c:23-58 | true: everything the others pushed meanwhile, then the task, once; false: closed, and nothing but what the others pushed |
| ClosableStack.Stack.Lock | src/stack.c:66-85 | the list taken is everything pushed before and by the others meanwhile, and the stack is closed |
| ClosableStack.Stack.Drain | src/stack.c:93-107 | stack_pop until NULL gives the tasks in reverse order |
| ReleaseTree.StepKeeps | src/runtime.c:247-288 | `number_of_children` = children called and not yet decremented, and who owes which test, kept by every step |
| ReleaseTree.CounterPositive | src/runtime.c:271-274 | the counter is positive before each decrement: the assertion holds |
| ReleaseTree.ReleasedOnce | src/runtime.c:254-256 | each task is released as many times as its phase says, so at most once |
| ReleaseTree.ReleasedExactlyOnce | src/runtime.c:247-288 | at quiescence a task whose body ended and whose children have all decremented has been released exactly once, for every order of parent and children |
| ReleaseTree.ZeroMeansComplete | src/runtime.c:923-931 | when tpc_sync reads zero, every child called so far is COMPLETE |
| ReleaseTree.HierarchicalCompletion | src/runtime.c:247-288 | with decrement and test atomic, a released task has only COMPLETE descendants |
| ReleaseTree.CompletionIsExact | src/runtime.c:254-286 | in every run, with the two apart: all released tasks up to a state have only COMPLETE descendants if and only if every swap won before it found the children of its task COMPLETE |
| ReleaseTree.ZeroSuffices | src/runtime.c:271-286 | a zero counter at every winning swap is enough for that |
| ReleaseTree.StaleZero | src/runtime.c:271-286 | a run in which a task is released while its child has not started |
| ReleaseRuntime.TaskTree.SwapStatus | src/runtime.c:253-256 | one step: won if and only if the task was EXECUTED at that moment, and then this thread and no other released it; lost by the task itself: another did |
| ReleaseRuntime.TaskTree.Fire | src/runtime.c:258-259 | one step, to COMPLETE: nobody else touches a task between its release and its own decrement |
| ReleaseRuntime.TaskTree.DecrementParent | src/runtime.c:271-272 | the decrement and the zero that decides |
| ReleaseRuntime.TaskTree.ParentExecuted | src/runtime.c:276-277 | the test of the parent's status |
| ReleaseRuntime.TaskTree.ReleaseTask | src/runtime.c:247-288 | the thread's own steps: the swap; if it won, fire_dependencies and what the parent needs; every task that the call has released is COMPLETE and has been followed up to its end when it returns |
| ReleaseRuntime.TaskTree.ReleaseParent | src/runtime.c:270-286 | the decrement; the test of the parent's status exactly when the counter was 1; release_task of the parent exactly when it was EXECUTED |
| ReleaseRuntime.TakenOnce | src/runtime.c:247-288 | in every run no step of any task but a call is taken twice, so those own steps are all that is ever done for the task |
| ReleaseRuntime.TaskTree.ExecuteEnd | src/runtime.c:387-404 | EXECUTED, the test of the counter, and release_task exactly when it was zero; released on return, unless a child was outstanding at some moment of the call |
| Layout.AlignUp | src/regions.c:64-65 | the least multiple not below: aligned, and less than one alignment away |
| Layout.QallocAligned | src/alloc.c:104-105 | both parts aligned, in order, not overlapping |
| Layout.NewPageFits | src/alloc.c:53-80 | a request of at most a quarter page fits a fresh page, its past-the-end byte included, although the code does not look again |
| Layout.BigPathFits | src/alloc.c:146-159 | the past-the-end byte lies inside the computed pages |
| Layout.BigPathIsExact | src/alloc.c:146-159 | that holds for all sizes if and only if the second alignment divides the offset of the first part |
| Layout.ClearStaysInPage | src/regions.c:98-107 | whole-word clearing, size 0 included, covers the object and stays on its page |
| PagePool.Pool.AddSinglePages | src/pages.c:429-454 | n adjacent pages go on one list in order; counters equal lengths and no page is on two lists |
| PagePool.Pool.AllocNew | src/pages.c:307-354 | the last n pages of a block, whose size is added to the page count |
| PagePool.Pool.Refill | src/pages.c:466-467 | a group of fresh pages goes on the empty list in order; all other lists stay |
| PagePool.Pool.AllocSinglePage | src/pages.c:456-481 | the head of the list; or, if it is empty, the last page of a group from a fresh block, the others of which stay on the list; the whole pool afterwards |
| PagePool.Pool.FreeSinglePage | src/pages.c:483-507 | the page goes in front of one list, all others stay |
| Regions.Heap.LiveObjectsApart | src/alloc.c:40-89 | live objects of all live regions are pairwise disjoint and avoid every page header and region record |
| Regions.Heap.RegionOf | src/regions.c:378-384 | the page map gives the region of every live object |
| Regions.Heap.Clear | src/regions.c:98-107 | the do-while loop zeroes exactly the words of the rounded size |
| Regions.Heap.GrabPage | src/pages.c:278-285 | the page that the pool gives, recorded for the region, owned by no other; the whole state afterwards |
| Regions.Heap.NewSubregion | src/regions.c:162-221 | an empty region whose record lies on its own first page and is cleared; the whole state afterwards, other regions and all other memory unchanged |
| Regions.Heap.StartPage | src/alloc.c:52-83 | a new page, cleared, in front of `pages`; the whole state afterwards |
| Regions.Heap.AllocBlock | src/alloc.c:40-89 | the object at the start of a new page on which no live object lies; the whole state afterwards |
| Regions.Heap.Rstralloc | src/regions.c:223-232 | an aligned object inside one page of the region, disjoint from all live ones; address, front, `available`, page map, memory and pool exactly, whether it fits or a page is taken |
| Regions.Heap.TypedRalloc | src/regions.c:234-242 | the same, and the new object is zero, clearing touching no word of an earlier object |
| Regions.Heap.RallocSmall0 | src/regions.c:301-317 | the same address and the same whole state as TypedRalloc, on the fast path and off it |
| Regions.Heap.DeleteRegion | src/regions.c:335-350 | every page of the region goes, in list order, to the free list drawn for it; the whole state afterwards: other regions, their objects and all memory unchanged |
| Serialize.MakePageList | src/serialize.c:58-71 | the page list in reverse, so that the region's record comes first |
| Serialize.SerializePages | src/serialize.c:98-151 | one record for each page, with the first and last bits where they belong |
| Serialize.SerializeRegions | src/serialize.c:158-198 | all regions, normal pages before big ones |
| Serialize.AllocateRegions | src/serialize.c:235-322 | both results of the first pass: the rebuilt regions and the translation of every page number |
| Serialize.RegionsComeBack | src/serialize.c:265-320 | reading what was written gives the same regions in order, both lists in order and with sizes |
| Serialize.TranslationFaithful | src/serialize.c:207-219 | every address inside a unit goes to the same offset in the unit's new place |
| Serialize.LookupNone | src/serialize.c:210-216 | pages not written have no translation |
| Serialize.DeserializePages | src/serialize.c:398-501 | every page of unit k gets its dump under the updater in force, units do not disturb each other, and nothing else is written |
| Serialize.UpdaterOfRegion | src/serialize.c:491-497 | that is updater i for exactly the pages of region i |
| Serialize.RoundTrip | src/serialize.c:534-555 | the regions come back, every page of unit u of region i holds what updater i has made of what it held, several pages or one, and nothing else is written |
| Trie.Levels | src/trie.c:25-28 | both indices are in bounds and together are the index |
| Trie.CellsDiffer | src/trie.c:25-28 | different indices meet different cells |
| Trie.IndexInBounds | src/deps.c:38-40 | GET_INDEX of any address whatever stays inside both levels |
| Trie.IndexInGrid | src/deps.c:38-40 | inside the grid it is the number of the block |
| Trie.Table.GetOrCreateNode | src/trie.c:101-145 | the flat cell; creating a row does not change the flat table |
| Trie.Table.GetNode | src/trie.c:158-180 | the flat cell, rows that do not exist included |
| Trie.Table.SetNode | src/trie.c:190-206 | changes that cell of the flat table and no other |
| Trie.Replay | src/trie.c:101-206 | any sequence of calls is answered as by a flat table |
| Blocks.OverlapMeets | src/deps.c:208-209 | overlapping byte ranges have block ranges that meet |
| Blocks.MeetIsExact | src/deps.c:208-209 | block ranges meet if and only if two bytes of the ranges lie in one block |
| Blocks.SegmentsApart | src/balloc.c:35-44 | two allocations of a run that fits the grid have no block in common |
| Blocks.ApartIsExact | src/balloc.c:35-44 | for any allocation sizes: all segments have pairwise disjoint block indices if and only if there are fewer than two, or they fit the grid |
| Blocks.Balloc.GridIsExact | src/balloc.c:35-44 | the same for every state that a sequence of calls can reach, by the allocator's own pointers |
| Blocks.Balloc.Alloc | src/balloc.c:35-44 | the k-th call returns the start of the k-th segment |

## Left out

Contracts that need a hypothesis, or say less than one might hope:

- DepOrder.ConflictOrdering: needs sound joins, which RawSafe lists give (DepFragment.JoinIsSafe), and for WAR that no reader is dropped that must still be waited for; DepExact.OrderIsExact is the exact statement without either.
- DepFragment.WritersFirst: for RawSafe argument lists only; for every other list it is false (DepArgs.RawSafeIsExact).
- DepFragment.ConflictsInOrder: WAR needs that no reader is dropped that must still be waited for; without that it is false (DepLimits.WarCanBeLost), and DepExact.OrderIsExact gives the exact condition.
- DepFragment.DropIsExact: about the invariant and one step; a reader that is dropped may still come to be waited for through a later access of the same list.  The exact statement about the ordering itself is DepExact.OrderIsExact.
- DepLimits.JoinIsExact: the same.
- DepSerial.SerialEquivalence: calls must be chained, and DepExact.OrderIsExact shows what can happen to a pair that is not; bodies do not spawn children or touch undeclared blocks; values are integers, one per block; ideal deques, for which DepWhole.SerialEquivalence substitutes those of src/queue.c.
- DepSerial.RawSafeSerial: the same for bodies and deques.
- DepWhole.SerialEquivalence: the same for calls and bodies, and swaps must be fair.
- DepWhole.RawSafeSerial: the same.
- DepProgress.BodiesRunOnce: ideal deques; over those of src/queue.c DepWhole.BodiesRunOnce states it for fair swaps.
- DepProgress.IdleMeansQueued: ideal deques; DepWhole.IdleMeansQueued is the statement for those of src/queue.c.
- DepWhole.BodiesRunOnce: swaps must be fair, without which a body can run twice (DepTwice.BodyCanRunTwice).  The hypothesis is exact for the stronger statement that each task is in one place (DepWhole.OnePlaceIsExact); for the bodies alone it is sufficient only, since a task taken twice may never be run again.
- DepWhole.IdleMeansQueued: swaps must be fair.
- DepSettle.Quiescence: says that a fair continuation exists, not that every one gets there: a scheduler that starves the threads with work, while idle ones look for it, is not excluded.
- DepSettle.Perform: a step of the ideal machine that steals is brought about by the owner.
- DepProgress.NoDeadlock: the parent does not wait for a body in the model, and a body is over in one step; what a body does inside is in DepSerial.
- DepRuntime.Siblings.AwaitCreated: gives up when the task is CREATING and the schedule of the other threads is used up; a fair schedule would go on.
- DepRuntime.Siblings.FireNext: unfinished in that case.
- DepRuntime.Siblings.FireDependencies: the same; the deletion of the task's region is in Regions, not here.
- DequeRuns.Conservation: swaps must be fair; StalenessSuffices gives the bound, ConservationIsExact shows that the condition is exact, WrapCanDuplicate is a run without it.
- DequeRuns.DequeRefinement: the same hypothesis.
- ReleaseTree.HierarchicalCompletion: decrement and test taken as one step; apart it is false (ReleaseTree.StaleZero), and ReleaseTree.CompletionIsExact gives the condition.
- Regions.Heap.Rstralloc: objects that fit the current page or are at most a quarter page; bigger ones take several adjacent pages, whose sizes Layout.BigPathFits covers.
- Regions.Heap.TypedRalloc: the same.
- Regions.Heap.RallocSmall0: the same.
- Regions.Heap.NewSubregion: without the tree of regions and its locks.
- Regions.Heap.DeleteRegion: without big pages and without unlinking from the parent.
- Serialize.DeserializePages: a page is one value, and an updater one function from the pages of a unit to as many pages; the scan over objects in update_page, and which fields of the page header and region record are kept from the new page, are not modelled.
- Serialize.RoundTrip: the same.

Not modelled:

- Strided arguments; the OUT path restores addr_out from addr_in (src/deps.c:559, 568).
- Store buffers of the processor: memory is sequentially consistent.  Nodes, elements and descriptors are not reclaimed, so addresses are not reused.
- 32-bit widths of waitfor, fired, number_of_children and of sizes; the bytes of the deque are modelled as bytes.
- DepMachine takes operations on stacks and deques as single steps; DepDeques takes them apart into accesses and shows that nothing changes.  There the stack is a list and a top stands for it; the linked nodes are in ClosableStack.
- When a task may go from EXECUTED to RELEASING: DepMachine lets it happen at any moment, ReleaseTree says when it does.
- alloc_pages and free_pages for several pages, set_region_range, the string-extending allocators, the tree of regions with its locks, the two levels of the page-to-region map (src/pages.c:146-156 as one map).
- The front part of a fresh block that alloc_new does not return (it is lost to the pool in the source as well).
- Threads, barriers, affinity, backoff, the choice of victims and of free lists: any choice is allowed.
- The worker loop and the loop of tpc_sync, beyond the steps they take.
- src/list.c (readers are sequences), statistics, profiling, debugging output, file input and output.
