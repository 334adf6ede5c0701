# rand-brain-evo in Dafny: construction interpreter, supervisor, gene store

rand-brain-evo evolves small "brains": networks of weight units and
sum-and-sigmoid units ("sumsis"). A brain is built from a gene sequence. Each
gene is an integer command with an integer argument. A stack machine
interprets the commands and patches an integer wiring table. A PHP supervisor
runs the worker as a child process. When the worker signals, the supervisor
exchanges gene sequences with other pools through a small HTTP gene store.
This project models three parts of that system and proves properties about
them.

- **Construction interpreter** (`rand-brain-evo.c`).
  - `construction.dfy`, module `Construction`: the interpreter as pure
    values. A `Wiring` is the construction state. `Step` is one command of
    `brain_constr_process_command`, `Run` folds a gene sequence through it,
    and `Build` is `genes_create_brain`. `Valid` is the construction
    invariant: the stacks are bounded, and every pin names a unit that exists.
  - `brain.dfy`, module `Brains`: the same behaviour in place.
    - The class `Brain` holds `array2`/`array` tables. Its methods are proved
      equal to `Step` on the abstract value `Abs()`.
    - The class `Genes` holds the command and argument arrays.
    - `CreateBrain` is the loop of `genes_create_brain`.
  - `brain_get_output` is modelled only as the choice of which sumsi is read
    (`OutputSource`).
- **Evaluation skeleton** (`evaluation.dfy`, module `Evaluation`).
  - This is the integer loop of `evaluate`: the question counter, the
    think-step counter and the ±1 energy.
  - Whether an answer matched its target is an oracle `correct(q)`.
- **Supervisor** (`client.php`; `supervisor.dfy`, module `Supervisor`).
  - The globals `$running` and `$state` are the fields `running` and
    `intent` of class `Supervisor`.
  - Signals are events. Posts, exchange-file reads and writes, signals to the
    child, the wait and the exit are effects appended to a trace.
  - Each tick takes a `Round`. It gives the signals that arrive during the
    sleep and during each branch, the replies of the posts (`None` is a
    failed request) and the file content.
  - The pure functions `HandledAll`, `Ticked`, `Looped` and `Supervised`
    specify the class methods. The lemmas are stated about these functions.
- **Gene store** (`www/server.php`; `genestore.dfy`, module `GeneStore`).
  - The `xpolgenes` table is the field `rows: seq<Row>` of class `Store`.
  - Timestamps are whole seconds. The row inserted by a `put` is created at
    the request time `now`.
  - `Get` chooses any servable row nondeterministically, in place of
    `order by random()`. `Put` appends a row and then applies `Retained`.
    `Serve` dispatches, answering 500 when no branch applies.

`options.dfy` holds the `Option` type shared by the modules.

These facts about the code shape the model:

- The store takes no lock: neither branch runs under mutual exclusion. The
  model treats each request as one step on the table and leaves out
  interleavings of concurrent requests.
- The supervisor never looks at the body of a put reply. Only a failed
  request (PHP `FALSE`) matters.
- The supervisor ignores the child's exit status. The script ends with
  status 0 after `pcntl_wait`.
- A failed get makes `file_put_contents` write `FALSE`, which is an empty
  file. `Body(None)` is therefore `""`.
- SQLite compares `created` with `datetime("now", "-1 hour")` as text. At
  one-second resolution this is the order of the timestamps, which the model
  keeps as integers.

## Model

| member | source | states |
|---|---|---|
| Construction.InitialWiring | rand-brain-evo.c:109-120 | The state after `brain_constr_init` satisfies the construction invariant: both stacks and maxima are 1, nothing is connected, and weight 1's initial weight is .5 (kept as 50). |
| Construction.ConnectTarget | rand-brain-evo.c:139-171 | A connection command has a target exactly when 0 <= ix < stack. The target p = stack - ix then lies in [1, stack]. This is the corrected guard. |
| Construction.StepKeepsValid | rand-brain-evo.c:124-201 | Every command that does not die keeps the construction invariant, only raises the maxima, and keeps the learning rate. |
| Construction.NewWeightPushes | rand-brain-evo.c:128-133 | CMD_NEW_WEIGHT dies iff the stack would reach MAX_WEIGHTS. Otherwise it raises the stack by exactly 1, sets the maximum to max(old max, new stack) and records ix as the new weight's initial weight. Other recorded weights and all other state are unchanged. |
| Construction.NewSumsiPushes | rand-brain-evo.c:134-138 | CMD_NEW_SUMSI dies iff the stack would reach MAX_SUMSIS. Otherwise it raises the stack by exactly 1 and the maximum to cover it. Nothing else changes. |
| Construction.PopsStopAtOne | rand-brain-evo.c:173-178 | The POP commands never die. They lower their stack only when it is above 1 and change nothing else, the maxima included. |
| Construction.SumsiToWeightTouchesOnlyRowP | rand-brain-evo.c:139-154 | With ix outside [0, weight_stack) the two SUMSI_TO_WEIGHT commands change nothing. Otherwise they point row p's IN (resp. CTRL) pin pair at the top sumsi, and every other pin, row and field is unchanged. |
| Construction.WeightToSumsiTouchesOnlyTop | rand-brain-evo.c:155-162 | CMD_WEIGHT_TO_SUMSI_IN writes only when 0 <= ix < sumsi_stack. It then sets only the top weight's OUT pins, to (sumsi_stack - ix, SUMSI_IN). |
| Construction.WeightToWeightCtrlLinksBothWays | rand-brain-evo.c:163-172 | CMD_WEIGHT_TO_WEIGHT_CTRL sets top.OUT = p with OUT_TYPE WEIGHT_CTRL and p.CTRL = top with CTRL_TYPE WEIGHT_OUT. Every other pin of those two rows (when p is the top itself, every pin but OUT and CTRL) and all other rows and fields are unchanged, and nothing happens when ix is outside [0, weight_stack). |
| Construction.InputOutputAndUnknown | rand-brain-evo.c:179-199 | CMD_WEIGHT_TO_INPUT dies (over-indexed input) iff ix is not a global input. Otherwise it sets the top weight's IN pins to (ix, GLOBAL_IN) and input_conn[ix] = top. The top weight's OUT and CTRL pins, every other row and input, the stacks, the maxima, output_conn, the initial weights and the learning rate are unchanged. CMD_SUMSI_TO_OUT sets output_conn = sumsi_stack. Every code outside 901..910 dies. |
| Construction.Step | rand-brain-evo.c:124-201 | One command dies exactly when it is NEW_WEIGHT with the weight stack at MAX_WEIGHTS - 1, NEW_SUMSI with the sumsi stack at MAX_SUMSIS - 1, WEIGHT_TO_INPUT with ix not a global input, or a code outside 901..910. A command that does not die never lowers a maximum and keeps the learning rate. |
| Construction.Run | rand-brain-evo.c:343-345 | A run of genes that does not die keeps the invariant, never lowers a maximum and keeps the learning rate. |
| Construction.Build | rand-brain-evo.c:338-347 | A brain built without dying satisfies the invariant and carries the genes' learning rate. |
| Construction.RunAppend | rand-brain-evo.c:343-345 | Running a + b is running a and then, unless it died, b. This is the left fold in order, where the first death ends construction. |
| Construction.RunSnoc | rand-brain-evo.c:343-345 | The last gene is applied to the state left by all the earlier ones. |
| Construction.StacksStayInBounds | rand-brain-evo.c:111-138 | For any gene sequence that does not die, 1 <= weight_stack <= weight_stack_max < MAX_WEIGHTS and 1 <= sumsi_stack <= sumsi_stack_max < MAX_SUMSIS. The output sumsi has been constructed, and the learning rate is the genes' own. |
| Construction.InitialGenes | rand-brain-evo.c:312-325 | genes_init's sequence has three genes, from WEIGHT_TO_INPUT to SUMSI_TO_OUT. |
| Construction.InitialGenesBrain | rand-brain-evo.c:312-347 | Building genes_init's genes gives input_conn[8] = 1, weight 1 IN = (8, GLOBAL_IN), weight 1 OUT = (1, SUMSI_IN), output_conn = 1, both stacks at 1 and learning rate 0.01. |
| Construction.OutputSource | rand-brain-evo.c:291-294 | brain_get_output reads no sumsi iff output_conn is 0. Otherwise it reads sumsi output_conn itself, which is a constructed sumsi below MAX_SUMSIS. |
| Construction.NewWeightSlotAsWritten | rand-brain-evo.c:129-131 | The slot line 130 writes is the slot the corrected command records the new weight in, and it lies outside initial_weights (not in [0, MAX_WEIGHTS)) exactly on the push that line 131 kills. |
| Construction.PushingWeights | rand-brain-evo.c:128-133 | n CMD_NEW_WEIGHT genes (n < MAX_WEIGHTS - 1) on a fresh brain stack n weights above weight 1, with the invariant kept. |
| Construction.NewWeightOverrunsTable | rand-brain-evo.c:129-131 | 9998 NEW_WEIGHT genes (fewer than MAX_GENES) bring the stack to 9999. The next one writes initial_weights[10000], one past the end, before dying. |
| Construction.NewWeightStaysInBounds | rand-brain-evo.c:128-133 | With the check before the write, every recorded initial weight has an index in [1, MAX_WEIGHTS). |
| Construction.ConnectTargetAsWritten | rand-brain-evo.c:141-142 | The guard as written accepts exactly ix < stack, negative ix included. |
| Construction.NegativeIxEscapesStack | rand-brain-evo.c:139-171 | On a fresh brain, ix = -MAX_WEIGHTS passes the written guard with p = MAX_WEIGHTS + 1, past the table, and the corrected guard refuses it. The two guards agree for every ix >= 0. |
| Construction.InputGuardAsWritten | rand-brain-evo.c:182 | The written guard accepts every global input and, besides them, exactly the negative indexes. |
| Construction.NegativeInputPassesGuard | rand-brain-evo.c:182-185 | ix = -1 passes the written guard of line 182, which line 185 would use as an index. The written and corrected guards differ exactly on negative ix. |
| Brains.Brain.constructor | rand-brain-evo.c:95-99 | brain_alloc gives fresh tables of the C sizes. |
| Brains.Brain.ConstrInit | rand-brain-evo.c:109-120 | After the init loops both stacks and maxima are 1, output_conn is 0, every input_conn entry and every weight_conn entry is 0, weight 1's initial weight is .5, and the rate is 1e-5. The abstract value is InitialWiring. |
| Brains.Brain.SetLearningRate | rand-brain-evo.c:342 | Copying the genes' learning rate changes nothing else and keeps the invariant. |
| Brains.Brain.ProcessCommand | rand-brain-evo.c:124-201 | The command returns ok exactly when Step does not die. It then leaves the tables holding Step's result, with the invariant kept. |
| Brains.Brain.NewWeight | rand-brain-evo.c:128-133 | In place, equals Step on CMD_NEW_WEIGHT, including when it dies. |
| Brains.Brain.NewSumsi | rand-brain-evo.c:134-138 | In place, equals Step on CMD_NEW_SUMSI, including when it dies. |
| Brains.Brain.SumsiToWeight | rand-brain-evo.c:139-154 | In place, equals Step on the two SUMSI_TO_WEIGHT commands. |
| Brains.Brain.WeightToSumsiIn | rand-brain-evo.c:155-162 | In place, equals Step on CMD_WEIGHT_TO_SUMSI_IN. |
| Brains.Brain.WeightToWeightCtrl | rand-brain-evo.c:163-172 | In place, equals Step on CMD_WEIGHT_TO_WEIGHT_CTRL, including the case where the top weight is p itself. |
| Brains.Brain.Pop | rand-brain-evo.c:173-178 | In place, equals Step on the POP commands. |
| Brains.Brain.WeightToInput | rand-brain-evo.c:179-190 | In place, equals Step on CMD_WEIGHT_TO_INPUT, with ok false exactly when it dies. |
| Brains.Genes.constructor | rand-brain-evo.c:306-310 | genes_alloc gives fresh command and argument arrays of MAX_GENES entries, holding no genes yet (length 0). |
| Brains.Genes.Init | rand-brain-evo.c:312-325 | The genes hold InitialGenes and the learning rate 0.01. |
| Brains.CreateBrain | rand-brain-evo.c:338-347 | The fold over commands[0..length) succeeds exactly when Build succeeds, and the brain then holds Build's result. |
| Evaluation.Energy | rand-brain-evo.c:557-558 | Each answer moves the energy by one, so after n questions it lies in [-n, n]. |
| Evaluation.EnergyCountsAnswers | rand-brain-evo.c:557-558 | After n questions the energy is (right answers) - (wrong answers), so it lies in [-n, n]. |
| Evaluation.FullRunIsOdd | rand-brain-evo.c:538-563 | After STEPS + 1 = 501 questions the energy is odd and within [-501, 501]. |
| Evaluation.Evaluate | rand-brain-evo.c:532-564 | The loop asks exactly STEPS + 1 questions, because age is raised before the test, and runs 40 think steps per question. It returns the ±1 energy of the answers, which is odd and within [-501, 501]. |
| GeneStore.Servable | www/server.php:12 | The rows a get chooses from are exactly the rows created strictly after now - 1 hour. |
| GeneStore.Retained | www/server.php:18 | The delete keeps exactly the rows not created strictly before now - 1 hour. |
| GeneStore.RetainedKeepsCounts | www/server.php:18 | The delete keeps every row inside the window as many times as it occurs (two identical rows both stay) and leaves no copy of an expired row. |
| GeneStore.Dispatch | www/server.php:10-24 | `todo=get` fetches. `todo=put` with `data` set submits that data. Any other form, including a missing todo or a put without data, is rejected. |
| GeneStore.Store.constructor | www/server.php:8 | The store opens on the table as it is. |
| GeneStore.Store.Get | www/server.php:11-15 | The reply is the genes of some row created less than an hour ago, or empty output when there is none. The table is not modified. |
| GeneStore.Store.Put | www/server.php:16-20 | The table becomes the old rows plus (0, data, now), with every row created before now - 1 hour then deleted. |
| GeneStore.Store.Serve | www/server.php:10-24 | A get is answered 200 with a get reply and the table unchanged. A put is answered 200 "ok" after insert-then-delete. Everything else is answered 500 with an empty body and the table unchanged. |
| GeneStore.PutKeepsWindow | www/server.php:17-18 | After a put the new row is present as the last row and no expired row remains. Every row that was not expired is kept, in order. |
| GeneStore.BoundaryRowIsKeptButNotServed | www/server.php:12-18 | A row created exactly one hour ago is neither served by get nor deleted by put. |
| GeneStore.ExpiredRowIsNeverServed | www/server.php:12 | Expiry is lazy. An expired row still in the table is never served. |
| GeneStore.SubmittedRowWindow | www/server.php:12-18 | A row submitted at time t is in the table after its put, and is servable at a later time exactly while that time is before t + 1 hour. |
| GeneStore.RetainedComposes | www/server.php:18 | A delete at t1 followed by one at a later t2 is the delete at t2. In particular the delete is idempotent. |
| GeneStore.NothingExpiredNothingDeleted | www/server.php:18 | The delete leaves a table with no expired row unchanged. |
| GeneStore.SubmitsWithinOneHourAreAllKept | www/server.php:16-20 | Take N puts into an empty table, in time order, all within one hour of the first. Afterwards the table holds exactly N rows, the submitted genes in order. |
| GeneStore.ExchangeScenario | www/server.php:10-20 | Put AAAA into an empty table: AAAA is then the only possible reply. Put BBBB 3660 s later: the table holds only BBBB, and BBBB is the only possible reply. |
| Supervisor.Form | client.php:70-77 | A get is posted as todo=get, and a put as todo=put with data equal to the content it carries. |
| Supervisor.RequestsAreHandled | www/server.php:10-20 | The store never rejects a supervisor request. A get reaches the fetch branch, and a put submits exactly its content. |
| Supervisor.HandledAll | client.php:11-31 | Handling signals leaves the trace alone. The supervisor keeps running iff it was running and no SIGTERM or SIGINT arrived. |
| Supervisor.Handled | client.php:11-31 | One signal writes nothing: TERM and INT clear `running` and nothing else does, USR1/USR2 set the intent as LastIntent of that one signal says, and other signals leave it. |
| Supervisor.LastSignalWins | client.php:22-29 | After any signals the intent is the last USR1 (download) or USR2 (upload), overwriting an unconsumed intent. With neither, the intent is what it was. Stop and other signals leave it alone. |
| Supervisor.Posted | client.php:33-48 | A post appends one request effect and keeps the intent. `running` stays true iff it was true and the request did not fail. |
| Supervisor.Downloaded | client.php:68-73 | The download branch appends post(get), the write of the reply (empty on failure) and SIGUSR1 to the child. `running` survives iff the get succeeded and no TERM/INT arrived, and the intent is LastIntent of the signals that arrived meanwhile. |
| Supervisor.Uploaded | client.php:74-79 | The upload branch appends the file read, put of exactly the file content and SIGUSR2 to the child. `running` survives iff the put succeeded and no TERM/INT arrived, and the intent is LastIntent of the signals that arrived meanwhile. |
| Supervisor.Ticked | client.php:66-81 | Every tick ends with intent noop, only extends the trace, and never restarts a stopped supervisor. |
| Supervisor.TickEffects | client.php:66-81 | A noop tick adds nothing. A download tick adds post(get), write(reply), kill USR1. An upload tick adds read, post(put, that content), kill USR2. A USR2 arriving last during the download makes both branches run in that order in the same tick. |
| Supervisor.FailedDownloadFinishesTick | client.php:68-73 | A failed get still writes the empty file and sends USR1, and the tick ends with `running` false. |
| Supervisor.FailedUploadFinishesTick | client.php:74-79 | A failed put still sends USR2, and the tick ends with `running` false. |
| Supervisor.Looped | client.php:66-81 | The loop only extends the trace, never restarts, and leaves intent noop once it has run a tick. |
| Supervisor.FailedRequestEndsLoop | client.php:46-81 | After a tick whose request failed the loop stops at its next test. Later rounds add nothing. |
| Supervisor.LoopNeverTerminatesChild | client.php:66-81 | No tick sends SIGTERM to the child. |
| Supervisor.Started | client.php:50-64 | Before the loop the trace is spawn, install handlers. |
| Supervisor.Supervised | client.php:50-85 | The run always produces at least one effect. |
| Supervisor.ForkFailureExitsAtOnce | client.php:51-52 | A failed fork exits with status 1 before any handler is installed or any signal is sent. |
| Supervisor.ShutdownTerminatesChildOnce | client.php:83-85 | The child receives SIGTERM iff the loop has ended. It then receives it exactly once, followed by one wait and exit 0, and never before. |
| Supervisor.Supervisor.constructor | client.php:6-7 | The globals start as running with state noop. |
| Supervisor.Supervisor.Launch | client.php:51-64 | Starting the child and installing the handlers adds exactly those two effects. |
| Supervisor.Supervisor.SigHandler | client.php:11-31 | sighandler changes the globals as Handled does. |
| Supervisor.Supervisor.Deliver | client.php:59-63 | Delivering signals one by one equals HandledAll. |
| Supervisor.Supervisor.PostRequest | client.php:33-48 | post returns the reply as received, appends the request and clears `running` on failure. |
| Supervisor.Supervisor.Tick | client.php:67-80 | One pass of the loop body equals Ticked. |
| Supervisor.Supervisor.RunLoop | client.php:66-81 | The while loop equals Looped over the rounds given. |
| Supervisor.Supervisor.Shutdown | client.php:83-85 | Shutdown appends kill TERM, wait, exit 0. |
| Supervisor.Supervise | client.php:50-85 | The script's trace equals Supervised. |

## Left out

- Floating point in rand-brain-evo.c is not modelled: `getrand`, `nonlinearity`, `brain_play_init`, `brain_play_step`, the `task_*` functions and the value `brain_get_output` returns. `evaluate` takes the result of comparing the answer with the target as the oracle `correct`.
- Initial weights are kept as the integer argument (hundredths), not as `ix / 100.` in floating point. Learning rates are `real` values that are only copied.
- `genes_mutate` and `genes_mutate_learning_rate` are not modelled. They are floating-point, and the structural mutation is unwritten in the source.
- `genes_clone` is not modelled. It fills a copy that it neither finishes (no `length`) nor returns, so it has no observable effect.
- Brains.Genes.constructor: the C struct comes from `malloc` uninitialised; the model starts it with length 0 and rate 0.
- `die`, `malloc` failure and `main` are not modelled as such. `die` during construction is the `Died` outcome, and allocation is assumed to succeed.
- The logs to stderr (`lg`) are not modelled.
- `pcntl_fork`/`pcntl_exec`, real asynchronous signal delivery, `posix_kill`, `pcntl_wait`, HTTP, file I/O and `config.php` are effects in a trace. Signals arrive only at the points a `Round` names: the sleep and the end of each branch. Signals that arrive before the handlers are installed are left out, since they take PHP's default action.
- A failed read of the exchange file is left out: the upload posts whatever the read returned.
- The supervisor loop runs forever in the source, so the model runs it over a finite sequence of rounds. A run that has not stopped when the rounds end has no shutdown effects yet.
- SQL execution, the `created` column default and real randomness are not modelled. The inserted row is created at `now`, and `order by random()` is an arbitrary choice among the servable rows.
- The store takes no lock, so concurrent requests are not modelled. Requests are served one after another.
- Supervisor.Supervised: its own contract states only that some effect is produced. The fork-failure, shutdown and ordering guarantees are the lemmas next to it.

## Findings

| source | as written | input that shows it | evidently intended | confidence | as-written member | corrected member |
|---|---|---|---|---|---|---|
| rand-brain-evo.c:129-131 | CMD_NEW_WEIGHT writes `initial_weights[weight_stack]` before checking `weight_stack >= MAX_WEIGHTS` | 9998 CMD_NEW_WEIGHT genes, then one more: line 130 writes index 10000 of a 10000-entry array before line 131 dies | check the bound, then record the weight | high for the ordering; not executed; no current gene source produces such a sequence, since mutation is unwritten | Construction.NewWeightOverrunsTable | Construction.NewWeightStaysInBounds |
| rand-brain-evo.c:139-171 | the connection commands accept any `ix` with `stack - ix >= 1`, negative `ix` included | ix = -10000 on a fresh brain: p = 10001, an index past `weight_conn` | `ix` counts back from the top of the stack, so 0 <= ix < stack | medium; not executed; reachable only from gene sequences with negative arguments | Construction.NegativeIxEscapesStack | Construction.ConnectTarget |
| rand-brain-evo.c:182-185 | CMD_WEIGHT_TO_INPUT checks only `ix < NUM_INPUTS` | ix = -1: line 185 writes `input_conn[-1]` | die unless 0 <= ix < NUM_INPUTS | medium; not executed; reachable only from gene sequences with negative arguments | Construction.NegativeInputPassesGuard | Construction.InputOutputAndUnknown |
