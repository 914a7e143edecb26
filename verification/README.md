# Verified models of the auth server's protocols

A Dafny model of seven parts of the repository, with proofs of what they are for.  `dafny verify dfyconfig.toml`
checks everything.  Each part below says what is modelled and what the main results are.

## Task queue consumers

`TaskQueue.dfy` is a step system: any number of workers, one FIFO list, one task store, one rate limiter, producers
and callers of Stop, interleaved at single redis commands, limiter calls and selects.  `TaskQueueServer.dfy` proves
that every run of it is matched step by step by one run of a server that pops the tail, runs it and stores it completed
in one indivisible step.
`TaskQueueSafety.dfy` holds the laws: a task runs at most once, is given up only in the listed branches, each by a step of
the run, nothing is owed once `shutdownDone` is closed, and the reservation ledger balances.  `TaskQueueHistory.dfy` traces
every saved task back to its pop, its fetch and its own execution, field by field, and says what a worker that is not
disturbed does.  `TaskQueueConsumer.dfy` is the consumer's own
imperative code, with everybody else acting between any two commands; its history is a run of the step system.

Assumptions: an enqueued key is not pending already (task IDs are random), the two commands of EnqueueTask are one
step, and a field write is atomic.  One disagreement between code and intent: `LimiterGlobal` returns no error when its
storage fails (`pkg/lib/ratelimit/limiter_global.go:67-70`), so the consumer's error branch
(`pkg/redisqueue/consumer.go:265-269`) is dead and the worker asks again at once; `StorageErrorAsksAgain` states it.

## Latte workflows

`LatteTypes.dfy` has the trees, `LatteReact.dfy` CanReactTo and ReactTo of 21 intents and 15 nodes, one function for each source file, `LatteEngine.dfy`
the workflow engine, `LatteService.dfy` one workflow session with its store of instances: a request may go back to any
older instance, and the log keeps every round, of abandoned instances too: the tree, the input, the answers of the
services and what happened outside.  `LatteServer.dfy` is the service as written.  Everything a service decides arrives in one `Env`
record for each reaction and is unconstrained; the few things the services guarantee (Identities.New sets owner and
type, NewWithAuthenticatorID keeps owner, kind, type and default flag, List returns the user's own authenticators, a
login ID's claim is named after its type) are written into the functions that ask them.

`LatteRules.dfy` tells all reactions by their effects, whichever intent or node reacts: when an event happens, a node is
appended, a workflow is started, an input is taken, a reaction fails.  `LatteObeys.dfy` proves that the reactions do this
and nothing else, `LatteRounds.dfy` the same of a round of Accept, and `LatteRuns.dfy` of an Accept, a request and a run:
the rules fix what each of them does.  `LatteEvidence.dfy` draws from it that the log holds an acceptance if and only if
the service that was asked said yes, and that a rejected credential changes nothing.  `LatteLiveness.dfy` proves that no
flow is stuck: from every stored instance of every open session some requests, well answered, lead to a commit.

`LatteInvariant.dfy` says what may stand in each place of each intent and what must have happened outside for it to
stand there; `LattePreserved.dfy` proves every step of every run keeps it.  On top:

* `LatteLogin.dfy`, `LatteLoginOutcome.dfy`, `LatteCommitted.dfy`: a login that reached its session step holds two
  finished factors of the session's user, found right by the services in rounds of that run; its AMR, its lockout counters, its committed session.
* `LatteCaptcha.dfy`: in the protected flow an SMS is preceded by a captcha found right if and only if the flow did not
  come in with a proof of phone-number verification, which was found right instead.
* `LatteBound.dfy`, `LatteTermination.dfy`: a potential falls with every append and stays with every resend; trees are
  bounded by 25, 24, 5 and 17 + 6B nodes.
* `LatteCollection.dfy`, `LatteReport.dfy`: what a sign-up or migration reports is everything it created, in order, each
  item made for the login ID or target it was asked for with.
* `LatteReturning.dfy`: after a sign-up the user can log in with the phone number, provided the two services normalise
  alike.  A login with any other identity fails in its first step, which asks for a phone authenticator
  (`pkg/latte/intent_login.go:62-79`) while an e-mail address has none (`OnlyPhonesLogIn`).
* `LatteVerification.dfy`: the six ways a verification can end, with the doubled node, and what stands behind a newly
  verified claim.  The SMS node takes a proof of phone-number verification at its word
  (`pkg/latte/node_verify_phone_sms.go:79-84`), so only an e-mail claim always has a right code behind it.
* `LatteMessages.dfy`: every message sent and credential accepted in a run is that of the one user the tree is about.
* `LatteErrors.dfy`: when a step fails and what the client is told.
* `Amr.dfy`, `StringOrder.dfy`: GetAMR is canonical.
* `Sessions.dfy`: at most one session stays live.  Commit effects write to redis one after another and are not undone,
  so the single session survives a commit if and only if the commit did not create one and then fail.

A flow is committed at most once unless deleting its session fails after the commit (`pkg/lib/workflow/service.go:265-268`);
then its finished instance is still there, and feeding it anything commits it again (`KeptSessionCommitsAgain`).

## Base64

`Bits.dfy`, `Base64.dfy`, `Base64Decoding.dfy`, `Base64Url.dfy`: the two accumulator loops against RFC 4648 sections 4
and 5 and the 76-column lines of RFC 2045 section 6.8.  `Base64Bits.dfy` has the same bit by bit: every character of the
text is the table's character of its six bits of the bytes, and decoding any text lays the bits out again.  The round trip holds if and only if 3n + 1 fits a signed 32-bit
integer, n being the text length, because the decoder computes its output length with `>> 2`.

## Process supervisor

`Supervisor.dfy`: start, select loop, reaping and exit code of the all-in-one image.  A failed start is a result too, so
with s children started and f not, exactly max(0, s - f) started children are reaped before the parent exits: all of
them exactly when f = 0 or s = 0.  A failed start does not make the exit code non-zero.  When the parent starts to reap,
and which signal the children get, is told by the events alone (`RunIsItsEvents`).

## Template linter

`TemplateTree.dfy`: the traversal visits the preorder list cut after the first refusal.  `TemplatePaths.dfy`: that list has
one visit for every path of the tree, a parent before its children, siblings in source order.  `TemplateReports.dfy`: the
rule reports every failed check on every path, in that order.  `TemplateLint.dfy`: the rule
skips printf-only keys and loses nothing by it; it panics exactly on keys that are a pipe of one command that does not
start with an identifier.

## Translation sorter and phone numbers

`TranslationSort.dfy`, `TranslationFile.dfy`: the comparator, the stable sort, the parity-driven parser, told also by what
it makes of any token list, and the writer, whose first and last write may fail unnoticed (`devtools/translationsorter/compose.go:15-34`).
`PhoneNumbers.dfy`: different (iteration, user) get different numbers, for every range and number of users, unless the
range is exactly a power of ten with more digits than the users need.

## Retry timers and websockets

`Reconnect.dfy`: the page with its retry targets, timers, sockets and controller, under any interleaving of events.  A
page goes on trying unless its socket is closed normally, or a socket disposed by an earlier disconnect opens late:
`dispose` replaces only `onclose` (`authui/src/websocket.ts:27-33`), so its `onopen` cancels the retry that is pending by
then.  Whether a browser still delivers that event is not part of this model.

## Model

The rows marked **Main result** are what the others lead up to: a step of their proof, a method proved against its
specification, or a single fact about the code that is worth having by itself.

| member | source | states |
|---|---|---|
| `TaskQueue.StepInv` | pkg/redisqueue/consumer.go:97-336 | Every step of any worker, producer, Stop or expiry keeps tickets and keys unique, the ledger consistent, each run ticket settled or in its worker's hands, and every saved task completed |
| `TaskQueue.RunInv` | pkg/redisqueue/consumer.go:97-336 | **Main result.** The same along every finite run of any number of workers |
| `TaskQueue.GrantInv` | pkg/redisqueue/consumer.go:262-274 | Granting keeps the invariant: the new reservation is held by the worker that asked, and by no other |
| `TaskQueue.TakeInv` | pkg/redisqueue/consumer.go:135-151 | Popping keeps the invariant: the ticket leaves the list for exactly one worker's hands |
| `TaskQueue.GiveUpInv` | pkg/redisqueue/consumer.go:288-300 | Giving up keeps the invariant: the ticket is decided once and its reservation is closed |
| `TaskQueue.LoadInv` | pkg/redisqueue/consumer.go:158-193 | Fetching keeps the invariant: the ticket stays in hand, its key stays unique, its reservation is closed |
| `TaskQueue.RanInv` | pkg/redisqueue/consumer.go:307-316 | Executing keeps the invariant: no ticket is run twice |
| `TaskQueue.WriteInv` | pkg/redisqueue/consumer.go:318-332 | Saving keeps the invariant: the stored task is completed and sits under its own key |
| `TaskQueue.CompleteHasResult` | pkg/redisqueue/consumer.go:307-316 | Completing a task sets status, time, output and error as `HasResult` has it field by field, and only those |
| `TaskQueueServer.StepSimulates` | pkg/redisqueue/consumer.go:212-336 | Whatever ends the tasks in flight after a consumer step come to, they could come to ends before it from which the pop-run-save server gets there in one step or none |
| `TaskQueueServer.RunIsMatched` | pkg/redisqueue/consumer.go:212-336 | **Main result.** For every run of the consumers and every end of its last tasks in flight there is one run of the server that keeps pace with it: at each consumer step it sees the consumers' state with its tasks resolved, and moves on by one place or none; what the server stores is the record it popped with status, time, output and error of an execution, all other fields as they were |
| `TaskQueueServer.SomeEndIsPossible` | pkg/redisqueue/consumer.go:288-336 | In every state of the invariant the tasks in flight can still come to some end, so the server's view of it exists |
| `TaskQueueServer.QuietIsServed` | pkg/redisqueue/consumer.go:130-336 | Whenever nothing is in flight, list, store and every fate are exactly those of the server, and every ticket is queued or decided |
| `TaskQueueServer.ReachableIsServed` | pkg/redisqueue/consumer.go:130-336 | **Main result.** In any reachable state the tasks in flight can still end somehow, and whatever ends they come to, the server reaches that state |
| `TaskQueueSafety.RunsAtMostOnce` | pkg/redisqueue/consumer.go:307-307 | **Main result.** A popped task is run at most once, and once run is neither queued nor about to run |
| `TaskQueueSafety.ReturnedOwesNothing` | pkg/redisqueue/consumer.go:97-113 | **Main result.** When a worker's shutdownDone is closed it holds no reservation, and all it ever popped was saved completed, or dropped by a step of the run that stands in the branch the recorded reason names |
| `TaskQueueSafety.DecidedOnlyThere` | pkg/redisqueue/consumer.go:138-335 | A task is saved or given up if and only if its step stands in the listed branch: a SET that arrived, or a lost reply, a GET or decode failure, a marshal or SET failure, a panic outside process |
| `TaskQueueSafety.EveryEndHasItsStep` | pkg/redisqueue/consumer.go:130-336 | **Main result.** In every run, whatever is recorded as the end of a task was brought about by a step of that run in the branch the record names |
| `TaskQueueSafety.RunsHaveSteps` | pkg/redisqueue/consumer.go:97-336 | Every run has its steps, so what is said of runs with their steps is said of all of them |
| `TaskQueueSafety.DecidedStays` | pkg/redisqueue/consumer.go:318-335 | What was decided about a task is never changed by any later step |
| `TaskQueueSafety.OthersLeaveIt` | pkg/redisqueue/consumer.go:119-123 | No step of another worker, and no Stop, takes a popped task out of its worker's hands |
| `TaskQueueSafety.PoppedGoesOn` | pkg/redisqueue/consumer.go:288-335 | Every own step of a worker with a popped task brings the task's end nearer; shutdown is not looked at in between |
| `TaskQueueSafety.OnlyPopTakes` | pkg/redisqueue/consumer.go:138-151 | Nothing but BRPOP shortens the list, and it takes the tail |
| `TaskQueueSafety.ReserveBeforePop` | pkg/redisqueue/consumer.go:235-251 | The list is popped only by a worker that holds a reservation, the claim of the comment there |
| `TaskQueueSafety.ShutdownHoldsNothing` | pkg/redisqueue/consumer.go:225-233 | Both shutdown returns of work leave with no reservation in hand |
| `TaskQueueSafety.LedgerBalances` | pkg/redisqueue/consumer.go:252-305 | **Main result.** granted = cancelled + consumed + wasted + held in every reachable state, each worker holding at most one |
| `TaskQueueSafety.OldestIsPopped` | pkg/redisqueue/consumer.go:138-138 | First in, first out: in every reachable state the tail of the list, which BRPOP takes, is older than every other entry |
| `TaskQueueSafety.BackoffCountsFailures` | pkg/redisqueue/consumer.go:296-305 | **Main result.** In every run a worker's backoff is the number of failed dequeues since its last successful one |
| `TaskQueueSafety.StorageErrorAsksAgain` | pkg/lib/ratelimit/limiter_global.go:52-93 | A storage failure of the global limiter neither raises the backoff nor leaves work; the worker waits and asks again |
| `TaskQueueHistory.SavedTasksWereExecuted` | pkg/redisqueue/consumer.go:130-332 | **Main result.** A task saved in a run was popped, fetched, executed and stored by one worker in that order, and the stored record is the fetched one with the result of its own execution on it |
| `TaskQueueHistory.EveryHoldHasItsSteps` | pkg/redisqueue/consumer.go:130-316 | Whatever entry, fetched task or executed task a worker holds has its pop, fetch and execution behind it in the run |
| `TaskQueueHistory.ReservationsClose` | pkg/redisqueue/consumer.go:288-305 | A reservation becomes cancelled, consumed or wasted in a step if and only if its worker held it and the step is a cancel, a successful fetch, or a failure |
| `TaskQueueHistory.StepsOfAWorker` | pkg/redisqueue/consumer.go:97-336 | From where a worker stands it may take exactly the select or command it stands before, with every answer that can come, or inside work a panic |
| `TaskQueueHistory.OutsideSteps` | pkg/redisqueue/consumer.go:115-128 | Stop tells the worker once, its time may run out, a record may expire, and nothing else changes |
| `TaskQueueHistory.LoopLeadsToPop` | pkg/redisqueue/consumer.go:103-133 | A worker not told to stop waits out its backoff if it has one, and asks for a reservation |
| `TaskQueueHistory.LoopReturns` | pkg/redisqueue/consumer.go:103-113 | A worker told to stop, or out of time, returns |
| `TaskQueueHistory.ReservingLeadsToPop` | pkg/redisqueue/consumer.go:252-286 | Refused, it waits and asks again with nothing changed; granted, it goes on to pop |
| `TaskQueueHistory.EmptyListCancels` | pkg/redisqueue/consumer.go:288-295 | An empty list gives the reservation back |
| `TaskQueueHistory.TailIsServed` | pkg/redisqueue/consumer.go:130-336 | **Main result.** Four steps without a failure take the oldest entry off the list and store its task with its result; the reservation is consumed, the backoff forgotten, and nothing else changes |
| `TaskQueueHistory.EnqueuedIsLast` | pkg/lib/infra/redisqueue/producer.go:51-77 | A new task goes to the far end of the list and can be fetched; a record already stored under its key stays |
| `TaskQueueConsumer.Cluster.Start0` | pkg/redisqueue/consumer.go:97-113 | **Main result.** The loop of selects and work takes only steps of the system; when it ends, stop or the deadline was signalled and nothing is owed |
| `TaskQueueConsumer.Cluster.Work` | pkg/redisqueue/consumer.go:212-336 | **Main result.** One call of work, whatever others do in between and wherever a call panics, ends back at the loop with no reservation and every popped task decided |
| `TaskQueueConsumer.Cluster.AcquireReservation` | pkg/redisqueue/consumer.go:252-286 | The retry loop ends holding a reservation and about to pop, or holding none |
| `TaskQueueConsumer.Cluster.Dequeued` | pkg/redisqueue/consumer.go:302-336 | From the popped entry to the saved or dropped task, panics included |
| `TaskQueueConsumer.Cluster.Recover` | pkg/redisqueue/consumer.go:218-223 | The deferred recover: the worker is back at the loop, what it held is given up, its backoff stays |
| `TaskQueueConsumer.Cluster.BRPop` | pkg/redisqueue/consumer.go:138-146 | The pop is one step of the system: the tail, a timeout on an empty list, or a failure that may lose the tail |
| `TaskQueueConsumer.Cluster.CancelReservation` | pkg/redisqueue/consumer.go:289-295 | No task: the reservation is cancelled |
| `TaskQueueConsumer.Cluster.GetTask` | pkg/redisqueue/consumer.go:151-172 | Decode and fetch, or give up |
| `TaskQueueConsumer.Cluster.RunTask` | pkg/redisqueue/consumer.go:307-316 | Run the task and complete its fields, which are then those of `HasResult`: status completed, time and output always the outcome's, the error only if there is one, all others as fetched |
| `TaskQueueConsumer.Cluster.SaveTask` | pkg/redisqueue/consumer.go:318-335 | Store the completed task, or give up |
| `TaskQueueConsumer.Cluster.AskLimiter` | pkg/redisqueue/consumer.go:262-274 | Granted, denied, neither or error, each with its own next step |
| `LatteEngine.AtEof` | pkg/lib/workflow/workflow.go:323-358 | A finished workflow: its last node does not react and its intent takes no more nodes |
| `LatteBound.FindAppended` | pkg/lib/workflow/workflow.go:444-455 | FindSingleNode looks at direct children only and finds the first: appending never changes what was found |
| `LatteBound.AuthenticatingPays` | pkg/latte/intent_login.go:46-119 | What an authenticating intent appends, with all it may grow, fits into what the intent had left |
| `LatteBound.SigningUpPays` | pkg/latte/intent_create_login_id.go:42-141 | The same for sign-up, migration and login ID creation |
| `LatteBound.CreatingPays` | pkg/latte/intent_verify_identity.go:36-114 | The same for verification, authenticator creation and the migration lists |
| `LatteBound.MigrateAccountPays` | pkg/latte/intent_migrate_account.go:30-78 | The same for the migration response, whose lists fix the budget |
| `LatteBound.NodePays` | pkg/latte/node_verified_phone_number_verification.go:27-54 | The same for a node that reacts |
| `LatteBound.StepShrinks` | pkg/lib/workflow/workflow.go:67-139 | An appending round adds one node and lowers the potential; without a bound on migration responses, the number of responses to come or the potential |
| `LatteBound.KeptIsSame` | pkg/latte/node_verify_phone_sms.go:72-77 | A resend leaves the whole tree as it was, by ErrSameNode and by ErrUpdateNode |
| `LatteTermination.AcceptSpends` | pkg/lib/workflow/workflow.go:81-138 | One Accept takes from the potential what it appends, and changes nothing if it appends nothing |
| `LatteTermination.InstancesStaySmall` | pkg/latte/intent_migrate_identities.go:32-54 | Whatever is sent and answered, no stored instance exceeds the budget of its root |
| `LatteTermination.TreesAreBounded` | pkg/latte/intent_migrate_authenticators.go:32-56 | **Main result.** 25 nodes for the protected flow, 24 unprotected, 5 for reauthentication, 17 + 6B for a migration of at most B and B |
| `LatteServer.Accept` | pkg/lib/workflow/workflow.go:67-139 | **Main result.** The forever loop terminates, with the rounds that the rules allow and the ending of the last one |
| `LatteServer.Service.CreateNewWorkflow` | pkg/lib/workflow/service.go:61-159 | **Main result.** The intent is fed nothing; a tree whose Accept did not fail is stored, even one that grew no further, and a finished one committed; every other fault stores nothing |
| `LatteServer.Service.FeedInput` | pkg/lib/workflow/service.go:220-329 | **Main result.** To an open session and an instance it has: the last tree of the rounds becomes the newest instance if the flow ended or was taken further; an ended one is committed and the session deleted; a refused or failing input stores nothing; a closed session, an unknown instance or a fault changes nothing |
| `LatteObeys.ReactionsObey` | pkg/lib/workflow/workflow.go:93-131 | **Main result.** Whoever reacts to whatever with whatever answers: events, appended node, started workflow, resend, refusal and failure are those of the rules, each if and only if |
| `LatteRules.CanReactTo` | pkg/latte/intent_login.go:46-60 | CanReactTo, intent by intent and node by node: with how many nodes there is a step to take |
| `LatteRules.AsksMeansTakes` | pkg/latte/node_authenticate_oob_otp_phone.go:32-37 | A node reacts if and only if it takes some input |
| `LatteObeys.CodeNodeEvents` | pkg/latte/node_authenticate_oob_otp_phone.go:39-81 | At the code node: the code is accepted if and only if it was fed one and the service said yes; a resend sends if and only if the channel is on and nothing holds it back |
| `LatteObeys.CodeNodeFailures` | pkg/latte/node_authenticate_oob_otp_phone.go:58-79 | It fails with invalid credentials if and only if the service said no, and with a disabled feature if and only if a resend meets one |
| `LatteObeys.OtherNodeEvents` | pkg/latte/node_authenticate_password.go:38-69 | The same for password, link and proof nodes: the accepted password is that of the first stored authenticator of the user and kind |
| `LatteObeys.OtherNodeFailures` | pkg/latte/node_authenticate_email_login_link.go:39-82 | Their failures: a wrong or missing password and an unapproved link are invalid credentials |
| `LatteObeys.VerifyNodeEvents` | pkg/latte/node_verify_phone_sms.go:45-89 | The verification nodes: a claim is proved by a right code, trusted with a proof by the SMS node alone, and a message goes out only on a resend that nothing holds back |
| `LatteObeys.PhoneEvents` | pkg/latte/intent_authenticate_oob_otp_phone.go:49-79 | The phone factor sends its code exactly when the captcha is passed or not asked for, no proof stands in and no code node stands yet |
| `LatteObeys.VerifyEvents` | pkg/latte/intent_verify_identity.go:53-115 | A verification sends exactly when it is required or triggerable, not done, not to be skipped, and past the captcha |
| `LatteObeys.EntranceStarts` | pkg/latte/intent_authenticate.go:46-87 | The entrances start a login for the identity that was found, a sign-up if none was, a proof if one was given |
| `LatteObeys.LoginStarts` | pkg/latte/intent_login.go:62-119 | A login starts the first stored phone, then the first stored e-mail link or the password as selected, then the session with the methods of both |
| `LatteObeys.SignupStarts` | pkg/latte/intent_signup.go:68-116 | A sign-up starts phone, e-mail, password and session of the user it created, in this order |
| `LatteObeys.LoginIDStarts` | pkg/latte/intent_create_login_id.go:60-141 | A login ID starts its verification and then its authenticator for the identity it created |
| `LatteObeys.MigrateStarts` | pkg/latte/intent_migrate_account.go:48-78 | A migration starts the lists of its response and one sub-workflow for each entry that can be migrated |
| `LatteObeys.SimplesOfAll` | pkg/latte/intent_ensure_session.go:50-110 | A simple node is appended, and with which fields, exactly as the rules say: the session node among them created, updated or neither by mode and context |
| `LatteRounds.StepIsReply` | pkg/lib/workflow/workflow.go:323-358 | The deepest reactor at the end of the tree is asked, and its reply decides the round |
| `LatteRounds.RoundObeys` | pkg/lib/workflow/workflow.go:81-138 | **Main result.** A round told by the rules: it ends if nobody reacts, else appends, stays, refuses or fails if and only if its reactor does, and what happens is exactly what is caused |
| `LatteRuns.AcceptIsChain` | pkg/lib/workflow/workflow.go:67-139 | **Main result.** An Accept is a chain of rounds, each but the last appending a node, and ends as its last round does |
| `LatteRuns.OnlyChain` | pkg/lib/workflow/workflow.go:67-139 | Tree, input and answers leave one chain only: what the rules allow is what Accept does |
| `LatteRuns.OpenObeys` | pkg/lib/workflow/service.go:61-159 | Opening makes exactly the session that the rules allow |
| `LatteRuns.FeedObeys` | pkg/lib/workflow/service.go:220-329 | **Main result.** A request makes exactly the session that the rules allow, faults included |
| `LatteRuns.FaultlessRequest` | pkg/lib/workflow/service.go:279-329 | Without faults: an ended flow is stored, committed and closed; one taken further is stored beside the earlier instances; a refused or failing one leaves all as it was |
| `LatteRuns.RunIsTrue` | pkg/lib/workflow/workflow.go:81-138 | **Main result.** In every run what is logged of a round is exactly what its reactor, its input and its answers cause |
| `LatteRuns.FailedRequestChangesNothing` | pkg/lib/workflow/workflow.go:127-130 | A failure of the deepest reactor leaves the tree as it was |
| `LatteEvidence.CodesAreAnswers` | pkg/latte/node_authenticate_oob_otp_phone.go:58-79 | **Main result.** A code is logged as accepted if and only if a code node of that authenticator was fed it in a round in which the service did not fail and said yes |
| `LatteEvidence.LinksAreAnswers` | pkg/latte/node_authenticate_email_login_link.go:58-80 | The same for a login link |
| `LatteEvidence.PasswordsAreAnswers` | pkg/latte/node_authenticate_password.go:42-66 | The same for a password, of the first stored authenticator of the user and kind asked for |
| `LatteEvidence.CaptchasAreAnswers` | pkg/latte/intent_verify_captcha.go:36-57 | The same for a captcha |
| `LatteEvidence.ProofsAreAnswers` | pkg/latte/intent_verify_proof_of_phone_number_verification.go:36-53 | The same for a proof of phone-number verification and what it stands for |
| `LatteEvidence.LookupsAreAnswers` | pkg/latte/node_verified_phone_number_verification.go:35-54 | The same for the identity that a proof leads to |
| `LatteEvidence.ClaimsAreAnswers` | pkg/latte/node_verify_email.go:57-77 | The same for a proved claim |
| `LatteEvidence.TrustedClaims` | pkg/latte/node_verify_phone_sms.go:79-84 | A claim is trusted if and only if an SMS node was fed a proof, and no service was asked |
| `LatteEvidence.RejectedCode` | pkg/latte/node_authenticate_oob_otp_phone.go:58-79 | **Main result.** A code answered with no leaves the tree as it was, logs nothing and fails with invalid credentials |
| `LatteEvidence.Rejected` | pkg/lib/workflow/workflow.go:127-130 | The same for every credential |
| `LatteEvidence.RejectedRequest` | pkg/lib/workflow/service.go:303-306 | The session it was sent to stays as it was |
| `LatteLiveness.ReplayRests` | pkg/lib/workflow/workflow.go:95-125 | Every stored instance of every run has ended or stands where an input is asked for |
| `LatteLiveness.IntentGoesFurther` | pkg/latte/intent_authenticate.go:46-87 | An intent that reacts in a good tree without a dead end is taken further, under good answers, by every input it takes |
| `LatteLiveness.WaitingIsSane` | pkg/latte/intent_migrate_identities.go:32-54 | A good tree that waits holds no dead end: no login of an identity that is no phone, no list with an entry that cannot be migrated |
| `LatteLiveness.CanBeFinished` | pkg/lib/workflow/service.go:220-329 | Feeding a waiting instance what it asks for, then the newest one again and again, commits the flow |
| `LatteLiveness.EveryFlowCanFinish` | pkg/lib/workflow/workflow.go:67-139 | **Main result.** No flow is stuck: from every instance of every open session that any requests and answers can lead to, some requests and answers lead to its commit |
| `LattePreserved.LoginFits` | pkg/latte/intent_login.go:62-119 | The three steps of a login: the user's primary phone of this identity, the chosen second factor of the same user, a session of that user with the AMR of both |
| `LattePreserved.PhoneFits` | pkg/latte/intent_authenticate_oob_otp_phone.go:49-79 | Captcha first if protected, then the pre-verified authenticator or the code node |
| `LattePreserved.AuthenticateFits` | pkg/latte/intent_authenticate.go:46-87 | Flags and hints handed down as written; checked evidence before each verified node |
| `LattePreserved.SessionFits` | pkg/latte/intent_ensure_session.go:50-110 | A session is created with its cookie, updated, or neither, by mode |
| `LattePreserved.SignupFits` | pkg/latte/intent_signup.go:68-116 | The five steps of sign-up and migration, all for the created user |
| `LattePreserved.LoginIDFits` | pkg/latte/intent_create_login_id.go:60-141 | Identity, attributes, verification and authenticator of one login ID, all of the identity created first, and that identity made for a login ID that was asked for |
| `LattePreserved.VerifyFits` | pkg/latte/intent_verify_identity.go:53-115 | Skip, captcha or code node, each only in its place |
| `LattePreserved.CreateFits` | pkg/latte/intent_create_oob_otp_authenticator_for_login_id.go:42-75 | A leaf creates what its intent says, the one-time-password authenticator of a login ID being asked for with that login ID and a migrated one with the target of its spec; migration lists go spec by spec, the first default |
| `LattePreserved.MigrateAccountFits` | pkg/latte/intent_migrate_account.go:48-78 | Response, then its identities, then its authenticators |
| `LattePreserved.PhoneNodeFits` | pkg/latte/node_authenticate_oob_otp_phone.go:39-81 | What the code node appends is the verified authenticator of its own authenticator, with the code accepted; when that is, `LatteObeys.CodeNodeEvents` says |
| `LattePreserved.LinkNodeFits` | pkg/latte/node_authenticate_email_login_link.go:39-82 | A verified authenticator follows only an accepted link |
| `LattePreserved.PasswordFits` | pkg/latte/node_authenticate_password.go:38-69 | A verified authenticator follows only an accepted password of that user and kind |
| `LattePreserved.ProofFits` | pkg/latte/node_verified_phone_number_verification.go:35-54 | A pre-verified login follows only a checked proof and the lookup of its identity |
| `LattePreserved.VerifyNodeFits` | pkg/latte/node_verify_phone_sms.go:45-89 | A verified identity with a new claim follows a verification node |
| `LattePreserved.StepKeepsGood` | pkg/lib/workflow/workflow.go:323-347 | One round of any good tree gives a good tree |
| `LattePreserved.AcceptKeepsGood` | pkg/lib/workflow/workflow.go:67-139 | So does one Accept, with the log it adds |
| `LattePreserved.OnlyEofIsEof` | pkg/lib/workflow/workflow.go:349-358 | Accept finds nobody to react exactly when the workflow is finished |
| `LattePreserved.EndsAtEof` | pkg/lib/workflow/workflow.go:81-85 | Accept reports the end of the flow only for a finished tree |
| `LattePreserved.ReachableIsGood` | pkg/lib/workflow/service.go:220-329 | **Main result.** In every reachable session of a public intent every instance is good, and every committed tree is a finished one of them |
| `LatteLogin.PhoneFinished` | pkg/latte/intent_authenticate_oob_otp_phone.go:32-79 | A finished phone factor holds its own authenticator, pre-verified or by an accepted code |
| `LatteLogin.LinkFinished` | pkg/latte/intent_authenticate_email_login_link.go:30-60 | A finished link factor holds its authenticator and its link was accepted |
| `LatteLogin.PasswordFinished` | pkg/latte/intent_authenticate_password.go:30-47 | A finished password factor holds an accepted password of the user |
| `LatteLogin.LoginIsTwoFactor` | pkg/latte/intent_login.go:46-119 | A good login with a session step, in a true log, has both factors finished, of the session's user, and found right by the services |
| `LatteLogin.LoginSessionsAreBacked` | pkg/latte/intent_login.go:106-116 | **Main result.** In every reachable instance a login with a session step has its first factor by a code fed to the code node of that very authenticator and answered with yes, or by a proof answered with yes whose identity was then found, and its second by a link or password answered with yes, both of that user |
| `LatteLogin.ReauthenticationIsBacked` | pkg/latte/intent_reauthenticate.go:45-72 | **Main result.** The session step of a reauthentication follows a password of the hinted user that was answered with yes |
| `LatteLoginOutcome.LoginReportsBothFactors` | pkg/latte/intent_login.go:111-116 | **Main result.** The login's AMR is sorted and is exactly the methods of both factors and mfa |
| `LatteLoginOutcome.ReauthenticationReportsPassword` | pkg/latte/intent_reauthenticate.go:60-68 | The session of a reauthentication reports the password alone, without mfa |
| `LatteLoginOutcome.MethodsTell` | pkg/api/model/amr.go:3-29 | The methods of an authenticator tell its type by the names of RFC 8176, and the last one tells kind and type apart from all others |
| `LatteLoginOutcome.GetVerifiedAuthenticationLockoutMethods` | pkg/latte/intent_login.go:231-252 | The traversal that appends collects the methods of all verified authenticators in order |
| `LatteLoginOutcome.LoginClearsBothFactors` | pkg/latte/intent_login.go:162-173 | A login clears one-time-password attempts and then those of its second factor, nothing else |
| `LatteCommitted.CommittedLogin` | pkg/latte/intent_login.go:121-161 | **Main result.** The login in any committed tree is two-factor, and the session it creates is that user's with the AMR of both |
| `LatteCommitted.FinishedSession` | pkg/latte/intent_ensure_session.go:100-109 | A finished session step holds one node: for the intent's user and AMR, creating or updating but never both |
| `LatteCommitted.CommitsAtMostOnce` | pkg/lib/workflow/service.go:255-275 | **Main result.** If no deletion of the session fails, a flow is committed at most once, and the session is gone exactly then |
| `LatteCommitted.KeptSessionCommitsAgain` | pkg/lib/workflow/service.go:265-273 | If the deletion failed, feeding the finished instance anything commits its tree once more; if it did not, nothing happens |
| `LatteCaptcha.ShieldedSendsAfterCaptcha` | pkg/latte/intent_authenticate_oob_otp_phone.go:50-77 | Below the protected root an SMS goes out only from a tree that passed a captcha or came through a proof |
| `LatteCaptcha.BareHasNoCaptcha` | pkg/latte/node_verified_phone_number_verification.go:14-17 | Below a proof no captcha is ever asked, because its node never carries the flag |
| `LatteCaptcha.ProofExcludesCaptcha` | pkg/latte/intent_authenticate.go:77-82 | A protected tree that goes through a proof holds no passed captcha |
| `LatteCaptcha.CaptchaNodeIsBacked` | pkg/latte/node_verified_captcha.go:10-34 | A captcha node stands nowhere in a good tree but where a captcha was passed |
| `LatteCaptcha.EverySmsIsGated` | pkg/latte/intent_protected_authenticate.go:38-46 | **Main result.** In every run of the protected flow each SMS leaves a tree with a captcha node if and only if the flow did not come in with a proof, and in an earlier round the captcha, or the proof, was answered with yes |
| `LatteVerification.FinishedVerification` | pkg/latte/intent_verify_identity.go:36-51 | The six shapes of a finished verification, and that no code is proved without a code node |
| `LatteVerification.SkippedTwice` | pkg/latte/intent_verify_identity.go:68-74 | With the captcha flag one request makes two skipped nodes whenever nothing needs verifying |
| `LatteErrors.FilterStarts` | pkg/lib/authn/authenticator/filters.go:18-35 | A filtered list is empty exactly when nothing is kept, and otherwise starts with the first kept |
| `LatteErrors.LoginStartsWithFirstPhone` | pkg/latte/intent_login.go:64-78 | A login starts with the first stored phone authenticator of its identity, and fails with no authenticator exactly when there is none |
| `LatteErrors.MissingAndWrongPasswordLookAlike` | pkg/latte/node_authenticate_password.go:42-63 | A user without a password and a wrong password get the same answer |
| `LatteErrors.VerificationFailsOnlyThen` | pkg/latte/intent_verify_identity.go:64-112 | Which verification failures occur, exactly when the claim is not verifiable, and that the cooldown is no failure |
| `LatteMessages.NodeNames` | pkg/latte/node_authenticate_oob_otp_phone.go:42-78 | What a node sends and accepts belongs to the user in its fields |
| `LatteMessages.ChildIsAboutParent` | pkg/latte/intent_signup.go:75-112 | The user is handed down unchanged from every flow to its steps |
| `LatteMessages.EveryMessageIsTheUsers` | pkg/latte/utils_authn.go:75-101 | **Main result.** In every run each message sent, credential accepted, claim verified and identity or authenticator made is that of the one user the tree was about |
| `LatteMessages.SendOOBCodeIsExact` | pkg/latte/utils_authn.go:26-107 | At most one message, by the authenticator's type to its own target; the cooldown is silent for an initial send only; a disabled channel sends nothing |
| `LatteVerification.VerifiedClaimsAreBacked` | pkg/latte/node_verify_email.go:43-77 | **Main result.** In every reachable instance a newly verified claim is the identity's own, with a code fed to its verification node and answered with yes or, for a phone only, a proof nobody checked |
| `LatteCollection.Collect` | pkg/latte/intent_signup.go:147-162 | The append loop over direct getters is the report, and counts the getters |
| `LatteCollection.GetNew` | pkg/latte/intent_migrate_account.go:88-104 | Each getter, first node, only getter or all getters, gives the report of its sub-workflow |
| `LatteCollection.AtMostOneGetter` | pkg/latte/intent_migrate_account.go:88-95 | The test for exactly one getter loses nothing: otherwise there is nothing to report |
| `LatteCollection.ReportIsCreated` | pkg/latte/intent_create_login_id.go:160-175 | What a getter reports is everything created below it |
| `LatteReport.ReportIsComplete` | pkg/latte/intent_signup.go:147-183 | **Main result.** In every sign-up or migration tree the report is everything created except passwords, in order, once each, and all the created user's |
| `LatteReport.FinishedBelow` | pkg/lib/workflow/workflow.go:323-347 | Whatever lies below a finished tree is finished |
| `LatteReport.FinishedLoginID` | pkg/latte/intent_create_login_id.go:160-175 | A finished login ID reports one identity of its type, made for a login ID that was asked for, and one primary non-default authenticator of its user, asked for with the identity's login ID |
| `LatteReport.FinishedIdentities` | pkg/latte/intent_migrate_identities.go:64-78 | One identity for each spec, in order, of its type and made for its value |
| `LatteReport.FinishedAuthenticators` | pkg/latte/intent_migrate_authenticators.go:40-80 | One authenticator for each spec, in order, asked for with its target, exactly the first default |
| `LatteReport.FinishedAccount` | pkg/latte/intent_migrate_account.go:88-120 | A finished migration account reports exactly what the response listed, by type and by value |
| `LatteReport.FinishedSignup` | pkg/latte/intent_signup.go:68-116 | **Main result.** A finished sign-up reports a phone and an e-mail identity, and for each the authenticator asked for with its login ID, none default |
| `LatteReport.FinishedMigrate` | pkg/latte/intent_migrate.go:65-174 | **Main result.** A finished migration reports the response's lists by type and value, then the e-mail identity and its authenticator; default exactly the first migrated |
| `LatteReport.CommittedReports` | pkg/latte/intent_migrate.go:138-174 | In every run, the sign-up or migration in a committed tree is finished and its report complete |
| `LatteReturning.SignedUpCanLogIn` | pkg/latte/intent_create_oob_otp_authenticator_for_login_id.go:42-75 | **Main result.** If the two services normalise alike and idempotently, then with what a finished sign-up reported in the store a login with its phone identity finds the phone authenticator, and the login link as second factor |
| `LatteReturning.PairMatches` | pkg/lib/authn/authenticator/filters.go:55-80 | Under the same condition the authenticator made for a login ID passes the filter by which a login looks for it |
| `LatteReturning.OnlyPhonesLogIn` | pkg/latte/intent_login.go:62-79 | A login with an identity that is no phone number fails in its first step, whatever is stored |
| `Amr.GetAMR` | pkg/latte/amr.go:10-35 | The map loops, key order and in-place sort compute the reference list |
| `Amr.AmrIsCanonical` | pkg/latte/amr.go:10-35 | **Main result.** Strictly sorted, and exactly the union plus mfa iff at least two are non-empty |
| `Amr.CountSplit` | pkg/latte/amr.go:14-24 | The sub-workflows that authenticated are counted one by one, and their methods united |
| `Amr.CountOne` | pkg/latte/amr.go:18-21 | A sub-workflow counts if it reports a method |
| `Amr.AmrIgnoresOrder` | pkg/latte/amr.go:10-35 | Independent of the order of the sub-workflows |
| `Amr.SortStrings` | pkg/latte/amr.go:32-32 | Sorts distinct strings in place, keeping exactly the same ones |
| `StringOrder.LessMeans` | pkg/latte/amr.go:32-32 | The order of sort.Strings: after a common start one string ends or has the smaller character |
| `Sessions.OneOfThree` | pkg/latte/intent_ensure_session.go:68-85 | Exactly one of create, update and nothing, and when which |
| `Sessions.CommitKeepsOneSession` | pkg/latte/node_do_ensure_session.go:35-71 | **Main result.** A commit keeps at most one live session, named by the cookie, if and only if it did not create one and fail before its cookie went out |
| `Sessions.AtMostOneSession` | pkg/latte/node_do_ensure_session.go:35-82 | **Main result.** So it is over every sequence of committed flows, even decided under an older context session |
| `Sessions.WhatACommitDoes` | pkg/latte/node_do_ensure_session.go:40-69 | After creating, the browser is in the new session alone; after updating, in the same one with the new AMR; else as before |
| `Sessions.CommitTouchesOnly` | pkg/latte/node_do_ensure_session.go:35-71 | From any store, however the commit fails: no session is touched but the created, the context and the updated one, and no token but the new one |
| `Sessions.CreatingGetsAsFar` | pkg/latte/node_do_ensure_session.go:40-69 | A creating commit writes the new session and its token, then revokes the old one, and sends the cookie last |
| `Sessions.SessionStore.CommitNode` | pkg/latte/node_do_ensure_session.go:35-71 | The three effects in order, then the cookies, leave exactly the specified store and cookie |
| `Sessions.SessionStore.GetCookies` | pkg/latte/node_do_ensure_session.go:73-82 | The session cookie if there is one, then the strict one |
| `Bits.OrIsSum` | authui/src/base64.ts:33-33 | Or-ing bits into empty low places adds them |
| `Base64.BreakEvery57` | authui/src/base64.ts:68-70 | 4i/3 is a multiple of 76 if and only if 57 divides i |
| `Base64.CodeIsChar` | authui/src/base64.ts:48-60 | uint6ToB64 gives the characters of Table 1 |
| `Base64.LinesAppend` | authui/src/base64.ts:68-70 | A line break never falls inside a group of four and never at the end |
| `Base64.LastGroup` | authui/src/base64.ts:72-80 | Encoding by groups from the front puts the last group last |
| `Base64.JoinedIsEncoded` | authui/src/base64.ts:62-87 | Groups joined with a break before every nineteenth are the RFC 4648 text in lines of 76 |
| `Base64.Base64EncArr` | authui/src/base64.ts:62-87 | **Main result.** The accumulator loop with its final substr and padding is RFC 4648 section 4 in lines of 76 characters |
| `Base64Bits.EncodedIsBits` | authui/src/base64.ts:62-87 | **Main result.** Character j of the RFC 4648 section 4 text is Table 1's character of bits 6j to 6j + 5 of the bytes, and padding after the last bit |
| `Base64Bits.LinesAt` | authui/src/base64.ts:68-70 | Place by place: 76 characters and a break, and no break at the end |
| `Base64Decoding.Base64DecToArr` | authui/src/base64.ts:17-44 | The decoding loop gives the bytes of the stripped text's groups, cut or filled up with zeros to the 32-bit length rounded to the block size, or fails for a negative one |
| `Base64Decoding.CodeIsValue` | authui/src/base64.ts:3-15 | b64ToUint6 inverts Table 1 |
| `Base64Decoding.PlainDecodes` | authui/src/base64.ts:17-44 | Decoding the stripped encoding gives the bytes back |
| `Base64Decoding.StripLines` | authui/src/base64.ts:21-21 | Line breaks are stripped without trace |
| `Base64Decoding.RoundTrip` | authui/src/base64.ts:17-87 | **Main result.** base64DecToArr(base64EncArr(b)) = b if and only if 3n + 1 < 2^31 |
| `Base64Decoding.RoundTripInBlocks` | authui/src/base64.ts:23-25 | With a block size the array comes back filled up with zeros to the next multiple of it |
| `Base64Bits.DecodingIsBits` | authui/src/base64.ts:17-44 | **Main result.** Any text short enough decodes to (3n + 1) / 4 bytes for its n alphabet characters, and their bits are those of the characters' Table 1 values |
| `Base64Bits.StripKeepsTable` | authui/src/base64.ts:21-21 | What is stripped is exactly what is not in Table 1 |
| `Base64Url.TransportIsURLSafe` | authui/src/passkey.ts:162-226 | The transported text is the section 5 alphabet only and ceil(4n/3) characters long |
| `Base64Bits.TransportIsBits` | authui/src/passkey.ts:162-226 | **Main result.** Character j of the transported text is the section 5 table's character of bits 6j to 6j + 5, and there are no others |
| `Base64Url.TransportRestored` | authui/src/base64url.ts:1-16 | base64URLToBase64 restores the padded section 4 text exactly |
| `Base64Url.PasskeyRoundTrip` | authui/src/passkey.ts:17-47 | **Main result.** The whole pipeline gives the bytes back if and only if 3n + 1 < 2^31 |
| `Supervisor.StartsAreAccounted` | once/docker_wrapper.go:179-191 | After starting: selectCases[i+1] is startedChildren[i]'s channel, every child is started or a failed result, nothing sent |
| `Supervisor.HandledIsAccounted` | once/docker_wrapper.go:225-248 | One pass of the select loop keeps the wiring, counts no child twice and sends one signal to each at most |
| `Supervisor.LoopIsAccounted` | once/docker_wrapper.go:224-249 | So does the whole loop, whatever events come |
| `Supervisor.RunsAreAccounted` | once/docker_wrapper.go:193-249 | **Main result.** On leaving: exactly max(0, s - f) started children reaped, all iff f = 0 or s = 0, each sent exactly one and the same signal |
| `Supervisor.RunIsItsEvents` | once/docker_wrapper.go:204-249 | **Main result.** The whole run by its events: results in order; the parent reaps if and only if a start failed, a child ended or one of the eight signals came; every started child then got exactly one signal, SIGTERM or that of the first such event |
| `Supervisor.LoopReaches` | once/docker_wrapper.go:224-249 | The same for the loop from any state it can start in |
| `Supervisor.ExitCodeIsZero` | once/docker_wrapper.go:251-266 | Zero iff no exited child failed, else the last failure's code; failed starts do not count |
| `Supervisor.Wrapper.Start` | once/docker_wrapper.go:179-191 | A started child gets a select case, a failed one a result |
| `Supervisor.Wrapper.Reap` | once/docker_wrapper.go:193-202 | The first call signals every started child, later ones nothing |
| `Supervisor.Wrapper.Loop` | once/docker_wrapper.go:224-249 | The select loop, choosing by channel |
| `Supervisor.Wrapper.Supervise` | once/docker_wrapper.go:204-266 | main from the first start to the exit code |
| `TemplateTree.TraverseTreeVisit` | devtools/gotemplatelinter/translation_key_rule_traverse_tree.go:29-75 | **Main result.** For every tree and visitor the nodes visited are the preorder list cut at the first refusal, and the result says whether it was cut |
| `TemplateTree.TraverseTreeVisitBranch` | devtools/gotemplatelinter/translation_key_rule_traverse_tree.go:14-27 | The same for pipe, list and else list of a branch |
| `TemplateTree.TraverseChildren` | devtools/gotemplatelinter/translation_key_rule_traverse_tree.go:36-49 | The same for the loops over children |
| `TemplateTree.CutIsShortestPrefix` | devtools/gotemplatelinter/translation_key_rule_traverse_tree.go:29-33 | The cut is a prefix: all of the list, or up to a refused node with every earlier one accepted |
| `TemplatePaths.PreorderFollowsPaths` | devtools/gotemplatelinter/translation_key_rule_traverse_tree.go:14-75 | **Main result.** One visit for every path from the root along pipe, list, else list, commands, pipe arguments and nodes, at the path's depth, parents first, siblings in source order, and nothing else |
| `TemplatePaths.BeforeIsStrict` | devtools/gotemplatelinter/translation_key_rule_traverse_tree.go:29-75 | The order of the paths is strict, so no path is visited twice |
| `TemplateLint.ValidateTree` | devtools/gotemplatelinter/translation_key_rule.go:53-115 | The closure over the traversal reports the violations of every node in preorder, or panics |
| `TemplateLint.LintIsClean` | devtools/gotemplatelinter/translation_key_rule.go:57-111 | No violation exactly when every check of every visited node is fine |
| `TemplateReports.ReportIsExact` | devtools/gotemplatelinter/translation_key_rule.go:53-115 | **Main result.** Every failed check of every node on a path of the template is reported, in the order of the paths and within a node of its arguments, and nothing else; a check that panics ends it |
| `TemplateReports.CleanOnEveryPath` | devtools/gotemplatelinter/translation_key_rule.go:53-115 | No violation if and only if the node at the end of every path is clean |
| `TemplateLint.PatternMeans` | devtools/gotemplatelinter/translation_key_rule_check_translation_key.go:12-15 | The expressions match exactly v2.page.a.b.c, v2.component.a.b.c and v2.error.d |
| `TemplateLint.KeyPasses` | devtools/gotemplatelinter/translation_key_rule_check_translation_key.go:50-76 | A key passes exactly if special, or well formed and defined or a wildcard |
| `TemplateReports.KeyErrors` | devtools/gotemplatelinter/translation_key_rule_check_translation_key.go:50-76 | Which of the three errors a literal key gets: empty, undefined and not a valid wildcard, or defined but malformed; special ones get none |
| `TemplateReports.KeyNodes` | devtools/gotemplatelinter/translation_key_rule_check_translation_key.go:29-48 | A key is a literal that passes, a printf or a special case; any other is invalid, or panics if it is a pipe of one command without a leading identifier |
| `TemplateReports.ArgumentsChecked` | devtools/gotemplatelinter/translation_key_rule.go:57-111 | RenderText is never allowed; HasKey, translate, printf and include want a key as second argument, include a file name instead; nothing else is checked |
| `TemplateReports.TrimMeans` | devtools/gotemplatelinter/translation_key_rule_check_translation_key.go:51-51 | What trimming leaves: no quote at either end, and all in between |
| `TemplateLint.PrintfIsVisited` | devtools/gotemplatelinter/translation_key_rule_traverse_tree.go:42-49 | The printf inside a pipe argument of a visited command is visited |
| `TemplateLint.SkippedKeyIsFine` | devtools/gotemplatelinter/translation_key_rule_check_translation_key.go:32-36 | In a clean template a skipped printf key is fine down to the string it formats |
| `TemplateLint.SkippingLosesNothing` | devtools/gotemplatelinter/translation_key_rule_check_printf.go:10-46 | **Main result.** No violation exactly when the lint that follows every printf has none |
| `TemplateLint.PanicsExactlyOn` | devtools/gotemplatelinter/translation_key_rule_check_printf.go:41-44 | **Main result.** The rule panics exactly when a used key is a pipe of one command that does not start with an identifier |
| `TranslationSort.CmpKeyIsStrictWeakOrder` | devtools/translationsorter/sort.go:22-34 | cmpKey is a strict weak order |
| `TranslationSort.V2KeyMeans` | devtools/translationsorter/sort.go:18-20 | A v2 key starts with v and 2 |
| `TranslationSort.SwapKeepsTies` | devtools/translationsorter/sort.go:12-14 | Swapping neighbours out of order keeps every class of ties in order |
| `TranslationSort.SortKeyValuePairs` | devtools/translationsorter/sort.go:8-16 | The in-place sort of the copy is a stable sort |
| `TranslationSort.StableSortIsUnique` | devtools/translationsorter/sort.go:12-14 | A list has only one stable sort |
| `TranslationSort.SortedFile` | devtools/translationsorter/sort.go:8-34 | **Main result.** Pairs without a v2 key first in original order, then v2 pairs ascending by key |
| `TranslationSort.SortIsIdempotent` | devtools/translationsorter/sort.go:8-16 | Sorting again changes nothing |
| `TranslationFile.GetKeyValuePairs` | devtools/translationsorter/parse.go:53-99 | The token loop with its parity and reused pair object is the reference parser, panicking also where the decoder fails |
| `TranslationFile.HandleToken` | devtools/translationsorter/parse.go:38-51 | One token into the pair object or the list; assigning the parameter does not replace the object |
| `TranslationFile.ParseMeans` | devtools/translationsorter/parse.go:53-99 | **Main result.** Of any token list: it panics if and only if the decoder fails at the first token or another one before the closing is no string; else it has the strings pair by pair and drops a last key without a value |
| `TranslationFile.ComposeJSON` | devtools/translationsorter/compose.go:8-35 | The write loop emits the pairs with commas between them only; a failing open leaves the file alone, a failing write cuts it off, and the errors of the first and last write go unnoticed |
| `TranslationFile.ComposedIsCut` | devtools/translationsorter/compose.go:8-35 | After a failing write the file holds the text up to that write, without the opening if that was lost |
| `TranslationFile.TextIsObject` | devtools/translationsorter/compose.go:15-34 | The text place by place: open, key, colon, value, comma, and so on to close |
| `TranslationFile.SuccessIsComplete` | devtools/translationsorter/compose.go:15-34 | A reported success means the whole text if and only if the first and the last write did not fail |
| `TranslationFile.ParseOfText` | devtools/translationsorter/parse.go:53-99 | **Main result.** Parsing what was composed gives the same pairs, for every list |
| `TranslationFile.SortFile` | devtools/translationsorter/main.go:14-35 | One file parsed, sorted and written, or left as it is if it cannot be read, parsed or opened |
| `TranslationFile.DoMain` | devtools/translationsorter/main.go:14-37 | The files in turn up to the first that fails: those before it are sorted, those after it untouched |
| `TranslationFile.SortFileIsIdempotent` | devtools/translationsorter/main.go:14-35 | **Main result.** A second run leaves the file as it is |
| `PhoneNumbers.MinimumNumberOfDecimalDigits` | k6/fixture.js:43-46 | The least d with n <= 10^d |
| `PhoneNumbers.PaddedValue` | k6/fixture.js:52-55 | Padding to x >= 1 digits keeps exactly the low x digits |
| `PhoneNumbers.UnpaddedValue` | k6/fixture.js:52-55 | Padding to no digits keeps the whole number, since slice(-0) is slice(0) |
| `PhoneNumbers.GuardKeepsIteration` | k6/fixture.js:93-102 | The guard implies that the iteration keeps all its digits unless the range is exactly a power of ten |
| `PhoneNumbers.NumberMeans` | k6/fixture.js:73-119 | The number is iteration and user side by side on top of the low end; there is none exactly if the digits do not suffice, the iteration is past the last, or the range is left |
| `PhoneNumbers.NumbersInRange` | k6/fixture.js:112-118 | Every allocated number lies in the range |
| `PhoneNumbers.NoCollision` | k6/fixture.js:73-119 | Equal numbers come from equal iteration and user |
| `PhoneNumbers.WrapsOntoZero` | k6/fixture.js:93-111 | For a power of ten, iteration 10^d gives user 1 the number of iteration 0 |
| `PhoneNumbers.AllocationIsInjective` | k6/fixture.js:73-119 | **Main result.** Two pairs collide if and only if the range is exactly a power of ten with more digits than the users need |
| `Reconnect.ApplyKeeps` | authui/src/websocket.ts:27-126 | Every event keeps the current target's timer the only one, live only while the current socket is closed, the current socket the only one with an effective close, and the index the bounded failure count |
| `Reconnect.AtMostOneOfEach` | authui/src/websocket.ts:71-126 | **Main result.** In every interleaving at most one live timer and one socket whose close is acted on |
| `Reconnect.FailureWaits` | authui/src/retry.ts:44-57 | **Main result.** In every run a close that is acted on, after k earlier ones since the last open, leaves exactly one timer, of 1000, 2000 or, from the third on, 4000 ms |
| `Reconnect.FailuresAreCounted` | authui/src/retry.ts:44-62 | In every run the current target has counted exactly the closes acted on since the last open or since it was made |
| `Reconnect.SocketsMove` | authui/src/websocket.ts:71-126 | What each event does to the sockets: an enabled connect and a retry make one, which is current from then on; a disconnect leaves none current; the earlier one becomes inert |
| `Reconnect.TimersMove` | authui/src/retry.ts:33-62 | What each event does to the pending retry: dropped by an open, a disconnect and its firing, replaced by a close that is acted on, left by all else |
| `Reconnect.NeverStuck` | authui/src/websocket.ts:50-126 | **Main result.** In every run a connected page has a live timer or a live socket if and only if, since it connected, its socket was not closed normally and no disposed socket opened late and cancelled a pending retry |
| `Reconnect.OnlyDisposedOpensLate` | authui/src/websocket.ts:27-33 | What opens while a retry is pending is a disposed socket, whose onopen was left in place |
| `Reconnect.LateOpenSticks` | authui/src/websocket.ts:73-76 | A run of five events in which that happens: the page waits for nothing although its last close asked for a retry |
| `Reconnect.QuietAfterDisconnect` | authui/src/websocket.ts:117-126 | After disconnect no timer is live and no socket is created until the next connect |
| `Reconnect.IdleStaysIdle` | authui/src/authflow_websocket.ts:27-33 | While disconnected, whatever old sockets report creates nothing |
| `Reconnect.Controllers.ScheduleRetry` | authui/src/retry.ts:44-57 | The delay is the option's value of the old index, the index stops at the option's maximum, and the old timer is replaced |
| `Reconnect.Controllers.MarkSuccess` | authui/src/retry.ts:59-62 | The index is reset and the timer cleared |
| `Reconnect.Controllers.CancelSchedule` | authui/src/retry.ts:33-38 | The timer of the handle is cleared |
| `Reconnect.Controllers.Dispose` | authui/src/websocket.ts:27-33 | The current socket becomes inert and is forgotten |
| `Reconnect.Controllers.ConnectWebSocket` | authui/src/authflow_websocket.ts:39-70 | A new socket becomes the current one |
| `Reconnect.Controllers.Connect` | authui/src/websocket.ts:101-115 | A new target listens to a new abort controller, then a socket, unless disabled |
| `Reconnect.Controllers.Disconnect` | authui/src/websocket.ts:117-126 | Dispose, abort, forget |
| `Reconnect.Controllers.OnOpen` | authui/src/websocket.ts:73-76 | Success is marked on the current target |
| `Reconnect.Controllers.OnClose` | authui/src/websocket.ts:78-85 | Inert or normal closes do nothing, others schedule a retry |
| `Reconnect.Controllers.OnRetry` | authui/src/authflow_websocket.ts:77-80 | A fired timer replaces the socket |

## Left out

- TaskQueueConsumer.Cluster.Work: a panic comes in place of a call that leaves the process (limiter, redis, processor), not between two assignments; as a step of the system in TaskQueue it comes anywhere inside work.
- TaskQueueConsumer.Cluster.Start0: a forever loop is run over a finite list of scripts, as the environment answers that many calls of work.
- TaskQueueConsumer.Cluster.RunTask: the conversion of an error to its API form; the outcome carries the converted one.
- TaskQueue.StepInv: the ledger counts reservations, not tokens; the limiter's own arithmetic, backoff durations and clock are not part of this model.
- Liveness under unfair scheduling, and reads torn by an unsynchronised write of `shutdownCtx`.
- The change-email, change-password, forgot-password, reset-password and login-link intents of latte: short chains that would add only easy members.
- Latte output data, logging, rate limits on sign-up, verified-claim storage and events: outside the trees and the session store.
- Latte input schemas: an input is the one value its reader takes.
- LatteServer.Service.FeedInput: why a session or instance is not found (expiry, another browser, a failing run-effect) is one fault of the request, not a clock or a user agent.
- LatteServer.Service.CreateNewWorkflow: a session that could not be created is an empty one, which no request can reach.
- LatteServer.Accept: a failing round leaves the tree of the round before it in the result, where the program leaves a half-changed tree in memory; neither is stored.
- Identities other than login IDs, and the normalisation, block lists and duplicate search of the identity service: its answers are arbitrary, and recorded with what was asked.
- Sessions.SessionStore.CommitNode: single sign-on groups, offline grants and expiry of sessions are not modelled; a token is looked up as it is, not by its hash.
- Base64Decoding.Base64DecToArr: the memory limits of typed arrays; a block size is a natural number.
- Base64.Base64EncArr: the test (i * 4 / 3) % 76 is made in exact arithmetic; floating point agrees for every index an array can have.
- Passkey option objects, credential checks and browser calls: only the text pipelines.
- Supervisor.Wrapper.Supervise: processes, output decoration and signal delivery; that a child ends once and reports once is the condition on the events.
- TemplateLint.ValidateTree: line and column of a violation are represented by the node; the traversal's visitor is the constant one and the checks run over the nodes it visited, in the same order.
- The other linter rules (indentation, final newline), the import linters and the translation linter's set differences.
- TranslationSort.SortKeyValuePairs: sort.SliceStable is an insertion sort here; a stable sort is unique, so another algorithm gives the same list.
- TranslationFile.ComposeJSON: characters, white space and string escapes; a file is its tokens, and a failing write writes none of its own.
- TranslationFile.GetKeyValuePairs: where exactly the decoder fails on text that is not JSON; it fails at the token `Bad`.
- TranslationFile.SortFile: characters and white space, as for the two above; the files of one run are given, not globbed.
- PhoneNumbers.MinimumNumberOfDecimalDigits: rounding of Math.log10, and numbers beyond 2^53.
- Reconnect.Controllers.OnClose: page refreshes and other messages; connect and disconnect alternate, as the framework calls them.
