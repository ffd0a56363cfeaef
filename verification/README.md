# Leaderless Paxos lock service: a verified model

The repository runs one independent Paxos instance per log position, without a leader, and on top
of the instances an in-order replicated lock service whose acceptors and learners write their
state to disk. This project models the servers' protocol logic and proves what holds over every
run, and exactly when.

## How the model is layered

1. **One instance** (`Wire`, `Roles`, `Consensus`). Each `on_*` handler is a function from a
   server's share of the instance and a message to an effect: new share, packets sent, command
   handed on. `Consensus` is the state machine: submissions, timer firings, deliveries in any
   order, losses, and, as the configuration allows, duplications and crashes. Everything sent is
   kept as history. `Invariant`, `InvariantSteps`, `Rounds` and `Safety` build the inductive
   invariant; `Agreement`, `Validity`, `Progress`, `Marooned`, `Limits`, `StaleBits` and `Denials`
   hold the theorems. `Replies`, `Redone`, `Word`, `Broadcasts`, `Tallies` and `Ballots` say what is
   sent and what is counted, over whole runs: what each reply repeats and whom each INFORM names,
   what a denied round resubmits, what an acceptor answers by what it has said before, what
   everybody is told, and what proposers and learners have counted. `Loose`, `LooseSteps`,
   `LooseRounds` and `LooseFlight` build the weaker invariant of a release build, `Release` what
   follows from it. `Scenario` is the toolkit with which concrete runs are built, `Crowd` the same for
   any number of servers, and `Sizes` decides agreement and validity for each deployment.
2. **Execution** (`Endpoint`, `LockService`, `Executor`, `Repeats`). The lock machine with its reply
   cache, and the reorder buffer in front of it.
3. **The log** (`LogFile`). A file of slots that grows by blocks, and the recovery scan.
4. **The system** (`Cluster`, `Replication`, `Consistency`, `Stall`, `Missed`, `Diverge`). n servers,
   all instances, files, executors, clients, restarts. `Records` is the invariant of every
   deployment whose crashing servers log, `Replication` that of the sound ones. `Projection` finds
   in a history the run of each instance; `Mirror` turns a run of one instance into a history, with
   the list lemmas of `Sequences`. `Solo` builds histories of a lone server, `Aside` those in which
   an instance is decided and nobody hears, `Pair` and `Crossing` those of two servers. `Tellers`
   and `Answering` say who answers whom and with what, `Signatures` and `Owed` that the server named
   does, `Requests` that what is executed and answered was asked for, `Expecting` and `Outstanding`
   what servers expect and queue for resubmission; `Ledgers` and `Honest` decide, for each
   deployment, whether the executed lists agree and hold only clients' commands.
5. **The objects** (`RoleObjects`, `InstanceObjects`, `RecoveryObjects`, `ServerObjects`). The
   source's classes with fields updated in place and its loops. Every method is proved equal to
   the function the theorems speak about, including what it leaves unchanged, so the theorems are
   about what these bodies do.

An event is a whole handler because the server runs on one event loop (server_main.cpp:57-72).
`Config` says what a deployment is: number of servers, the need_recovery option, whether servers
may crash, whether packets may be duplicated, and whether the build keeps its assertions
(`Debug`) or drops them (`Release`); README.txt:20 of the repository offers both builds. A
deployment is called sound when it either has no crashes, or has crashes with recovery on,
assertions kept and no duplication.

## Where the code does not meet the ideal

- **Agreement under crashes needs the assertions, or one, two or four servers.** A restarted
  proposer starts numbering afresh (src/proposer.cpp:13). A promise for a higher number of its former
  life passes the `<` test of src/proposer.cpp:78, and only the assertion at line 77 stops it from
  being counted. In a release build three servers, or five or more, choose two values for one
  position. With one, two or four servers it may propose two values under one number, too, but never
  choose two: the strays come from servers that accept neither any more, and the rest are no majority
  (`Release.TightAgreement`). `Sizes.AgreementOfEach` gives the exact condition for each deployment,
  and `Limits.AgreementExactly` for each combination of options over all sizes.
- **Validity** fails in a release build that crashes, whatever its size: it can propose the default
  value (`Sizes.ValidityOfEach`), and its servers can execute a command no client ever sent
  (`Honest.OnlyClientsOfEach`). Forgetting and duplication do not matter here.
- **Replication** fails where agreement does: two servers, or one server before and after its restart,
  execute different commands at one position. The exact condition for each deployment is
  `Ledgers.ReplicationOfEach`; a lone server with logs on is safe from everything, even from
  duplication. `Diverge.ReplicationExactly` is the statement over all sizes.
- **A denied round may resubmit a value given up.** The denial that completes a majority makes a server
  ask again with the value it carries (src/proposer.cpp:128-130). It is always that of a round which this
  server began with the number denied (`Redone.RedoneWasAsked`). But a restarted server takes its old
  numbers again, and a denial of its former life then brings back the value of that life, in place of
  the one whose round it is in. That can happen in every deployment that crashes, with logs and
  assertions, and in no other (`Redone.OwnRoundOfEach`).
- **A client may stay unanswered for ever.** A server answers a command only if the first INFORM it
  took for it named that server (src/server.cpp:124-128), and a repeat only if it was to answer the
  first one, because the remembered reply carries the old name (src/server.cpp:252-262).
  `Answering.AnswersExactly` says who is answered, and with which datagram, in every history of every
  deployment. A server that asks, and takes the decision it is told in reply first, does answer
  (`Owed.AskerAnswers`). But two servers
  that learn a value at different numbers can each hear the other's INFORM first, and then nobody
  answers; nothing need crash or get lost (`Crossing.NobodyAnswers`). After a restart all that was
  replayed names server 0, so every other server is silent on its repeats
  (`Answering.RestartSilences`), and if the others name the restarted one, nobody answers them
  (`Pair.RepeatIsUnanswered`).
- **One lost INFORM can stop a server for ever.** Learning a majority cancels the timer
  (src/learner.cpp:42) and makes the proposer refuse every further submission
  (src/proposer.cpp:32-35), but the command is handed on only when the INFORM arrives, and a learner
  broadcasts it once. While most servers are not informed, any of them that is still proposing can help
  (`Progress.BegunInforms`). Once all the others are informed, `Marooned.HopeExactly` says what must
  be in flight for the server to hear of the decision. Otherwise no event but its own restart helps
  (`Marooned.EventStaysHopeless`), it executes nothing from that position on, and once it gets there
  it takes no request (`Missed.MissedServerStalls`). No crash is needed to get there
  (`Missed.InformGetsLost`); a lone server that does not crash then halts altogether
  (`Missed.LoneServerHalts`).
- **A full log recovers as empty.** If every slot the scan visits is logged, `min_sequence` stays 0
  (src/logger.cpp:31-40) and nothing is replayed. `Consistency.RecoveryKeepsExecuted` gives the
  exact condition; `LogFile.FullBlock` shows that 1023 writes in order reach it. Such a server is
  dead from the moment it starts: the first position is decided here, so it takes no request, and
  while it stays up it executes nothing (`Stall.DeadExactly`). A lone server gets there by executing
  1023 commands and restarting (`Stall.FullLogKills`). One that, while up, hears of a decision
  beyond its full log writes it into a new block, which opens a gap, and the restart after that
  executes the log again (`Stall.HearingRevives`).
- **Logged decisions that the scan passes over are not executed after a restart**: recovery does not
  put them back into `cmd_min_set`, and an informed learner never hands its command on again. A logged
  position is passed over exactly if an earlier one is not logged or no visited slot is free
  (`Stall.RestartLeavesStuck`). The server neither executes past the first such position nor, once
  there, leaves the submit loop (`Stall.RestartedServerStalls`). Such a hole arises when a server
  hears position 2 and not 1 (`Pair.HoleSticks`). Restarting again changes nothing by itself
  (`Stall.RestartingTwiceIsOnce`); it helps exactly if by then everything before is logged and some
  visited slot is free (`Stall.RestartFreesExactly`).
- **The learner's bits go stale.** `on_inform` replaces number and value but not the bits
  (src/learner.cpp:92-94). They are always votes for the number last counted
  (`StaleBits.BitsAreOldVotes`), so they are votes for what the learner holds if that is the number
  it counted (`StaleBits.BitsAreVotesIfCounted`), and otherwise need not be
  (`StaleBits.InformedBitsGoStale`). They are not read after the INFORM.
- **Late denials use a null pointer.** Once an instance is decided, the denial that completes a
  majority makes src/server.cpp:71-72 pass on a null `prepare`. `Denials.UsesNullExactly` gives the
  guard, and `Denials.NullIsUsed` a run that gets there without a crash. The model takes no further
  step; as an abort of the process it is a loss followed by a crash.
- **At-most-once is on by configuration.** README.txt:53-55 says it is ignored; the code has it
  (src/server.cpp:249-263). The model follows the code.

## Model

| member | source | states |
|---|---|---|
| Endpoint.RoundTrip | util/network.cpp:8-19 | unpacking a packed endpoint gives it back, and no endpoint packs to the all-ones sentinel |
| Endpoint.StampedExactly | util/network.cpp:8-24 | the packed ids are exactly the 64-bit numbers that unpacking and packing preserve, and the sentinel is not among them |
| Endpoint.AddressAbovePort | util/network.cpp:8-19 | the packed id holds the address in its upper 32 bits and the port in its lower |
| RoleObjects.Proposer.constructor | src/proposer.cpp:11-18 | a new proposer starts at id + n with nothing counted |
| RoleObjects.Proposer.GetNextProposalNumber | src/proposer.cpp:20-27 | the next number is the current one plus n, and it becomes current |
| RoleObjects.Proposer.OnSubmit | src/proposer.cpp:30-63 | a decided instance refuses; otherwise a new round with the client's value and empty sets starts: the model's OnSubmit, on every field |
| RoleObjects.Proposer.OnPromise | src/proposer.cpp:68-107 | stale promises are ignored, the highest accepted value is adopted, ACCEPT is emitted once per number: the model's OnPromise, on every field |
| RoleObjects.Proposer.OnDenial | src/proposer.cpp:109-137 | a majority of denials for the current number asks for resubmission of the original value: the model's OnDenial |
| RoleObjects.Acceptor.RecoverFromState | src/acceptor.hpp:22-26 | the three fields are the logged ones |
| RoleObjects.Acceptor.OnPrepare | src/acceptor.cpp:9-67 | informed acceptors answer INFORM, old numbers are denied, new ones promised; the log is written exactly when promising |
| RoleObjects.Acceptor.OnAccept | src/acceptor.cpp:70-125 | informed acceptors answer INFORM, numbers below the promise are rejected, others accepted; the log is written exactly when accepting |
| RoleObjects.Acceptor.constructor | src/acceptor.hpp:20 | a new acceptor has promised and accepted nothing |
| RoleObjects.Learner.RecoverFromState | src/learner.hpp:24-29 | number and value are the logged ones and both flags are set |
| RoleObjects.Learner.OnAccepted | src/learner.cpp:15-48 | votes are counted for the highest number only, and a majority yields one INFORM |
| RoleObjects.Learner.OnInform | src/learner.cpp:82-106 | the first INFORM is adopted and logged before its command is handed on; later ones do nothing |
| RoleObjects.Learner.constructor | src/learner.cpp:8-12 | a new learner has counted nothing and decided nothing |
| RoleObjects.Logger.AppendAcceptorAsNeed | src/logger.hpp:56-67 | one block of zeros is appended exactly when the sequence is past the recorded size |
| RoleObjects.Logger.AppendLearnerAsNeed | src/logger.hpp:69-80 | the same for the learner file |
| RoleObjects.Logger.WriteAcceptorLog | src/logger.hpp:82-90 | the whole new file; read as a map it is the old one updated at the sequence written |
| RoleObjects.Logger.WriteLearnerLog | src/logger.hpp:92-99 | the same for the learner file |
| RoleObjects.Logger.ReadAcceptorLog | src/logger.hpp:101-107 | a slot carries its own number if and only if the file as a map contains it, and then with that state |
| RoleObjects.Logger.ReadLearnerLog | src/logger.hpp:109-115 | the same for the learner file |
| RoleObjects.Logger.constructor | src/logger.hpp:26-45 | opening files records their true sizes |
| InstanceObjects.Instance.constructor | src/instance.cpp:8-12 | a new instance has three new roles and no timer armed |
| InstanceObjects.Instance.SendAndArm | src/proposer.cpp:139-230 | the message goes to every server under this server's id, and the timer is armed with it |
| InstanceObjects.Instance.Submit | src/server.cpp:210-215 | submitting moves the whole share and sends PREPARE as the model's Submit says |
| InstanceObjects.Instance.OnTimeout | src/proposer.cpp:210-229 | a fired timer whose message is not executed yet disarms and resubmits the message's value |
| InstanceObjects.Instance.HandlePromise | src/server.cpp:57-65 | completing a majority disarms the prepare timer, broadcasts ACCEPT and arms the accept timer; nothing else is sent |
| InstanceObjects.Instance.HandlePrepare | src/server.cpp:50-56 | one reply to the asker, under this server's id unless it is INFORM; share and file as the model says |
| InstanceObjects.Instance.HandleAccept | src/server.cpp:76-81 | the same for ACCEPT |
| InstanceObjects.Instance.HandleInform | src/server.cpp:113-119 | the first INFORM disarms the timer and yields the command, its slot already on disk |
| InstanceObjects.Instance.HandleDenial | src/server.cpp:66-75 | a majority of denials resubmits at an instance not decided |
| InstanceObjects.Instance.HandleAccepted | src/server.cpp:82-90 | learning a majority disarms the timer and broadcasts INFORM under this server's id |
| InstanceObjects.Instance.Dispatch | src/server.cpp:49-116 | every message kind moves share, packets, command and both files as the model's Dispatch says; kinds not routed do nothing |
| InstanceObjects.Instances.GetInstance | src/instance.cpp:14-34 | finds or creates an instance; creating changes no instance's observable share |
| InstanceObjects.Instances.Insert | src/instance.cpp:26-31 | the table gains the new instance under its sequence and keeps all others |
| InstanceObjects.Instances.Disarm | src/proposer.cpp:165-168 | the instance's timer is no longer armed and nothing else changes |
| InstanceObjects.Instances.Deliver | src/server.cpp:42-43 | a message moves its own instance as the model says and leaves the share of every other instance unchanged, log slots included |
| InstanceObjects.Instances.SubmitTo | src/server.cpp:211-215 | a submission moves its own instance and no other |
| InstanceObjects.Instances.Expire | src/proposer.cpp:165-185 | a timer moves its own instance and no other |
| InstanceObjects.Instances.RestoreAcceptor | src/logger.cpp:26-28 | the instance's acceptor is the logged one; every other instance is untouched |
| InstanceObjects.Instances.RestoreLearner | src/logger.cpp:45-46 | the instance's learner is the logged one; every other instance is untouched |
| RecoveryObjects.ScanPrefix | src/logger.cpp:31-40 | the first learner loop returns the longest logged prefix, or 0 when nothing is missing |
| RecoveryObjects.PushHoles | src/logger.cpp:48-50 | the inner loop extends the hole list to exactly the unlogged sequences below the new maximum, in order |
| RecoveryObjects.RestoreAcceptors | src/logger.cpp:24-29 | the acceptor loop creates exactly the instances with a logged acceptor slot, each restored |
| RecoveryObjects.RestoreLearners | src/logger.cpp:42-54 | the second learner loop returns the greatest logged sequence and exactly the holes below it, and restores exactly the logged learners |
| RecoveryObjects.RecoverFromLog | src/logger.cpp:8-56 | the whole scan: three exact results, and the instances created are exactly those logged, each restored from its slots |
| RecoveryObjects.RebuiltIsRestart | src/logger.cpp:24-54 | after the scan every instance's share, used or not, is the one the consensus model restarts with |
| ServerObjects.PaxosServer.ExecuteCommand | src/server.cpp:245-330 | lock table, reply cache and reply after any command are those of the lock machine step |
| ServerObjects.PaxosServer.FirstWaiting | src/server.cpp:389-392 | the ordered set's first element is its least sequence |
| ServerObjects.PaxosServer.DrainWaiting | src/server.cpp:389-419 | taking the first waiting command while it is the next equals the recursive drain, and afterwards the next is not waiting |
| ServerObjects.PaxosServer.TryExecuteCommands | src/server.cpp:361-430 | next, old, waiting and early commands move the engine and yield responses as the model's TryExecute says |
| ServerObjects.PaxosServer.Response | src/server.cpp:332-358 | the reply goes to the address its command was stamped with, under this server's id; the expectation at that sequence is dropped, and the expected command comes back if another took its place |
| ServerObjects.PaxosServer.RespondToAll | src/server.cpp:124-170 | only commands this server is responsible for are answered; the answers leave in order, and mismatches queue resubmissions |
| ServerObjects.PaxosServer.DispatchPaxosMessage | src/server.cpp:38-180 | one message makes the model's whole system step at this server: instance, packets, files, executor, expectations, and the answers sent to clients, and nothing else |
| ServerObjects.PaxosServer.DispatchSubmit | src/server.cpp:182-216 | a request is stamped with the address it came from, goes to the instance after the last executed, and is expected there unless something already is |
| ServerObjects.PaxosServer.SubmitNext | src/server.cpp:196-215 | a message submitted to the instance after the last executed moves that instance alone and records what is expected there |
| ServerObjects.PaxosServer.TimerFires | src/proposer.cpp:208-229 | a fired timer resubmits its message, or does nothing but disarm if that sequence is already executed |
| ServerObjects.PaxosServer.ResubmitNow | src/server.cpp:149-169 | a delayed resubmission forgets its old expectation and is submitted afresh |
| ServerObjects.PaxosServer.ReplayPrefix | src/server.cpp:438-447 | executing the restored learners' commands in order and setting the counter at the end equals the model's replay |
| ServerObjects.PaxosServer.Recover | src/server.cpp:432-451 | the restarted server is the model's recovered server, and all its instances are the model's restarted ones |
| InvariantSteps.PromisesShow | src/proposer.cpp:83-96 | a counted majority of promises shows the proposer's current value safe at its number |
| Rounds.PromiseOnce | src/proposer.cpp:68-107 | with restarts, counting a promise that is gone from the network keeps at most one value per number |
| Safety.RunInv | src/server.cpp:38-116 | the inductive invariant holds in every state of every run of a sound deployment |
| Safety.CrashInv | src/acceptor.cpp:39-47 | a crash and recovery keeps the invariant although proposer state is lost |
| Agreement.ChosenBinds | src/proposer.cpp:83-96 | once chosen, a value is the value of every proposal with a higher number |
| Agreement.AgreementHolds | src/acceptor.cpp:9-125 | over every run of a sound deployment, values accepted by majorities at any two numbers are equal |
| Agreement.ProposalsAreSafe | src/proposer.cpp:68-107 | P2c: for every ACCEPT sent some majority accepted nothing below its number and never will, or has that value as its highest accepted one below, with nothing later in between |
| Agreement.OneValuePerNumber | src/proposer.cpp:90-103 | two ACCEPT messages of a run with one number carry one value and come from the number's owner; numbers are at least 2n |
| Agreement.NumbersAreOwned | src/proposer.cpp:13-27 | a proposer's number stays congruent to its id modulo n |
| Agreement.RoundsGoUp | src/proposer.cpp:20-63 | between restarts numbers never fall, and the majority flag stays up within a number |
| Agreement.RoundsAreNew | src/proposer.cpp:55-61 | every PREPARE sent carries its sender's previous number plus n |
| Agreement.LearnersAreSound | src/learner.cpp:28-43 | every learned or informed learner and every INFORM ever sent names a number and value a majority accepted |
| Agreement.LearnersAgree | src/learner.cpp:15-106 | any two decided learners, at any two moments of a run, hold the same value |
| Agreement.BitsAreVotes | src/learner.cpp:35-36 | the bits of a learner not yet informed are servers that accepted its number and value |
| StaleBits.BitsAreOldVotes | src/learner.cpp:28-36 | in every state of every sound run, restarts included, the bits are servers that accepted one proposal with the number last counted |
| StaleBits.BitsAreVotesIfCounted | src/learner.cpp:92-94 | if the number a learner holds, informed or not, is the one it counted, its bits are votes for its number and value |
| StaleBits.InformedBitsGoStale | src/learner.cpp:92-94 | a crash-free run after which an informed learner, whose INFORM carried another number than it was counting, has the bit of a server that never accepted its number and value |
| Agreement.AssertionsHold | src/proposer.cpp:73-122 | without crashes both assertions always hold, and every sender id can index the bitsets |
| Agreement.CrashIsIdentity | src/acceptor.cpp:39-47 | in every reachable state restarting gives back the acceptor and an informed learner exactly |
| Agreement.RepliesAreLogged | src/acceptor.cpp:102-111 | no PROMISE or ACCEPTED ever sent is newer than its sender's logged state |
| Replies.RunIsSigned | src/server.cpp:50-90 | in every run of every deployment every request ever sent carries a server's id, and every INFORM names a server of the deployment |
| Replies.InformsName | src/acceptor.cpp:14-23 | an INFORM sent on a PREPARE or an ACCEPT goes to the asker and names the asker; any other is sent on a vote, by a server not decided before, and names the server that counted it; it tells what that server holds |
| Replies.InformedAnswers | src/acceptor.cpp:77-85 | an informed server answers every request with exactly one INFORM, to the asker, naming the asker |
| Replies.RepliesEcho | src/acceptor.cpp:25-125 | every promise, denial, vote and rejection ever sent answers a request sent before: it goes back to the asker under the asked server's id and repeats the number asked; votes and refusals repeat the value, a denial reports a number at least as high, a rejection a higher one |
| Redone.DenialAsksAgain | src/proposer.cpp:109-137 | a denial makes a server ask again if and only if it is not older than the current number, completes a majority and nothing is decided; then every server is asked under the next number with the value denied, and the timer holds the same |
| Redone.RedoneWasAsked | src/proposer.cpp:128-130 | what a denial makes a server ask again for is the value of a PREPARE it sent earlier with the number denied, and its timer holds that value |
| Redone.FormerLifeIsRedone | src/proposer.cpp:13 | for every size, a run with a crash in which a denial brings back the value of the server's former life in place of the one whose round it is in |
| Redone.OwnRoundOfEach | src/proposer.cpp:119-132 | in a given deployment a denial always resubmits the value of the round in progress if and only if servers do not crash |
| Word.RunKeepsWord | src/acceptor.cpp:36-43 | where crashing servers log, an acceptor's promise is always the highest number it has promised or voted for, and its proposal its highest vote |
| Word.PromisesExactly | src/acceptor.cpp:25-67 | an acceptor not informed promises a number if and only if it is above every one it has promised or voted for, and reports its highest vote; otherwise it denies and reports the highest of those numbers |
| Word.VotesExactly | src/acceptor.cpp:87-125 | an acceptor not informed votes for a proposal if and only if its number is not below any it has promised or voted for, and otherwise rejects it and reports the highest |
| Broadcasts.EverybodyIsTold | src/proposer.cpp:139-230 | in every run an armed timer holds a request that its server sent to everybody under its current number, and a server that has learned and not heard has announced it to everybody, naming itself |
| Tallies.RunHasTrace | src/server.cpp:38-116 | every run is the run of some sequence of events, so what is said of traced runs is said of all |
| Tallies.CountsExactly | src/proposer.cpp:68-126 | in every run of every deployment a proposer's promised and denied sets are the senders of the replies handled since its round began and not older than its number, the majority flag is up if and only if the promises are one, and it holds the highest proposal they reported or else its round's own value |
| Tallies.ProposesOnce | src/proposer.cpp:98-105 | a proposal goes out if and only if a promise completes the majority: to everybody, under the current number, with the value counted up to, and into the timer; no other event proposes |
| Ballots.TalliesExactly | src/learner.cpp:22-47 | in every run of every deployment an undecided learner holds the highest number voted for since it started, the first value voted for under it, and exactly its voters, who are no majority; one that has learned holds a majority |
| Limits.StrayPromiseDisagrees | src/proposer.cpp:77-80 | a run of three servers with recovery on and assertions compiled out that chooses two values |
| Limits.DefaultIsProposed | src/proposer.cpp:77-96 | a run with a crash in a release build that proposes the default value nobody submitted |
| Limits.DuplicationDisagrees | src/proposer.cpp:13 | a run with a crash and a duplicated promise that chooses two values |
| Limits.ForgettingDisagrees | src/acceptor.cpp:41-47 | a run with a crash and recovery off that chooses two values |
| Limits.AgreementExactly | src/acceptor.cpp:9-125 | agreement holds over all runs if and only if crashes imply recovery on, assertions kept and no duplication |
| Limits.ValidityExactly | src/proposer.cpp:77-96 | only submitted values travel, over all runs, if and only if crashes imply assertions kept |
| Release.RunTight | src/proposer.cpp:68-107 | the weaker invariant of a release build with logs and one, two or four servers holds in every state of every run, stray promises counted or not |
| Release.TightAgreement | src/acceptor.cpp:9-125 | such a build never chooses two values, although it may propose two under one number |
| Release.TightLearnersAgree | src/learner.cpp:15-106 | nor do its learners decide two, at any two moments of a run |
| Sizes.ForgettingOfAny | src/acceptor.cpp:41-47 | for every size, a run with crashes and recovery off that chooses two values under one number |
| Sizes.DuplicationOfAny | src/proposer.cpp:13 | for every size, a run with a crash and duplicated promises that chooses two values under one number |
| Sizes.StraysOfAny | src/proposer.cpp:77-80 | for three servers and for five or more, a run of a release build with logs on that chooses two values under one number |
| Sizes.DefaultOfAny | src/proposer.cpp:77-96 | for every size, a run of a release build with a crash that proposes the default value |
| Sizes.AgreementOfEach | src/acceptor.cpp:9-125 | a given deployment agrees over all runs if and only if crashes imply logs on, no duplication, and assertions kept or one, two or four servers |
| Sizes.ValidityOfEach | src/proposer.cpp:77-96 | in a given deployment only submitted values travel, over all runs, if and only if crashes imply assertions kept |
| Denials.UsesNullExactly | src/server.cpp:66-74 | the null pointer is used if and only if a denial not older than the current number completes a majority of denials at a decided instance |
| Denials.NullIsUsed | src/server.cpp:71-72 | a run of two servers, possible also where nothing crashes or is duplicated, after which such a denial can be delivered |
| Validity.DispatchIsValid | src/server.cpp:49-116 | whatever handler runs, a share and messages made of submitted values stay so |
| Validity.ValidityHolds | src/proposer.cpp:30-137 | every value in an ACCEPT, ACCEPTED or INFORM, held by an acceptor or decided by a learner, was submitted by a client |
| Progress.TimerIsArmed | src/proposer.cpp:206-229 | a server that has begun an instance and not decided has an armed timer, in every run of every deployment |
| Progress.FiringInforms | src/proposer.cpp:139-230 | while most servers are not informed, an undecided server's firings raise its number past every promise and one full round informs any chosen server; the measure is the gap between the numbers |
| Progress.BegunInforms | src/learner.cpp:59-79 | from every reachable state in which most servers are not informed, a server that has begun and not decided can get every server informed, also one that has learned and missed its INFORM |
| Progress.ProgressIsPossible | src/proposer.cpp:139-230 | from every reachable state some series of timer firings and deliveries gets a server that has begun and not decided informed, so that its command is handed on |
| Marooned.HopeExactly | src/learner.cpp:36-43 | a server that learned and is not informed, all others being informed, can be informed by timers and deliveries if and only if an INFORM to it, or a PREPARE or ACCEPT of its own to another server, is in flight, or, in a deployment of at least two, the promises counted and in flight complete a majority it has not used |
| Marooned.HopelessNeverHears | src/proposer.cpp:32-35 | without that, no series of timer firings and deliveries informs it |
| Marooned.EventStaysHopeless | src/proposer.cpp:32-35 | and no event at all but its own crash gives it hope again: no submission, no duplicate, no restart of another |
| LockService.AtMostOnce | src/server.cpp:249-263 | with the option on, any history leaves the lock table its deduplication leaves without a cache |
| LockService.DedupKeepsFirsts | src/server.cpp:252-253 | for histories of guarded lock, unlock and no-op commands, deduplication keeps exactly the first command of each key |
| LockService.FirstsAnswerPlainly | src/server.cpp:266-322 | a command that is not a repeat is answered as a cache-free server answers it after the deduplicated history |
| LockService.RepeatsAnswerAlike | src/server.cpp:252-262 | every repeat is answered exactly as the first command with its key was |
| LockService.Discipline | src/server.cpp:265-316 | successful locks and unlocks of an object strictly alternate, each release is by the taker, and the table names the holder |
| LockService.RepliesTellTheHolder | src/server.cpp:275-306 | each of the six replies is given if and only if the holder at that moment calls for it |
| LockService.DedupDiscipline | src/server.cpp:249-316 | the same discipline for the commands a server with the cache actually applies |
| Repeats.RepeatTellsThePort | util/network.cpp:33-35 | after any history, a client that takes a lock and repeats its command is told it took it if the option is on and its port is one of 1024 to 49151, and otherwise that it holds it already |
| Repeats.OthersChangeNothing | src/server.cpp:325-329 | a command that is no lock, unlock or no-op changes nothing, and every later command is answered as if it had not been there |
| Repeats.NoOpsTakeTheKey | src/server.cpp:317-324 | a no-op from a registered port has no reply, and no later command with its key has one |
| Executor.ExecuteRefines | src/server.cpp:245-330 | executing a message is the lock machine's step on its value, reply included |
| Executor.TryExecuteFollows | src/server.cpp:361-430 | after every arrival the engine's state is the lock machine run over the list it executed |
| Executor.TryExecuteAnswers | src/server.cpp:361-430 | the responses an arrival yields are, in order, the lock machine's replies to the commands newly executed |
| Executor.ReorderBuffer | src/server.cpp:361-430 | after any arrivals, losses, duplicates and reordering included, the executed prefix is the longest consecutive one received, the waiting set is the rest, and the state is the machine run over the prefix |
| Executor.ArrivalOrderDoesNotMatter | src/server.cpp:361-430 | two arrival orders of the same positions end in the same prefix, the same waiting positions, locks and replies |
| LogFile.WriteIsUpdate | src/logger.hpp:82-90 | one write, near or far past the end, updates the file as a map at that index and keeps it well formed |
| LogFile.WriteSizes | src/logger.hpp:56-92 | a block of 1024 slots is appended if and only if the index is not below the size recorded, which is then the true one; an index beyond even that leaves the file longer than recorded |
| LogFile.FileIsMap | src/logger.hpp:56-115 | after any series of writes the logged slots are exactly the indices written, each with its last state |
| LogFile.ScanIsDetermined | src/logger.cpp:31-54 | the scan's specification leaves one possible result |
| LogFile.PrefixSurvives | src/logger.cpp:34-40 | the recovered prefix covers a logged prefix if and only if some visited slot is unlogged or that prefix is empty |
| LogFile.PassedOverExactly | src/logger.cpp:31-40 | the recovered prefix falls short of a logged position if and only if every visited slot is logged or one before it is not |
| LogFile.NextBlockHeals | src/logger.hpp:69-99 | a write beyond a full file makes the scan report a prefix again: up to the write if that is the next slot, else up to the old end |
| LogFile.FullBlock | src/logger.cpp:34-40 | 1023 writes in order fill the block, and the scan then reports prefix 0 |
| Records.ReplayFollows | src/server.cpp:438-447 | replaying is the lock machine run over the logged values |
| Records.LogWritesAgree | src/acceptor.cpp:39-47 | a handler's log writes are exactly the changes of its slots, and no other slot changes |
| Records.HistoryIsPlain | src/server.cpp:38-451 | in every deployment whose crashing servers log, release builds and duplicating networks included, executors hold what the learners heard and the files hold the slots, in every state of every history |
| Replication.HistoryIsGood | src/server.cpp:38-451 | the system invariant joining instances, files, executors and requests holds over every history |
| Consistency.DecreedForever | src/learner.cpp:82-106 | what a majority decided for a position stays decided in every later state |
| Consistency.AppliedIsDecreed | src/server.cpp:361-430 | each server's m-th executed command is the value chosen for instance m |
| Consistency.StateMachineReplication | src/server.cpp:245-430 | the commands executed by any two servers at any two moments are prefixes of one another, and each state is the machine run over them |
| Consistency.SameCountSameState | src/server.cpp:245-430 | servers that executed equally many commands have equal lock tables and equal remembered replies |
| Consistency.AnswersAgree | src/server.cpp:332-358 | whichever server answers the command at a position, and whenever, the reply is the same |
| Cluster.AnswerReachesItsClient | util/network.cpp:8-24 | an answer goes to the very endpoint whose address its command was stamped with |
| Tellers.TellsExactly | src/server.cpp:124-134 | when a command arrives a server sends, in order, exactly the datagrams for those commands newly executed that have a reply and whose teller it is: whom the command first taken for that position, or for the first one with its key, named; each datagram is under this server's id and carries the sequence of the position whose reply it is |
| Tellers.ReplayHeralded | src/server.cpp:438-447 | after any replay every remembered reply is the one to the logged command of its first position, with that sequence and number, and names server 0 |
| Answering.HistoryHasTrace | src/server.cpp:38-451 | every history is the history of some sequence of actions, so what is said of traced histories is said of all |
| Answering.AnswersExactly | src/server.cpp:124-134 | in every history of every deployment, crashes, losses and forgetting included, a server handling a message sends exactly the datagrams it is the teller of, to the addresses the commands carry, by what it took since it last started |
| Answering.SilentWhileUp | src/server.cpp:252-262 | a repeat of a command for which another was named is never answered by this server while it stays up |
| Answering.RestartSilences | src/server.cpp:438-447 | a server other than 0 answers no repeat of what it replayed |
| Pair.RepeatIsUnanswered | src/server.cpp:252-262 | a history of two servers in which both execute a client's repeated command after a restart of one, and from the restart on nobody is told anything |
| Aside.TakeRun | src/server.cpp:38-216 | any calm run of an instance not yet used in which nobody hears can be taken by the whole system without an answer and without changing anything else |
| Crossing.NobodyAnswers | src/server.cpp:124-128 | a history of two servers, possible also where nothing crashes or is duplicated, in which both execute a command with a reply and no client is told anything |
| Signatures.HistoryIsSigned | src/server.cpp:50-90 | in every history every request in flight carries a server's id and every INFORM in flight names a server, in every instance |
| Signatures.AlwaysAttends | src/server.cpp:113-121 | in every history of every deployment, forgetful ones included, what a server has executed or keeps waiting its learner is informed of |
| Owed.NamedAnswers | src/server.cpp:124-134 | a server that takes an INFORM naming it before it has heard of the position, and stays up, sends the client the reply in the very step that executes the command, if there is a reply and it is no repeat |
| Owed.AskerAnswers | src/acceptor.cpp:77-85 | so does a server that sent a PREPARE or an ACCEPT and takes first what an informed server replied to it |
| Requests.ClientsAsked | src/server.cpp:188-199 | the client values the model remembers are exactly the requests among the actions, each with the address it came from as its client id |
| Requests.RequestGoesOut | src/server.cpp:188-215 | a client's request is proposed to every server for the position after the last executed one, with the client's operation, object and counter and the address it came from; no other position moves |
| Requests.ResubmissionGoesOut | src/server.cpp:149-169 | a resubmission is proposed the same way, with the value it was queued with |
| Requests.RequestedOfEach | src/server.cpp:188-215 | in a given deployment every executed command is an earlier request of a client, with the address the request came from, in all histories, if and only if crashes imply assertions kept |
| Requests.ReplyIsToSource | src/server.cpp:249-263 | a reply is the command it answers with the outcome for its operation, and a repeat's reply is that of the first command with its key |
| Requests.EveryAnswerWasAsked | src/server.cpp:332-358 | where crashes imply assertions kept, every answer ever sent goes to the address of an earlier lock or unlock request, with its object and counter, under the id of the server that sends it |
| Expecting.RespondAllSettles | src/server.cpp:332-346 | answering a list of responses leaves expected exactly the positions that none of the answers is for |
| Expecting.RespondAllQueues | src/server.cpp:336-343 | and queues exactly, for each position answered where another client's or another command was expected, the expected one in the first answer's message |
| Outstanding.ExpectsExactly | src/server.cpp:196-215 | in every history of every deployment a server expects at each position exactly the value it first submitted there, by a client or by resubmission, that no answer, resubmission or restart has settled since |
| Outstanding.QueuedExactly | src/server.cpp:336-343 | in every history of every deployment the queue of resubmissions grows, on a message, by exactly the displaced commands, loses what is resubmitted, and is emptied by a restart |
| Mirror.Lift | src/server.cpp:38-216 | every run of the first instance that clients can cause is, state by state, the first instance of a history of the whole system, whose servers executed exactly what they are informed of |
| Diverge.ForgettingDiverges | src/acceptor.cpp:41-47 | a history with a crash and recovery off in which the executed commands differ |
| Diverge.DuplicationDiverges | src/proposer.cpp:13 | a history with a crash and duplicated promises in which the executed commands differ |
| Diverge.StrayPromiseDiverges | src/proposer.cpp:77-80 | a history of a release build with recovery on in which the executed commands differ |
| Diverge.ReplicationExactly | src/server.cpp:245-430 | the executed commands are prefixes of one another in all histories if and only if crashes imply recovery on, assertions kept and no duplication |
| Projection.Project | src/server.cpp:38-116 | every history contains, for each instance, a run of that instance which passes through all its states in order |
| Ledgers.ListsAgree | src/server.cpp:245-430 | the executed commands are prefixes of one another in every history of a logging deployment that is sound, is lone, or is a release build of two or four servers without duplication |
| Ledgers.ForgettingDivergesAny | src/acceptor.cpp:41-47 | for two servers or more, a history with crashes and recovery off in which the executed commands differ |
| Ledgers.DuplicationDivergesAny | src/proposer.cpp:13 | for two servers or more, a history with a crash and duplicated promises in which the executed commands differ |
| Ledgers.StraysDivergeAny | src/proposer.cpp:77-80 | for three servers and for five or more, a history of a release build with logs on in which the executed commands differ |
| Ledgers.ReplicationOfEach | src/server.cpp:245-430 | in a given deployment the executed commands are prefixes of one another in all histories if and only if crashes imply logs on and either one server or no duplication with assertions kept or two or four servers |
| Consistency.OnlyClientCommands | src/server.cpp:182-216 | every executed command is among the clients' values, each of which is a request with the address it came from as its client id (Requests.ClientsAsked) |
| Honest.AssertedIsHonest | src/server.cpp:182-216 | every executed command is a client's in every history of a deployment that does not crash or keeps its assertions, forgetting and duplicating ones included |
| Honest.DefaultIsExecuted | src/proposer.cpp:77-96 | for every size, a history of a crashing release build that executes the default command nobody sent |
| Honest.OnlyClientsOfEach | src/server.cpp:182-216 | a given deployment executes only clients' commands, over all histories, if and only if crashes imply assertions kept |
| Consistency.LocksAreDisciplined | src/server.cpp:265-316 | the lock discipline holds on every server of every history, repeats counted once when the option is on |
| Consistency.RecoveryKeepsExecuted | src/server.cpp:432-451 | recovery keeps every executed command if and only if none was executed or a visited slot is unlogged; the state is the replay of the prefix |
| Consistency.TimerCheckIsRedundant | src/proposer.cpp:168 | the timer's own check for executed sequences never changes what happens |
| Stall.RestartLeavesStuck | src/server.cpp:432-451 | after a restart the positions known but not executable are exactly those logged for which an earlier position is not logged or no slot that the scan visits is free |
| Stall.RestartedServerStalls | src/server.cpp:113-119 | a server that restarts with such a position logged never executes that far while it stays up, and cannot take requests once everything before is executed |
| Stall.RestartingTwiceIsOnce | src/server.cpp:432-451 | restarting a second time changes nothing |
| Stall.RestartFreesExactly | src/logger.cpp:31-40 | a further restart executes a stuck position if and only if by then everything before it is logged and some visited slot is free, and leaves it stuck if and only if not |
| Stall.DeadExactly | src/logger.cpp:31-40 | a restart leaves a server that executes nothing and takes no request if and only if the first position is logged and every visited slot is |
| Stall.HearingRevives | src/logger.hpp:69-99 | a server whose log is full and that hears of a decision beyond it executes, at the restart after that, everything up to the gap which the new block opens |
| Stall.FullLogKills | src/logger.cpp:31-40 | a history of a lone server that executes 1023 commands, restarts, and is dead |
| Pair.HoleSticks | src/server.cpp:432-451 | a history of two servers in which one hears position 2 before 1 and restarts: there is a free slot, 2 is logged and 1 is not, nothing is executed, and it is stuck at 2 |
| Solo.ExecutesMany | src/server.cpp:38-216 | a lone server can execute any number of requests, one block of its log's worth if it logs |
| Missed.ExecutedIsHeard | src/server.cpp:113-119 | a server has executed only positions it was informed of |
| Missed.MissedServerStalls | src/learner.cpp:36-43 | a server without hope for a position never executes it while it stays up, and takes no request once it has executed everything before |
| Missed.InformGetsLost | src/learner.cpp:36-43 | a history of a lone server, without a crash, that loses one INFORM and has no hope for its first position |
| Missed.LoneServerHalts | src/proposer.cpp:32-35 | in that history, if servers do not crash, no action whatever is possible any more |

## Left out

- Sockets, asio callbacks, send retries and buffers (util/network.cpp:37-99): packets are a
  multiset from which any may be delivered, lost or, if allowed, duplicated.
- Real time: a timer may fire whenever it is armed; random delays and durations are not modelled.
- A cancelled timer whose callback is already queued: it would act as one more submission of the
  same value, which an instance accepts at any time.
- Bytes, struct layout and memcpy; fsync. A log write is atomic and durable, as the comment at
  src/logger.hpp:87-88 assumes.
- 32-bit wrap-around: proposal numbers, sequences and counters are naturals.
- Threads: the model is the single event loop, so mutexes and the iterator reused in
  src/instance.cpp:14-34 do not appear.
- Configuration parsing, logging, the main programs and the client's request loop.
- Termination of the submit loop (src/server.cpp:196-213): while the next position is decided but
  not executed it reads the same sequence for ever. The model takes a submission step only when
  the loop ends at once; otherwise there is no step.
- A debug build that aborts on an assertion is a loss followed by a crash.
- REJECTED is never routed to its handler (src/server.cpp:14-30), so it is dropped.
- LEARN, UNDECIDE, leader election and the heartbeat code, none of which does anything.
- That every request is eventually executed or answered: `emplace` keeps only the first expected
  value and only the server named resubmits, as Outstanding.ExpectsExactly and
  Outstanding.QueuedExactly say, and it may be that nobody answers (Crossing.NobodyAnswers).
- Progress.ProgressIsPossible: about one instance and a server not yet decided. That the executor
  advances also needs every earlier position informed, and fails as Missed.MissedServerStalls and
  Stall.RestartedServerStalls say.
- Marooned.HopeExactly: exact where all the other servers are informed. If others are not, but most
  are, whether the server can be informed depends on who is informed first; the project gives the
  sufficient condition of Progress.BegunInforms for a majority not informed.
- RoleObjects.Logger.ReadAcceptorLog: reads inside the file only. Past its end the source's read
  fails and decodes whatever the buffer held; the recovery loops never go there.
- RoleObjects.Logger.ReadLearnerLog: the same for the learner file.
- InstanceObjects.Instance.OnTimeout: the check for executed sequences, which needs the server, is
  in ServerObjects.PaxosServer.TimerFires.
- InstanceObjects.Instance.HandleDenial: the null pointer is no step, as Denials.UsesNullExactly says.
- InstanceObjects.Instance.Dispatch: the same for its DENIAL branch.
- InstanceObjects.Instances.GetInstance: sequences start at 1, as all that the servers use do; the
  source would create an instance 0.
- InstanceObjects.Instances.Deliver: sequences start at 1, as every message a server sends has; the
  source would open an instance 0, whose log slot reads as empty.
- ServerObjects.PaxosServer.DispatchPaxosMessage: the same.
- RecoveryObjects.RecoverFromLog: the caller is a freshly started process, so the instance table is
  empty; when both files are empty the source leaves its three results unset and so does not
  promise anything about them.
- ServerObjects.PaxosServer.SubmitNext: requires the loop to end, as above.
- ServerObjects.PaxosServer.DispatchSubmit: requires the loop to end, as above.
- ServerObjects.PaxosServer.ResubmitNow: requires the loop to end, as above.
- ServerObjects.PaxosServer.ReplayPrefix: reads the restored learner from the instance table
  directly where the source looks it up with get_instance, which creates nothing there.
