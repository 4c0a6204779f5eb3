# Verification of the SAM mode-transition protocol

SAM coordinates a set of applications through mode changes. It asks every connected application to
prepare (`PrepareMode`), orders the change once all have agreed (`CommitMode`) or calls it off once
one refuses (`AbortMode`), and publishes the new mode when all have confirmed. Around this two-round
agreement sit connection generations (a reconnecting application displaces its old session), bounded
outbound queues that drop what does not fit, heartbeats and health aggregation, and a framed byte
stream.

The project has four layers.

* **SAM's objects.** `mode_manager.dfy`, `registry.dfy`, `health.dfy`, `service.dfy` and `server.dfy`
  hold the classes and loops of the source, updating their state in place. Every method is proved to
  perform one function on values, given in `Modes`, `Registry`, `Health` and `ServiceSteps`.
* **Runs of SAM.** `coherence.dfy`, `answers.dfy`, `manager_moves.dfy`, `announcements.dfy`, `news.dfy`,
  `unanimity.dfy`, `connections.dfy`, `records.dfy` and `detection.dfy` prove properties of every
  sequence of calls, whoever makes them: applications may lie, repeat themselves, or speak through
  displaced connections.
* **The whole system.** `client.dfy` models the application's session loop, `network.dfy` joins SAM
  to any number of applications through one FIFO queue in each direction per connection, and
  `network_invariant.dfy`, `delivery.dfy`, `agreement.dfy`, `applied.dfy`, `consent.dfy`,
  `conformance.dfy`, `tokens.dfy`, `sessions.dfy`, `termination.dfy` and `turns.dfy` prove properties of every run of it.
* **The wire.** `framing.dfy` models the length-prefixed frames over a byte stream that arrives in
  chunks of any sizes.

Every locked call on SAM is one atomic step, because every method of `SamService` holds its one
mutex from beginning to end. In the whole-system model a step is such a call, one turn of a session
task, or one turn of a client; either end of a connection may fail at any step. A session begins in
whatever mode its handler is in, that of an earlier session of the same process or a restarted
process's own, and nothing keeps two processes from running sessions for one application at once. A
handler keeps its mode when it prepares, is in the committed mode after a commit that succeeds, and
may be left in any mode by one that fails; `DemoHandler` (crates/sam-demo-app/src/lib.rs:64-79) is an
instance.

Conditions carried by the main results:

* Transition and connection ids are 64-bit counters that wrap. Results that rely on ids not being
  reused assume fewer than 2^64 transitions and registrations (`Network.Bounded`);
  `Protocol.IdsRepeatModuloWord` shows that this is exactly when ids stay distinct.
* A session that registers while a transition is being committed is welcomed into the mode on its
  way out and never receives that commit. `Agreement.LosslessClientsAgreeExactly` gives this as an
  equivalence, and `Agreement.LateSessionsAreToldThePreviousMode` exhibits the failure at every such
  registration.
* A participant's disconnect does not touch the mode manager and there is no timeout, so progress is
  stated for runs in which every client attends when the transition is requested (`Sessions.AllAttend`)
  and every event spares the participants' sessions (`Sessions.Undisturbing`): none is cut, closed or
  displaced, no handler fails, and no participant's queue is full when the commit is ordered.
* Registering with a full or closed queue records the application as connected without giving it a
  connection. `Coherence.CoherenceIsKeptExactly` shows that this is the only call that breaks the
  coherence of the registry with the connection map; the server always passes a new queue, so it
  never happens there.

Where the source and its comments differ, the model follows the code:

* crates/sam-client/src/runtime.rs:125-128 says that `run` returns for two permanent failures only;
  the code (lines 132-136) also returns for `InitialSynchronizationFailed`.
* crates/sam-core/src/registry.rs:50-52 says that a disconnected entry stays until the application
  re-registers or heartbeats again; through `SamService` only re-registering can do so, because a
  heartbeat from a removed connection is refused before it reaches the registry
  (crates/sam-service/src/service.rs:182, 368-378).

## Model

| member | source | states |
|---|---|---|
| Protocol.IdClosedForm | crates/sam-core/src/mode.rs:136-137 | The id handed out by attempt n of a counter that starts at one and wraps is the successor of n modulo 2^64, again modulo 2^64. |
| Protocol.IdsRepeatModuloWord | crates/sam-service/src/service.rs:109-110 | Two attempts get the same id if and only if their numbers agree modulo 2^64. |
| Protocol.IdsDistinct | crates/sam-core/src/mode.rs:136-137 | Fewer than 2^64 attempts never share an id. |
| Modes.ModeManager.constructor | crates/sam-core/src/mode.rs:87-92 | A new manager is stable in the given mode and will number its first transition one. |
| Modes.ModeManager.RequestTransition | crates/sam-core/src/mode.rs:117-146 | In-place form of the opening step: new state, id and each refusal are those of `OnRequest`; the phase invariant is kept. |
| Modes.ModeManager.ApplicationReady | crates/sam-core/src/mode.rs:157-203 | In-place form of the ready step, with its three refusals and the move to the commit round when the last participant answers; the phase invariant is kept. |
| Modes.ModeManager.ApplicationRejected | crates/sam-core/src/mode.rs:215-250 | In-place form of the rejection step: any participant, ready or not, returns the manager to the mode in force. |
| Modes.ModeManager.ApplicationCommitted | crates/sam-core/src/mode.rs:261-297 | In-place form of the commit step, with its four refusals and the move to the new mode when the last participant confirms. |
| Modes.ReadyRoundIsASet | crates/sam-core/src/mode.rs:157-203 | Feeding any sequence of ready responses, in any order, with duplicates, stale ids and strangers, amounts to the set of awaited applications it names; the round completes once, exactly when that set is everyone, after exactly that many accepted responses. |
| Modes.CommitRoundIsASet | crates/sam-core/src/mode.rs:261-297 | The same for the commit round and the applications that confirm the target mode. |
| Modes.TransitionTakesTwoFullRounds | crates/sam-core/src/mode.rs:117-297 | For any one sequence of ready and committed responses, in any order, early and repeated ones included, a transition reaches its target if and only if every participant says ready and, after that, every participant confirms the target; it then took exactly n accepted readies and n accepted commits. |
| Registry.ApplicationRegistry.Register | crates/sam-core/src/registry.rs:45-48 | Registering replaces any earlier entry by a new one, connected, healthy and in startup, and touches no other. |
| Registry.ApplicationRegistry.MarkDisconnected | crates/sam-core/src/registry.rs:53-60 | Only the connected flag of a known application changes; an unknown one is an error and changes nothing. |
| Registry.ApplicationRegistry.UpdateHeartbeat | crates/sam-core/src/registry.rs:64-80 | A heartbeat replaces the whole status of a known application and marks it connected; an unknown one is an error. |
| Registry.ApplicationRegistry.SetMode | crates/sam-core/src/registry.rs:84-95 | Only the mode of a known application changes, not its heartbeat time; an unknown one is an error. |
| Health.HealthManager.Calculate | crates/sam-core/src/health.rs:26-55 | For every visiting order, the early-exit loop returns the most severe health any application has: `Failed` if and only if some application is disconnected, silent for longer than the timeout, or failed by its own account; `Degraded` if and only if none is and some reports it; `Healthy` otherwise, for an empty registry too. |
| Health.WorstIsUnique | crates/sam-core/src/health.rs:26-38 | That result does not depend on the visiting order: the most severe member is unique. |
| Health.PublishedHealthIsWorstReport | crates/sam-service/src/service.rs:401-423 | The published health, computed from the worst base health and a mode mismatch, equals the most severe of the effective healths computed application by application. |
| Health.PublishedHealthExactly | crates/sam-service/src/service.rs:401-413 | In terms of the recorded statuses alone, the published health is `Failed` if and only if someone is down, and `Degraded` if and only if nobody is and someone reports it or is connected in a mode other than the system's. |
| Health.EffectiveHealthExactly | crates/sam-service/src/service.rs:415-423 | The effective health of one application follows the same rule for that application alone. |
| ServiceSteps.RecalculationMatchesReport | crates/sam-service/src/service.rs:323-344 | Right after a recalculation at an instant, the published health is the worst effective health in the report of that instant. |
| SamServices.Channel.TrySend | crates/sam-service/src/service.rs:435-441 | A message is queued exactly when the queue is open and not full, and is dropped otherwise. |
| SamServices.SamService.constructor | crates/sam-service/src/service.rs:83-95 | A new service is in startup, healthy, without applications or clients, and its manager agrees with the published mode. |
| SamServices.SamService.RecalculateHealth | crates/sam-service/src/service.rs:401-413 | Sets the published health, and nothing else, to exactly what the recorded statuses and the published mode call for at that instant. |
| SamServices.SamService.Broadcast | crates/sam-service/src/service.rs:435-441 | Every current client, participant or not, is offered the message once, in whatever order the map is visited. |
| SamServices.SamService.BroadcastState | crates/sam-service/src/service.rs:425-433 | Every current client is offered the published mode and health. |
| SamServices.SamService.Settle | crates/sam-service/src/service.rs:275-280 | The decided mode is published, health recomputed under it, and the result offered to every client. |
| SamServices.SamService.Register | crates/sam-service/src/service.rs:102-133 | The id is consumed and the entry written even when the reply does not fit; only when it fits is the connection installed and the welcome queued, carrying the state after registration. |
| SamServices.SamService.Disconnect | crates/sam-service/src/service.rs:139-164 | Ends exactly the connection named; a displaced connection's disconnect changes nothing; the rest always hear the new state. |
| SamServices.SamService.HandleMessage | crates/sam-service/src/service.rs:174-284 | One message: verification order, each refusal, late responses absorbed, new state and the broadcast delivered to every queue are those of `OnMessage`. |
| SamServices.SamService.HandleHeartbeat | crates/sam-service/src/service.rs:185-202 | The heartbeat branch: registry, recomputed health, and a broadcast exactly when the health changed. |
| SamServices.SamService.HandleReady | crates/sam-service/src/service.rs:203-231 | The ready branch: the commit order goes out exactly when the last participant is ready. |
| SamServices.SamService.HandleCommitted | crates/sam-service/src/service.rs:252-281 | The confirmation branch: registry entry always, published mode, health and broadcast only with the last confirmation. |
| SamServices.SamService.RequestMode | crates/sam-service/src/service.rs:288-304 | Opens a transition across exactly the current clients and offers the prepare order to each, or fails without effect. |
| SamServices.SamService.RefreshHealth | crates/sam-service/src/service.rs:350-359 | The periodic evaluation broadcasts exactly when the health changed. |
| SamServices.SamService.Applications | crates/sam-service/src/service.rs:323-344 | The report has one entry for each application ever registered, with its effective health at the instant asked. |
| Coherence.SoundnessIsKept | crates/sam-service/src/service.rs:102-359 | Every call keeps the published mode equal to the manager's, every client registered, and the phase invariant. |
| Coherence.CoherenceIsKeptExactly | crates/sam-service/src/service.rs:102-133 | A call keeps "marked connected if and only if in the connection map" exactly unless it is a first registration whose reply cannot be queued. |
| Coherence.RunsAreSound | crates/sam-service/src/service.rs:102-359 | Soundness holds in every state of every run from a fresh service. |
| Coherence.RunsAreCoherent | crates/sam-service/src/service.rs:102-164 | Every run in which no first registration loses its reply is coherent throughout. |
| Coherence.FailedCallsLeaveNoTrace | crates/sam-service/src/service.rs:174-304 | A call that fails, registrations aside, leaves the whole service unchanged and sends nothing. |
| Coherence.RegistryNeverRefuses | crates/sam-service/src/service.rs:194-197 | After a connection is verified the registry updates of heartbeats and confirmations never fail. |
| Coherence.CommitPointIsWhole | crates/sam-service/src/service.rs:258-280 | At the last confirmation manager, published mode, registry entry and broadcast move together. |
| Coherence.UselessExactly | crates/sam-service/src/service.rs:394-399 | The messages that are displaced, foreign, late, repeated or name the wrong mode are exactly those that fail or, being mode responses, leave the manager alone; they change nothing at all. |
| Coherence.UselessMessagesAreInvisible | crates/sam-service/src/service.rs:174-284 | Erasing from any sequence of calls every message that is useless when it arrives yields the same final state, the same broadcasts, and the same messages offered to the same connections' queues in the same order. |
| Answers.RequestsAreGrantedExactly | crates/sam-service/src/service.rs:288-304 | A mode request is granted if and only if SAM is at rest in another mode and anyone is connected, whatever the health, and gets the next transition id; otherwise the first obstacle in that order is named. |
| Answers.MessagesAreRefusedExactly | crates/sam-service/src/service.rs:174-284 | A message is refused if and only if its connection is not current, it registers again, it speaks for another application, or it misstates the mode of the active commit, checked in this order; every other message succeeds, however late. |
| Answers.OtherCallsSucceed | crates/sam-service/src/service.rs:102-164 | A registration succeeds if and only if its reply can be queued, with the next connection id; disconnects and refreshes always succeed. |
| News.StateIsComputedExactly | crates/sam-service/src/service.rs:102-359 | The published mode changes with the last confirmation alone; the health published after a registration, a departure, a heartbeat, a completed transition or a refresh is exactly what the statuses recorded by that call and the mode then published ask for, and no other call changes it. |
| News.StateIsAnnouncedExactly | crates/sam-service/src/service.rs:139-202 | The state is announced if and only if an application departs, a transition completes, or a refresh or heartbeat changes the published health, and the announcement is of the state then published. |
| News.ListenersAreUpToDate | crates/sam-service/src/service.rs:425-441 | A listener who knew the state and has heard every broadcast knows it after any calls but registrations. |
| News.RegistrationsAreSilent | crates/sam-service/src/service.rs:111-123 | A registration tells nobody else, and leaves the listeners behind if and only if it changes the published health. |
| News.NewcomersAreUpToDate | crates/sam-service/src/service.rs:112-123 | The welcome carries SAM's version, its mode and the health the statuses call for, the newcomer included, and whoever hears it and every broadcast since knows the state after any calls but further registrations. |
| News.ChangesAreAnnounced | crates/sam-service/src/service.rs:198-201 | In every run, a call other than a registration that changes the published mode or health broadcasts the new ones. |
| Records.KnownMeansContacted | crates/sam-core/src/registry.rs:45-48 | In every run SAM knows exactly the applications that have registered or sent a heartbeat. |
| Records.RecordsFollowTheLog | crates/sam-core/src/registry.rs:45-80 | What is recorded of an application is the health its latest contact reported and the time of that contact, and it is recorded as connected if and only if it has not departed since. |
| Records.ModesFollowTheLog | crates/sam-core/src/registry.rs:64-95 | The mode recorded of an application is the one last told by its registration, a heartbeat, or an accepted confirmation. |
| Records.ReportsFollowTheLog | crates/sam-service/src/service.rs:323-344 | Every field of the report on an application, in terms of the log of calls: health, mode, presence, synchronization, age since the latest contact, and the effective health they imply. |
| Records.AlarmsAreExact | crates/sam-service/src/service.rs:350-359 | Over every run, a refresh publishes `Failed` if and only if some application SAM ever heard from has been silent for longer than the timeout, last reported itself failed, or has departed since: no failure is missed and no alarm is false. |
| ManagerMoves.EveryCallMoves | crates/sam-service/src/service.rs:174-304 | Every call moves the manager in one of seven ways told apart by the change of phase; each that is a response fixes its sender's connection, participation, id and, for a commit, mode, and each fixes the new sets and the broadcast. |
| Announcements.StepIsGrammatical | crates/sam-service/src/service.rs:217-304 | What one call broadcasts is accepted by the listener's automaton, which stays in agreement with SAM's phase, mode and ids. |
| Announcements.AnnouncementsFollowGrammar | crates/sam-service/src/service.rs:425-441 | Over any calls, the broadcasts form a prefix of the word prepare(k) then commit(k) or abort(k), for k = 1, 2, 3, and so on, with wrapping ids, and every state announced names the mode the grammar allows. |
| Announcements.VerdictsAreUnique | crates/sam-core/src/mode.rs:188-249 | In a log of at most 2^64 transitions no id gets two verdicts, so never both a commit and an abort. |
| Announcements.CommitsAreAnnounced | crates/sam-service/src/service.rs:275-280 | Between a commit order and the next prepare order the committed mode is announced. |
| Announcements.CommitsWhatWasAsked | crates/sam-service/src/service.rs:217-230 | Every commit order names an id and mode that an earlier prepare order asked for. |
| Unanimity.RunsAreExplained | crates/sam-core/src/mode.rs:117-297 | At every point of every run the participants are the clients of the opening call and have been since, and the ready and committed sets consist of applications whose responses were accepted since the active transition was opened or ordered. |
| Unanimity.ModeChangesAreUnanimous | crates/sam-service/src/service.rs:203-304 | Whenever the published mode changes, the call completes a transition that was open, with the same id, target and participants, in every state since its request; and every client of the moment of that request had its approval accepted between request and commit order and its confirmation accepted after the order, whatever callers did in between. |
| Connections.ClientsFollowTheLog | crates/sam-service/src/service.rs:102-164 | For every interleaving of registrations and disconnects, an application is a client if and only if its latest installed connection has not been disconnected, and the map then holds that connection's id. |
| Connections.ConnectionIdsCountAttempts | crates/sam-service/src/service.rs:109-110 | Connection ids number registration attempts, failed ones included. |
| Connections.DisplacedConnectionsStaySilent | crates/sam-service/src/service.rs:368-378 | Within 2^64 registration attempts a displaced connection never again passes verification. |
| Connections.ClosedSessionsLeaveNothing | crates/sam-service/src/server.rs:131-153 | Once every installed connection has had its closing disconnect no client is left, and if any application was ever seen the published health is failed. |
| Detection.PastDeadlineStep | crates/sam-service/src/service.rs:350-413 | Past a silent application's deadline a call publishes `Failed` or leaves the health as it was; a refresh publishes `Failed`. |
| Detection.FailureSticks | crates/sam-core/src/health.rs:42-55 | After a refresh past the deadline, `Failed` stays published through every other call while the silence lasts. |
| Detection.SilenceIsDetected | crates/sam-service/src/service.rs:346-359 | With refreshes at most d apart, a silent application makes the published health `Failed` by the time the clock passes last heartbeat + timeout + d, and it stays so. |
| Client.ApplicationRuntime.Handle | crates/sam-client/src/runtime.rs:160-269 | The handling of one message from SAM, before and after registration: handler mode, reply and each way the session can end. |
| Client.ApplicationRuntime.RunSession | crates/sam-client/src/runtime.rs:149-274 | A session registers first and then takes turns until one ends it; nothing after that turn has an effect. |
| Client.ApplicationRuntime.Run | crates/sam-client/src/runtime.rs:129-144 | Runs one session after another, each from the mode the last one left the handler in, until one ends for a permanent reason; nothing after that has an effect. |
| Client.OrdersAreAnsweredOnce | crates/sam-client/src/runtime.rs:236-257 | Once it has registered a session answers each order it takes exactly once and in order with what its handler decided: ready if and only if it prepared, otherwise rejected for the handler's reason, and committed only if it applied the mode. It says nothing else but heartbeats, not even a second registration, and leaves unanswered only a commit its handler failed, which ends it. |
| Client.HeartbeatsTellTheTruth | crates/sam-client/src/runtime.rs:225-234 | A running session sends one heartbeat for each tick, with the health of that moment and the mode the handler is then in. |
| Client.SessionsRunExactly | crates/sam-client/src/runtime.rs:156-269 | A session is running if and only if SAM's first message accepted it in its own version, in a mode the handler was in or prepared and applied, and no turn since was a failed commit, a registration reply or the end of the connection; the handler is then in the mode SAM last told it. |
| Client.SessionsEndExactly | crates/sam-client/src/runtime.rs:156-269 | A session has ended for a reason, with its handler left in a mode, if and only if some turn ended it so while it waited for SAM's first message or ran; nothing after that turn has an effect. |
| Client.PermanentEndsExactly | crates/sam-client/src/runtime.rs:160-208 | A session ends for a permanent reason if and only if SAM's first message refuses it, is in another version, or asks for a mode the handler does not get into, and the reason is the matching one. |
| Client.RuntimesGiveUpExactly | crates/sam-client/src/runtime.rs:129-144 | A runtime gives up if and only if some session it gets to ends so; every other ending, a failed commit too, is followed by a new session. |
| Server.RunRegisteredSession | crates/sam-service/src/server.rs:159-190 | The loop takes turns up to and including the first that ends it (peer gone, stream broken, message refused, or nothing queued and the sender gone), or all of them if none does; SAM, what is queued and what is written are then exactly what those turns make of them. |
| Server.SessionIsCallsAndAQueue | crates/sam-service/src/server.rs:167-188 | Any turns of a session amount, for SAM, to the calls made during them, and, for the client, to a queue that only grows at its end: nothing is lost or reordered on its way out. |
| Server.WritesAreCounted | crates/sam-service/src/server.rs:169-173 | Each turn to write that finds something queued writes one message, and no other turn writes any. |
| Server.QueuesAreDrained | crates/sam-service/src/server.rs:169-173 | With no call in between, n turns to write write exactly the first n messages queued, so as many turns as there are messages empty the queue. |
| Server.OrphanedSessionsDrainAndEnd | crates/sam-service/src/server.rs:169-174 | A session whose sender is gone writes all that is queued and ends at its first turn to find nothing. |
| Server.AttachedSessionsWait | crates/sam-service/src/server.rs:169-174 | A session SAM still broadcasts to is not ended by finding nothing queued. |
| Server.EndingTurnsAreLast | crates/sam-service/src/server.rs:175-187 | Nothing is taken after the peer is gone, the stream is broken, or a message is refused. |
| Server.ServeConnection | crates/sam-service/src/server.rs:80-153 | A first message that is not a registration in exactly SAM's version is rejected, with the reason that applies, and never reaches SAM; otherwise the session is opened with its welcome, takes exactly the turns up to the one that ends it, and is always closed, after which the connection no longer speaks; what is written starts with the welcome, and a session whose first turn is to write writes it. |
| NetworkInvariant.StructureIsKept | crates/sam-service/src/service.rs:102-304 | Every step of the whole system keeps: ids number transitions and connections, every queue holds one welcome followed by orders with increasing ids and the right targets, every response answers an order received, connections are distinct, and SAM broadcasts only to sessions that are not yet gone. |
| NetworkInvariant.RunsAreStructured | crates/sam-client/src/runtime.rs:149-274 | That invariant holds in every world of every run within the id bound. |
| NetworkInvariant.RoutingMoves | crates/sam-service/src/service.rs:120-152 | Exactly which links SAM broadcasts to after a step: those before it, less the one displaced or closed, plus the one accepted. |
| Delivery.StoriesRefineLog | crates/sam-service/src/server.rs:131-188 | In every reachable world each outbound queue holds at most 32 messages and each session was sent its welcome followed by an in-order subsequence of the broadcasts since it registered: an unbroken initial stretch of them if nothing overflowed, and all of them while it is current. |
| Delivery.SystemRunsSam | crates/sam-service/src/service.rs:82-359 | Seen from SAM, every run of the system is a run of calls, and its log is everything SAM broadcast. |
| Delivery.LogFollowsGrammar | crates/sam-service/src/service.rs:425-441 | Hence the log that every session's story refines obeys the grammar of announcements. |
| Agreement.RunsAgree | crates/sam-service/src/service.rs:102-280 | In every reachable world, replaying what is still queued for a live client that was told of the last commit puts its handler in the decided mode, and does not for one that came too late. |
| Agreement.LosslessClientsAgreeExactly | crates/sam-client/src/runtime.rs:160-257 | For a live client that lost no commit order, replaying its queue on its local mode gives the decided mode if and only if its session was not registered during the last commit round. |
| Agreement.DrainedClientsAgree | crates/sam-service/src/service.rs:275-280 | A live, informed client with nothing left to receive runs in the decided mode, which is SAM's published mode when no transition is open. |
| Agreement.LateSessionsAreToldThePreviousMode | crates/sam-service/src/service.rs:114-119 | Every session registered during a commit round is welcomed into the previous mode, which is not the decided one. |
| Applied.RunsApply | crates/sam-client/src/runtime.rs:225-257 | In every reachable world an application that has confirmed the active commit runs in its target, every heartbeat behind the confirmation says so, and once counted so does the registry. |
| Applied.CommittedMeansApplied | crates/sam-service/src/service.rs:252-281 | At the step that completes a transition, every participant served by a connection older than the commit order has both the handler of that session and its registry entry in the new mode, whatever was lost on the way down. |
| Applied.LoyalParticipantsApply | crates/sam-client/src/runtime.rs:225-257 | In particular every participant still on the connection it had when the transition was requested. |
| Consent.ResponsesAreDecided | crates/sam-client/src/runtime.rs:236-257 | In every run, every response on its way to SAM was said by a session that took the order it answers, and its handler decided as it says: prepared, refused for that reason, or applied that mode. |
| Consent.NoCommitOverARefusal | crates/sam-service/src/service.rs:203-231 | When a commit is ordered, a handler of every participant has taken the order to prepare for this transition and prepared. |
| Consent.NoCompletionOverAFailure | crates/sam-service/src/service.rs:252-281 | When a transition completes, a handler of every participant has prepared for it and has applied its target. |
| Conformance.ConformingClientsAreNeverThrownOut | crates/sam-service/src/service.rs:174-284 | Over every run within the id bound the gate admits every connection, every message of a current connection succeeds, a displaced one is only ever refused as stale, and no client ends its session over an unexpected reply. |
| Tokens.RunsKeepTokens | crates/sam-service/src/service.rs:203-304 | On every link that was sent the active order and whose client is alive, order queued plus answers in flight make one while SAM waits for the application and none otherwise. |
| Sessions.OpeningIsIntact | crates/sam-service/src/service.rs:288-304 | A transition opened while every client is served, alive and has room for one message puts its prepare order on the link of every participant. |
| Sessions.IntactIsKept | crates/sam-service/src/service.rs:203-250 | An event that spares the participants' sessions leaves every participant served by a link that was sent the active order, across the move to the commit round too. |
| Sessions.TransitionsStayIntact | crates/sam-service/src/service.rs:203-304 | Hence, from a request made while everyone attends, this holds in every world for as long as events spare the participants' sessions. |
| Sessions.WaitingMeansOneToken | crates/sam-client/src/runtime.rs:236-257 | Deadlock freedom under the same conditions on the request and the events: everyone awaited has exactly one token, and the step that moves the head of the queue holding it is enabled. |
| Turns.MoverBringsNearer | crates/sam-service/src/server.rs:167-188 | That step takes the order, has the answer heard, or leaves fewer messages ahead of the token in its queue, or the token in a later queue. |
| Turns.NothingPushesBack | crates/sam-service/src/server.rs:167-188 | No other event that spares the session takes the token further from the end of its way: the three queues are FIFO and later messages stay behind it. |
| Termination.MeasureFalls | crates/sam-core/src/mode.rs:117-297 | An event that spares the participants' sessions never raises the measure, and lowers it when a participant takes the active order or SAM hears its answer, the step that ends the transition included. |
| Termination.OpeningMeasure | crates/sam-core/src/mode.rs:139-145 | A transition opened across n clients starts with a measure of at most 4n. |
| Termination.TransitionsTerminate | crates/sam-core/src/mode.rs:117-297 | A transition requested while n clients attend takes at most 4n token steps as long as events spare its participants' sessions, and the 4n-th brings the manager back to rest. |
| Framing.LengthRoundTrip | crates/sam-transport/src/frame.rs:123-139 | Decoding the big-endian encoding of a length gives it back, over all of u32. |
| Framing.BytesRoundTrip | crates/sam-transport/src/frame.rs:126-139 | Encoding the length decoded from any four bytes gives those bytes back. |
| Framing.LengthsOrderLikeBytes | crates/sam-transport/src/frame.rs:126-139 | The order of bytes is big-endian: a smaller length has earlier bytes, the first counting most. |
| Framing.ByteSource.ReadExact | crates/sam-transport/src/frame.rs:139-147 | However the bytes arrive, the buffer is filled with the next bytes of the stream exactly when there are enough of them. |
| Framing.FramedReader.Receive | crates/sam-transport/src/frame.rs:134-149 | One frame, or its error, determined by the bytes alone and not by their chunks; no buffer is ever allocated beyond the limit. |
| Framing.FramedReader.ReceiveAll | crates/sam-transport/src/frame.rs:134-149 | Reading until the stream breaks yields the payloads and the error that the bytes determine. |
| Framing.FramedWriter.Send | crates/sam-transport/src/frame.rs:117-132 | A frame is appended whole, or an oversized payload is refused before anything is written. |
| Framing.FrameRoundTrip | crates/sam-transport/src/frame.rs:117-149 | Whatever a sender accepts, every reader with at least its limit reads back, leaving what follows untouched. |
| Framing.OnlyFramesAreRead | crates/sam-transport/src/frame.rs:134-149 | A payload is read only off bytes that a sender with the same limit would have written for it. |
| Framing.SendersRefuseExactly | crates/sam-transport/src/frame.rs:122-156 | A payload is refused if and only if it is over the limit or does not fit the length field, with an error naming both sizes. |
| Framing.ReadersDecideExactly | crates/sam-transport/src/frame.rs:134-156 | From the length on the wire a reader goes on if and only if it is within the limit, and then yields the payload if and only if it arrives whole. |
| Framing.StreamRoundTrip | crates/sam-transport/src/frame.rs:117-149 | Any list of sendable payloads, framed one after another and followed by anything, reads back as that list and then what follows. |
| Framing.TruncatedStream | crates/sam-transport/src/frame.rs:134-149 | A stream cut anywhere yields exactly its complete frames and then the end-of-input error. |
| Framing.FramesArePrefixFree | crates/sam-transport/src/frame.rs:117-132 | No frame is a proper prefix of another, and frames of different payloads differ. |

## Left out

- Sockets, named pipes, endpoints and the classification of disconnect errors: operating-system calls; a connection is a pair of FIFO queues whose ends may fail at any step.
- Scheduling, cancellation inside `select!`, and mutex poisoning: steps are atomic, so a partly read frame that is dropped when the outgoing branch wins (crates/sam-service/src/server.rs:168-187) and a connection torn down by it are not modelled.
- The postcard encoding of messages: frames carry payload bytes; strings, rejection reasons and log text are opaque, and the text of a `Mode` error is a structured cause.
- Clocks: instants are natural numbers passed to each call, with the saturating subtraction of the source.
- The delay of the retry loop in `ApplicationRuntime::run`; in the whole-system model whether, when and in what mode a new session starts is left open, so the results hold for every choice, a killed and restarted process included.
- Handlers that override `synchronize_mode`: the default, prepare and then commit, is modelled; `abort_mode` and `system_state_changed` are taken not to change the handler's mode.
- The client's own inbound queue and the socket buffers: folded into one FIFO between SAM's task and the client.
- The demo driver, command line, console and launcher scripts, and the getters `snapshot` and `transition_in_progress`.
- SamServices.SamService.Register: the queue passed in must not already belong to a client; the server always makes a new one.
- SamServices.SamService.Applications: the report is a map, so its sorting for display is not modelled.
- Modes.ModeManager.RequestTransition: takes the participants as a set, because the source collects them into one before looking at them.
- Termination.TransitionsTerminate: promises nothing once a participant's session ends or its order is dropped, because SAM then waits for ever; nor that token steps are ever scheduled, which is a matter of fairness.
- The whole-system model in `network.dfy` is on values; the objects it abstracts, with their aliasing and updates in place, are those of `service.dfy`, `server.dfy` and `client.dfy`.
