# Pi Bebop: message coordination, verified

Pi Bebop lets independent coding sessions work as a crew. Its difficult part is a handful of small protocols, and this project models them and proves what they promise.

- **Member requests.** A registry (`MemberRequest`, class in `RequestOutcomeRegistry`) holds live requests, tombstones, buffered outcomes and parked waiters. A flow above it (`MemberRequestFlow`, class in `RequestFlow`) owns timers, channels and reminders. `IdealRegistry` says what the registry is for without its bookkeeping, and `RegistryRefinement` and `RegistryEndings` that it does just that. `FlowSteps` and `FlowEndings` say what every step of the flow does and which outcome it brings. `RequestExchange` joins the flows of a requester and a responder over a channel that loses, delays and repeats; `ExchangeReplies` says when an answer gets through.
- **Filesystem intake.** `CrewIntake` models the dropbox, the evidence, the inboxes and the scanner as one state machine in which a crash, a failure, a new file or another manifest may come between any two operations; `ClaimNames` the names of claims; `CrewIntakeScan` says how a scan that is left alone ends, `CrewIntakeDelivery` what it delivers, `CrewIntakeReturn` what it gives back or puts aside, `FilesystemCrewIntake` performs it in place.
- **Durable inbox.** `MemberInbox` is the inbox as a value, `MemberInboxStore` the directory of files behind it, `InboxBridge` the bridge that offers one item at a time, `InboxBridgeAttempt` what an attempt left alone does.
- **Presence.** `Presence` is the reducer and its closed form, `PresenceObserver` the asynchronous observer around it, `PresenceObserverSteps` which answers each of its steps takes and whom it probes.
- **Endpoints.** `MemberEndpoint` models links, links still on their way and lock files shared by many sessions, `MembershipLinks` what a join or leave makes of the links, `MembershipRuntime` joining and leaving in place.
- **Small cores.** `GuestRegistry` (publication), `LineFraming`, `RpcClient`, `CommandOutcomes` and `RpcSockets` (framed streams and the clients that read them), `BranchAlias` (the alias search), `ShellWords` and `ShellGrammar` (quoting against tokenizing, and the command lines there are).

Each protocol is given twice. Functions on values say what a step does; a step is the code between two awaits, and a run or course is any interleaving of steps. Theorems are about every run. A class performs the same steps in place on its fields, and each of its methods is proved to do what the function says; where the source loops, the method loops. What every run keeps is the class's `Valid()`: the registry carries its history, the flow, the bridge, the observer, the crew and the intake their invariants, and the clients the chunks they got. Methods that only perform one step have no row below unless their contract says more. `*Invariant` and `*Theorems` modules hold the proofs; `Text`, `Numerals`, `Sorting`, `Sets` and `Wrappers` are shared helpers.

Assumptions about the surroundings are stated where they are used and nowhere else: generated request ids are fresh, and no id is the key of a timer that is set while its own request is finished (`FlowInvariant.StepLegal`), a cancel handle cancels its own wait (`RegistryHistory.Legal`), the clock does not run further than a given latency past a timer that is due, the scan lock admits one scanner, a liveness probe of a socket is accurate, dead sessions stay dead, and a link asked for by a session is made before the session dies or never.

Some promises turned out not to hold as they stand. Each has a lemma with the exact condition, or with an instance:

- A wait parked before acceptance is never woken if the request is then withdrawn (`RegistryTheorems.WaitIsAbandonedIffWithdrawn`, `RegistryTheorems.AbandonedWaitIsNeverWoken`).
- A response that overtakes the acceptance of its request is dropped and closes the channel all the same; a cancellation during the opening leaves the opened channel open (`FlowTheorems.ResponseCountsIffAccepted`, `FlowTheorems.OpenChannelLeaksIff`).
- An id such as `hard:` followed by another id clears that request's timer (`FlowInvariant.FinishDisarmsOthersIff`, `FlowInvariant.FinishSparesOthersIff`).
- Releasing a claim checks and then renames, so a file written in between is lost (`CrewIntakeTheorems.LossIsOverwriting`).
- A file dropped again under a name that was processed before conflicts at its move, is given back and ends the scan, every time it is the first candidate (`CrewIntakeScan.BlockedScan`).
- An inbox that has drained gives out the same ids again (`MemberInboxTheorems.DrainedInboxRepeatsIds`).
- A bridge re-established by the same owner while an offer is in hand repeats the offer, although its comments promise one outstanding item at a time (`InboxBridgeTheorems.OneOutstandingOffer`, `InboxBridgeTheorems.RepetitionHappens`).
- A claim that finds no link returns the link's creation without waiting for it, so its lock may be given back while the link is still on its way. If the endpoint's holder then unlinks it and cannot give the lock back, two sessions hold the endpoint (`MemberEndpointTheorems.SplitOnlyAfterUnlinkingInVain`, `MemberEndpointTheorems.UnlinkingInVainSplitsIff`, `MemberEndpointTheorems.SplitHappens`).
- The claim lock of a session that died is never taken over (`MemberEndpointTheorems.DeadLocksStay`).
- Two snapshots about one guest of the file give two entries with the same order (`GuestRegistryTheorems.PublishedIsOrderedIff`).
- After acceptance a member request's handler returns at a bad line and leaves the lines behind it in the buffer, so there the chunks do matter (`RpcClient.UpdatesIgnoreChunksIff`, `RpcClient.RequestIgnoresChunksIff`).
- A kept alias is not checked again, and an alias of a longer branch name is kept (`BranchAlias.ResultIsSafeIff`, `BranchAlias.LongerBranchIsKept`).
- Empty words do not survive quoting and tokenizing (`ShellWords.QuotingRoundTripsIff`).

`dafny verify dfyconfig.toml` checks the whole project.

## Model

| member | source | states |
|---|---|---|
| RegistryInvariant.NoOutcomeIsDroppedForCapacity | src/domain/member-request.ts:530-553 | In every state of every run, publishing for a live request finds fewer than 64 outcomes buffered, so the overflow return is dead |
| RegistryInvariant.BufferBound | src/domain/member-request.ts:210-212 | The reservation: a buffer with at most one pending notice per live request holds at most its other outcomes plus that many |
| RegistryInvariant.ApplyKeepsValid | src/domain/member-request.ts:163-175 | Every operation keeps the registry invariant: reserved buffer space, tombstones apart from live requests, nothing missed by a parked waiter |
| RegistryInvariant.RunsStayValid | src/domain/member-request.ts:163-175 | The invariant holds after any run from the empty registry |
| RegistryInvariant.EmptyIsValid | src/domain/member-request.ts:163-175 | The empty registry satisfies it |
| RegistryInvariant.PublishKeepsValid | src/domain/member-request.ts:530-553 | Publication keeps it for any outcome there is room for |
| RegistryInvariant.SortingIsIdle | src/domain/member-request.ts:549-552 | The buffer is in sequence order already whenever it is sorted |
| RegistryInvariant.PendingIsPublishable | src/domain/member-request.ts:358-372 | A first pending notice always has room |
| RegistryHistory.ApplyConserves | src/domain/member-request.ts:474-553 | One operation neither drops nor duplicates an outcome: published and buffered before equal delivered, superseded, lost and buffered after |
| RegistryHistory.ThreeWays | src/domain/member-request.ts:309-410 | Every operation publishes nothing, ends one live request with one terminal outcome, or gives one pending notice |
| RegistryHistory.RunsKeepInv | src/domain/member-request.ts:163-175 | The whole-history invariant (conservation, one story per request, answered waits) holds after every legal run |
| RegistryTheorems.ExactlyOnce | src/domain/member-request.ts:309-410 | With ids never reused, a terminal outcome is published once and is at every later moment in exactly one place: given to one wait call, or buffered for one later call |
| RegistryTheorems.AtMostOneNotice | src/domain/member-request.ts:358-372 | Of one request at most one pending notice and one ending are published, in that order |
| RegistryTheorems.AnswersFitTheirQuestions | src/domain/member-request.ts:474-528 | No wait call is answered twice, and a wait for one request only by that request |
| RegistryTheorems.TombstonesAreTheLastEnded | src/domain/member-request.ts:389-396 | The tombstones are exactly the last 64 ended ids, without repetition, and never live |
| RegistryTheorems.NoLostWakeUp | src/domain/member-request.ts:474-528 | A parked general waiter implies an empty buffer and no exact waiters; a parked exact waiter implies nothing buffered for its id |
| RegistryTheorems.WaiterIsServed | src/domain/member-request.ts:530-547 | An outcome goes to its request's waiter, else to the general waiter, and to no other |
| RegistryTheorems.BufferedEndingIsCollected | src/domain/member-request.ts:474-486 | An ending nobody waited for is what the next wait for its id returns, and the wait after that is refused |
| RegistryTheorems.WaitIsAbandonedIffWithdrawn | src/domain/member-request.ts:286-307 | A parked wait loses its request without being woken exactly when the request is withdrawn before acceptance |
| RegistryTheorems.AbandonedWaitIsNeverWoken | src/domain/member-request.ts:286-307 | After such a withdrawal, whatever follows in the run, the wait stays parked and unanswered unless its caller cancels it |
| RegistryTheorems.AbandonedWaitExists | src/domain/member-request.ts:286-300 | A three-step run in which that happens |
| RequestOutcomes.RequestOutcomeRegistry.EndingIsInOnePlace | src/domain/member-request.ts:530-553 | Between any two calls of the object: an ending was published once and is either handed to one wait call or buffered for one |
| RequestOutcomes.RequestOutcomeRegistry.RegisterOutbound | src/domain/member-request.ts:181-228 | The checks in order; a success leaves buffered outcomes and live requests together within 64, a refusal changes nothing, and the record stays that of a legal run |
| RequestOutcomes.RequestOutcomeRegistry.SetTerminal | src/domain/member-request.ts:389-396 | The loop that pushes a tombstone and evicts the oldest beyond 64 |
| RequestOutcomes.RequestOutcomeRegistry.SetInboundTerminal | src/domain/member-request.ts:465-472 | The same window for inbound requests |
| RequestOutcomes.RequestOutcomeRegistry.DeleteBuffered | src/domain/member-request.ts:531-535 | The backwards loop deletes exactly what is buffered for an id and keeps the order of the rest |
| RequestOutcomes.RequestOutcomeRegistry.ResolveResponse | src/domain/member-request.ts:309-340 | It succeeds exactly for a live accepted request and then publishes the response with its words and its age; the request is gone, the outcome handed to one waiter or in the buffer, nothing lost |
| RequestOutcomes.RequestOutcomeRegistry.ResolveOffline | src/domain/member-request.ts:355-410 | It succeeds exactly for a live request and then publishes its offline ending, naming its member; placed likewise, nothing lost |
| RequestOutcomes.RequestOutcomeRegistry.ResolveTimeout | src/domain/member-request.ts:375-387 | It succeeds exactly for a live request and then publishes its timeout, naming its member; placed likewise, nothing lost |
| RequestOutcomes.RequestOutcomeRegistry.ResolvePendingAfterIdle | src/domain/member-request.ts:358-372 | It succeeds exactly for an accepted idle request not yet announced and then publishes its notice, naming its member, handed to one waiter or in the buffer; nothing is lost |
| RequestOutcomes.RequestOutcomeRegistry.FindBuffered | src/domain/member-request.ts:480-484 | The loop that finds the first buffered outcome of one request |
| RequestOutcomes.RequestOutcomeRegistry.WaitForRequest | src/domain/member-request.ts:474-504 | A buffered outcome of that id is handed to this call; a call that parks has a live request and nothing buffered for it; a refusal changes nothing |
| RequestOutcomes.RequestOutcomeRegistry.WaitForUpdate | src/domain/member-request.ts:506-528 | The oldest buffered outcome is handed to this call; a call that parks finds the buffer empty and nobody else waiting; a refusal changes nothing |
| RegistryRefinement.Refines | src/domain/member-request.ts:181-553 | In every valid state every operation does what the ideal registry does, which has no capacity for its box, no numbering and no way to lose an outcome: same state after, same refusal, same outcomes published and handed out |
| RegistryEndings.RunsRefine | src/domain/member-request.ts:163-553 | After every legal run the registry's state, all it published and all it handed out are those of the ideal one |
| RegistryEndings.PublishedIff | src/domain/member-request.ts:309-387 | In every legal run a timeout about a live id was published exactly if a timeout step came, an offline ending exactly if an offline step did, a response exactly if a response step did on an accepted request, with its words and its age, a notice exactly if a notice step did on one idle and not yet announced; each names the request's member |
| RegistryEndings.OutcomesNameTheRegistered | src/domain/member-request.ts:181-228 | And that member is the one some earlier step registered the id with |
| RegistryEndings.RegisteredOnce | src/domain/member-request.ts:181-228 | What a request was registered with stays as long as it is live |
| RegistryEndings.SelectsIff | src/domain/member-request.ts:412-430 | A named inbound request is chosen exactly if it is live, however many are; without a name, exactly if there is one; otherwise the code its case calls for |
| FlowTheorems.AcceptedRequestsEndInTime | src/application/member-request-flow.ts:275-282 | In every run in which no request is finished while its id is the key of a timer that is set, no accepted request is live later than its maximum wait after acceptance, plus how late the event loop runs a due timer |
| FlowTheorems.NoTimerOutlivesItsRequest | src/application/member-request-flow.ts:356-372 | In the same runs every timer still set belongs to a live accepted request and carries one of its two keys |
| FlowTheorems.OneGraceOneReminder | src/application/member-request-flow.ts:233-246 | Per request the grace timer is armed at most once and the responder reminded at most once |
| FlowTheorems.RunsKeepInv | src/application/member-request-flow.ts:198-377 | Timers and live requests correspond, with the right due times, after every legal run |
| FlowInvariant.NextKeepsInv | src/application/member-request-flow.ts:233-377 | Every step keeps that correspondence |
| FlowInvariant.FinishDisarmsOthersIff | src/application/member-request-flow.ts:356-366 | Finishing a request clears another's timer exactly when its id spells that timer's key |
| FlowInvariant.FinishSparesOthersIff | src/application/member-request-flow.ts:356-366 | The others keep their timers when a request is finished exactly if its id is not itself the key of a timer that is set |
| FlowTheorems.AcceptedEndsIff | src/application/member-request-flow.ts:233-282 | An accepted request ends in a step exactly if the step is a terminal update for it, its hard timer, or its cancellation |
| FlowTheorems.ResponseCountsIffAccepted | src/application/member-request-flow.ts:250-257 | A response over the channel ends its request exactly when the request is accepted by then |
| FlowTheorems.EarlyResponseLosesTheChannel | src/application/member-request-flow.ts:258-276 | A response before acceptance is dropped and still closes the channel of the request that is accepted afterwards |
| FlowTheorems.OpenChannelLeaksIff | src/application/member-request-flow.ts:272-276 | An opened channel is left without a request exactly when the request ended during the opening without a channel update |
| FlowTheorems.CancelDuringOpeningLeaks | src/application/member-request-flow.ts:374-377 | Cancelling during the opening is such a case |
| FlowEndings.HardTimerTimesOut | src/application/member-request-flow.ts:275-282 | In every legal run a request whose hard timer fires has exactly one ending, then and however the run goes on: the timeout, naming the member the request was sent to |
| FlowEndings.BroughtIsTheOnlyEnding | src/application/member-request-flow.ts:233-282 | An ending any step brings is published once and is the only ending of its request |
| FlowEndings.FlowPublishedIff | src/application/member-request-flow.ts:233-282 | In every legal run an outcome was published exactly if a step brought it: an update on the channel, a timer or a cancellation, each its own kind |
| FlowEndings.FiringBrings | src/application/member-request-flow.ts:239-282 | A timer that fires always counts: a hard one brings its request's timeout, a grace one its notice |
| FlowEndings.FlowsAreLegalRuns | src/application/member-request-flow.ts:198-377 | What the flow asks of its registry is a legal run of it, with the same outcomes |
| FlowEndings.LiveWasSent | src/application/member-request-flow.ts:198-232 | A live request names the member it was sent to |
| FlowSteps.StepPerforms | src/application/member-request-flow.ts:198-472 | Every step performs on the registry just the one operation it is for, or none |
| FlowSteps.StepTouches | src/application/member-request-flow.ts:198-472 | Every step leaves channels, close handles, completed ids, closings, reminders, updates sent and suspended sends as described one by one |
| RequestFlow.MemberRequestFlow.NothingIsOverdue | src/application/member-request-flow.ts:275-282 | Between any two calls of the object: no accepted request is overdue by more than the latency, and every timer serves a live accepted request |
| RequestFlow.MemberRequestFlow.FinishRequest | src/application/member-request-flow.ts:356-372 | The loop over the timers clears the request's keys and no others; its channel and close handle go |
| RequestFlow.MemberRequestFlow.UpdateArrives | src/application/member-request-flow.ts:233-261 | The outcome published is of the update's own kind; whatever the registry said of a terminal update, the request has no channel, no close handle and no timer afterwards; no outcome is lost |
| RequestFlow.MemberRequestFlow.TimerFires | src/application/member-request-flow.ts:239-282 | A hard timer publishes the timeout of its request and leaves it not live, a grace timer publishes its notice; no outcome is lost |
| RequestFlow.MemberRequestFlow.CancelRequest | src/application/member-request-flow.ts:374-377 | A live request's offline ending is published; the request is not live, has no channel and no timer afterwards; no outcome is lost |
| RequestFlow.MemberRequestFlow.RespondStart | src/application/member-request-flow.ts:415-436 | A respond that names a live request succeeds, however many are live |
| ExchangeReplies.AnswersGetThroughIff | src/application/member-request-flow.ts:233-257 | In every course the answer to a request that was meant, named among many or the only one, is sent on its channel if that is there, and delivered at any later time it publishes just this answer exactly if the requester still holds the request as live and accepted |
| ExchangeReplies.MeantIsAnswered | src/application/member-request-flow.ts:415-436 | A respond that means a live request succeeds: the request is closed, the answer is its reply and is sent on its channel |
| ExchangeReplies.NobodyIsMeant | src/application/member-request-flow.ts:415-436 | A respond that means none fails and changes nothing |
| ExchangeReplies.DeliveryBrings | src/application/member-request-flow.ts:233-257 | A delivered update publishes just what it says about a request still live |
| ExchangeReplies.ArrivalIsHeldIff | src/application/member-request-flow.ts:392-403 | A request that arrives is held with its question and its channel unless the registry refuses it |
| RequestExchange.ResponsesAreTheOneReply | src/application/member-request-flow.ts:250-257 | Between two flows with a lossy channel, a response the requester publishes is, word for word, the only reply ever given to that id, and was given to the question asked |
| RequestExchange.SecondRespondFails | src/application/member-request-flow.ts:415-436 | Whatever a successful respond selects had no reply before; a second respond to an id fails |
| RequestExchange.NoticesFollowIdleReports | src/application/member-request-flow.ts:454-472 | A request is announced as pending only after its responder reported idle on it |
| RequestExchange.CoursesKeepInv | src/application/member-request-flow.ts:198-472 | The invariant of the two flows holds after any course of events, losses included |
| RequestExchange.HappenKeepsInv | src/application/member-request-flow.ts:198-472 | One event keeps it |
| CrewIntakeTheorems.SingleTarget | src/application/filesystem-crew-intake.ts:235-317 | Across scans, crashes, retries and contact changes, everything enqueued under a key goes to the target of the key's first commit intent |
| CrewIntakeTheorems.OneItemPerKey | src/infra/member-inbox-store.ts:229-265 | At no time do two items, in one inbox or two, carry the same key |
| CrewIntakeTheorems.EnqueuesBalance | src/application/filesystem-crew-intake.ts:285-316 | Enqueues under a key equal its consumptions, plus one while its item is still there |
| CrewIntakeTheorems.NoEnqueueAfterReceipt | src/application/filesystem-crew-intake.ts:241-252 | Once a key has its receipt, nothing is enqueued under it again |
| CrewIntakeTheorems.ProcessedWasDelivered | src/application/filesystem-crew-intake.ts:262-322 | A processed file has a receipt, the receipt an intent, and the intent's target was sent the message |
| CrewIntakeTheorems.EvidenceIsGenuine | src/application/filesystem-crew-intake.ts:243-249 | Evidence found under a key is always about the same name and digest, so the mismatch checks never fire |
| CrewIntakeTheorems.LookReleasesIff | src/application/filesystem-crew-intake.ts:240-272 | A looked-up claim goes back exactly if it has no receipt and nobody to send it to: its recorded target left, or no contact is configured |
| CrewIntakeTheorems.RecordingNeverConflicts | src/infra/crew-intake-dropbox.ts:529-584 | Writing intents and receipts meets no conflict |
| CrewIntakeInvariant.RetryIsIdempotent | src/infra/member-inbox-store.ts:236-246 | Enqueueing under a key whose item is there changes nothing, and the conflict error never arises |
| CrewIntakeTheorems.FilesAreConserved | src/infra/crew-intake-dropbox.ts:264-278 | Every file ever dropped is in exactly one of new, claimed, processed or failed, unless it was overwritten |
| CrewIntakeTheorems.LossIsOverwriting | src/infra/crew-intake-dropbox.ts:761-770 | A step loses a file exactly if it is the rename of a release whose name was taken since its check |
| CrewIntakeTheorems.DropDuringReleaseIsLost | src/infra/crew-intake-dropbox.ts:767-769 | A file written between that check and that rename is lost |
| CrewIntakeTheorems.PublishedFilesAreNeverLost | src/infra/crew-intake-dropbox.ts:642-727 | Where files come in only through the publishing command, none is ever lost |
| CrewIntakeRecovery.RetryCompletes | src/application/filesystem-crew-intake.ts:235-333 | Whatever an earlier scan left behind, an undisturbed scan that holds the claim files it as processed, given room and a target |
| CrewIntakeRecovery.ReadableIsDeliverable | src/infra/crew-intake-dropbox.ts:483-489 | What passes the dropbox's checks is always a valid message |
| CrewIntakeScan.CompletedScan | src/application/filesystem-crew-intake.ts:335-413 | At the end of an undisturbed scan that held a claim it could carry through, the file is processed |
| CrewIntakeScan.BlockedScan | src/application/filesystem-crew-intake.ts:317-322 | A scan whose first candidate bears a name that was processed before ends with the directory as it was, and looks at no other candidate |
| CrewIntakeScan.GoesNearer | src/application/filesystem-crew-intake.ts:363-398 | Every operation of a scan leaves fewer to do |
| CrewIntakeInvariant.KeysAreInjective | src/infra/crew-intake-dropbox.ts:206-212 | Keys of different paths, names or digests differ |
| CrewIntakeInvariant.CoursesKeepInv | src/application/filesystem-crew-intake.ts:235-413 | Files, evidence, inboxes and the scanner's place agree after any course of steps and crashes |
| CrewIntakeInvariant.NextKeepsInv | src/application/filesystem-crew-intake.ts:235-413 | One step keeps that agreement |
| ClaimNames.ClaimNamesAreExact | src/infra/crew-intake-dropbox.ts:188-204 | A name on disk decodes to an original exactly if it is that original's claim name |
| ClaimNames.DecodeUndoesEncode | src/infra/crew-intake-dropbox.ts:190-199 | Decoding base64url undoes encoding |
| ClaimNames.EncodeIsBase64 | src/infra/crew-intake-dropbox.ts:188-191 | The encoded name is base64url without padding: every three bytes become the four letters that spell the same number, and the last group as many as its bytes need |
| CrewIntakeDelivery.NextIsDelivered | src/application/filesystem-crew-intake.ts:363-398 | An undisturbed scan whose next candidate is a listed file with a safe and fresh name, readable, within the byte budget, with somebody to go to and room there, files it as processed with its content in the target's inbox, and goes on |
| CrewIntakeDelivery.ReachedIsDelivered | src/application/filesystem-crew-intake.ts:363-398 | Any such candidate the scan comes to has arrived when the scan ends, whatever was before it and is behind it |
| CrewIntakeDelivery.AllAreDelivered | src/application/filesystem-crew-intake.ts:335-413 | Where everything listed is fit, an undisturbed scan delivers all of it |
| CrewIntakeReturn.GoesBackIff | src/application/filesystem-crew-intake.ts:240-322 | A claim is given back exactly if it is stuck: gone, over the budget, outdated, without anybody to go to, without room, or processed before under its name |
| CrewIntakeReturn.GivenBack | src/infra/crew-intake-dropbox.ts:761-770 | A claim given back is a new file again, unless its name is unsafe or taken, and the scan is over |
| CrewIntakeReturn.ThrownIsGivenBack | src/application/filesystem-crew-intake.ts:387-397 | So is one on which anything throws |
| CrewIntakeReturn.FailsIff | src/application/filesystem-crew-intake.ts:375-391 | A claim fails exactly if its name is unsafe or its content not readable |
| CrewIntakeReturn.FailedIsFiled | src/infra/crew-intake-dropbox.ts:735-760 | A failed claim is put with the failed files and the scan goes on; where that place is taken the claim stays and the scan is over |
| CrewIntakeReturn.NotTextIsFiled | src/application/filesystem-crew-intake.ts:387-391 | So is a claim that is not text |
| CrewIntakeReturn.ChoosesNext | src/application/filesystem-crew-intake.ts:363-374 | Between candidates a scan ends exactly if none is left or the membership changed; a claim is held, a new file claimed if no claim of its name is there |
| CrewIntakeReturn.PublishingAddsIff | src/infra/crew-intake-dropbox.ts:642-727 | The publishing command adds a file exactly if the name is safe and free, the content readable, and the same not there, claimed or processed already |
| CrewIntakeReturn.ContactIsConfigured | src/application/filesystem-crew-intake.ts:240-272 | The contact is the member of the configured name, if there is one |
| FilesystemCrewIntake.CrewIntakeController.Scan | src/application/filesystem-crew-intake.ts:335-413 | A scan left alone ends and gives the lock back; its first candidate, if nothing stands in the way of it, is processed then and its content in the target's inbox; where all that is listed is fit, all of it; a claim it held and could carry through is processed; if its first candidate's name was processed before, the directory is as it was |
| MemberInboxTheorems.OfferIsEarliestArrival | src/domain/member-inbox.ts:166-170 | After any enqueues, cancels and acknowledgements the item offered next is the earliest arrival still there |
| MemberInboxTheorems.HistoriesKeepInv | src/domain/member-inbox.ts:113-206 | From a created inbox on, ids and sequences stay distinct, size at most 64, sequence order is order of arrival |
| MemberInboxTheorems.EnqueueIsWellFormedIff | src/domain/member-inbox.ts:134-150 | A successful enqueue leaves a well-formed inbox exactly when the clock is not negative and no stored item has the new id |
| MemberInboxTheorems.IdsRepeatOnlyAfterLeaving | src/domain/member-inbox.ts:77-79 | An id comes back only after its item left |
| MemberInboxTheorems.DrainedInboxRepeatsIds | src/domain/member-inbox.ts:119-123 | A drained inbox gives the same id to the same message again |
| MemberInboxTheorems.CancelUndoesEnqueue | src/domain/member-inbox.ts:134-160 | Cancelling what was just enqueued restores the inbox exactly when no stored item shared the id |
| MemberInboxTheorems.CancelIsExact | src/domain/member-inbox.ts:156-160 | Cancelling succeeds exactly for a stored id and removes just that |
| MemberInboxTheorems.AcknowledgedIsNotPending | src/domain/member-inbox.ts:173-206 | Evidence removes exactly what a restart would not consider pending, and does so once |
| MemberInboxTheorems.NewIdIsValid | src/domain/member-inbox.ts:77-92 | A new id is trimmed text of at most 128 bytes |
| MemberInbox.IdsDiffer | src/domain/member-inbox.ts:77-79 | Ids with different sequences differ whatever the hash, because hexadecimal printing is injective |
| MemberInbox.NextIsAbove | src/domain/member-inbox.ts:119-123 | The next sequence is above every one in use and the least such, or the floor |
| MemberInbox.NextInboxSequence | src/domain/member-inbox.ts:119-123 | The loop computes it |
| MemberInbox.IsMemberInbox | src/domain/member-inbox.ts:96-111 | The loop with its two sets accepts exactly the well-formed inboxes |
| MemberInboxTheorems.EnqueueStoresIff | src/domain/member-inbox.ts:134-150 | Enqueueing succeeds exactly for a valid payload while there is room; what came is then stored behind all others as it came: target, payload, time, the least sequence above all in use, and the id that spells it |
| MemberInboxTheorems.EnqueueWithIdStoresIff | src/infra/member-inbox-store.ts:229-265 | Enqueueing by id stores a new one as it came, leaves the same one alone, and refuses another under its id |
| Numerals.NumeralReads | src/domain/member-inbox.ts:78 | A numeral stands for its number by place value and has no zeros in front |
| Numerals.NumeralInjective | src/domain/member-inbox.ts:78 | Different numbers print differently |
| MemberInboxStore.MemberInboxStore.ReadItems | src/infra/member-inbox-store.ts:351-371 | Reads every file into sequence order; what fails validation goes to quarantine, replacing an earlier file of that name |
| MemberInboxStore.MemberInboxStore.Persist | src/infra/member-inbox-store.ts:428-444 | Stores an item under its id, in place of one with that id |
| MemberInboxStore.MemberInboxStore.Enqueue | src/infra/member-inbox-store.ts:204-227 | Refuses as the inbox as a value does; else stores the new item |
| MemberInboxStore.MemberInboxStore.EnqueueWithId | src/infra/member-inbox-store.ts:229-265 | An id that is no safe file name is refused; otherwise it is enqueueing by id on the inbox as a value |
| MemberInboxStore.MemberInboxStore.PeekOldest | src/infra/member-inbox-store.ts:267-270 | The item with the least sequence |
| MemberInboxStore.MemberInboxStore.List | src/infra/member-inbox-store.ts:272-282 | The first items up to the limit |
| MemberInboxStore.MemberInboxStore.Remove | src/infra/member-inbox-store.ts:458-474 | An id that is no safe file name is refused; otherwise the item with that id is gone, and the result tells whether a file was there |
| MemberInboxStore.PutIsAppend | src/infra/member-inbox-store.ts:204-227 | The store's enqueue is the inbox's exactly when no stored item has the new id; otherwise that item is replaced |
| InboxBridgeTheorems.OneOutstandingOffer | src/application/inbox-bridge.ts:102-145 | Between two items the session takes, unless ownership ended, changed, or was renewed while an offer was in hand, the first gained evidence or left its store |
| InboxBridgeTheorems.OfferIsOldest | src/application/inbox-bridge.ts:118-139 | What is on offer is the oldest item, so the bounded listing always shows it, and the bridge remembers it |
| InboxBridgeTheorems.CancelSparesTheOffer | src/application/inbox-bridge.ts:170-182 | A cancellation never removes the item on offer |
| InboxBridgeTheorems.RemovalIsEvidenced | src/application/inbox-bridge.ts:117-125 | An attempt removes nothing that was never evident |
| InboxBridgeTheorems.HandsOverTheOldest | src/application/inbox-bridge.ts:133-137 | What is handed over is the oldest, unless it left or was evident already |
| InboxBridgeTheorems.ForgottenOfferIsRepeated | src/application/inbox-bridge.ts:136-140 | Re-established by the same owner while an offer is in hand, the bridge hands the same item over again |
| InboxBridgeTheorems.RepetitionHappens | src/application/inbox-bridge.ts:84-140 | A course from a created bridge in which the same owner's renewal makes the session take one item twice in a row, with no evidence and no removal |
| InboxBridgeTheorems.CoursesKeepInv | src/application/inbox-bridge.ts:73-190 | The bridge's invariant holds in every interleaving |
| InboxBridgeAttempt.UndisturbedAttempt | src/application/inbox-bridge.ts:102-145 | An attempt left alone removes exactly what was listed and evident when it read the evidence; then it hands over the oldest of what remains and remembers it, unless offering is paused, an offer still stands, or nothing remains |
| InboxBridgeAttempt.EvidentIsNotHandedOver | src/application/inbox-bridge.ts:117-125 | So an item that was listed and evident is not the one handed over |
| InboxBridgeAttempt.ClearsAll | src/application/inbox-bridge.ts:120-125 | The loop removes every evident summary and nothing else |
| InboxBridgeAttempt.NextEvidentIs | src/application/inbox-bridge.ts:120-121 | From any place on it finds the least evident summary, or none exactly if none is left |
| InboxBridgeAttempt.UndisturbedCancel | src/application/inbox-bridge.ts:170-182 | A cancellation left alone removes the item unless it is on offer or evident or nobody owns the inbox |
| InboxBridgeAttempt.EstablishingIs | src/application/inbox-bridge.ts:73-95 | Establishing an owner opens a new generation and keeps the outstanding offer exactly for the same owner |
| InboxBridgeAttempt.StaleAttemptGivesUp | src/application/inbox-bridge.ts:117-139 | An attempt whose ownership is over makes no offer and records none |
| InboxBridgeObject.InboxBridge.Proceed | src/application/inbox-bridge.ts:120-132 | The loop stops at the least evident summary from its place on; only if none is left does it decide: a settled offer is forgotten, and an offer follows exactly if offering is not paused and no offer stands |
| InboxBridgeObject.InboxBridge.Unlinked | src/application/inbox-bridge.ts:123 | The item an attempt removes was evident |
| InboxBridgeObject.InboxBridge.HandOver | src/application/inbox-bridge.ts:136 | Accepted exactly while ownership is current; then the item is the oldest unless it was gone or evident, and every earlier offer of the tenure was released |
| InboxBridgeObject.InboxBridge.Record | src/application/inbox-bridge.ts:136-140 | The outcome is recorded exactly if the offer is still in hand |
| InboxBridgeObject.InboxBridge.Cancelled | src/application/inbox-bridge.ts:177-178 | The item that goes is not one on offer |
| Presence.StatusIsTrailingFailures | src/domain/presence.ts:51-87 | After any trace a member's status and count depend on its own trailing failures alone |
| Presence.AnnouncementsAlternate | src/domain/presence.ts:51-87 | After the initial scan left and joined strictly alternate per member and agree with its status at both ends |
| Presence.AnnouncedFromTheStart | src/domain/presence.ts:89-100 | Before the scan nothing is announced; from then on announcements alternate |
| Presence.ScanAnnouncesRoster | src/domain/presence.ts:42-49 | The completed initial scan announces one roster: every other configured member, with the status its own answers give it |
| Presence.RosterListsAll | src/domain/presence.ts:42-49 | A roster lists every configured member the state knows, with its status, and nobody else |
| PresenceObserverSteps.ExactlyTheNewestCount | src/application/presence-observer.ts:53-92 | In every course a step takes exactly the answers due: of a scan of the active generation those whose probes are the newest of their members, in order, a failed probe counting as offline; of a hint of the active generation its answer, if it came and its probe is the newest; of any other step none |
| PresenceObserverSteps.AskAsks | src/application/presence-observer.ts:64-73 | A scan probes every peer in turn with the next revision of its identity |
| PresenceObserverSteps.StepsScan | src/application/presence-observer.ts:111-141 | In every course a start, a reconciliation and a timer begin a scan, by which every other configured member is probed, exactly if the member is known, if none is under way, if the timer is the current one |
| PresenceObserverSteps.SettlingSchedules | src/application/presence-observer.ts:118-124 | The current scan, once settled, leaves one timer to go on with |
| PresenceObserverSteps.HintsAreProbed | src/application/presence-observer.ts:149-163 | A welcome hint is probed at once, or waits for the initial scan in place of an earlier one; any other changes nothing |
| PresenceObserverSteps.ScanProbesWaiting | src/application/presence-observer.ts:88-89 | The scan that completes the initial one probes for every hint that waited |
| PresenceObserverSteps.StoppingGivesUp | src/application/presence-observer.ts:164-172 | Stopping ends the generation and gives up its scan, timer and waiting hints; nothing else changes |
| PresenceObserverTheorems.AppliedRevisionsIncrease | src/application/presence-observer.ts:53-62 | Answers applied for a member belong to strictly newer probes, each asked for by the generation that took it |
| PresenceObserverTheorems.OnlyTheNewestIsApplied | src/application/presence-observer.ts:53-62 | In every course each answer a step applies, of a scan or of a hint, belongs to the newest probe sent for its member |
| PresenceObserverTheorems.OvertakenIsIgnored | src/application/presence-observer.ts:53-54 | In every course, from any moment on, no answer is applied whose probe had been overtaken by then |
| PresenceObserverTheorems.StoppedIsSilent | src/application/presence-observer.ts:164-172 | While stopped nothing changes what is known or announced |
| PresenceObserverTheorems.AlwaysOneNextStep | src/application/presence-observer.ts:93-127 | While running there is a scan or a timer, and at most one of each for the generation |
| PresenceObserverTheorems.RostersAreInformed | src/application/presence-observer.ts:80-92 | No announced roster lists an unknown member |
| PresenceObserverTheorems.StatusFollowsAnswers | src/application/presence-observer.ts:53-92 | However probes interleave, a member's status is a function of the trailing failures among its applied answers, and its announcements alternate |
| PresenceObserverTheorems.CoursesKeepInv | src/application/presence-observer.ts:32-174 | The observer's invariant holds in every interleaving |
| PresenceObserverObject.PresenceObserver.ApplyAll | src/application/presence-observer.ts:79 | The loop takes exactly the answers whose probes are the newest of their members, in order |
| PresenceObserverObject.PresenceObserver.ProbePending | src/application/presence-observer.ts:88-89 | The loop probes for every waiting hint, and none waits any more |
| PresenceObserverObject.PresenceObserver.Ask | src/application/presence-observer.ts:64-73 | The loop gives every peer a new revision and a probe |
| PresenceObserverObject.PresenceObserver.Start | src/application/presence-observer.ts:128-141 | Once active there is a scan or a timer to go on with |
| PresenceObserverObject.PresenceObserver.ScanAnswered | src/application/presence-observer.ts:78-91 | While its generation is active a scan takes exactly its answers with newest probes, in order; otherwise none |
| PresenceObserverObject.PresenceObserver.ScanSettled | src/application/presence-observer.ts:119-124 | The finished scan gives way to a timer or another scan |
| PresenceObserverObject.PresenceObserver.TimerFired | src/application/presence-observer.ts:96-100 | While active there is a scan or a timer to go on with |
| PresenceObserverObject.PresenceObserver.HintAnswered | src/application/presence-observer.ts:107-111 | While its generation is active a hint takes exactly its answer, if it came and its probe is the newest; otherwise none |
| PresenceObserverObject.PresenceObserver.AcceptHint | src/application/presence-observer.ts:149-163 | A hint is accepted exactly if it is another instance's, about a configured peer, while active with notifications |
| PresenceObserverObject.PresenceObserver.Stop | src/application/presence-observer.ts:164-172 | Stopping ends activity and changes nothing that is known, applied or announced |
| MemberEndpointTheorems.NoSplitOwnership | src/infra/member-endpoint.ts:140-223 | Over all interleavings of claims, switches, rollbacks, releases, links still on their way, failures and crashes in which no release unlinks the endpoint held and then fails to give its lock back, two live sessions never hold the same endpoint, but between the unlinking of a release and the update of the membership |
| MemberEndpointTheorems.SplitOnlyAfterUnlinkingInVain | src/infra/member-endpoint.ts:140-223 | In every course, two sessions hold one endpoint only after one of them unlinked it and failed to give the lock back while another's link was there or on its way |
| MemberEndpointTheorems.UnlinkingInVainSplitsIff | src/infra/member-endpoint.ts:153-171 | While another claim waits for its link, a leave that unlinks and cannot give the lock back leaves two holders exactly if the name is free; one that gives it back leaves one |
| MemberEndpointTheorems.SplitHappens | src/infra/member-endpoint.ts:153 | A course from the beginning after which two live and idle sessions hold one endpoint, because the claim's link is not awaited before the lock is given back |
| MemberEndpointTheorems.HoldersLink | src/infra/membership-runtime.ts:114-170 | A holder's endpoint links to the holder; or the holder unlinked it in vain, and its own lock keeps new claims out |
| MemberEndpointTheorems.LiveLinksAreSafe | src/infra/member-endpoint.ts:161-178 | No other session's step takes away the link of a live one |
| MemberEndpointTheorems.SwitchMovesTheLink | src/infra/membership-runtime.ts:123-157 | A switch ends with the new endpoint linked and the old one not |
| MemberEndpointTheorems.RollbackRestores | src/infra/membership-runtime.ts:140-155 | A completed rollback leaves the new endpoint unclaimed and the old one linked to its holder, unless the switch had unlinked it and failed to give its lock back |
| MemberEndpointTheorems.DeadLocksStay | src/infra/member-endpoint.ts:50-70 | A claim lock whose holder died is never given back; once no link of its endpoint is on its way, that link never changes again |
| MemberEndpointTheorems.DeadLockedLinkChangesIff | src/infra/member-endpoint.ts:153-171 | Under such a lock the link changes in a step exactly if a creation asked for before finds the name free |
| MemberEndpointInvariant.CoursesKeepInv | src/infra/member-endpoint.ts:140-223 | The crew's invariant holds after any course of steps, links landing after their lock was given back included |
| MemberEndpointInvariant.NextKeepsInv | src/infra/member-endpoint.ts:140-223 | One step keeps it |
| MembershipRuntime.GoHeadsFor | src/infra/membership-runtime.ts:72-176 | Every operation of an undisturbed join or leave keeps to the outcome foretold from locks, links and memberships |
| MembershipRuntime.GoStaysTidy | src/infra/member-endpoint.ts:140-223 | And holds at most one lock and one creation of its own more than there were at the start |
| MembershipRuntime.GoesNearer | src/infra/membership-runtime.ts:72-176 | Every operation of a join or leave leaves fewer to do |
| MembershipLinks.GoKeepsToLinks | src/infra/member-endpoint.ts:140-223 | And every operation keeps to the links foretold |
| MembershipLinks.FaultTakesBack | src/infra/member-endpoint.ts:140-223 | A fault in a claim foretells the links as they are, one in the release of a switch that the new endpoint is taken back |
| MembershipRuntime.FaultsAreSurvived | src/infra/member-endpoint.ts:140-223 | An operation that throws and is left alone after that fails: no membership changes, the links are those foretold, and its lock is given back unless that is what failed |
| MembershipRuntime.MembershipRuntime.Finish | src/infra/membership-runtime.ts:72-176 | The operation in progress runs to its end, with memberships and links as foretold, and leaves locks and creations as they were |
| MembershipRuntime.MembershipRuntime.Join | src/infra/membership-runtime.ts:72-158 | A join left alone changes the membership exactly if the endpoint is not locked, not linked to another live session, and the one held before can be released. Then the new endpoint links here, a dead link in its place or not, and the old one no more; if only the old one cannot be released the new one is unlinked again; else no link changes. No lock or creation is left behind |
| MembershipRuntime.MembershipRuntime.LeaveCrew | src/infra/membership-runtime.ts:160-169 | A leave left alone succeeds exactly unless the endpoint held both links and is locked; it takes away the session's own link and nothing else; no lock is left behind |
| GuestRegistryTheorems.PublishedIsOrderedIff | src/infra/guest-registry-store.ts:175-196 | Published entries are strictly ordered exactly if no two snapshots are about the same guest of the file |
| GuestRegistryTheorems.PublishedEntries | src/infra/guest-registry-store.ts:179-193 | Every entry tells what one of the snapshots says. A known guest keeps its place, and its entry's revision exactly if its state did not change; a new guest goes behind all others; no revision exceeds the file's |
| GuestRegistryTheorems.EverySnapshotIsPublished | src/infra/guest-registry-store.ts:179-196 | One entry for each snapshot, with its status, with crew, guest and callback of its record or else of its request, with its digest or zeros and its approver, a denied one with zeros; new guests come in the order of their snapshots |
| GuestRegistryTheorems.PublishedIsWellFormed | src/infra/guest-registry-store.ts:175-196 | A well-formed file and different guests give a well-formed file |
| GuestRegistryTheorems.RepublishingChangesNothing | src/infra/guest-registry-store.ts:186-192 | Publishing the same snapshots again leaves every entry as it is |
| Sorting.SortedIncreasing | src/infra/guest-registry-store.ts:194-195 | Sorting entries with different orders leaves them strictly increasing |
| Sorting.OnlyDifferentSort | src/infra/guest-registry-store.ts:194-195 | And only those |
| Sorting.SortedIsStable | src/infra/guest-registry-store.ts:194-195 | Any others come out by order too, those of one order as they stood |
| GuestRegistry.PublishSnapshots | src/infra/guest-registry-store.ts:175-196 | The loop that assigns orders, and the sort: an entry that tells what it says for every snapshot, and none beside |
| GuestRegistry.ReplaceEntries | src/infra/guest-registry-store.ts:226-237 | Writes at the first of four attempts whose file did not change since its load, else gives up |
| LineFraming.FramingIgnoresChunks | src/infra/rpc-server.ts:104-112 | However a stream is cut, the same trimmed non-empty lines come out and the same tail is kept |
| LineFraming.SplitUndoesJoin | src/infra/rpc-server.ts:107-111 | Splitting recovers any lines without newlines that were joined |
| LineFraming.JoinUndoesSplit | src/infra/rpc-server.ts:107-111 | Joining the split lines and the tail gives the stream back |
| LineFraming.CleanLines | src/infra/rpc-server.ts:110-113 | Every line handed on is trimmed and not empty |
| LineFraming.LineReader.OnData | src/infra/rpc-server.ts:106-113 | The handler's loop hands on the lines a chunk completes and keeps the rest |
| RpcClient.OutcomeIgnoresChunks | src/infra/rpc-client.ts:140-232 | A command call's outcome depends on the lines of the stream alone |
| RpcClient.PlainCallSucceedsIff | src/infra/rpc-client.ts:185-216 | A plain call succeeds exactly if the first line is its valid answer |
| RpcClient.AwaitedCallSucceedsIff | src/infra/rpc-client.ts:154-231 | A call that awaits an event succeeds exactly on answer and acknowledgement, in either order, then its event |
| RpcClient.SettlesOnce | src/infra/rpc-client.ts:110-119 | Nothing changes a settled call |
| RpcClient.LossIsUnknownIff | src/infra/rpc-client.ts:120-129 | A loss is reported as unknown outcome exactly if the request was written and the caller asked for the distinction, and else as what happened |
| CommandOutcomes.FirstMisfitDecides | src/infra/rpc-client.ts:140-232 | A call that awaits an event is settled by the first line it does not await, as what that line is: the event, or the failure its kind and what came before call for; until then it is not settled |
| CommandOutcomes.FirstLineDecides | src/infra/rpc-client.ts:140-232 | A plain call is settled by its first line, as its answer or as the failure it calls for |
| RpcClient.FirstLineSettles | src/infra/rpc-client.ts:434-482 | However a request's stream is cut, its first line alone decides whether it is accepted, and what it is refused with |
| RpcClient.UpdatesAreConserved | src/infra/rpc-client.ts:434-482 | On an accepted channel every update was handed on or is still in the buffer; all were handed on exactly if no complete buffered line is an update |
| RpcClient.AllAreHandedOnIff | src/infra/rpc-client.ts:434-482 | One run of the handler hands on all updates it has exactly if none stands behind a line that is not one |
| RpcClient.UpdatesGoThrough | src/infra/rpc-client.ts:434-482 | However the stream is cut, no update is lost or made up, and where none stands behind a bad line none is held back |
| RpcClient.UpdatesIgnoreChunksIff | src/infra/rpc-client.ts:434-482 | From an open channel with an empty buffer all cuts of a stream hand on the same updates exactly if none stands behind a line that is not one |
| RpcClient.RequestGoesThrough | src/infra/rpc-client.ts:434-482 | From the beginning of a request, however its stream is cut: nothing before the first line; an end without updates if that line does not accept it; no update lost or made up behind an acceptance |
| RpcClient.RequestIgnoresChunksIff | src/infra/rpc-client.ts:434-482 | From the beginning of a request the chunks make no difference exactly if its first line does not accept it or no update behind that stands behind a bad line |
| RpcClient.BadLineHoldsUpdatesBack | src/infra/rpc-client.ts:445-475 | A bad line after acceptance holds back the updates behind it in the same chunk |
| RpcSockets.CommandCall.OnData | src/infra/rpc-client.ts:140-232 | After any chunk the call has succeeded exactly if the lines of the whole stream make it succeed; a plain call is settled as its first line calls for |
| RpcSockets.CommandCall.Consume | src/infra/rpc-client.ts:140-232 | The handler's loop over a chunk |
| RpcSockets.RequestChannel.OnData | src/infra/rpc-client.ts:434-482 | After any chunk the first line of the whole stream has decided on acceptance or the refusal; unless an update stands behind a bad line, the updates handed on are those behind the acceptance |
| RpcSockets.RequestChannel.Consume | src/infra/rpc-client.ts:434-482 | The handler's loop, which returns at a line it does not accept |
| BranchAlias.CreateSequentialAlias | src/domain/branch-alias.ts:44-53 | The unbounded search ends within one more try than there are different used aliases and returns the least free number |
| BranchAlias.TakenAreFew | src/domain/branch-alias.ts:49-52 | As many taken numbers need as many used aliases |
| BranchAlias.SlugsAreFixed | src/domain/branch-alias.ts:37-42 | Exactly the slugs are left alone, so slugging is idempotent |
| BranchAlias.SlugIsSlug | src/domain/branch-alias.ts:37-42 | The result has allowed characters only and no dash at either end |
| BranchAlias.RunBecomesDash | src/domain/branch-alias.ts:37-42 | Allowed characters stay, and a run of others, however long, becomes one dash |
| BranchAlias.SlugIsWithin | src/domain/branch-alias.ts:37-42 | The slug is the trimmed and collapsed text without the dashes at its ends |
| BranchAlias.BranchAliasIs | src/domain/branch-alias.ts:3-8 | A branch has an alias base exactly if something is left of its name, without two dots in a row: the prefix and the slug |
| BranchAlias.ProjectAliasIs | src/domain/branch-alias.ts:20-26 | A project's branch likewise, of both slugs |
| BranchAlias.ResultIsSafeIff | src/domain/branch-alias.ts:44-53 | The result is a safe alias exactly if no alias is kept or the kept one is safe |
| BranchAlias.CreatedIsSafe | src/domain/branch-alias.ts:3-35 | An alias base that is created, for a branch or for a project's branch, is a safe alias |
| BranchAlias.NumberedIsSafe | src/domain/branch-alias.ts:49-52 | A number behind a safe base is safe |
| BranchAlias.KeptIff | src/domain/branch-alias.ts:46 | An alias numbered for another base is kept exactly if that base is the same or goes on from this one behind a dash |
| BranchAlias.LongerBranchIsKept | src/domain/branch-alias.ts:46 | An alias of another branch is kept exactly if its slug goes on from this one's behind a dash |
| ShellWords.QuotingRoundTripsIff | src/application/crew-session-resolution.ts:110-112 | Tokenizing a quoted command returns its words exactly if none is empty |
| ShellWords.TokensOfCommand | src/application/crew-session-resolution.ts:329-331 | Tokenizing it returns the words that are not empty, whatever they contain, without error |
| ShellWords.Tokenize | src/domain/cli.ts:16-53 | The tokenizer's loop over quotes, escapes and spaces |
| ShellGrammar.TokensAreMeant | src/domain/cli.ts:16-53 | Every line is read as it is meant: it is written in one of the ways of the grammar (characters that stand for themselves, escaped ones, texts in single quotes, texts in double quotes with escapes, gaps; an end that may hang on a backslash or within quotes), and tokenizing gives the words it means, or the error exactly if a quote is open |
| ShellGrammar.LinesAreRead | src/domain/cli.ts:16-53 | However a line of the grammar is written, tokenizing gives what it means |
| ShellGrammar.EveryTextIsALine | src/domain/cli.ts:16-53 | And every text is written in one of its ways |
| ShellWords.RunEscaped | src/application/crew-session-resolution.ts:110-112 | Inside single quotes an escaped text adds just that text |

## Left out

- Request registry: callbacks that call back into the registry while an outcome is being published; the tie-break by id in the buffer's sort, which never decides because sequences differ; `resolveIdle` and `resolveInboundIdle`, which do what the arming operations do; summaries and formatting. That an inbound id may be registered again while it still has a tombstone is kept as the code has it, so inbound tombstones may repeat.
- Request flow: what a channel's transport does; `settleAllInboundIdle`, which repeats one step for each request; the guest variant of sending, which has the same steps; a failure after acceptance in the sending function, which nothing there can raise.
- FlowTheorems.AcceptedRequestsEndInTime: says nothing of runs in which a request is finished whose id is the key of a timer that is set; there a timer is lost (`FlowInvariant.FinishSparesOthersIff`), and the bound with it.
- FlowEndings.HardTimerTimesOut: is about the same runs.
- RequestExchange.ResponsesAreTheOneReply: is about ids that are generated fresh; an id used by two requesters is not excluded by the code.
- Filesystem intake: creation and permissions of directories, replaced directories, hidden files, the watcher, hints to other members, reason files, the order and truncation of a listing; a file that is edited in place while it is read; invalid UTF-8 except as a failure that may happen at any read; a scan lock taken over because it looked stale.
- CrewIntakeTheorems.FilesAreConserved: treats a writer that itself overwrites a file in the new directory as not writing.
- Message payloads: the bound on the size of the whole payload as JSON, senders other than an external label, kinds, times and reply addresses.
- Member inbox: the FNV hash, which is a parameter that prints at most eight hexadecimal digits; times that are not integers; the tie-break by id in the store's order, which never decides because sequences differ.
- Member inbox store: the polling for its lock, temporary files, path containment, and a quarantine that fails; a file whose name is not its item's id.
- Inbox bridge: status and its text.
- Presence observer: broadcasts of the own state, which change nothing here; effects handlers that call back.
- Membership: loading the manifest and finding the member, which come before the claim; the name a dead link is moved to before it is removed, except that failing to remove it fails the claim.
- MembershipRuntime.MembershipRuntime.Join: does not say which failure is reported, only where links, locks and membership end up.
- Guest registry: reading and validating the file; equality of states as JSON text; several members writing at once, whose last writer replaces the set, and the gap between the revision check and the rename.
- Framed streams: sockets, JSON, method tables and validation, which are a parameter telling what a line says; the idle-wait client, which has the shape of the command client; a server's handling of a parsed line.
- Branch aliases: Unicode normalisation; quoting: the actions a tokenized command selects.
- Wiring: extension API, terminal rendering, command grammar, tool registration, error wording.
