# Verified model of the Go SDK's hard core

This project models, in Dafny, the parts of the Hyperliquid Go SDK whose correctness is not visible from any one
function, and proves what those parts promise.

* **The shared subscription connection.** Many goroutines register and close logical subscriptions, one synchronizer
  turns the registry into subscribe and unsubscribe frames, and the serve loop consumes acknowledgements, errors and
  wakes. `WireIdentity` says which server subscription a request names and how acknowledgements are matched, `Registry`
  and `AdmissionGate` keep the handles and the leases they hold, `Protocol` is what one connection generation records,
  `Manager` is its code run without interference, `Interleaving` is the whole thing as a state machine whose steps
  are the critical sections of the code, and `SyncPass` says what a pass achieves while everybody else acts.
  `StaleFrames` says what a change of the registry does to a frame on its way and when a pass may fail, `PassProgress`
  that a pass is never stuck and ends, `WireHistory` which frame every request and subscription goes back to.
  `Acknowledgement` attributes answers to requests, and `Lifecycle` is the bounded channel of state events every
  subscription offers.
* **Two rate limiters.** `TokenBucket` is the FIFO token bucket with charges after the fact, `RollingWindow` the sliding
  window that forgets old timestamps. Both carry the history of everything they ever admitted as ghost state, the bucket
  also who is asleep in it and on what.
* **The bytes that are signed.** `MessagePack` is the subset of that format the actions use, with a decoder and with
  the formats of its specification written out; `L1Action` holds the marshallers and the preimage of an L1 action, and
  says key by key what stands in the bytes.
* **Request and response over a WebSocket.** `PostMultiplexer` follows the right to answer a pending request as it
  moves between the reader, `disconnect`, `close` and the caller; `LateWrites` says which frames are still written after
  their outcome was decided.
* **Smaller cores.** `Price` (decimal text and significant figures), `Builders` (the builder fee of a batch), `AssetIds`
  and `SnapshotCache` (identifier lookup and the shared metadata fetch), `MultiSig` (signer sets and the order of their
  signatures).

Objects whose methods change fields are classes whose methods are proved against specification functions. Where several
goroutines interleave there is also a state machine: a predicate for every step, an invariant every step keeps, and
theorems over whole runs. Channels, locks and contexts appear as what they guard: a lock is the atomicity of a step, a
cancellation is a step that may happen at any wait, and every choice of the server or the network is left open. What
Go's runtime contributes to comparisons (case tables, the conversion of integers to float64) is a constant of which only
the facts listed in `WireIdentity.IsGo` are known, so results hold for any tables with those facts.

Four findings deserve mention.

* An acknowledgement that echoes a pending request is attributed to that request alone exactly when no other pending
  request of the method has the same shape. For ASCII users, every address among them, that is always so
  (`PlainUsersAreNeverConfused`). Beyond ASCII it is not: any two users that Go's `EqualFold` identifies and `ToLower`
  tells apart are confused (`FoldedUsersAreConfused`), and `ConfusedUsersExist` gives `s` beside the long s, and the two
  small sigmas.
* `formatPrice` puts no limit on the decimals of an asset whose size decimals exceed the price decimals (6, or 8 for
  spot and outcome markets), because truncating to a negative precision changes nothing. `PriceAccepted` states the
  acceptance condition with that case in it, and `NoDecimalLimit` is an instance.
* HIP-3 identifiers are pairwise distinct exactly when no DEX has more markets than 10000 times its distance to a later
  DEX that lists any (`Hip3IdsDistinct`); at most 10000 markets a DEX is enough.
* A post request is pending before it has a connection, so losing the socket in place decides it while it is still
  looking for one. Its call is told of the disconnect, and its frame may go to the next socket all the same:
  `WrittenLate` and `WrittenLateToALiveSocket` say exactly when, `DisconnectedYetWritten` is such a run.

## Model

| member | source | states |
|---|---|---|
| `WireIdentity.ServerSubscriptionIdentity` | websocket/wire_identity.go:9-29 | whatever order the fields are visited in, the result is the identity of the request; IdentityMeans says what that tells apart |
| `WireIdentity.CanonicalSubscriptionWire` | websocket/wire_identity.go:31-50 | the canonical wire keeps the method and carries exactly the fields of the identity, whatever order they are visited in |
| `WireIdentity.IdentityIsCanonicalFingerprint` | websocket/wire_identity.go:9-59 | the identity of a canonical wire is that wire's own text, so canonicalising twice changes nothing |
| `WireIdentity.SameIdentity` | websocket/wire_identity.go:9-29 | two requests have one identity exactly when they agree field by field on what is kept of each |
| `WireIdentity.IdentityMeans` | websocket/wire_identity.go:9-59 | two requests have one identity if and only if they say the same of every field, up to the letter case of the user, a false "fast" or a null "nSigFigs" or "mantissa" under l2Book, a false "aggregateByTime" under userFills, and any "isPortfolioMargin" or "ignorePortfolioMargin" under spotState |
| `WireIdentity.EquivalentSpellings` | websocket/wire_identity.go:147-166 | another letter case of the user, or a server default said aloud, names the same subscription |
| `WireIdentity.SubscriptionMatchScore` | websocket/wire_identity.go:61-86 | a match is reported exactly when every requested field is accepted; its score counts the fields set away from the default |
| `WireIdentity.MatchMeans` | websocket/wire_identity.go:61-140 | an acknowledgement matches a request exactly when it confirms every field the request sets: literally, as a number read back as float64, up to letter folding for the user, or by leaving out a server default |
| `WireIdentity.EchoBeatsEveryOtherMatch` | websocket/wire_identity.go:61-111 | an echoed request matches itself, and any other matching request scores strictly less unless it has the same shape, and then it ties |
| `WireIdentity.SameShapeSameIdentity` | websocket/wire_identity.go:61-111 | two requests of one shape are one server identity if and only if lowering their users leaves no difference |
| `WireIdentity.FoldAgreesWithLower` | websocket/wire_identity.go:99-105 | on ASCII text, case folding and lowering decide the same equalities |
| `WireIdentity.FoldAndLowerDisagree` | websocket/wire_identity.go:99-105 | beyond ASCII they disagree both ways: the long s, the final sigma and the dotted I |
| `Acknowledgement.MatchingPendingAcknowledgement` | websocket/manager.go:801-815 | the request found is a match of the method that no other match outscores; none is found only if none matches |
| `Acknowledgement.EchoIsAttributedToItsRequest` | websocket/manager.go:801-815 | an echo is attributed to its own request, in any map order, if and only if no other pending request of the method has its shape |
| `Acknowledgement.PlainUsersAreNeverConfused` | websocket/manager.go:801-815 | for ASCII users the attribution is always the request that was echoed |
| `Acknowledgement.FoldedUsersAreConfused` | websocket/manager.go:801-815 | two users that folding identifies and lowering tells apart have two pending requests, and an echo of one is a best match of both |
| `Acknowledgement.ConfusedUsersExist` | websocket/manager.go:801-815 | the long s beside an ASCII letter, and the two small sigmas, are such users |
| `Acknowledgement.CanonicalIsSdkBuilt` | websocket/wire_identity.go:31-50 | the canonical wire of a request the SDK builds is again such a request, so the attribution results cover grouped handles |
| `Registry.SubscriptionIdentityState` | websocket/client.go:131-154 | presence and fingerprint of an identity, whichever handle the map iteration visits last |
| `Registry.AnyMemberDecidesFingerprint` | websocket/client.go:137-154 | every member of a group gives the same fingerprint |
| `Registry.FingerprintIsDeterminate` | websocket/client.go:137-154 | for handles built from real requests, the printed wire is the canonical form of any member of the group, or the lone member's own, and names the identity it is printed for |
| `Registry.AdmissionUserIsPlain` | websocket/admission.go:101-116 | a request is admitted for its user without the blanks around it, in lower case, and for nobody if it names none |
| `Registry.Client.Subscribe` | websocket/market_subscription.go:204-254 | a known key returns its handle or a type conflict, a closed client, a registry check or a refusal of the gate changes nothing, and only a new identity takes a lease |
| `Registry.Client.AdmitSubscription` | websocket/admission.go:107-123 | a registered identity is admitted on its lease, a new one takes one, and a refusal changes nothing |
| `Registry.Client.TakeOut` | websocket/client.go:101-125 | only the handle registered under the key is removed, and only the last handle of an identity takes its lease out of the registry |
| `Registry.Client.TakeOutIdentity` | websocket/client.go:156-174 | every handle of the identity and no other leaves the registry, and its lease is taken out |
| `Registry.Client.GiveBack` | websocket/client.go:126-128 | with no lock held, the release of a lease that was taken out ends that lease and no other |
| `Registry.CollectMembers` | websocket/client.go:156-166 | the loop collects exactly the handles of the identity |
| `Registry.NothingLeaks` | websocket/client.go:101-179 | the gate counts no lease of a client exactly when the client has no subscriptions and every release it owes has run |
| `Registry.OtherClientsDoNotMatter` | websocket/admission.go:59-99 | leases other owners take or give back leave a client its own, no more and no less |
| `AdmissionGate.ReferenceGate.constructor` | websocket/admission.go:44-57 | a gate starts empty, with the default caps for non-positive ones |
| `AdmissionGate.ReferenceGate.Acquire` | websocket/admission.go:59-80 | the counters stay exact and within both caps; each refusal happens exactly when the new key or the new user would exceed its cap |
| `AdmissionGate.ReferenceGate.Count` | websocket/admission.go:71-80 | past the caps, one more live lease is counted |
| `AdmissionGate.ReferenceGate.Release` | websocket/admission.go:82-98 | the first call ends one lease and both counters follow; a repeated call does nothing |
| `AdmissionGate.EveryReleaseEmptiesTheGate` | websocket/admission.go:59-99 | both maps are empty exactly when every lease has been released, in whatever order and however often |
| `AdmissionGate.AcquireCountsLeases` | websocket/admission.go:78-79 | incrementing a key keeps every count equal to the live leases of the key |
| `AdmissionGate.ReleaseCountsLeases` | websocket/admission.go:84-90 | decrementing or deleting a key keeps every count equal to the live leases of the key |
| `AdmissionGate.AddKeyCounts` | websocket/admission.go:71-77 | a new key keeps every user's count equal to its distinct live keys |
| `AdmissionGate.RemoveKeyCounts` | websocket/admission.go:91-96 | a dead key keeps every user's count equal to its distinct live keys |
| `Protocol.SubscribeKeeps` | websocket/manager.go:442-446 | after a subscribe frame a subscribe is still pending exactly for the unacknowledged identities on the wire, and the history agrees |
| `Protocol.UnsubscribeKeeps` | websocket/manager.go:423-428 | the same after an unsubscribe frame |
| `Protocol.AckKeeps` | websocket/manager.go:765-799 | the same after an acknowledgement |
| `Protocol.RejectionKeeps` | websocket/manager.go:734-759 | the same after a rejection |
| `Protocol.MembersKeep` | websocket/manager.go:411-416 | the same when a subscription on the wire only changes the handles it feeds |
| `Protocol.StrictAlternation` | websocket/manager.go:405-459 | in an alternating history the frames of a never rejected identity are subscribe, unsubscribe, subscribe, and so on |
| `Protocol.PendingAckKeyInjective` | websocket/manager.go:761-763 | no two pending requests share a key |
| `Interleaving.NextKeeps` | websocket/manager.go:273-588 | every step of every goroutine keeps the invariant and writes at most one frame, which suits the registry of that instant |
| `Interleaving.StepsWriteWhatSuits` | websocket/manager.go:468-588 | in every run a step adds to the history nothing, a rejection, or one frame that is recorded with the registry of that instant and suits it |
| `Interleaving.FramesSuitTheRegistry` | websocket/manager.go:468-588 | in every run a subscribe is written only while the registry holds the identity with that fingerprint, an unsubscribe only while it does not |
| `Interleaving.NeverIdlesOutOfDate` | websocket/manager.go:273-366 | whenever the wire differs from the registry, a wake is buffered, a synchronizer has not been seen to finish, serve is returning, or the change is about to raise the wake |
| `Interleaving.PendingMeansUnacknowledged` | websocket/manager.go:423-450 | in every run, until an expiry, a subscribe is pending exactly while its identity is on the wire and not acknowledged |
| `Interleaving.FramesAlternate` | websocket/manager.go:405-459 | in every run a subscribe is repeated only after a rejection, an unsubscribe answers a subscribe, and without rejections the frames strictly alternate |
| `Interleaving.AnswersSettleOneRequest` | websocket/manager.go:734-799 | an answer settles the request it is attributed to and no other; a rejection takes the identity off the wire, out of the registry and out of the pending subscribes as well |
| `StaleFrames.TableIsExact` | websocket/manager.go:554-578 | in every run the admission table holds exactly the admission of the frame being written, under its identity and its own token |
| `StaleFrames.ChangesAreNoticed` | websocket/manager.go:554-588 | in every run, unless somebody is about to publish a change, a frame under way that does not suit the registry is stale |
| `StaleFrames.PassFailsForAReason` | websocket/manager.go:468-552 | in every run a pass fails only at a frame under way, and at a stale one only if serve is returning |
| `StaleFrames.OutdatedFramesDoNotFail` | websocket/manager.go:482-486 | in every run, while a frame does not suit the registry and nobody is about to publish or returning, no step ends the pass in failure |
| `StaleFrames.FailedPassEndsTheGeneration` | websocket/manager.go:273-366 | in every run, serve returns with the step that takes notice of a failed pass |
| `StaleFrames.StaleWaitsCanEnd` | websocket/manager.go:482-486 | a stale frame that waits can be given up, and the pass goes on as it was |
| `StaleFrames.StaleFramesAreNotWritten` | websocket/manager.go:495-552 | in every run no stale frame is written |
| `PassProgress.SyncStepsAdvance` | websocket/manager.go:368-552 | every step of the synchronizer brings a pass closer to its end |
| `PassProgress.OthersDoNotSetBack` | websocket/manager.go:273-366 | no step of anybody else takes a pass further away from its end |
| `PassProgress.PassIsNeverStuck` | websocket/manager.go:368-552 | in every run a pass that is under way has a next step of its own, unless somebody holds the commit lock |
| `PassProgress.ServeTakesWakes` | websocket/manager.go:273-366 | a buffered wake can be taken, and starts a pass or is remembered until the running one has finished |
| `PassProgress.ServeTakesResults` | websocket/manager.go:273-366 | a finished pass can be taken notice of: a failed one makes serve return, a remembered wake starts the next |
| `PassProgress.ServeCanReturn` | websocket/manager.go:273-366 | serve can return at any moment and never resumes |
| `PassProgress.ClientsOweAWake` | websocket/client.go:101-129 | whoever registers or removes a handle, even under a key that has moved on, raises a wake before letting go of the commit lock |
| `WireHistory.RequestsAreTheFramesWritten` | websocket/manager.go:405-459 | in every run a pending request carries the wire of the last frame of its command and identity, and a subscription that of the last subscribe |
| `WireHistory.UnsubscribesNameWhatWasSubscribed` | websocket/manager.go:405-436 | in every run an unsubscribe names the wire of the last subscribe of its identity |
| `WireHistory.FramesAreAwaited` | websocket/manager.go:420-450 | in every run, from the step that writes a frame its answer is awaited, an unsubscribe ends the wait for the subscribe, and other identities are not touched |
| `SyncPass.NextKeepsPass` | websocket/manager.go:368-459 | every step of every goroutine keeps what a pass owes: one frame for an unrejected identity that has changed sides since the snapshot, none for any other, and the right handles for those it is done with |
| `SyncPass.NextKeepsCourse` | websocket/manager.go:368-588 | while the registry says of an identity what it said in the snapshot, no step of anybody makes its frame stale or skips it, and the pass still has to do for it exactly what is out of date |
| `SyncPass.PassHasSnapshot` | websocket/manager.go:368-384 | every pass of every run goes back to one snapshot of the registry, the wire and the history, and has been running since |
| `SyncPass.UnchangedIdentitySettles` | websocket/manager.go:368-459 | in every run, a finished pass leaves an identity of which the registry said the same throughout on the wire exactly if the registry has it, feeding the handles of the snapshot, whatever happened to other identities |
| `SyncPass.UnchangedIdentityGetsItsFrame` | websocket/manager.go:368-459 | in every run, such a pass wrote one frame for that identity if it was on one side only, and none if not, as far as the server did not reject it |
| `SyncPass.UndisturbedPassSettles` | websocket/manager.go:368-459 | in every run, a finished pass during which the registry did not change leaves exactly the registry on the wire, each identity feeding exactly the handles the registry has for it |
| `SyncPass.QuietPassIsUndisturbed` | websocket/manager.go:273-366 | in every run, if no wake is buffered or noted when a pass ends, nobody is about to raise one and serve is not returning, then the registry has not changed since the snapshot |
| `Manager.GroupHandles` | websocket/manager.go:368-378 | the loop over the snapshot collects every handle under its identity, with the wire of the one visited first |
| `Manager.GroupSubscriptions` | websocket/manager.go:368-384 | the groups are the registry's identities, each with the registry's fingerprint and exactly its handles |
| `Manager.Generation.UnsubscribeUnwanted` | websocket/manager.go:392-436 | the first loop computes its specification fold, or stops with a proper prefix of its frames when the socket fails |
| `Manager.Generation.SubscribeMissing` | websocket/manager.go:437-457 | the second loop computes its specification fold, or stops with a proper prefix of its frames when the socket fails |
| `Manager.Generation.SyncSubscriptions` | websocket/manager.go:368-459 | a pass succeeds exactly when the socket accepts all its frames; otherwise it has written a proper prefix of them |
| `Manager.PassSettles` | websocket/manager.go:368-459 | a finished pass leaves exactly the registry's identities on the wire, each feeding exactly the registry's handles |
| `Manager.PassWritesSuitably` | websocket/manager.go:368-459 | every frame of the pass suits the registry, earlier history is kept, and pending stays exact |
| `Manager.PassCount` | websocket/manager.go:368-459 | the pass writes as many frames as there are identities on one side only |
| `Manager.PassWritesTheDifference` | websocket/manager.go:368-459 | one frame for each identity on one side only, and none for any other |
| `Manager.Generation.AcknowledgeSubscription` | websocket/manager.go:773-799 | the matched request and no other is forgotten, its subscription and no other is marked, and exactly the handles it feeds are told |
| `Manager.Generation.RejectWireSubscription` | websocket/manager.go:734-759 | the identity leaves the wire and the pending subscribes, nothing else does, and the handles to end are the detached ones and those it was still feeding |
| `Manager.Generation.RejectEveryPendingSubscribe` | websocket/manager.go:673-684 | an error that names no request rejects every pending subscribe and leaves pending unsubscribes and other subscriptions alone |
| `RollingWindow.EveryWindowIsBounded` | websocket/rate.go:40-73 | every half-open window of the configured length holds at most the limit of all admissions ever granted |
| `RollingWindow.KeptIsTheCount` | websocket/rate.go:46-55 | a history cut at the window that ends now has as many entries behind the cut as that window holds |
| `RollingWindow.CutDecides` | websocket/rate.go:46-55 | what pruning keeps reaches the limit exactly when the window that ends now, over all admissions ever granted, is full |
| `RollingWindow.FullMeans` | websocket/rate.go:45-59 | the quota is used up exactly when the admission a quota ago is younger than a window |
| `RollingWindow.MessageRateLimiter.constructor` | websocket/rate.go:23-38 | the defaults for non-positive settings |
| `RollingWindow.MessageRateLimiter.DropFirst` | websocket/rate.go:52-55 | the copy within the slice drops exactly the oldest entries |
| `RollingWindow.MessageRateLimiter.Prune` | websocket/rate.go:46-55 | exactly the entries a whole window old are forgotten |
| `RollingWindow.MessageRateLimiter.TryAdmit` | websocket/rate.go:45-62 | a caller is admitted exactly when fewer than the limit of all admissions ever granted lie in the window that ends now; a refused one learns when the oldest of them leaves it |
| `RollingWindow.MessageRateLimiter.Wait` | websocket/rate.go:40-73 | with any turns of other callers in between, a caller is admitted in the first of its own turns that finds room |
| `RollingWindow.TurnsKeepTheQuota` | websocket/rate.go:40-73 | however many callers take turns, the history stays one whose every window is within the quota |
| `RollingWindow.WaitIsExact` | websocket/rate.go:59-72 | the wait a refused caller is told is neither too long nor too short |
| `TokenBucket.RefillInTwoSteps` | transport/weighted_rate_limit.go:389-399 | refilling in two steps equals refilling once |
| `TokenBucket.AdmittedWeightIsBounded` | transport/weighted_rate_limit.go:315-399 | between any two instants the weight admitted is at most the budget plus budget times their distance over the window |
| `TokenBucket.RefillKeepsBound` | transport/weighted_rate_limit.go:389-399 | a refill keeps the bound and never lifts the tokens above the budget |
| `TokenBucket.ChargeKeepsBound` | transport/weighted_rate_limit.go:378-387 | an overdraft keeps the bound |
| `TokenBucket.AdmissionKeepsBound` | transport/weighted_rate_limit.go:340-345 | an admission covered by the tokens keeps the bound |
| `TokenBucket.HeadIsAdmissibleAfterDelay` | transport/weighted_rate_limit.go:401-414 | without a charge in between, the head has its tokens once the computed delay has passed |
| `TokenBucket.HeadIsShortBeforeDelay` | transport/weighted_rate_limit.go:401-414 | and at no earlier instant |
| `TokenBucket.DelayIsExact` | transport/weighted_rate_limit.go:401-414 | the delay of a head that lacks tokens is the first instant at which a refill covers its weight |
| `TokenBucket.RefillKeepsFunded` | transport/weighted_rate_limit.go:389-399 | a timer that finds its tokens still does after anybody's refill in between |
| `TokenBucket.NoOvertaking` | transport/weighted_rate_limit.go:325-354 | whoever is admitted, everyone who arrived before and did not give up was admitted too |
| `TokenBucket.CancelOne` | transport/weighted_rate_limit.go:416-428 | a cancellation takes out one waiter and leaves the order of the others |
| `TokenBucket.WeightedRateLimiter.constructor` | transport/weighted_rate_limit.go:276-309 | a limiter starts with a full bucket and nobody waiting |
| `TokenBucket.WeightedRateLimiter.Refill` | transport/weighted_rate_limit.go:389-399 | what the bucket holds after a refill, and when the timestamp moves |
| `TokenBucket.WeightedRateLimiter.Enqueue` | transport/weighted_rate_limit.go:315-329 | a free request returns at once, one above the budget is refused, any other joins the end of the queue and calls everybody asleep |
| `TokenBucket.WeightedRateLimiter.Poll` | transport/weighted_rate_limit.go:331-354 | exactly the head of the queue with enough tokens is admitted and pays; a head that lacks them sleeps until the first instant at which a refill covers its weight; a head whose timer fires with no broadcast since it was set is admitted |
| `TokenBucket.WeightedRateLimiter.FallAsleep` | transport/weighted_rate_limit.go:346-375 | whoever is not admitted sleeps until the next broadcast, exactly the head with a timer, which fires at the first instant at which a refill covers its weight; nobody is ever asleep at the head of the queue, uncalled, without a timer that finds its tokens |
| `TokenBucket.WeightedRateLimiter.Admit` | transport/weighted_rate_limit.go:340-345 | the head pays, leaves, and calls everybody asleep |
| `TokenBucket.WeightedRateLimiter.Charge` | transport/weighted_rate_limit.go:378-387 | the charge is taken after the refill, into debt if need be, and everybody asleep is called, so that the head sets its timer anew |
| `TokenBucket.WeightedRateLimiter.Remove` | transport/weighted_rate_limit.go:416-428 | the cancelled waiter leaves the queue, the others keep their order and are called, a stranger changes nothing |
| `MessagePack.HeadRoundTrip` | signing/l1_action.go:901-919 | whatever follows, the head of a value is read back and the rest is left |
| `MessagePack.HeadIsShortest` | signing/l1_action.go:904-907 | no encoding of an integer or a length is shorter than the one written |
| `MessagePack.HighByteFirst` | signing/l1_action.go:901-919 | a number is written high byte first |
| `MessagePack.HeadIsAFormat` | signing/l1_action.go:901-919 | the head of a value is one of the formats of the MessagePack specification for it |
| `MessagePack.FormatIsNoShorter` | signing/l1_action.go:904-907 | no format of the specification is shorter than the one written |
| `MessagePack.EncodingSpells` | signing/l1_action.go:901-919 | what is written is the value as the specification lays it out: text byte by byte, elements and pairs in order, each key before its value |
| `MessagePack.RoundTrip` | signing/l1_action.go:901-919 | an encoded value is self-delimiting: whatever follows, exactly the value is read back and the rest is left |
| `MessagePack.Encoder.EncodeScalar` | signing/l1_action.go:533-540 | a number gets its shortest form from the signed entry point and, above its range, from the unsigned one |
| `L1Action.MarshalBuilder` | signing/l1_action.go:163-179 | the bytes are one map with the address under "b" and the fee under "f" |
| `L1Action.MarshalCancel` | signing/l1_action.go:102-118 | the bytes are one map with the asset under "a" and the order id under "o" |
| `L1Action.MarshalCancelByCloid` | signing/l1_action.go:355-371 | the bytes are one map with the asset under "asset" and the client order id under "cloid" |
| `L1Action.MarshalOrderType` | signing/l1_action.go:231-283 | the bytes are one map with the time in force under "limit", or with the trigger price, its kind and whether it is a market order under "trigger", or nil |
| `L1Action.MarshalOrder` | signing/l1_action.go:192-221 | the bytes are one map whose keys are "a", "b", "p", "s", "r", "t", and "c" exactly if there is a client order id, each over its own field of the order |
| `L1Action.MarshalModify` | signing/l1_action.go:687-709 | the bytes are one map with the client order id, when there is one, in place of the numeric one under "oid", and the order under "order" |
| `L1Action.MarshalOrders` | signing/l1_action.go:136-147 | a nil slice is written as nil, any other as an array of exactly its elements |
| `L1Action.MarshalOrderAction` | signing/l1_action.go:127-155 | the bytes are one map of type "order" with the orders, the grouping and the builder, if there is one |
| `L1Action.MarshalCancelAction` | signing/l1_action.go:78-93 | the bytes are one map of type "cancel" with the cancels in order |
| `L1Action.MarshalCancelByCloidAction` | signing/l1_action.go:338-353 | the bytes are one map of type "cancelByCloid" with the cancels in order |
| `L1Action.MarshalScheduleCancel` | signing/l1_action.go:387-410 | the bytes are one map of type "scheduleCancel", with the time if there is one |
| `L1Action.MarshalTwap` | signing/l1_action.go:457-488 | the bytes are one map with the six fields of the order, each under its own key |
| `L1Action.MarshalTwapOrder` | signing/l1_action.go:432-448 | the bytes are one map of type "twapOrder" with the order under "twap" |
| `L1Action.MarshalBatchModify` | signing/l1_action.go:670-685 | the bytes are one map of type "batchModify" with the modifications in order |
| `L1Action.MarshalFlat` | signing/l1_action.go:507-889 | TWAP cancels, transfers, leverage and margin updates, weight reservations and the no-op: the bytes are one map of the type of the action with each of its fields under its own key |
| `L1Action.MarshalAction` | signing/l1_action.go:76-889 | every action of the file is written as one map that says the action, with its own type and keys |
| `L1Action.ActionSays` | signing/l1_action.go:76-889 | the wire value of every action has the type of the action first, then its fields under their literal keys, in the order of the file |
| `L1Action.L1ActionPreimage` | signing/l1_action.go:27-47 | the data hashed starts with one map that says the action; the nonce, the mark and bytes of the vault and those of the expiry follow |
| `L1Action.ParsePreimage` | signing/l1_action.go:27-47 | a decoder recovers the wire value, the nonce, the optional vault and the optional expiry |
| `L1Action.TailSays` | signing/l1_action.go:27-47 | behind the action stand eight bytes of nonce, high byte first, a 1 and the vault or a 0, and a 0 and eight bytes of expiry or nothing |
| `L1Action.PreimageSays` | signing/l1_action.go:27-47 | the preimage decodes to one value that says the action, and what is left says the nonce, the vault and the expiry |
| `L1Action.WireValueDetermines` | signing/l1_action.go:76-889 | two actions have one wire value exactly when they differ at most in order ids that are not sent |
| `L1Action.PreimageDeterminesInputs` | signing/l1_action.go:27-47 | preimages are equal exactly when all four inputs are, up to order ids that are not sent |
| `PostMultiplexer.NextKeeps` | websocket/post.go:76-358 | every step of every goroutine keeps ownership, token and socket invariants, and nothing reopens a closed manager |
| `PostMultiplexer.OneOutcomeOfItsOwn` | websocket/post.go:76-358 | in every run a request is answered at most once; a payload, an error and an unexpected frame only answer the request whose id they carry, and only as their type and payload call for |
| `PostMultiplexer.ReaderTellsTheFrame` | websocket/post.go:277-333 | in every run the reader tells the request of a frame its payload exactly when the type answers its kind and an info frame is well formed, the server's error exactly when the type is "error" and the frame is well formed, and that the frame is unexpected in exactly the other cases |
| `PostMultiplexer.OwnersTellWhatHappened` | websocket/post.go:76-358 | in every run an entry that close has taken is told that the manager is closed, one that a disconnect has taken that the socket is gone, and nothing else |
| `PostMultiplexer.OldReadersTakeNothing` | websocket/post.go:277-358 | in every run, the end of a reader takes the socket and the pending requests with it exactly if its socket is the one in place |
| `PostMultiplexer.SendsNeverBlock` | websocket/post.go:92-94 | in every run, whoever has an entry to answer finds its channel empty |
| `PostMultiplexer.WrittenAtMostOnce` | websocket/post.go:129-187 | in every run the frame of a request is handed to a socket at most once |
| `PostMultiplexer.NobodyWaitsOnADeadSocket` | websocket/post.go:98-358 | in every run a waiting call is pending on the socket in place, which is being read, or somebody holds its entry, or its answer is there |
| `PostMultiplexer.OneSocketAtATime` | websocket/post.go:221-264 | in every run a new socket is installed only by the owner of the write token and never over another |
| `PostMultiplexer.ClosedStaysEmpty` | websocket/post.go:76-96 | in every run, once closed the manager stays closed, with nothing pending and no socket |
| `PostMultiplexer.RemovedIsNeverAnswered` | websocket/post.go:335-339 | in every run, a request that has been removed is never answered again, whatever frames arrive for it |
| `PostMultiplexer.GivingUpRemoves` | websocket/post.go:200-205 | in every run, a call that gives up while its entry is pending leaves before anybody answered it |
| `LateWrites.NextFollows` | websocket/post.go:98-358 | every step keeps an open request pending until it is decided, and a connected request on the socket in place until that is lost |
| `LateWrites.WrittenLate` | websocket/post.go:123-187 | in every run a frame is written after its outcome was decided exactly when, since its request was registered, the socket in place was lost, the manager closed, or a frame for it was read |
| `LateWrites.WrittenLateToALiveSocket` | websocket/post.go:123-187 | in every run such a frame goes to the socket in place exactly when its request lost no socket of its own; nobody has closed the manager then, and unless a frame for it was read first its call is told of a disconnect |
| `LateWrites.DisconnectedYetWritten` | websocket/post.go:341-358 | a run in which a call still looking for a socket is told of a disconnect and its frame is then written to the next socket |
| `PostMultiplexer.PostManager.Register` | websocket/post.go:115-124 | a fresh id with an empty channel becomes pending, unless the manager is closed |
| `PostMultiplexer.PostManager.Read` | websocket/post.go:277-333 | a pending request is told the payload exactly when the type answers its kind and an info frame is well formed, the server's error exactly when the type is "error" and the frame is well formed, and that the frame is unexpected in exactly the other cases; nobody else is told anything |
| `PostMultiplexer.PostManager.Disconnect` | websocket/post.go:341-358 | only the socket in place takes its pending requests down, and each of them is told exactly that |
| `PostMultiplexer.PostManager.Close` | websocket/post.go:76-96 | every pending request and no other is told that the manager is closed, once |
| `Lifecycle.NextKeeps` | websocket/state.go:40-53 | every step keeps the numbering, the bound and the order; nothing is made after the terminal event |
| `Lifecycle.BufferedIsTheNewestRun` | websocket/state.go:36-53 | in every run the channel holds an unbroken run of sequence numbers that ends at the newest event |
| `Lifecycle.ObserversSeeIncreasingNumbers` | websocket/state.go:22-30 | in every run observers see strictly increasing numbers, and observed, evicted and buffered events add up to all that were made |
| `Lifecycle.SendNeverBlocks` | websocket/state.go:36-53 | in every run the second send of the enqueue finds room |
| `Lifecycle.TerminalIsLastAndKept` | websocket/market_subscription.go:52-83 | in every run the terminal event is the last, is made once, and is never evicted |
| `Lifecycle.RepeatsAreSilent` | websocket/market_subscription.go:145-162 | in every run, of two consecutive changes to one state only errors are told again |
| `Lifecycle.ChangesAreTold` | websocket/market_subscription.go:145-162 | in every run every other change is told, under the next number, with an error exactly for the error state |
| `Lifecycle.FirstEndDecides` | websocket/market_subscription.go:52-83 | in every run the terminal event is an unsubscribe without an error if the subscription was closed first, and the error it was given, or the stock one, if it was terminated first |
| `Lifecycle.EndsAreTold` | websocket/market_subscription.go:52-83 | in every run the end makes exactly one more event |
| `Lifecycle.RoomIsMadeOnlyWhenFull` | websocket/state.go:40-53 | in every run an event makes room for itself only after it found the channel full |
| `Lifecycle.EventOf` | websocket/state.go:55-60 | an event carries an error exactly when its state is the error state: the one given, or the stock text |
| `Lifecycle.StreamSubscription.Enqueue` | websocket/state.go:40-53 | the channel keeps the newest events up to its capacity |
| `Lifecycle.StreamSubscription.StateChange` | websocket/market_subscription.go:145-162 | a repeated state other than an error, or any after the end, is silent; any other is numbered and kept as the newest |
| `Lifecycle.StreamSubscription.Finish` | websocket/market_subscription.go:52-83 | the first end makes the terminal event, keeps it as the newest and closes; a second does nothing |
| `Price.PriceAccepted` | exchange/order.go:193-214 | a price is accepted exactly when it is positive, keeps to the decimals its asset leaves of 8 (spot and outcome) or 6, and is an integer or has at most five significant figures; the text sent is its decimal text and denotes it |
| `Price.SizeAccepted` | exchange/order.go:215-220 | a size is accepted exactly when it is positive and keeps to the size decimals; the text then denotes it |
| `Price.CountedDigits` | exchange/order.go:206-209 | stripping the point and trimming zeros leaves the digits of the coefficient without its trailing zeros |
| `Price.FiguresAreDigits` | exchange/order.go:206-209 | counting those digits is counting significant figures |
| `Price.TruncateKeeps` | exchange/order.go:201-207 | truncation leaves a value alone exactly when it has no more decimals |
| `Price.PrintedTextDenotes` | exchange/order.go:193-220 | the text that is sent denotes the value it was printed from |
| `Price.TextIsCanonical` | exchange/order.go:193-220 | two decimals are sent as one text exactly when they are the same number |
| `Price.NoDecimalLimit` | exchange/order.go:197-203 | a perpetual with seven size decimals takes a price of 10^-20, one with six does not |
| `Builders.BuilderForOrders` | exchange/order.go:107-143 | a batch is accepted exactly when there is an asset for each order and all orders agree on one allowed builder or on none, and then carries it |
| `Builders.CheckBuilder` | exchange/order.go:119-132 | which error is reported: the zero address, no fee, or a fee above 1000 for spot and outcome assets and above 100 for the others |
| `Builders.TextTellsAddressesApart` | exchange/order.go:133-141 | comparing lower-case text compares addresses |
| `AssetIds.AppendPerps` | asset/meta_resolver.go:419-424 | the markets of a list follow what is already there, with consecutive identifiers from the offset |
| `AssetIds.FetchHip3` | asset/meta_resolver.go:374-393 | the markets of every named DEX, in order, and of no other; one named DEX whose list cannot be loaded ends the fetch |
| `AssetIds.Hip3AssetsAre` | asset/meta_resolver.go:374-393 | the HIP-3 assets are exactly the markets of the named DEXs, each under 100000 + 10000 * DEX + position, with its name, decimals and DEX |
| `AssetIds.AppendOutcomes` | asset/meta_resolver.go:403-417 | two identifiers for each outcome market that has two sides, none for any other |
| `AssetIds.OutcomeAssetsAre` | asset/meta_resolver.go:395-417 | the outcome assets are exactly the two sides of the two-sided markets, each under 100000000 + 10 * outcome + side and named "#" and that number |
| `AssetIds.IndexAssets` | asset/meta_resolver.go:426-434 | the index holds exactly the assets of an identifier, in order |
| `AssetIds.ResolveID` | asset/meta_resolver.go:164-190 | the lookup computes its specification, including which namespaces it must be able to load |
| `AssetIds.LookupAgreesWithFullScan` | asset/meta_resolver.go:164-190 | leaving namespaces out by the size of the identifier finds what a scan of all enabled namespaces finds: the one asset of the identifier, nothing if there is none, an ambiguity if there are more |
| `AssetIds.UnavailableNeverMisleads` | asset/meta_resolver.go:164-190 | a namespace that cannot be loaded is reported exactly for identifiers of its range; whatever is answered is what the full scan finds |
| `AssetIds.Hip3IdsDistinct` | asset/meta_resolver.go:374-393 | HIP-3 identifiers are pairwise distinct if and only if no DEX outgrows its distance to a later one in use |
| `AssetIds.TenThousandEachSuffice` | asset/meta_resolver.go:389-390 | ten thousand markets a DEX are few enough |
| `AssetIds.EveryMarketIsFound` | asset/meta_resolver.go:164-190 | with distinct identifiers every market is found under its own and nothing is found under any other |
| `SnapshotCache.NextKeeps` | asset/meta_resolver.go:198-324 | every step keeps one pending load at most and every caller's promise |
| `SnapshotCache.OneFetchAtATime` | asset/meta_resolver.go:198-253 | in every run no two callers fetch at once |
| `SnapshotCache.RefreshIsFresh` | asset/meta_resolver.go:206-253 | in every run a forced refresh is told a snapshot whose fetch ended after it was asked for, never an older one, and an error only from such a fetch |
| `SnapshotCache.ReadsAreCurrent` | asset/meta_resolver.go:198-257 | in every run an ordinary read is told a snapshot whose fetch ended after it was asked for, or the newest one, which is neither blank nor expired |
| `SnapshotCache.CurrentSnapshotsAreUsed` | asset/meta_resolver.go:198-257 | in every run an ordinary read waits or fetches only while there is no such snapshot |
| `SnapshotCache.FailuresOfOthersDoNotHurt` | asset/meta_resolver.go:214-231 | in every run an ordinary read is told the error of a load it joined only while there is no such snapshot |
| `SnapshotCache.NobodyJoinsADeadLoad` | asset/meta_resolver.go:206-253 | in every run whoever joined a load can be told its result, or somebody is fetching it |
| `MultiSig.Validate` | exchange/multisig.go:194-235 | no error exactly when the sizes fit, the authorized users are real and unique, the leader is authorized, and the signers are authorized and unique; any error names what is wrong |
| `MultiSig.CheckAuthorized` | exchange/multisig.go:198-207 | the first loop accepts exactly non-zero, unique users and collects them; an error names what is wrong |
| `MultiSig.CheckSigners` | exchange/multisig.go:220-233 | the second loop accepts exactly present, authorized, unique signers; an error names what is wrong |
| `MultiSig.CollectSignatures` | exchange/multisig.go:138-192 | every signer is asked, one refusal ends it, and the list follows the sorted addresses |
| `MultiSig.HexSpellsBytes` | exchange/multisig.go:184-186 | the lower-case text of an address is "0x" and the two hexadecimal digits of each byte, the high one first |
| `MultiSig.HexOrderIsByteOrder` | exchange/multisig.go:184-186 | comparing lower-case text orders addresses by their bytes |
| `MultiSig.SortIsDetermined` | exchange/multisig.go:183-187 | with distinct addresses, every arrangement the comparison accepts is the same one |
| `MultiSig.EnvelopeIgnoresOrder` | exchange/multisig.go:138-235 | for every permutation of the signers the configuration stays acceptable and the list of signatures is the same |
| `MultiSig.EnvelopeReachesThreshold` | exchange/multisig.go:138-235 | the list holds at least the threshold of signatures, of different authorized users, in ascending order of address |

## Left out

- Sockets, dialing, reconnecting, heartbeats, read and write deadlines: a write that fails and a connection that ends are steps that may always happen.
- JSON text: a subscription's printed form is represented by the field map it prints, which is equal exactly when the text is; decoding of frames is not modelled.
- WireIdentity.ServerSubscriptionIdentity: strings are sequences of valid characters; the replacement of invalid UTF-8 is not modelled.
- Registry.Client.Remove: runs TakeOut and GiveBack with nobody acting in between; those two are what interleaves.
- Registry.Client.DetachSubscriptionIdentity: runs TakeOutIdentity and GiveBack with nobody acting in between.
- Manager.Generation.SyncSubscriptions: no other goroutine acts during this pass and no state events are sent; SyncPass has the pass with everybody acting.
- Manager.Generation.UnsubscribeUnwanted: the rechecks before the write are steps of Interleaving, not of this loop.
- Manager.Generation.SubscribeMissing: the rechecks before the write are steps of Interleaving, not of this loop.
- Manager.PassSettles: about the uninterrupted pass; SyncPass.UndisturbedPassSettles is the statement for every run.
- Manager.PassWritesSuitably: about the uninterrupted pass; Interleaving.FramesSuitTheRegistry is the statement for every run.
- Manager.PassCount: about the uninterrupted pass; SyncPass.UnchangedIdentityGetsItsFrame is the statement for every run.
- Manager.PassWritesTheDifference: about the uninterrupted pass; SyncPass.UnchangedIdentityGetsItsFrame is the statement for every run.
- Interleaving.NeverIdlesOutOfDate: serve is taken as the only consumer of wakes; the helper that drains them while dialing hands over to a serve that starts with a fresh snapshot.
- The acknowledgement timer: an expiry is a step that may happen at any time.
- Delivery of data events to subscribers and its backpressure policies.
- TokenBucket.WeightedRateLimiter.Poll: amounts are reals, so rounding of float64 is not modelled, and the blocking select of the loop is the choice of when the next turn comes.
- RollingWindow.MessageRateLimiter.Wait: who gets the lock when, and what the clock then shows, is a given sequence of turns; sleeping is the distance between them.
- MessagePack.Encoder.EncodeScalar: the encoder library itself is represented by its documented output, with lengths below 2^32.
- The JSON forms of the actions, and the actions of other files of the package.
- Hashing and signing: the model ends at the bytes that are hashed.
- PostMultiplexer.PostManager.Register: the counter of request ids does not wrap around at 2^64.
- PostMultiplexer.PostManager.Read: the nested JSON of a response is a type and whether its payload can be read.
- Price.PriceAccepted: exponents and precisions are unbounded integers, not int32, and the decimal library is represented by its String and Truncate.
- AssetIds.ResolveID: the base namespace is given as a list; spot token lookup and symbol aliases are left out.
- MultiSig.CollectSignatures: a signer's answer to the digest is fixed for the submission, and the sort works on a value instead of in place.
- SubscribeL2Book: it repeats the registry step of the generic subscription.
- Info, explorer and event types, option setters, nonces and backoff: no property beyond their listing.
