# Verified models of the calls server, its clients and the configuration store

The project models the hand-written protocols and algorithms of the repository and proves what
they are for. `dafny verify dfyconfig.toml` checks all of it.

The main part is the SFU of `rtcd`. Its goroutines share state under mutexes and talk over
channels, so each section under a mutex and each channel operation is one step of a transition
system, runs are sequences of states with an event between each two, and the theorems hold at
every point of every run.

* `SignalingLock.dfy`, `SignalingProgress.dfy`: the offer/answer exchange of one client and the
  server under the signaling lock, over an unordered network. States and rules follow section 4 of
  RFC 3264 and section 3.2 of RFC 8829.
* `CloseProtocol.dfy`: how a session ends when any number of callers close it while its
  negotiation goroutine runs, and closes it too.
* `Call.dfy`, `CallSessions.dfy`, `CallInvariants.dfy`, `CallRuns.dfy`, `CallDeparture.dfy`: one
  call as a value, its sections as functions, the invariants and the theorems.
  `CallPublications.dfy`, `CallFanOut.dfy`, `CallNegotiations.dfy`: what becomes of a publication,
  whom it is offered to, and what one negotiation leaves, told by the events. `CallObject.dfy`: the
  same sections as methods of a class, with the loops of the code, each proved to compute its
  function.
* `Registry.dfy`: the two session registries and the draining stop, as functions, runs and a class.
* `ControlClient.dfy`, `ControlClientObject.dfy`: the reconnecting control client and who closes
  its channels, as interleaved steps and as a class with the reconnect loop.
* `RateMonitor.dfy`, `Simulcast.dfy`: the ring buffer of the rate monitor, and the backoff between
  simulcast level switches.
* `ConfigEnvironment.dfy`, `PathSlices.dfy`, `ConfigStore.dfy`, `ConfigDiff.dfy`: environment
  overrides and their removal, the slices in which the removal collects its paths, the store over
  runs of `Set`, and the structural difference.
* `RateLimiter.dfy`, `Upload.dfy`, `KeyCase.dfy`: the web client's sliding-window limiter, its
  resumable upload against the server's session, and its translation of object keys.
* `Wrappers.dfy`: the optional values and results that all of them use.

## What the code does not keep

Some properties the comments suggest hold only under a condition; each has a lemma with the exact
condition, or a run that breaks the property wherever the condition fails.

* A granted lock reply that finds its channel full, or an answer under the lock that does, leaves
  the session's signaling lock taken for good, and nothing else does (`DroppedReplyIsForever`,
  `CanBeFreeIff`). A grant whose negotiator has timed out, whether it has arrived or not, keeps it
  taken until the next negotiation (`CanBeFreeUnaidedIff`). A timed-out wait for an answer, or an
  offer that finds its channel full, lets a later client offer be ignored silently
  (`FaultCanDropOffer`).
* A departed publisher's audio can still be attached by a receiver that had the add queued, or held
  it while waiting for the signaling lock (`DepartureIsFinalIff`), and what its OnTrack publishes only after the cleanup is attached like
  anything else (`LatePublicationArrives`).
* A screen-on that is handled just after the close of its session makes the departed session the
  owner of the screen share, and nobody else can share in that call again (`OwnershipCanEndIff`).
* A second `Stop` strands the first (`SecondStopStrandsFirst`); a session that fails to start stays
  counted (`RunsKeepInv` of `Registry`).
* `Connect` called while the control client reconnects can lead to a send on a closed channel when
  a reconnect callback is set (`ConnectWhileReconnectingCanPanic`).
* The original configuration comes back only when every setting that is not overridden by its own
  whole key is left as it is by the keys that reach it (`RoundTripIff`). A key with something
  behind a setting's own key, through the section behind a pointer, or to a promoted field without
  the name of its embedded section, as `MM_CONTENTFLAGGINGSETTINGS_ENABLECONTENTFLAGGING` is,
  leaves its value in the stored configuration (`OneKeyRoundTripIff`, `PromotedKeyLeaks`).
* A key that reaches a list of other than strings, such as `MM_SQLSETTINGS_REPLICALAGSETTINGS`,
  makes applying panic (`ApplyPanicsIff`, `ForeignKeyPanics`), so no store comes into being
  (`FirstLoadPanicsIff`). A key that names a section behind a pointer makes the removal panic
  (`RemovalPanicsIff`).
* Settings deeper than three names can share a slot of a slice, and then the removal gets wrong
  paths (`PathsAreRightIff`, `FourthNameIsShared`).
* A comparison that fails after the write makes `Set` return an error with the new configuration
  already persisted (`FailedSetChangesNothing`).
* The upload protocol sends no offset. The comment at lms-fe/src/lib/file-upload.ts:226-227 says
  that the server rejects inconsistent offsets; it compares only its own two copies. A chunk that
  is cut short, or whose reply is lost, followed by a re-read of the session that fails or comes
  before the server has written it, corrupts the file, and the client still gets a result
  (`BlindTurnCorrupts`). A lost reply to the last chunk
  makes the upload fail although the file is stored (`LostLastReplyIsFatal`).
* Keys with an underscore before a lower-case letter, the aliases, `constructor`, `__proto__` and
  `_Proto__`, which becomes `__proto__` on the wire, do not survive the trip through snake case
  and back (`KeyRoundTripIff`, `SpecialNames`, `OtherProtoIsLost`).
* A close during an add leaves one increment of the out-track gauge over with no track attached
  (`AddStopped`).
* A pointer can be compared with a plain value of its type, but only when it is on the side of the
  base (`CompareErrsIff`).
* A level switch that finds room in the receiver's queue for its first push but not for its second
  removes the carried track and puts nothing in its place (`SwitchesWhole`).

## Model

| member | source | states |
|---|---|---|
| SignalingLock.TokenConservation | rtcd/client/rtc.go:556-586 | on every timely run, one without an answer timeout and without an offer dropped on a full channel, the lock bit equals the sum of the server worker holding it, grants in flight or in the client's channel, granted negotiators that have not offered, locked offers not answered, unlocks in flight, and grants lost on a full channel |
| SignalingLock.OffersNeverCross | rtcd/service/rtc/session.go:542-582 | on every such run the two sides never both have an offer outstanding, each has at most one, the conflict branch never sees an offer, and neither pion nor the lock rejects a call |
| SignalingLock.NothingIsRejected | rtcd/service/rtc/session.go:542-582 | on such runs both ends take only the signaling transitions that RFC 8829 allows: no offer, answer or unlock is ever rejected |
| SignalingLock.RepliesMatchRequests | rtcd/client/rtc.go:556-586 | on every run the negotiators that wait have their requests or replies under way one for one, but for replies dropped on a full channel and requests of negotiators that gave up |
| SignalingLock.FlowsAreConserved | rtcd/service/rtc/sfu.go:896-946 | on every run each of the eight kinds of message, each state of a negotiator, of an offer and of a track action holds exactly what has come to it and not left it |
| SignalingLock.StepKeeps | rtcd/service/rtc/sfu.go:896-946 | token count, signaling states and the makingOffer flag stay consistent through every step of the client's negotiators and handlers, the lock messages, and the server's two goroutines |
| SignalingLock.DroppedReplyIsForever | rtcd/service/rtc/dc.go:100-115 | after a granted reply, or an answer under the lock, is dropped on a full channel the lock is never free again, nobody on the server acquires it or offers, and the client makes no offer |
| SignalingProgress.CanBeFreeIff | rtcd/service/rtc/dc/lock.go:27-52 | in every state timely runs can reach, some continuation without a fault frees the lock exactly when no granted reply and no answer under the lock has been dropped |
| SignalingProgress.CanBeFreeUnaidedIff | rtcd/client/rtc.go:570-586 | without a new negotiation by the client some continuation frees it exactly when, besides, no grant, arrived or in flight, is without a negotiator that waits or is about to ask again |
| SignalingProgress.GrantCanBeLost | rtcd/service/rtc/dc.go:100-115 | a timely run on which a granted reply is lost |
| SignalingProgress.AnswerCanBeLost | rtcd/service/rtc/session.go:566-570 | a timely run on which an answer under the lock is lost |
| SignalingProgress.GrantCanBeAbandoned | rtcd/client/rtc.go:570-586 | a timely run on which the only negotiator times out and leaves its grant behind |
| SignalingLock.FaultCanDropOffer | rtcd/service/rtc/session.go:460-480 | in every state timely runs can reach, an answer timeout or an offer dropped on a full channel can be followed by a client offer that is silently ignored |
| CloseProtocol.EffectsHappenOnce | rtcd/service/rtc/sfu.go:747-808 | under every interleaving of CloseSession callers closeCh and doneCh are closed at most once, the gauge decremented and the callback run at most once, all by one caller, and the callback only after doneCh |
| CloseProtocol.CloseTerminates | rtcd/service/rtc/session.go:145-209 | once closeCh is closed the negotiation goroutine takes boundedly many steps whatever everybody else does, and where it has none left it has closed doneCh and every blocked closer can go on |
| CloseProtocol.NobodyDeadlocks | rtcd/service/rtc/sfu.go:789-805 | a CloseSession call that has not returned can take a step, or the goroutine it waits for can, also when that goroutine made the call |
| CloseProtocol.MeasureDecreases | rtcd/service/rtc/sfu.go:896-946 | after closeCh every step of the goroutine lowers a measure of program point and queue, and no step of anybody else raises it |
| CloseProtocol.DoneMeansOver | rtcd/service/rtc/session.go:190-209 | once doneCh is closed the ICE goroutine has ended or never ran, and the negotiation goroutine is at its end or inside its own close |
| CloseProtocol.CallbackMeansOver | rtcd/service/rtc/sfu.go:789-808 | so it is when the callback has run, and the session is out of the server and of its call |
| CloseProtocol.CloseHappens | rtcd/service/rtc/sfu.go:747-808 | after one call of CloseSession, by anybody, every run that cannot go on has every caller returned, both goroutines ended and each effect happened once |
| CloseProtocol.WholeLife | rtcd/service/rtc/session.go:145-209 | such a run: an answered offer, a candidate, a full channel of tracks, an action that misses the lock and one that gets it, and a close with tracks still queued |
| CloseProtocol.FailedLife | rtcd/service/rtc/session.go:157-183 | runs on which the session closes itself, because its first offer fails or does not come |
| CloseProtocol.RegisteredIsServed | rtcd/service/rtc/session.go:145-209 | as long as the session is registered its negotiation goroutine has not ended nor begun to |
| CloseProtocol.TracksAreServed | rtcd/service/rtc/sfu.go:896-946 | every track action that found room is queued or was taken, every taken one waits for the lock, had it or gave up, and the lock is held exactly between taking and releasing it |
| CloseProtocol.CandidatesAreServed | rtcd/service/rtc/server.go:246-252 | every ICE candidate that found room is queued or was handled |
| CallRuns.ExactlyOnce | rtcd/service/rtc/sfu.go:444-481 | at every point of every run each initialised receiver has been offered each other session's current voice, screen-audio and plain video track exactly once, and one not initialised nothing |
| CallPublications.PublicationReachesAll | rtcd/service/rtc/sfu.go:444-481 | told by the events alone: from its OnTrack until its publisher leaves, replaces or withdraws it, a publication has been offered once to every other initialised session it is for, joined before or after |
| CallPublications.PublicationIsSwept | rtcd/service/rtc/call.go:130-234 | and when its publisher leaves, nobody carries it any more if it is audio, and its removal is queued or the queue full if it is video |
| CallFanOut.PublishedIff | rtcd/service/rtc/sfu.go:457-481 | OnTrack offers a publication to exactly the initialised others that it suits, audio to all, video in the codec and simulcast level of the receiver, as the next action in their queue where there is room |
| CallFanOut.NothingElseIsOffered | rtcd/service/rtc/sfu.go:599-666 | on every run whatever else than a screen layer a receiver in the call has been offered is another session's, and audio or in the one codec that fits the two |
| CallRuns.AudioAddedOnce | rtcd/service/rtc/session.go:393-424 | an audio track is offered to a receiver at most once, and its queued, held, running and finished adds together are at most one |
| CallRuns.GaugeLedger | rtcd/service/rtc/session.go:430-482 | on every run the out-track gauge is the received tracks of the live sessions, plus their negotiations in flight, plus a never negative rest of the departed ones |
| CallRuns.GaugeIsExact | rtcd/service/rtc/session.go:495-517 | on runs where no session leaves during a negotiation the gauge is the number of received tracks whenever none is in flight |
| CallRuns.ScreenOwnership | rtcd/service/rtc/call.go:75-125 | the owner of the screen share is in the call, or its screen-on was handled after its close; ownership moves only from nobody to a session by its own screen-on and back by its own screen-off or close, and then no other session keeps a screen sender |
| CallRuns.OwnershipCanEndIff | rtcd/service/rtc/call.go:91-125 | over all continuations the ownership can end exactly while the owner is in the call |
| CallRuns.LateOwnerIsReached | rtcd/service/rtc/server.go:253-271 | a run that ends with a departed owner |
| CallRuns.RunsKeepInv | rtcd/service/rtc/sfu.go:811-873 | ledgers, gauge, slots, owner and delivery hold in every reachable state of joins, initialisations, publications, negotiations, screen shares, level switches and closes, also when a departed session still publishes, initialises, negotiates, switches or shares |
| CallInvariants.InitDelivers | rtcd/service/rtc/sfu.go:811-873 | the join-time pass, in any map order, completes what the fan-out has not sent and repeats none of it |
| CallInvariants.PublishDelivered | rtcd/service/rtc/sfu.go:457-481 | a publication reaches every initialised receiver that is meant to have it once and leaves every other delivery as it was |
| CallSessions.WorkOk | rtcd/service/rtc/session.go:393-539 | every step of the track goroutine, taking an action, losing it, and every outcome of addTrack and removeTrack, keeps senders, received tracks, the negotiation in flight and the session's share of the gauge consistent |
| CallNegotiations.Lost | rtcd/service/rtc/sfu.go:906-910 | an action whose wait for the signaling lock times out is dropped, and nothing else changes |
| CallNegotiations.AddStarted | rtcd/service/rtc/session.go:393-432 | an add starts exactly when no sender carries the track and, for a screen, none is set; it attaches the track to a new sender and increments |
| CallNegotiations.RemoveStarted | rtcd/service/rtc/session.go:486-517 | a remove detaches the track it names, forgets it as received and as the screen's, and decrements, exactly when it is carried; otherwise it does nothing |
| CallNegotiations.AddFinished | rtcd/service/rtc/session.go:438-483 | an answered add leaves the track received with its increment, and an answered screen its sender as the screen sender; a failed one leaves neither sender, received track nor increment |
| CallNegotiations.AddStopped | rtcd/service/rtc/session.go:477-482 | an add that the close of its session cuts short leaves one increment over, with no sender attached and the track not received |
| CallNegotiations.FailedAddLeavesNothing | rtcd/service/rtc/session.go:444-449 | on every run an add that fails, whatever happens in the call meanwhile, leaves the track attached nowhere, and the received tracks and the session's share of the gauge as they were before it began |
| CallSessions.GoneWorkOk | rtcd/service/rtc/session.go:486-517 | negotiations that go on after the session has left never decrement more than was incremented |
| CallSessions.SweepExact | rtcd/service/rtc/call.go:206-233 | the sweep detaches exactly the departed session's audio senders, queues a remove for each of its video senders or fills the queue, and touches nothing else |
| CallDeparture.DepartureCleansUp | rtcd/service/rtc/call.go:130-234 | after a close no remaining session carries the departed session's audio, its video has a queued remove or a full queue, other senders are untouched, and a departed sharer leaves no screen sender |
| CallDeparture.ScreenOffCleansUp | rtcd/service/rtc/call.go:91-125 | the end of a share by a sharer in the call withdraws its screen and screen audio and leaves every other session with the remove of its screen track queued, or a full queue, and no screen sender |
| CallDeparture.SilenceLasts | rtcd/service/rtc/call.go:206-233 | a receiver that neither carries what a departed publisher had published, nor has its add queued or held, never carries it again, over all continuations; for a simulcast layer, as long as no switch is under way to it and its publisher does not own the share |
| CallDeparture.DepartureIsFinalIff | rtcd/service/rtc/sfu.go:896-931 | a receiver that does not carry an audio track a departed publisher had published can still come to carry it exactly when its add is queued, or held by the goroutine that waits for the signaling lock |
| CallDeparture.LatePublicationArrives | rtcd/service/rtc/sfu.go:444-481 | audio that a departed session publishes only after the cleanup can come to be carried by every initialised receiver with room in its queue |
| CallDeparture.ComingAddIsReached | rtcd/service/rtc/sfu.go:896-918 | runs on which a publisher leaves while a receiver has its audio queued, and while it holds it |
| CallObject.Call.AddSession | rtcd/service/rtc/call.go:33-67 | adds a fresh session unless the identifier is taken, as Join |
| CallObject.Call.SetScreenSession | rtcd/service/rtc/call.go:75-83 | takes the ownership only when nobody has it |
| CallObject.Call.ClearScreenState | rtcd/service/rtc/call.go:91-125 | refused but by the owner; for any map order clears the owner's tracks, queues a remove for every other screen sender, and ends the ownership if the owner is among the sessions |
| CallObject.Call.OnTrack | rtcd/service/rtc/sfu.go:444-481 | records the publication of a session in the call or just departed and offers it to exactly the receivers Receive admits, in any map order |
| CallObject.Call.FanOut | rtcd/service/rtc/sfu.go:599-666 | the early returns for level and codec leave the receivers that Accepts names |
| CallObject.Call.HandleTracks | rtcd/service/rtc/sfu.go:811-873 | offers the tracks of every other session in the order visited and marks the tracks initialised, also for a session that has just left |
| CallObject.Call.TakeAction | rtcd/service/rtc/sfu.go:896-910 | the next action leaves the queue and is held until the signaling lock is got or has timed out |
| CallObject.Call.StartAction | rtcd/service/rtc/sfu.go:910-935 | the held action: lost, attached with its increment, refused, or detached with its decrement |
| CallObject.Call.FinishAdd | rtcd/service/rtc/session.go:438-483 | an answered add records sender and track, a failed one detaches and decrements |
| CallObject.Call.CloseSession | rtcd/service/rtc/call.go:130-234 | the whole new state of the call after handleSessionClose and the removal |
| Registry.AddKeepsAgreementIff | rtcd/service/rtc/session.go:97-143 | an add, successful or failed, keeps flat map and tree in agreement exactly when it does not succeed with an identifier live in another call |
| Registry.AddSucceedsIff | rtcd/service/rtc/session.go:97-143 | an add succeeds exactly with a complete configuration, a peer connection and an identifier not yet in its call, and is then in both registries and nothing else; the errors come in this order, and what they leave is stated |
| Registry.CloseAgrees | rtcd/service/rtc/sfu.go:747-793 | a close keeps the agreement, prunes empty calls and groups, and none of its three not-found errors can occur |
| Registry.CloseFailsIff | rtcd/service/rtc/sfu.go:747-793 | in any state a close reports something not found exactly when the tree has not what the flat map has, and leaves the tree then; otherwise that session alone leaves it |
| Registry.RunsKeepInv | rtcd/service/rtc/sfu.go:221-228 | in every reachable state the registries agree, nothing is empty, a pending drain has a live session, no drain channel was closed twice, and the session gauge is off by the failed starts only |
| Registry.ChannelClosedIff | rtcd/service/rtc/sfu.go:752-756 | a drain channel is closed by the close of the last live session and by nothing else |
| Registry.DrainedIffEmptied | rtcd/service/rtc/server.go:172-186 | without a later Stop, the channel a Stop waits on is closed exactly when the server has been without sessions since |
| Registry.SecondStopStrandsFirst | rtcd/service/rtc/server.go:174-187 | a Stop during a drain replaces the channel of the first, which is then never closed |
| Registry.SecondStopIsReached | rtcd/service/rtc/server.go:172-187 | a run to a Stop during a drain |
| Registry.Server.AddSession | rtcd/service/rtc/session.go:97-143 | the lookups that create group and call on the way compute Add, with its errors |
| Registry.Server.CloseSession | rtcd/service/rtc/sfu.go:747-793 | computes Close: unlisting, drain, gauge, pruning |
| ControlClient.RunsKeepInv | rtcd/service/client.go:214-260 | at every point of every interleaving with an orderly user only the newest reader is at work, and the channels are closed by Close or by one reader, never both |
| ControlClient.ChannelsAreSafe | rtcd/service/client.go:301-340 | receiveCh and errorCh are closed at most once and never sent to afterwards |
| ControlClient.PanicsAreCounted | rtcd/service/client.go:328-340 | the counter that ChannelsAreSafe keeps at zero counts exactly the sends on a closed channel and the second closes, on every run |
| ControlClient.WaitIsBounded | rtcd/service/client.go:372-381 | the reconnect wait is the attempts times the interval below the maximum and always less than the maximum plus one interval |
| ControlClient.CloseRefusedIff | rtcd/service/client.go:301-320 | Close is refused exactly when the client is closed, never connected or reconnecting; once accepted no reader reconnects |
| ControlClient.CloseFinishes | rtcd/service/client.go:301-326 | once Close is accepted the goroutines take boundedly many more steps, whatever the user does and whatever arrives, and when none is left Close has returned with both channels closed once |
| ControlClient.ConnectWhileReconnectingCanPanic | rtcd/service/client.go:383-401 | with a callback, from every state asleep before a reconnect a user's Connect can be followed by a send on the closed receive channel |
| ControlClient.ReconnectingIsReached | rtcd/service/client.go:240-250 | an orderly run to a client asleep before its first reconnect |
| ControlClient.QuietRunsAreSafe | rtcd/service/client.go:301-326 | without a callback the channels are safe on every run, whenever the user connects |
| ControlClientObject.Client.Connect | rtcd/service/client.go:214-260 | the refusals in their order, or a new connection with its two goroutines |
| ControlClientObject.Client.StartClosing | rtcd/service/client.go:301-320 | Close under the mutex: refused without a change, or the client closed and disconnected |
| ControlClientObject.Client.AfterReading | rtcd/service/client.go:240-250 | a reader whose connection ended disconnects the client and reconnects, unless Close came first |
| ControlClientObject.Client.ReconnectHandler | rtcd/service/client.go:372-401 | undisturbed, the loop takes exactly the steps of its reader and ends connected or with both channels closed, by the first attempt whose callback fails or whose dial succeeds |
| RateMonitoring.FreezesAtFirstFill | rtcd/service/rtc/rate.go:46-56 | the buffer stops growing at the first push at which it spans twice the sampling size |
| RateMonitoring.StaysFrozen | rtcd/service/rtc/rate.go:58-59 | no further pushes change the number of slots |
| RateMonitoring.RateMonitor.PushSample | rtcd/service/rtc/rate.go:42-60 | push k of the last pushes sits in slot k modulo the number of slots, before and after freezing |
| RateMonitoring.RateMonitor.GetSamplesDuration | rtcd/service/rtc/rate.go:62-78 | newest minus oldest sample kept, zero without samples |
| RateMonitoring.RateMonitor.GetRate | rtcd/service/rtc/rate.go:80-105 | the rounded bits per second of exactly the shortest run of newest pushes at least the sampling size old, or of all kept when none is; -1 and 0 until filled |
| RateMonitoring.RateGivesBits | rtcd/service/rtc/rate.go:102-104 | times the duration the rate gives the bits back, up to half a bit for every second |
| RateMonitoring.RoundedIsNear | rtcd/service/rtc/rate.go:102 | the rounding is to the nearest, halves away from zero |
| RateMonitoring.RateStartExists | rtcd/service/rtc/rate.go:89-99 | every nonempty buffer has a shortest such run |
| RateMonitoring.RateStartIsUnique | rtcd/service/rtc/rate.go:89-99 | that run is unique |
| RateMonitoring.RateCoversWindowIff | rtcd/service/rtc/rate.go:89-102 | the duration reaches the sampling size iff the oldest sample kept is that old, and is zero iff all kept were pushed at this instant |
| Simulcast.SwitchesAreSpaced | rtcd/service/rtc/simulcast.go:76-134 | over any run the backoff is the initial one grown by half per switch, and a switch earlier than its backoff was made at the high level after both estimates dropped |
| Simulcast.SwitchesIff | rtcd/service/rtc/simulcast.go:80-134 | the handler switches exactly when the backoff is over, or both estimates dropped at the high level, and the estimates ask for it and the queue has room; then it has the other level and its rate, otherwise it only remembers the estimates |
| Simulcast.LevelsAlternate | rtcd/service/rtc/simulcast.go:105-134 | while the receiver carries the level last switched to, the levels alternate from the low one |
| Simulcast.FlippingSlowsDown | rtcd/service/rtc/simulcast.go:105-134 | k exits from the low level after the first switch take at least the sum of the first k backoffs |
| Simulcast.WaitsGrowByHalf | rtcd/service/rtc/simulcast.go:114-117 | each backoff is one and a half of the one before to the nanosecond, and their sum nearly twice the next |
| Simulcast.SwitchesWhole | rtcd/service/rtc/simulcast.go:152-257 | a switch is made exactly when the estimates ask for it, the other layer is there and the queue takes both halves; it queues remove then add, and without room for the second a lone remove is queued and no switch reported |
| Simulcast.CallSwitchesAsDecided | rtcd/service/rtc/simulcast.go:235-257 | the two switch steps of the call model queue exactly what the decision says, whatever others do to the queue in between |
| Simulcast.Estimator.RateChanged | rtcd/service/rtc/simulcast.go:80-134 | the handler computes Handle and pushes what Decide says |
| ConfigEnvironment.ApplyWritesReached | server/config/environment.go:26-84 | applying a key writes the one setting it reaches, promoted fields included, and nothing else, or panics at a list of other than strings |
| ConfigEnvironment.ApplyPanicsIff | server/config/environment.go:26-95 | applying the environment panics exactly when some key reaches a list of other than strings, and otherwise keeps every field, kind and nil pointer |
| ConfigEnvironment.AppliedIsFold | server/config/environment.go:26-95 | every setting comes out as the keys that reach it make it, in the order visited |
| ConfigEnvironment.KeySets | server/config/environment.go:49-84 | a key that reaches a setting which is no nil pointer sets it to the text, the parsed flag or number, the split words or the decoded map, and leaves it where the parser refuses |
| ConfigEnvironment.LastOneWins | server/config/environment.go:86-95 | of several variables that reach one setting the last visited whose text parses decides |
| ConfigEnvironment.FindIff | server/config/environment.go:31-35 | a part of a key finds the one field that matches at the shallowest depth of embedding with any match, and nothing where several do |
| ConfigEnvironment.UpperIff | server/config/environment.go:31-35 | two field names answer to the same part of a key exactly when they are the same but for the case of ASCII letters |
| ConfigEnvironment.KeyIsUpper | server/config/environment.go:120-122 | the key that spells out a setting has no lower-case letter |
| ConfigEnvironment.GenerateListsIff | server/config/environment.go:104-131 | the overrides list exactly the settings, and pointers to sections, whose whole key is in the environment |
| ConfigEnvironment.NoEmptySections | server/config/environment.go:115-131 | no section is listed in which nothing is overridden |
| ConfigEnvironment.GeneratedPaths | server/config/environment.go:152-167 | getPaths enumerates exactly those paths |
| ConfigEnvironment.TraversalsAgree | server/config/environment.go:26-38 | with clean field names the key the concatenating traversal makes for a setting takes the splitting traversal to that setting |
| ConfigEnvironment.RoundTrip | server/config/environment.go:86-147 | when keys spell settings through plain sections, removing the overrides after applying them without a panic gives the original back, whatever the values and the map orders |
| ConfigEnvironment.RoundTripIff | server/config/environment.go:133-147 | for any environment that is applied without a panic, and any map orders, the original comes back exactly when every setting not overridden by its own whole key is left as it is by the keys that reach it |
| ConfigEnvironment.OneKeyRoundTripIff | server/config/environment.go:26-47 | one variable survives the round trip exactly when it reaches nothing, spells its setting, or sets what was there |
| ConfigEnvironment.PromotedKeyLeaks | server/config/environment.go:31-35 | the key of a promoted field without the name of its embedded section is applied, never listed, and stays in the stored configuration |
| ConfigEnvironment.ForeignKeyPanics | server/config/environment.go:71-76 | a configuration with a list of other than strings and the variable that spells it out through a plain section: applying panics |
| ConfigEnvironment.WalkPanicsIff | server/config/environment.go:169-195 | of the paths that can be listed, the walk panics exactly on those that end at a section behind a pointer |
| ConfigEnvironment.WalkFindsPromoted | server/config/environment.go:183-188 | the walk finds a promoted field by its very name |
| ConfigEnvironment.RemovalPanicsIff | server/config/environment.go:169-195 | the removal meets a path on which the walk panics exactly when a variable names a section behind a pointer |
| ConfigEnvironment.SectionKeyPanics | server/config/environment.go:169-195 | for instance every configuration with such a section and a variable of its name |
| ConfigEnvironment.ApplyEnvironment | server/config/environment.go:86-95 | the loop applies every variable in the order visited, or panics with the first that does |
| ConfigEnvironment.RemoveOverrides | server/config/environment.go:136-147 | panics exactly when the walk does on a listed path; otherwise every listed setting gets the stored value, every other keeps its own |
| PathSlices.PathsAreRightIff | server/config/environment.go:156-167 | at any depth and in any order of the walk, the slices built by append read as the paths meant exactly when no name goes into a slot that a setting still uses |
| PathSlices.ApartIsSafe | server/config/environment.go:156-167 | so whatever the order, when no two listed settings share their first three names |
| PathSlices.ShallowIsSafe | server/config/environment.go:156-167 | in particular for every environment when the configuration is at most three names deep |
| PathSlices.FieldOrderWalks | server/config/environment.go:104-131 | for instance the generated map walked in the order of the fields is such a walk |
| PathSlices.SafePathsAreListed | server/config/environment.go:152-167 | the slices of a safe walk list exactly the settings and pointer sections whose whole key is set |
| PathSlices.ApplyAndRemove | server/config/environment.go:86-195 | the whole way for safe walks: apply, collect the paths in slices, remove; panics exactly when a variable reaches a list of other than strings or names a section behind a pointer, and otherwise gives the configuration back exactly when RoundTripIff says so |
| PathSlices.FourthNameIsShared | server/config/environment.go:160-162 | two settings under three names share the slot of the fourth, and both paths name the second |
| ConfigStore.FailedSetChangesNothing | server/config/store.go:165-217 | Set succeeds exactly when the store is writable, the configuration valid, the write accepted and the comparison possible; a failed one changes nothing, except that a failed comparison comes after the write |
| ConfigStore.SetPersists | server/config/store.go:184-212 | whatever Set writes, an overridden setting is persisted with its old value without the environment, every other one with the value about to be used |
| ConfigStore.SetStores | server/config/store.go:184-227 | after a successful Set an overridden setting is stored with its old value without the environment, every other one with the value in use |
| ConfigStore.SetUses | server/config/store.go:173-190 | a successful Set puts into use the input with its defaults, desanitized by what was in use, every setting as the environment makes it, then fixed |
| ConfigStore.EnvironmentRules | server/config/store.go:184-187 | over any run of Sets, whatever is set, a setting in use that fixing leaves alone has the value of the variable that decides it |
| ConfigStore.OverriddenStaysAsLoaded | server/config/store.go:193-194 | over any run of Sets an overridden setting keeps the value it had when loaded |
| ConfigStore.OverridesAreNotPersisted | server/config/store.go:210-212 | no Set in any run, successful or failing after its write, persists an environment value of a listed setting |
| ConfigStore.AgreeFromFirstSet | server/config/store.go:184-227 | from the first successful Set on, the configurations with and without the environment agree on every setting that is neither overridden nor a feature flag |
| ConfigStore.LoadStores | server/config/store.go:282-332 | a failed Load changes nothing, and a Load writes nothing but what it loaded without the environment, and nothing at all to a read-only store |
| ConfigStore.LoadUses | server/config/store.go:282-300 | a successful Load puts into use what it loaded with the environment, fixed |
| ConfigStore.FirstLoadUses | server/config/store.go:282-300 | so does the first |
| ConfigStore.LoadFollows | server/config/store.go:288-290 | after a Load a setting that fixing leaves alone has the value of the variable that decides it |
| ConfigStore.LoadWritesIff | server/config/store.go:292-326 | Load fails exactly on an invalid or incomparable configuration or when a write that is due fails; it writes exactly when the store and the configuration can be written and nothing was stored or some setting in use changes, read-only flags aside |
| ConfigStore.FirstLoadWritesIff | server/config/store.go:67-81 | when the first Load makes a store, and what it has written |
| ConfigStore.FirstLoadPanicsIff | server/config/store.go:241-300 | the first Load panics, and no store comes into being, exactly when a variable reaches a list of other than strings |
| ConfigStore.FlagsStay | server/config/store.go:200-224 | while they are read-only no run of Sets changes the feature flags, with or without the environment |
| ConfigStore.FlagsAreNotPersisted | server/config/store.go:196-212 | nor does any of them write the flags |
| ConfigStore.Store.SetConfig | server/config/store.go:165-238 | the method computes Set and keeps the schema |
| ConfigStore.Store.New | server/config/store.go:67-81 | a new store is the result of its first Load, or none |
| ConfigStore.Store.LoadConfig | server/config/store.go:241-343 | the method computes Load: what is used, kept without the environment and written back |
| ConfigDiff.DiffIsThePatch | server/config/diff.go:149-156 | on one schema Diff never errs, is empty iff the configurations are equal, is the patch from one to the other, and repeats no path |
| ConfigDiff.CompareIsEdits | server/config/diff.go:91-147 | the recursion with growing labels yields the edits under their dotted paths |
| ConfigDiff.CompareErrsIff | server/config/diff.go:91-147 | on any two values the comparison errs exactly when neither is all default and the base is neither of the other's type nor a pointer to it; the error about the number of fields never comes |
| ConfigDiff.ZeroIsDefault | server/config/diff.go:94-103 | the zero test holds of exactly the value of the type with nothing set, at every depth |
| ConfigDiff.EditsAreDeep | server/config/diff.go:94-136 | a struct is reported whole exactly where one side is all default, and setting by setting otherwise |
| ConfigDiff.PatchGivesActual | server/config/diff.go:91-147 | writing every actual value at its path into the base gives the actual configuration |
| ConfigDiff.EditsAreTrue | server/config/diff.go:98-144 | every entry carries the two values found at its path, they differ, and no path lies inside another |
| ConfigDiff.SwapSwaps | server/config/diff.go:91-147 | swapping the arguments swaps the sides of every entry |
| ConfigDiff.DottedIsInjective | server/config/diff.go:126-129 | a dotted path stands for one sequence of names |
| RateLimiting.RejectedIffWindowFull | lms-fe/src/lib/rate-limit.ts:61-73 | a request is rejected exactly when maxRequests accepted ones lie in the last window |
| RateLimiting.RunsAreLegal | lms-fe/src/lib/rate-limit.ts:47-87 | whatever the requests, any maxRequests + 1 accepted ones span at least the window |
| RateLimiting.ResetAtIsExact | lms-fe/src/lib/rate-limit.ts:64-73 | after a rejection requests fail before resetAt and succeed from resetAt on |
| RateLimiting.AcceptedResetsAt | lms-fe/src/lib/rate-limit.ts:75-86 | after an accepted request resetAt is exactly when the first of the requests in the window leaves it, and those requests and `remaining` add up to maxRequests |
| RateLimiting.HammeringIsFutile | lms-fe/src/lib/rate-limit.ts:64-73 | requests before resetAt leave nothing behind |
| RateLimiting.RemainingIsExact | lms-fe/src/lib/rate-limit.ts:75-86 | `remaining` is the number of further requests that succeed at once |
| RateLimiting.LongerWindowsAreForgotten | lms-fe/src/lib/rate-limit.ts:15-27 | for every window over 15 minutes the cleaner can lift a limit too early |
| RateLimiting.Limiter.RateLimit | lms-fe/src/lib/rate-limit.ts:47-87 | the answer from what is kept is the one the key's whole history gives |
| RateLimiting.Limiter.Clean | lms-fe/src/lib/rate-limit.ts:17-26 | the cleaner keeps every future answer, and what it keeps is stated |
| RateLimiting.Limiter.Reset | lms-fe/src/lib/rate-limit.ts:92-94 | forgets the key's history |
| Upload.TurnKeepsAlignedIff | lms-fe/src/lib/file-upload.ts:256-284 | from an aligned state the chunk starts at the server's offset, and the turn keeps the alignment exactly when it is not blind: a chunk cut short or whose reply is lost, followed by a re-read that fails or comes before the server has written it |
| Upload.ResultMeansStored | lms-fe/src/lib/file-upload.ts:256-288 | on runs without such a turn a result means the server has exactly the file |
| Upload.ResumesAfterFailures | lms-fe/src/lib/file-upload.ts:256-284 | over a network that lets one of any three chunks through and the offset be re-read, every upload ends with the whole file stored from any aligned state, and with a result when no reply is lost |
| Upload.BlindTurnCorrupts | lms-fe/src/lib/file-upload.ts:275-282 | one such turn can end in a result for a file the server has not |
| Upload.LostLastReplyIsFatal | lms-fe/src/lib/file-upload.ts:266-282 | a lost reply to the last chunk ends the upload without a result, with the file stored |
| Upload.UploadViaSession | lms-fe/src/lib/file-upload.ts:244-288 | the loop ends on every network, computes Run, and is right when no turn is blind |
| Upload.TurnStores | server/channels/app/upload.go:236-300 | what arrives of a chunk is appended exactly when the session is open, the chunk fits and a beginning is long enough or the whole file; the session is finished exactly by what fills it, unless making the file fails |
| Upload.Server.Upload | server/channels/app/upload.go:246-294 | the server appends what arrives at its own offset, drops a short beginning and refuses a chunk beyond the end |
| KeyCase.CamelRoundTripIff | lms-fe/src/lib/api.ts:80-86 | snake case and back is the identity exactly on keys with no underscore before a lower-case letter |
| KeyCase.SnakeRoundTripIff | lms-fe/src/lib/api.ts:80-86 | camel case and back is the identity exactly on keys without a capital |
| KeyCase.SnakeFixedIff | lms-fe/src/lib/api.ts:80-82 | a key is left alone exactly when it has no capital; translating twice is translating once |
| KeyCase.CamelIsPlainIff | lms-fe/src/lib/api.ts:129-133 | toCamel maps a key as plain snake case exactly when it is no alias and no name that a plain object inherits |
| KeyCase.KeyRoundTripIff | lms-fe/src/lib/api.ts:96-133 | with aliases, inherited names and the prototype accessor, exactly which keys survive the trip to the wire and back |
| KeyCase.SpecialNames | lms-fe/src/lib/api.ts:96-133 | the keys whose snake case is an alias, `constructor` or `__proto__` are these names themselves and `_Proto__` |
| KeyCase.TreeRoundTripIff | lms-fe/src/lib/api.ts:110-138 | a whole tree survives exactly when all its keys do; no siblings merge |
| KeyCase.OtherProtoIsLost | lms-fe/src/lib/api.ts:119-126 | a member `_Proto__` sets a prototype or does nothing, and is lost on the wire |
| KeyCase.SnakeTreeFixedIff | lms-fe/src/lib/query.ts:21-24 | a tree reaches the wire verbatim exactly when no key in it has a capital and none is `__proto__` |
| KeyCase.SnakeTreeIdempotentIff | lms-fe/src/lib/api.ts:135-138 | translating a tree to snake case twice is translating it once exactly when the first translation leaves no member `__proto__` |
| KeyCase.AccessorIsLeftIff | lms-fe/src/lib/api.ts:119-126 | a translated object has a member `__proto__` exactly when two of its keys become that name and the first leads, through members of that name alone, to a null |
| KeyCase.NullMakesProtoAMember | lms-fe/src/lib/api.ts:119-126 | such a member is left after a null has cut the result off its prototype, and the second translation loses it |

## Left out

- SignalingLock.TokenConservation: excludes runs in which the server's wait for an answer times out or its offer is dropped on a full channel; the effect of both is `FaultCanDropOffer`. Calls into pion do not fail, and neither do the client's own sends; a local description is set and sent in one step; the data channel opens after the first answer.
- SignalingLock.OffersNeverCross: the same exclusion.
- SignalingProgress.CanBeFreeIff: says what some continuation can do, not what every fair one does.
- CloseProtocol.CloseTerminates: after the session has left the call other goroutines push a finite number of further track actions and candidates; calls into pion return.
- CloseProtocol.DoneMeansOver: speaks of the negotiation and the ICE goroutine; the one that answers later offers is not joined by the code and not part of this model.
- CallRuns.ExactlyOnce: does not cover simulcast layers, since the level a receiver expects may change between the arrival of two layers of one source.
- CallRuns.GaugeIsExact: excludes runs in which a session leaves during a negotiation, where addTrack returns without its decrement; `GaugeLedger` covers those.
- CallDeparture.DepartureCleansUp: covers the publications current at the close; a track the session had replaced before is not cleaned up by the code either.
- ControlClient.RunsKeepInv: the user does not connect while the client reconnects, and the reconnect callback does not itself connect or close.
- ConfigEnvironment.RoundTrip: keys spell whole settings through plain sections; what other keys do is `RoundTripIff`.
- PathSlices.ApplyAndRemove: for walks that are not safe only the wrong paths are characterised, not what the removal makes of them.
- ConfigStore.SetStores: the library functions keep the schema, no variable names a section behind a pointer or reaches a list of other than strings (with the latter there is no store, `FirstLoadPanicsIff`); Load promises nothing about settings that fixing changes differently with and without the environment.
- ConfigEnvironment.ApplyPanicsIff: settings of named string, boolean or number types, unexported fields and nil embedded pointers, none of which the server's configuration has.
- ConfigDiff.DiffIsThePatch: both sides have one type; on two types only the error is characterised, by `CompareErrsIff`.
- Simulcast.FlippingSlowsDown: the backoff is unbounded, where the original's 64-bit duration would overflow after about fifty switches; the thresholds are arbitrary functions of the source rate, and neither the limiter in front of the handler nor the target bitrate it gives the estimator on an upgrade is modelled.
- RateMonitoring.RateMonitor.GetRate: the quotient is one of reals, where the original divides 64-bit floats before rounding; None stands for the conversion of an infinite or undefined one.
- RateLimiting.Limiter.RateLimit: each key is used with one window of at most 15 minutes, and the clock never goes back.
- Upload.ResultMeansStored: excludes blind turns; `TurnKeepsAlignedIff` and `BlindTurnCorrupts` are about those.
- Upload.Server.Upload: the server's stores and its file backend do not fail on their own; only finishing a stored upload may.
- The signaling lock and the close protocol are transition systems, not classes, because their steps interleave between the statements of one method.
- Sessions of a call are values in its map, so aliasing of session pointers is not modelled; adding a track appends a sender, where pion may reuse a stopped one, and replacing a track by none does not fail.
- A sender that mixes simulcast and plain tracks of one codec.
- The registries' operations are atomic; the original releases the server's lock between the group and the session map.
- Two concurrent uploads of one session, the multipart upload of small files, progress callbacks and the channel cache.
- The value conversions beside the key translation.
- The filter of the generated environment map, change listeners, and replacing sensitive values in a difference.
- Floating-point fields of the configuration, and lists and maps of anything but strings, in the difference.
- Media, SDP, ICE, STUN and TURN, packet forwarding, RTCP, voice activity, encodings, HTTP handlers and user interface.
