# Verification of the iMessage client's event delivery

A Dafny model of the parts of the Go client where correctness is a matter of protocol, interleaving
or wrap-around arithmetic, and proofs of what they promise. `dafny verify dfyconfig.toml` checks all
of it.

## What is modelled

**The resumable message engine** (`resumable.go`). `Resumable` is a step machine of the whole system:
the `run` goroutine at the granularity of single sends, cursor assignments and Saves; the consumer's
range loop; the store; the parent context; and the server's append-only log, which grows at any time.
A crash followed by a new process on the same store and server is one more step. The server is
trusted only in two named ways:

- A1 (`Resumable.CompletionHonest`): a catch-up asked with a cursor completes only after replaying
  every record past it up to the reported head;
- A2 (`Resumable.LiveFaithful`): the live feed carries every matching record in order, from the first
  one past the head the catch-up reported.

Everything that does not need A2 is proved with the weaker assumption built into the machine (A2-weak):
the live feed carries only message records past the cursor, perhaps skipping some. Exactly-once
delivery is proved as an equivalence, so that A2 is seen to be what guarantees it, and a concrete run
shows a lost record without it.

`ResumableEngine` is the engine as the source writes it: an object whose methods update its fields
step by step, loop over streams, block in sends and sleep. Each update is shown to be one step of
the machine, so `Run` inherits everything proved about the machine's runs.

`ResumableAnswers` is an independent reference for what the engine makes of its streams: a fold over
what they answered, with no program counter, channel or interleaving. The receives record each answer
before the engine can react to it, and an update that takes one up must take up that one. So an engine
that stops reading early, passes an event over or sleeps when nothing was lost meets no contract:
deliveries, cursor, Saves and timers are those the reference derives from the answers.

**The single-consumer subscription** (`internal/transport/stream.go`). `Subscription` is an
interleaving machine over the pump, any number of concurrent `Events` and `Close` calls, the unbuffered
channel, the `done` channel, the derived context, the consumed flag, the once and the error cell;
frames, mapper and error type are arbitrary. `SubscriptionObject` is the imperative form, run by one
goroutine while the others interfere everywhere; what open and each Receive answered is recorded, and
the frames, the ending and Err are stated in terms of that record. `Pipeline` composes two instances, the stream's and
the engine's channel, with the engine's loop bodies between them, and `Feeds` ties the frames on
the wire back to the log, over any number of streams.

**The unary interceptor stack** (`interceptor.go`, `dial.go`). The chain `Dial` builds is run over a
request object whose headers the interceptors set. Token source, key generator, clock, server, random
source and timers are one `World` that answers as it likes and itself records what it was asked and
answered; the contracts speak of that record. `RetryDelay`
is the int64 shift with its guard.

**Smaller parts**: the two event mappers (`Events`), error classification over wrap trees
(`ErrorChains`), sorting into a documented order (`Ordering`, `Canonical`), chat GUIDs (`ChatGuid`).
Automatic induction is switched off throughout, so that every inductive proof is written out.

## Where the documentation and the code differ

The code is followed; each point is a theorem.

- The store is documented as holding the last fully processed sequence (resumable.go:12-13). The engine
  saves without waiting for the loop body (resumable.go:158-175). It holds finished events only, at every
  point of a run, exactly when no Save, of an event or of a head, succeeds while the body is running
  (`ResumableRuns.StoreFinishedExactlyWhen`); `ResumableRuns.SavedBeforeProcessed` and
  `ResumableRuns.HeadSavedBeforeProcessed` are runs in which one does. Even then it is ahead by one event
  at most (`ResumableRuns.StoreAheadByAtMostOne`), which bounds what a crash can cost
  (`ResumableRuns.StoreCoversLog`).
- `MinBackoff` and `MaxBackoff` are documented as bounds on the reconnect backoff. The first sleep is
  not capped, and a maximum of 2^62 ns or more lets the doubling wrap to a negative duration: the
  sleeps are the promised ones exactly when min <= max < 2^62 (`Backoff.DoublingExactlyWhen`).
- The retry delay is documented as `initialDelay*2^attempt` capped (interceptor.go:133-134).
  `RetryDelay.ExactlyWhen` says for which settings and attempts it is, over everything the options accept.
  An initial delay of zero, documented as no delay, waits the whole cap at every attempt, because the
  guard against overflow takes it for one (`RetryDelay.ZeroDelayWaitsTheCap`); so does a negative one,
  unless the shift wraps to a positive value. For a positive one the guard misses shifts that wrap to a
  small positive value; settings with `InitialDelay*MaxDelay` at most 2^64, the defaults among them, never
  meet such a shift. Whatever the settings, no wait exceeds a cap that is not negative.
- Reactions, stickers and votes are documented as being in a deterministic order. The sort is not
  stable, and two entries with equal keys and different contents come out in either order
  (`Canonical.TiedVotesHaveTwoOrders`); the order is canonical exactly when there are none
  (`Canonical.ReactionsCanonical` and its siblings).
- A joined error can be in a public category before `asError` and not after it
  (`ErrorChains.JoinLosesCategory`); `ErrorChains.CategoryKeptExactlyWhen` says exactly for which errors.

## Model

| member | source | states |
|---|---|---|
| ResumableExact.ExactlyOnceIff | resumable.go:103-203 | over every run from start-up with any disconnects, failed catch-ups, failed Saves, cancellations and crashes, every process has handed over exactly the log's relevant records between its start and what it reached, as a sequence, if and only if no hand-over skipped a relevant record or carried another |
| ResumableExact.ExactlyOnce | resumable.go:43-48 | under A1 and A2 delivery is exactly once within each process, and at every loop head what was delivered is the relevant log between the loaded cursor and the cursor |
| ResumableExact.FaithfulTakesNext | events.go:138-143 | the documented live feed makes every hand-over of a run take the first relevant record past the cursor |
| ResumableExact.ExactStep | resumable.go:152-203 | one step keeps exactness of all processes if and only if it is not a hand-over out of turn; a gap never heals |
| ResumableExact.ExactHandOver | resumable.go:164-175 | a hand-over keeps the delivered sequence equal to the reference exactly when it was equal and the record is the next relevant one |
| ResumableExact.CompletionCrossesNothing | resumable.go:158-163 | a reported head, before or past the cursor, never moves the cursor back, and moves it over records the consumer is not owed only |
| EventLog.BetweenSplit | resumable.go:43-48 | the reference for what a cursor range owes is additive at any cursor in between |
| EventLog.BetweenComplete | resumable.go:43-48 | the reference contains every relevant record of its range |
| EventLog.BetweenSound | resumable.go:43-48 | the reference contains relevant records of its range only |
| EventLog.BetweenAscending | resumable.go:43-48 | the reference is in strictly increasing sequence order within its range |
| ResumableRestart.NothingLost | resumable.go:107-117 | no loss across restarts: with arbitrary crashes and Save failures, every relevant record past the first stored cursor and at most what the n-th process reached was handed over by one of the first n; the cursor and the store never pass what was reached |
| ResumableRestart.DeliveriesConserved | resumable.go:205-212 | conservation: as a multiset, everything ever handed over is the relevant log once plus, for each restart, exactly the relevant records between the store left behind and what that process had reached |
| ResumableRestart.OneRepeatPerCrash | resumable.go:169-175 | when every issued Save succeeds, each crash repeats at most one event, so extra deliveries number at most the restarts |
| ResumableRestart.RunsAreChains | resumable.go:107-117 | the processes of a run form a chain, each starting from what the store held and delivering exactly its part of the log |
| ResumableRestart.ChainConserves | resumable.go:192-200 | conservation along any such chain, by induction over the processes |
| ResumableRestart.ChainLosesNothing | resumable.go:107-117 | a chain has handed over every relevant record up to what it reached |
| ResumableRuns.OrderWithoutFaithfulFeed | resumable.go:152-203 | with A1 and A2-weak only, the sequences handed over by one process strictly increase across all phases, stay within what it reached, and the values passed to Save never decrease |
| ResumableRuns.NeverGoesBack | resumable.go:152-212 | along every run the store never decreases, not even over crashes; within a process cursor, deliveries and Saves only grow and Err never changes once set |
| ResumableRuns.PhasesAndEndings | resumable.go:103-148 | wherever the engine is in its live loop, it came from a completed catch-up whose head the cursor has reached; run ends only by cancellation or a failed Load; no server failure reaches Err; after the end every event handed over has had its Save issued |
| ResumableRuns.StoreAheadByAtMostOne | resumable.go:158-175 | whatever was saved, a head or an event, every event handed over at or below the store has had its loop body return, except possibly the last one while its body is running |
| ResumableRuns.StoreFinishedExactlyWhen | resumable.go:12-13 | at every point of a run everything handed over at or below the store has had its loop body return, if and only if no Save of an event or a head succeeds while a body is running |
| ResumableRuns.FinishedStep | resumable.go:158-175 | the only step after which the store is ahead of the finished events is a Save that succeeds while the body is running |
| ResumableRuns.StoreCoversLog | resumable.go:12-13 | under A1 and A2 every relevant log record past the start and at or below the store has been handed over and its body has returned, except possibly the last one while its body is running |
| ResumableRuns.BackoffAlongRuns | resumable.go:119-147 | along every run the backoff is min(min*2^k, max) for the k-th sleep since the last completed catch-up and lies in [min, max] |
| ResumableRuns.DefaultBackoff | resumable.go:34-37 | with the documented defaults the sleeps are min(500ms*2^k, 30s) |
| ResumableAnswers.EngineFollows | resumable.go:152-212 | the engine refines the reference: along every run of one process, whatever log, consumer and surrounding program do, deliveries, cursor and Saves are those of the fold over what its streams answered, but for the answer in hand |
| ResumableAnswers.NapIsDoubling | resumable.go:24-32 | with sane bounds the nap the answers call for after a lost stream is min(min*2^k, max), k being the streams lost before it since a catch-up last completed; the first after a completion is the minimum |
| ResumableAnswers.MovedSince | resumable.go:152-203 | what a loop over a stream leaves behind is what the reference makes of the answers to it, but for a record given up |
| ResumableRuns.GapWithoutFaithfulFeed | messages.go:354-362 | A2 is needed: the Subscribe request carries no sequence, and a feed that may skip records admits a run of one process that loses a relevant record below its cursor and store |
| ResumableRuns.SavedBeforeProcessed | resumable.go:12-13 | a run in which an event is in the store while its loop body still runs, so that a crash then starts past it |
| ResumableRuns.HeadSavedBeforeProcessed | resumable.go:158-163 | a run in which the Save of an event fails and the Save of a later head passes it while its loop body still runs |
| ResumableEngine.ResumableMessages.constructor | resumable.go:34-75 | a new engine holds the given chat and store, a backoff that is not positive is 500ms or 30s, and nothing has been read, delivered, saved or slept |
| ResumableEngine.ResumableMessages.Run | resumable.go:103-148 | run as written, in any environment: it has delivered, saved and reached what the reference makes of everything its streams answered, but for a record it was cancelled with, and slept once per lost stream, but perhaps the last, for what the reference calls for; it ends by cancellation or a failed Load, no server failure in Err, every delivered event's Save issued, in order, and exactly the relevant log when the live feed was faithful |
| ResumableEngine.ResumableMessages.ReconnectLoop | resumable.go:119-147 | the loop is a run of the step machine, ends only stopped by cancellation, and its timers are those the answers call for |
| ResumableEngine.ResumableMessages.CatchUp | resumable.go:152-185 | the stream is read until it says something other than a record, or a send is cancelled; nil exactly when the last answer was a completion, an error exactly when it was the stream's end or a send was cancelled; deliveries, cursor and Saves move by what the reference makes of those answers, but for a record given up |
| ResumableEngine.ResumableMessages.ReadCatchUp | resumable.go:156-184 | the loop over a catch-up stream ends on the first answer that is not a record or on a record given up, and fails unless that answer was a completion |
| ResumableEngine.ResumableMessages.CatchUpFrame | resumable.go:157-179 | completion ends the catch-up with the cursor moved up to the head, another family's event is passed over, a message is dealt with before the next position |
| ResumableEngine.ResumableMessages.CatchUpMessage | resumable.go:164-175 | another chat's event changes neither deliveries nor cursor nor Saves; a matching one is delivered, becomes the cursor and has its Save issued, or nothing happens because the context was done first |
| ResumableEngine.ResumableMessages.FinishCatchUp | resumable.go:158-163 | the cursor becomes the larger of itself and the head, saved only if it moved |
| ResumableEngine.ResumableMessages.GoLive | resumable.go:135-136 | after a completed catch-up the backoff is back at its minimum and live starts right behind the cursor |
| ResumableEngine.ResumableMessages.LiveLoop | resumable.go:188-203 | the stream is read until it ends or a send is cancelled, and deliveries, cursor and Saves move by what the reference makes of its answers, but for a record given up |
| ResumableEngine.ResumableMessages.ReadLive | resumable.go:192-202 | the loop over a live stream ends on its end or on a record given up |
| ResumableEngine.ResumableMessages.Connect | resumable.go:124-141 | one connection: catch-up, live only after it completed, and then, unless stopped by the context, exactly one nap, as long as the losses in a row call for |
| ResumableEngine.ResumableMessages.Deliver | resumable.go:169-175 | exactly the event is appended to the deliveries, its sequence is the cursor and its Save is issued, or nothing changed because the context was done first |
| ResumableEngine.ResumableMessages.Advance | resumable.go:172-175 | after a hand-over the cursor is the record's sequence and exactly its Save has been issued |
| ResumableEngine.ResumableMessages.SaveCursor | resumable.go:205-212 | exactly one Save of the cursor is issued when there is a store, none otherwise, and the engine goes on whatever comes of it |
| ResumableEngine.ResumableMessages.TrySend | resumable.go:214-221 | appends exactly the record's event to the deliveries, or stops with the context done and nothing delivered |
| ResumableEngine.ResumableMessages.AfterFailure | resumable.go:124-141 | after either loop ended the engine stops when the context is done and sleeps otherwise |
| ResumableEngine.ResumableMessages.SleepBackoff | resumable.go:273-286 | exactly one timer of the current backoff, which with sane bounds is min(min*2^k, max) for the k-th sleep; false only when the context is done, leaving the backoff, otherwise the backoff is doubled in int64 and capped |
| ResumableEngine.ResumableMessages.Load | resumable.go:107-117 | starts from the stored cursor or zero; a failure is reported and stops the engine |
| ResumableEngine.ResumableMessages.HandErrorOver | resumable.go:231-235 | a reader that takes the Load error finds it in Err, unless an error was there already, and leaves, which cancels |
| Backoff.SleepIsDoubling | resumable.go:273-286 | for 0 < min <= max < 2^62 the k-th sleep is min(min*2^k, max) and lies in [min, max] |
| Backoff.DoublingExactlyWhen | resumable.go:24-32 | the sleeps are the promised ones for every k if and only if min <= max < 2^62 |
| Backoff.LargeSleepWraps | resumable.go:281-284 | a sleep of at least 2^62 doubles to a negative duration |
| SubscriptionRuns.YieldsPrefix | internal/transport/stream.go:59-126 | in every interleaving the yielded values are a prefix of the mapped frames up to the first mapping error, and before a cancellation nothing is missing but the value in the pump's hand |
| SubscriptionRuns.CalmRunComplete | internal/transport/stream.go:128-134 | among any number of Events and Close calls, an Events call that has returned yielded all mapped values, waited for the pump and left in Err exactly the open, stream or mapping error, or nil on a clean end, provided nothing cancelled while it listened, its body did not break and no other Events ran |
| SubscriptionRuns.Lifecycle | internal/transport/stream.go:59-104 | no send on or double close of a channel, out closes before done, at most one error result and it is the last, a returned Close found done closed |
| SubscriptionRuns.SeenIsAnswered | internal/transport/stream.go:59-93 | along every run the frames and the ending are exactly those open and Receive answered, and a pump that left uncancelled yielded all of it and sent last the error the last answer names |
| SubscriptionRuns.ErrIsOwn | internal/transport/stream.go:128-134 | Err is nil, the sentinel of a second Events, or exactly the stream's own terminal error |
| SubscriptionRuns.OneYielder | internal/transport/stream.go:106-126 | of any number of Events calls, every hand-over of a run goes to the one that took the consumed flag |
| SubscriptionRuns.WinnerStays | internal/transport/stream.go:136-142 | the consumed flag is never given away and Err never changes once set |
| SubscriptionSafety.SafeStep | internal/transport/stream.go:59-152 | channel, consumer, once, delivery and error invariants are kept by every step of every goroutine |
| SubscriptionProgress.EveryStepIsProgress | internal/transport/stream.go:95-104 | once cancelled, every step of any goroutine strictly lowers the work left |
| SubscriptionProgress.NeverStuck | internal/transport/stream.go:95-104 | once cancelled, while the pump has not exited it can step without any reader, and while any call is unfinished some step is enabled |
| SubscriptionProgress.EveryRunIsBounded | internal/transport/stream.go:144-152 | no schedule goes on for ever after cancellation: every run is at most as long as the work left |
| SubscriptionProgress.SomeRunFinishes | internal/transport/stream.go:144-152 | from every cancelled state there is such a run |
| SubscriptionProgress.MaximalRunsFinish | internal/transport/stream.go:144-152 | however the goroutines are scheduled, a run from a cancelled state that no step can extend has done closed and every Events and Close call returned |
| SubscriptionProgress.CloseCanCancel | internal/transport/stream.go:146-152 | before cancellation an entered Close, or the one it waits for, can cancel |
| SubscriptionObject.Sub.constructor | internal/transport/stream.go:47-57 | a new subscription is the machine's initial state for the calls that are going to use it |
| SubscriptionObject.Sub.Pump | internal/transport/stream.go:59-93 | pump as written among interfering goroutines: it exits with out and done closed and no panic, its frames and ending exactly those open and Receive answered; it has handed over a prefix of what those emit, and if nobody cancelled all of it and then, as the last result, the error the last answer names, if it names one |
| SubscriptionObject.Sub.ReceiveOne | internal/transport/stream.go:74-91 | one turn takes up exactly one answer, and leaves the loop only on one that names an ending or when the context is done |
| SubscriptionObject.Sub.TrySend | internal/transport/stream.go:97-104 | appends exactly the pending result to what was sent, a value also to what was yielded, or gives up with the context done and the stream unchanged |
| SubscriptionObject.Sub.Events | internal/transport/stream.go:109-126 | a call ends as the reader exactly when it took the consumed flag, never when another had; otherwise it ends with Err set; the reader returns only after done is closed, and undisturbed it has yielded everything the stream answered and left in Err the error its last answer names, whatever other calls exist |
| SubscriptionObject.Sub.Close | internal/transport/stream.go:146-152 | every one of any number of Close calls returns only after done is closed |
| PipelineSafety.UserSeesPrefix | resumable.go:152-241 | composing both stages, in every interleaving the user's loop has seen a prefix of what the mappers emit over the concatenated server streams after the engine's filter, and before a cancellation nothing is missing but what is in one of three hands |
| PipelineSafety.GoodStep | resumable.go:152-203 | the accounts of both stages are kept by every step of the composition |
| PipelineSafety.ClosedGaveAll | resumable.go:152-203 | a stream that was closed gave the engine everything it owed, unless the engine was cancelled before completion |
| Feeds.UserSeesLog | eventsvc.go:18-22 | end to end over any number of catch-up and live streams cut off anywhere, with any frames in between that are dropped, each fed from the log at the cursor the earlier ones left: the user's loop has seen a prefix of the log's relevant events past the start, and between streams before a cancellation all of them up to the cursor but the one in hand |
| Feeds.StreamsAccounted | resumable.go:152-203 | streams that gave all they owed promise together exactly the relevant log from the start to the cursor they leave |
| Feeds.StreamAccounted | resumable.go:156-175 | one stream, completed or cut off, accounts exactly for the relevant log from the cursor before it to the cursor after it, a reported head included |
| Feeds.CarriesPromises | messages.go:354-362 | on either kind of stream, frames that carry a stretch of the log with any dropped frames in between promise exactly the relevant events of that stretch |
| Feeds.StreamPromisesPrefix | eventsvc.go:18-22 | whatever became of it, a stream promises a prefix of the relevant log past its cursor |
| Events.MappersAgree | conv_event.go:9-43 | for every change and sequence the catch-up and the live mapper emit the same event or both drop it, never fail, and the event carries the change's chat and the frame's sequence |
| Events.ChangeRoundTrip | conv_message.go:266-331 | the message mapper drops exactly the missing and the unknown changes, and every other change can be read back off its event, its variant and every field |
| Events.EventRoundTrip | conv_message.go:266-331 | every event is the image of the change it reports and its sequence |
| Events.CatchUpRoundTrip | conv_event.go:9-43 | the catch-up mapper drops exactly the empty frames, every other frame can be read back off its event, and every event occurs |
| Events.LiveRoundTrip | conv_message.go:266-331 | the live mapper likewise, dropping exactly heartbeats, unknown payloads and unreportable changes |
| Events.FeedsAgree | conv_message.go:266-331 | whole feeds of the same changes give the same event sequence through either mapper |
| Events.MessagesCarrySequences | resumable.go:288-307 | the sequence read off any emitted event is that of the frame it came from |
| RetryDelay.ExactlyWhen | internal/transport/interceptor.go:133-141 | for all int64 settings and every attempt the delay is min(initial*2^attempt, max) if and only if, with a positive initial delay, the product did not overflow or wrapped to a non-positive value or to one not below the cap, and otherwise the product is not below the cap; a positive initial delay is never exceeded |
| RetryDelay.ZeroDelayWaitsTheCap | internal/transport/interceptor.go:136-139 | a zero initial delay waits the whole cap where none is promised |
| RetryDelay.NonPositiveExactlyWhen | internal/transport/interceptor.go:136-139 | with a cap that is not negative, an initial delay that is not positive is honoured only if both are zero |
| RetryDelay.ExactForModestSettings | internal/transport/interceptor.go:135-141 | with initial*max at most 2^64 the delay is exact for every attempt, however far the shift overflows |
| RetryDelay.OverflowLooksLarge | internal/transport/interceptor.go:136-139 | a shift that overflowed and looks positive is at least 2^attempt |
| RetryDelay.DefaultsExact | options.go:10-14 | the default settings are exact for every attempt |
| RetryDelay.BoundIsTight | internal/transport/interceptor.go:135-141 | for every t in 2..61 there are settings whose product exceeds 2^64 by only 2^(64-t)+2^t+1 for which the guard misses an overflow |
| RetryDelay.TotalWaitBound | internal/transport/interceptor.go:95-141 | for all settings the waits after n attempts sum to at most n*max (to no wait with a negative cap), and with a positive initial delay also to at most initial*(2^n-1) |
| RetryDelay.JitterShortens | internal/transport/interceptor.go:140 | full jitter leaves a delay between zero and, strictly, itself, and a negative one not positive |
| RetryDelay.WaitIs | internal/transport/interceptor.go:133-141 | where the delay is the promised one the wait is the floor of the factor times the promise; a negative one is jittered like its opposite |
| Interceptors.Dial | internal/transport/dial.go:49-61 | the chain is auth, timeout, idempotency, retry, outer to inner, each present exactly when configured and auth always |
| Interceptors.Call | internal/transport/dial.go:49-61 | one logical call, over what the environment recorded of it: one token on every attempt or no attempt at all, one idempotency key, one deadline, no other header touched, identical attempts; every attempt but the last failed with the server's mark on its first Connect error, and a last failure without it ends the call; each wait is the drawn part of the promised delay, with at most one cap per retry for all settings |
| Interceptors.DialedCall | internal/transport/dial.go:49-61 | for every environment the contract of the chain amounts to that promise |
| Interceptors.RetryableIsMarked | internal/transport/interceptor.go:125-131 | the retry test is the server's mark, x-retryable = "true", on the first Connect error in preorder |
| Interceptors.RetryableAgrees | internal/transport/interceptor.go:125-131 | for an error that holds no *Error the loop retries if and only if asError marks it retryable |
| Interceptors.WrapRetry | internal/transport/interceptor.go:95-122 | attempts number between 1 and max(1, MaxAttempts), all but the last failed with an error whose first Connect error in preorder carries x-retryable = "true", one without it ends the call at once, each timer is the jittered delay of its attempt, and the result is the first success, the last error or the context's error |
| Interceptors.WrapAuth | internal/transport/interceptor.go:36-45 | the token is asked for once per call; without it the call is unauthenticated and nothing is sent |
| Interceptors.WrapTimeout | internal/transport/interceptor.go:65-76 | a call without a deadline gets one, fixed before its first attempt |
| Interceptors.WrapIdempotency | internal/transport/interceptor.go:80-91 | a key is minted at most once, for a mutating call with no preset key, and all attempts carry it |
| ErrorChains.AsErrorIdempotent | errors.go:199-237 | over error trees of any depth and breadth a second asError changes nothing, nil stays nil, and what passes through holds no classified error |
| ErrorChains.AtMostOneCategory | errors.go:153-179 | what asError makes of any error is in exactly the public category of its status class, in none when that is internal or the error passed through |
| ErrorChains.AsErrorClean | errors.go:104-121 | asError keeps the package's guarantee that below an *Error there is no other |
| ErrorChains.CategoryIsClass | errors.go:110-149 | an *Error matches a category sentinel if and only if its status code has that sentinel's class |
| ErrorChains.ConnectClassified | errors.go:199-237 | a Connect failure first met at any depth of an error without an *Error keeps its code and message, has the category of its code, wraps the whole error, is retryable exactly when the server marked it, and carries the server's code or the default one |
| ErrorChains.FoundInOrder | errors.go:199-237 | errors.As finds the first *Error and the first Connect error of the preorder list of the tree, and errors.Is a context error if and only if it is in that list |
| ErrorChains.RawContextErrors | errors.go:208-222 | a raw deadline or cancellation without an *Error or Connect error is a connection error with its own code, a deadline taking precedence, and anything else passes through |
| ErrorChains.CategoriesByCode | errors.go:124-179 | the five public categories are matched by exactly their lists of status codes |
| ErrorChains.DefaultCodeTellsStatus | errors.go:239-265 | a code filled in for a missing one names the error's own status if a code stands for it, is empty for the two ambiguous statuses, and internalError for the rest |
| ErrorChains.CategoryKeptExactlyWhen | errors.go:199-237 | for an error of any shape that holds an *Error, asError keeps a category if and only if the first *Error met is in it or no later one is |
| ErrorChains.AsAndIsOverApis | errors.go:104-121 | over any wrap tree errors.As finds the first *Error in preorder and a category matches if and only if one of them has its class |
| ErrorChains.LinearKeepsCategory | errors.go:199-237 | on chains of single wraps asError keeps the category of an *Error already there |
| ErrorChains.JoinLosesCategory | errors.go:199-237 | a join of two *Errors is in the second one's category before asError and not after |
| Ordering.SortFunc | conv_message.go:206-214 | the array is left a sorted permutation of what it was |
| Ordering.CanonicalExactlyWhen | conv_message.go:206-214 | the sorted output is the only one possible, for every order of the input and every treatment of ties, if and only if elements that tie are equal |
| Ordering.SortedUnique | conv_message.go:206-214 | two sorted permutations whose ties agree are the same sequence |
| Ordering.StringsTransitive | conv_poll.go:30-35 | string comparison is transitive |
| Ordering.StringsFlip | conv_poll.go:30-35 | string comparison flips its sign with its arguments and is zero on equal strings only |
| Ordering.StringsAreOrdered | conv_message.go:206-214 | the string comparison is negative if and only if the first string is a proper prefix or has the smaller character at the first difference |
| Canonical.AppliedReactionsFromProto | conv_message.go:188-215 | the reactions are the images of the input, each once, oldest first and, at the same date, in lexicographic order of their GUIDs |
| Canonical.PlacedStickersFromProto | conv_message.go:217-245 | the stickers likewise, oldest first and then by GUID |
| Canonical.VotesFromProto | conv_poll.go:23-35 | the votes are the images of the input, each once, in lexicographic order of participant address and then option |
| Canonical.DatedOrder | conv_message.go:208-213 | date then GUID is a total preorder, tied only when both are equal |
| Canonical.DatedIsOldestFirst | conv_message.go:208-213 | the comparison orders by date, oldest first, and then by GUID |
| Canonical.VotesAreByAddress | conv_poll.go:30-35 | the comparison orders by participant address and then by option |
| Canonical.ConversionsRoundTrip | conv_message.go:188-245 | reactions, stickers, votes and options can be read back off their images, a missing optional field as its zero value |
| Canonical.PollFromProto | conv_poll.go:10-37 | options keep the server's order, votes are the images of the input in lexicographic order of participant address and then option, a missing poll is empty |
| Canonical.ReactionsCanonical | types_message.go:147-149 | the list depends on the multiset of inputs alone if and only if reactions with the same date and GUID are equal |
| Canonical.StickersCanonical | types_message.go:150-152 | the same for stickers |
| Canonical.VotesCanonical | types_poll.go:10-11 | the same for votes, by participant address and option |
| Canonical.TiedVotesHaveTwoOrders | types_poll.go:10-11 | two votes of one address on two services have two documented orders |
| ChatGuid.AcceptedExactlyWhen | chatguid.go:18-35 | a string is accepted, unchanged, if and only if it reads as a non-empty service, a kind "-" or "+" and a non-empty identifier |
| ChatGuid.OneReading | chatguid.go:40-45 | that reading is unique although identifiers may hold separators, and IsGroup tells its kind |
| ChatGuid.WhichError | chatguid.go:26-33 | a string of three parts is refused for the first of them that is wrong |
| ChatGuid.TooFewParts | chatguid.go:21-24 | a string is refused for its form if and only if it has fewer than two separators |

## Left out

- gRPC and Connect, HTTP/2 keepalive, TLS, message size limits and protobuf encoding: a stream is what open and receive answer.
- The resource clients, options, token provider and wrapper types: setters around one call each, with no state of their own.
- Field-by-field conversion of messages, mini-apps, locations and attachments, and the enum maps: payloads are carried through unchanged.
- Real time: a timer may fire at any moment, and when a timer or a reader is ready together with cancellation either may win.
- Rounding of the jitter in float64: the factor is a real number in [0, 1).
- ResumableEngine.ResumableMessages.Advance: events with sequence 0, for which the code leaves the cursor alone, do not occur, because the log holds positive sequences only; the test for them always passes.
- Two processes working on one store at the same time: a new process starts only when the last one has ended.
- A server that completes a catch-up with a head behind records it has: A1 rules it out; a head behind the cursor with no record in between is covered.
- Infinite runs: the objects' `patience` is an arbitrary bound after which the context is cancelled, so every finite run is covered, and liveness is the bounded-work measure after cancellation.
- ResumableEngine.ResumableMessages.Run: the second Events call and Close on the engine's own object are steps of the environment there; they are modelled in full by `Subscription`, whose outer instance in `Pipeline` is that object.
- Closing the underlying Connect stream when the pump returns: the stream is not used afterwards.
- The streaming side of the auth interceptor and the pass-through of streaming calls in the others.
- Interceptors.Call: the set of mutating procedures is a flag of the request, and header names are taken as already canonical.
- Ordering.SortFunc: the library's algorithm is not part of this model; any method with this contract gives the same theorems, so stability is not assumed.
- Strings are compared character by character; Go compares their bytes, which gives the same order for valid UTF-8.
- Error texts and `contextFromMeta`; pointer identity of errors is structural equality.
- ErrorChains.AtMostOneCategory: requires the package's own guarantee that an `*Error` wraps no other, which only `asError` could break and does not.
