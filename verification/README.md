# Voice-to-voice translation: verified models

The web application translates both sides of a phone call. Nova Sonic does it while it can; when it fails, or
a switch or a language rules it out, a backup of separate transcription, translation and speech services takes
over, and Nova Sonic is brought back when the line is quiet. A proxy carries the audio streams to the services.

This project models the state machines, stream converters and codecs behind that and proves what they promise
over every run. Code that updates variables step by step is a class whose methods are the atomic steps; each
method's new state is a function of the old one (`On...`, `Step`), and the promises are proved of these
functions over whole interleavings (`Run`), wherever possible against definitions that read the events alone. Histories that the program does not keep (calls made, deliveries,
chunks handed out) are kept beside the state, so that a promise about a whole run can be stated.

- `Failover.dfy`: one side of a call: Nova Sonic, backup, returning, with attempts that answer late; over whole
  runs, `FailoverSessions.dfy` (no background session leaks), `FailoverHolds.dfy` (what holds a side on the backup
  and what lets it return) and `FailoverRetries.dfy` (when retrying goes on, and what the attempt count counts);
  event by event, `FailoverMoves.dfy` (calls, causes and timers). `FailoverControl.dfy`: the controller.
- `Speaker.dfy`: the backup's speaker: parallel translation, delivery in order, cancelling, waiting for idle;
  `SpeakerSentences.dfy`: what it delivers, by the sentences it is given.
- `SilenceWatchdog.dfy`: judging that Nova Sonic has gone silent, against everything it has reported;
  `SilenceHistory.dfy`: which sentences it judges and when it fires, by what happened alone.
- `Downsampler.dfy`, `LinearResampler.dfy`: converting microphone chunks to 16-bit samples at a lower rate.
- `MicHandoff.dfy`: one microphone stream with one waiting slot, its drains and its views; `MicReaders.dfy`: what each
  event means for the stream and a reader.
- `AudioVetting.dfy`: which of Nova Sonic's audio counts as checked, and which texts are passed on;
  `ResponseHistory.dfy`: every call of the handlers, by the events of the stream alone.
- `CustomerTurns.dfy`: the customer session, which decides what of Nova Sonic's audio the agent hears and speaks a
  fallback for each failed answer; over whole runs, `CustomerAudio.dfy` (what becomes of the audio),
  `CustomerOrder.dfy` with `CustomerPlayback.dfy` (the order it plays in), `CustomerFallbacks.dfy` (one fallback
  for each failed answer) and `CustomerWords.dfy` (nothing is spoken twice); event by event, `CustomerVerdicts.dfy`
  (which answers fail, and what is let through) and `CustomerReplies.dfy` (what the fallbacks say).
- `SourceUtterance.dfy`: which of the agent's words the open turn is translating; `UtteranceHistory.dfy`: when a turn
  is open and what each event closes.
- `ProxyConnection.dfy`, `ProxyServer.dfy`, `Limits.dfy`: the proxy's protocol, its slots and its rate limit;
  `ProxyConversation.dfy`: a whole connection by its frames; `RateHistory.dfy`: grants by the earlier grants.
- `Der.dfy`: the certificate's DER encoding against a decoder for ITU-T X.690.
- `SchemaNormalization.dfy`: the canonical form of a tool's JSON schema; `JsonText.dfy`: the text of a JSON value as
  `json.dumps` writes it, which tells all values apart; `SchemaMeaning.dfy`: the canonical form by the keywords'
  names; `JsonReading.dfy`: what the texts say to a reader of JSON.

`dafny verify dfyconfig.toml` checks everything.

## What does not hold

Some promises one might read into the code are false. Each has an exact condition or a concrete run:

- A side on the backup with attempts left can stop retrying (`FailoverRetries.RetryCanBeLost`). An event stops it
  exactly when the retry timer fires while an older attempt is in flight or the call is not live, or when an
  older attempt's "busy" answer gives an exhausted side an attempt back
  (`FailoverRetries.KeepsTryingExactlyUnlessStalled`).
- The attempt count can be negative (`FailoverRetries.AttemptsCanBeNegative`). An event takes it below zero exactly when
  a "busy" answer finds it at zero (`FailoverRetries.StaysCountingExactly`), and a run keeps it from there exactly when
  that never happens (`FailoverRetries.CountStaysNonNegativeExactly`).
- A promise of `whenIdle()` can be stranded: the speaker is idle for good and the promise stays open
  (`Speaker.PromiseCanBeStranded`). A promise is resolved exactly if the speaker was idle at the call, or a later
  end of the pump or cancel leaves it idle at its own time (`Speaker.PromiseIsResolvedExactly`).
- What the agent hears need not have come under the answer that passes: audio that comes while an answer is under
  way and whose own sentence is never judged plays with the next answer (`CustomerAudio.UnjudgedAudioCanBeHeard`).
  A released chunk came under the answer that passes exactly if no answer was opened while it was held
  (`CustomerAudio.ReleasedUnderItsAnswerExactly`). Unchecked audio that comes after a failed answer's end is a case
  of its own: as `webapp/main.js:3640-3641` says it starts the next answer, and it plays with that one
  (`CustomerAudio.AudioAfterAFailureStartsTheNext`).
- Held chunks are played in order among themselves, but checked audio that comes during a release is handed to
  the player in the middle of it (`CustomerOrder.LaterAudioCanOvertake`). All of the audio keeps the order of
  arrival exactly if nothing overtakes (`CustomerOrder.PlaysInOrderExactly`).
- An audio block may count as open when it has ended, and the other way round
  (`AudioVetting.UnnamedEndIsMissed`, `AudioVetting.OtherAudioClosesIt`); exactly when it does not is
  `AudioVetting.OpenIsTheBlockExactly`.
- The converter's "no seams and no drift" holds for a reduced rate, and otherwise exactly when the rates are
  equal (`LinearResampler.NoSeamsExactlyAtTheSameRate`).
- The DER object identifiers read back exactly for those in `Der.OidRoundTrip`.
- A turn opened before any words does not take "the late segments", as `webapp/utils/translationGuards.js:388`
  says, but at most one (`SourceUtterances.EmptyTurnTakesTheFirstSegment`); the model follows the code.
- Frames that race the verification make no difference exactly up to 256; to what the connection does, more make
  none only if the first frame is refused in the same words (`ProxyConnection.VerificationMayTakeItsTime`).
- Arrays sort to one canonical array, whatever order their elements are in, exactly if the sorting texts tell the
  elements apart (`SchemaNormalization.SortForgetsOrderExactly`), as those of `json.dumps` do
  (`JsonText.DumpsIsInjective`).

## Model

| member | source | states |
|---|---|---|
| Failover.RunKeepsInv | webapp/utils/backupTranslation.js:239-524 | In every interleaving: an outstanding attempt of the current generation exists at most once, and only on an unheld backup with no retry timer armed; the cause is null iff the state is nova; the handover poll is armed iff the state is returning; a hold implies the backup; attempts never exceed the maximum |
| FailoverSessions.StartedAnswerEndsOneWay | webapp/utils/backupTranslation.js:317-339 | A `startNova` answer of true enters returning if its generation is current and is abandoned otherwise: the generation alone decides, so it is a complete cancellation token |
| FailoverSessions.NoSessionLeaks | webapp/utils/backupTranslation.js:296-349 | Over every run, sessions reported running equal entries into returning plus `abandonNova` calls: no background session is forgotten and none is stopped twice |
| FailoverHolds.HeldSideStaysOffNova | webapp/utils/backupTranslation.js:253-349 | While the switch or the language holds a side: state backup, no retry timer, no `startNova` call, and every session that reports in is abandoned |
| FailoverHolds.LanguageHoldOutranksTheSwitch | webapp/utils/backupTranslation.js:432-496 | After `languageOn`, no sequence without `languageOff`, `startOnBackup` or `reset` changes the cause or leaves the backup, whatever the switch does |
| FailoverHolds.WaysIntoNova | webapp/utils/backupTranslation.js:351-381 | A side enters nova exactly by a reset, or at a poll in the returning state that found it ready |
| FailoverHolds.HoldsAsTold | webapp/utils/backupTranslation.js:432-496 | In every run whether a side is held, for which cause and with which reason is told by the events alone: who turned the switch or the language on last, and what ended it |
| FailoverHolds.SwitchHoldsTheSide | webapp/utils/backupTranslation.js:432-443 | After `switchOn`, from wherever the side was, every sequence without `switchOff`, `languageOff`, `startOnBackup` and `reset` leaves it on the backup, held, with no timer and no `startNova` call |
| FailoverHolds.HoldEndsWithARetry | webapp/utils/backupTranslation.js:445-496 | After `switchOff`, or `languageOff` without a reason, a side held for that cause retries at once; `languageOff` with a reason keeps it held, now for the switch |
| FailoverMoves.CallsTellTheMove | webapp/utils/backupTranslation.js:281-381 | Every event calls exactly what its move takes: leaving Nova Sonic once with the new reason and cause, stopping an unwanted session, telling its health, the clean-up at the handover, and each attempt under its number |
| FailoverMoves.LeavesExactly | webapp/utils/backupTranslation.js:408-476 | A side leaves Nova Sonic, or the way back to it, exactly by a failure of a live call, a start on the backup, the switch or the language |
| FailoverMoves.ReturnsExactly | webapp/utils/backupTranslation.js:327-339 | A side begins to return exactly by a session while nothing holds it, or by the current attempt's success, at the time of that event |
| FailoverMoves.WhyIsAsTold | webapp/utils/backupTranslation.js:281-522 | Cause and reason after every event are those the event gives, and otherwise the ones before |
| FailoverMoves.TimerIsAsTold | webapp/utils/backupTranslation.js:265-349 | The retry timer after every event: 1500 ms more with each attempt after a failure, a second after a "busy" answer, at once after a hold, none on the way back, otherwise as it was |
| FailoverMoves.AttemptStartsExactly | webapp/utils/backupTranslation.js:296-308 | An attempt starts exactly when the timer fires on an unheld backup with a live call, no attempt in flight and attempts left; it has the next number |
| FailoverRetries.KeepsTryingExactlyUnlessStalled | webapp/utils/backupTranslation.js:273-349 | A retrying side (timer armed or current attempt outstanding) stays so over an event if and only if the event is not one of the stalls described above |
| FailoverRetries.OrderlyRunsKeepTrying | webapp/utils/backupTranslation.js:273-349 | If nothing is outstanding whenever the generation moves on and timers fire on a live call, an unheld backup with attempts left always has a timer armed or an attempt outstanding, and the count is the non-busy starts since the last zeroing |
| FailoverRetries.AttemptsAreCounted | webapp/utils/backupTranslation.js:300-322 | In every run the count is the non-busy starts since the last zeroing, less the busy answers to older starts, and never above the maximum |
| FailoverRetries.RetryCanBeLost | webapp/utils/backupTranslation.js:297-297 | A run after which nothing is armed or outstanding although attempts are left |
| FailoverRetries.AttemptsCanBeNegative | webapp/utils/backupTranslation.js:319-319 | A run after which the count is -1, the input that breaks "never negative" |
| FailoverRetries.StaysCountingExactly | webapp/utils/backupTranslation.js:317-321 | From any state that keeps the invariant with a count of at least zero, an event keeps it so if and only if it is not a "busy" answer that finds the count at zero |
| FailoverRetries.CountStaysNonNegativeExactly | webapp/utils/backupTranslation.js:300-322 | A run never takes the count below zero if and only if no "busy" answer in it finds the count at zero; at its end the count is at least zero if and only if the late answers are no more than the counted starts |
| FailoverControl.FailoverController.EnterBackup | webapp/utils/backupTranslation.js:281-294 | The side is on the backup with the new cause, the poll is stopped and `leaveNova` was called once |
| FailoverControl.FailoverController.BeginReturning | webapp/utils/backupTranslation.js:351-360 | The side is returning with the poll armed |
| FailoverControl.FailoverController.NovaFailed | webapp/utils/backupTranslation.js:408-416 | Refines the failure step of the interleaving model; answers whether the side switched |
| FailoverControl.FailoverController.StartOnBackup | webapp/utils/backupTranslation.js:421-427 | Refines starting on the backup: older attempts are cancelled, the count is zero, a retry is armed unless held |
| FailoverControl.FailoverController.SwitchOn | webapp/utils/backupTranslation.js:432-443 | Refines the switch going on: an unheld side goes to the backup for it, a side already held keeps its cause; that it then stays there is `FailoverHolds.SwitchHoldsTheSide` |
| FailoverControl.FailoverController.SwitchOff | webapp/utils/backupTranslation.js:445-453 | Refines the switch going off: only a side held by it retries now |
| FailoverControl.FailoverController.LanguageOn | webapp/utils/backupTranslation.js:459-476 | Refines an unsupported language: older attempts and the timer are cancelled, the cause becomes the language |
| FailoverControl.FailoverController.LanguageOff | webapp/utils/backupTranslation.js:482-496 | Refines the languages being supported again: held for the switch, or retrying now |
| FailoverControl.FailoverController.NovaSessionStarted | webapp/utils/backupTranslation.js:501-511 | Refines a session started elsewhere: abandoned while held, else returning |
| FailoverControl.FailoverController.Reset | webapp/utils/backupTranslation.js:513-522 | Refines the call's end: initial state, timers stopped, outstanding attempts no longer current |
| FailoverControl.FailoverController.AttemptTimerFires | webapp/utils/backupTranslation.js:273-308 | Refines the timer firing: an attempt starts with the current generation, or the timer is just gone |
| FailoverControl.FailoverController.AttemptAnswered | webapp/utils/backupTranslation.js:308-349 | Refines an answer of `startNova`, however late it comes |
| FailoverControl.FailoverController.HandoverPollTicks | webapp/utils/backupTranslation.js:356-380 | Refines a tick of the poll: back to nova only when returning and ready |
| Speaker.DeliveryIsInOrder | webapp/utils/backupTranslation.js:142-186 | In every run and epoch the delivered jobs are a prefix of the spoken ones, in order, one at a time; a non-empty queue has a running pump; a stopped pump has delivered all of its epoch |
| Speaker.NothingSurvivesCancel | webapp/utils/backupTranslation.js:208-213 | No job spoken before a cancel starts to be delivered after it |
| SpeakerSentences.EverySentenceIsAJob | webapp/utils/backupTranslation.js:176-198 | In every run the jobs are the non-blank sentences of the calls to `speakNow`, in order, none left out and none added, each in the epoch of the cancels before it |
| SpeakerSentences.SentencesAreDelivered | webapp/utils/backupTranslation.js:142-198 | By the calls alone: what is delivered between two cancels is a beginning of the sentences spoken there, what is queued follows it, and a stopped pump has delivered all of them |
| SpeakerSentences.DeliveredWithItsTranslation | webapp/utils/backupTranslation.js:145-163 | Every sentence is handed over with the clip of the first translation that arrived for it |
| SpeakerSentences.PumpMoves | webapp/utils/backupTranslation.js:142-173 | Each wait of the pump ends one way: a translation of the epoch is handed over, an older one passed over, a delivery leads to the next sentence, and an ending pump with a queue begins again |
| SpeakerSentences.PumpFinishes | webapp/utils/backupTranslation.js:142-173 | Once the translations are there the pump stops after a number of waits told by the queue, and then every sentence since the last cancel has been delivered |
| SpeakerSentences.CancelDropsTheQueue | webapp/utils/backupTranslation.js:208-213 | A cancel empties the queue and the estimate at once and leaves a delivery under way alone |
| SpeakerSentences.IdleExactly | webapp/utils/backupTranslation.js:155-202 | Idle if and only if the pump has stopped and a player that takes each clip for its estimated time would be done |
| Speaker.IdleMeansSilent | webapp/utils/backupTranslation.js:155-202 | For every serial player whose clips last at most bytes/4000 seconds and that was silent at the epoch's start, the estimate bounds its end; idle means all delivered, none in delivery and the player silent |
| Speaker.WhenIdleResolvesOnlyAtOnce | webapp/utils/backupTranslation.js:203-206 | On a stopped pump, with no later sentence or cancel, a promise is resolved if and only if the estimate has passed at the call |
| Speaker.PromiseIsResolvedExactly | webapp/utils/backupTranslation.js:137-213 | Over every run from every state, a promise is resolved by the end if and only if the speaker was idle at the call or a later end of the pump or cancel leaves it idle at its own time |
| Speaker.PromiseCanBeStranded | webapp/utils/backupTranslation.js:203-206 | A run from the start whose promise stays open whatever happens short of a sentence or a cancel, although the speaker is idle from ten seconds on |
| Speaker.StrandedWaiterStays | webapp/utils/backupTranslation.js:137-140 | A waiter left on a stopped pump stays until someone speaks or cancels |
| Speaker.BackupSpeaker.SpeakNow | webapp/utils/backupTranslation.js:176-198 | Refines speaking a sentence: queued with its epoch, the pump runs; a blank text does nothing; that no sentence is dropped is `SpeakerSentences.EverySentenceIsAJob` |
| Speaker.BackupSpeaker.TranslationArrives | webapp/utils/backupTranslation.js:124-135 | A translation is there for its job whatever the order of arrival, and the first one counts |
| Speaker.BackupSpeaker.PumpResumes | webapp/utils/backupTranslation.js:145-163 | Refines the pump after a translation: jobs of an older epoch are skipped, the estimate grows by the clip |
| Speaker.BackupSpeaker.DeliveryDone | webapp/utils/backupTranslation.js:162-168 | Refines the end of a delivery and the pump's next job |
| Speaker.BackupSpeaker.PumpEnds | webapp/utils/backupTranslation.js:169-173 | Refines the pump's end: restarted for what came meanwhile, or the waiters are settled |
| Speaker.BackupSpeaker.Cancel | webapp/utils/backupTranslation.js:208-213 | Refines a cancel: a new epoch, an empty queue, waiters settled only if idle |
| Speaker.BackupSpeaker.WhenIdle | webapp/utils/backupTranslation.js:200-206 | Resolved at once iff idle, otherwise one more waiter |
| SilenceWatchdog.TriggersExactlyOnSilence | webapp/utils/backupTranslation.js:571-591 | After every run with a monotone clock, a due sentence triggers if and only if the watch is armed, triggers are left, no event of the whole history lies at or after the grace period before the sentence, and each hearing in its window that matches has vouched before or is forgotten |
| SilenceWatchdog.HearingVouchesOnce | webapp/utils/backupTranslation.js:546-557 | A hearing that has vouched for a sentence never vouches for another one until a reset |
| SilenceWatchdog.TriggersAreLimited | webapp/utils/backupTranslation.js:576-587 | Triggers never exceed the maximum between resets |
| SilenceHistory.SentenceIsTakenUpExactly | webapp/utils/backupTranslation.js:571-579 | By what happened alone: a sentence is taken up if and only if the watch is armed with triggers left, it is long enough and the session has settled; its window begins at the later of the session's start and the last sentence taken up |
| SilenceHistory.FiresExactlyOnSilence | webapp/utils/backupTranslation.js:576-589 | By what happened alone: the watch fires if and only if the sentence is due and open, the watch is armed with triggers left, nothing was reported from the grace period on, and no transcript in its window is of the sentence, remembered and unused |
| SilenceHistory.RunIsTold | webapp/utils/backupTranslation.js:533-607 | In every run with a monotone clock: the pending sentences with their windows, the used hearings, the times and the trigger count are those of the definitions over the events |
| SilenceWatchdog.StepKeepsInv | webapp/utils/backupTranslation.js:560-566 | The remembered hearings are exactly those of the whole history that are not forgotten: among the last twelve and recent enough at the last hearing, in order, marked iff they have vouched |
| SilenceWatchdog.KeptIsSuffix | webapp/utils/backupTranslation.js:565-565 | Filtering by age and keeping the last twelve keeps exactly the end of a list ordered by time |
| SilenceWatchdog.SilenceWatchdog.NoteNovaEvent | webapp/utils/backupTranslation.js:560-566 | Refines an event of Nova Sonic, with or without something heard |
| SilenceWatchdog.SilenceWatchdog.NoteSessionStart | webapp/utils/backupTranslation.js:567-569 | The settling time starts anew and nothing else changes |
| SilenceWatchdog.SilenceWatchdog.NoteSentence | webapp/utils/backupTranslation.js:571-591 | Refines a finished sentence: judged later, or ignored as unarmed, too short or too early; its window is that of `SilenceHistory.SentenceIsTakenUpExactly` |
| SilenceWatchdog.SilenceWatchdog.TakeHearingsOf | webapp/utils/backupTranslation.js:546-557 | Marks exactly the hearings that belong to the sentence and says whether there was one |
| SilenceWatchdog.SilenceWatchdog.TimerFires | webapp/utils/backupTranslation.js:580-589 | Refines the judging: hearings are taken whether or not the watch triggers |
| SilenceWatchdog.SilenceWatchdog.Cancel | webapp/utils/backupTranslation.js:592-595 | Nothing is pending and nothing else changes |
| SilenceWatchdog.SilenceWatchdog.Reset | webapp/utils/backupTranslation.js:592-603 | Nothing pending, no triggers, no memory |
| Downsampler.ConvertStream | webapp/utils/novaSonicAudioUtils.js:73-142 | No seams and no drift: for every cut of the input into chunks, empty ones included, one converter with its history and position sends the bytes that one call of a new converter gives for the whole recording, floor((N-1)*toRate/fromRate)+1 samples; read low octet first, they are the reference's samples |
| Downsampler.StreamIsRead | webapp/utils/novaSonicAudioUtils.js:129-138 | Read as signed 16-bit numbers, low octet first, octets 2k and 2k+1 of the stream are sample k |
| Downsampler.ReferenceIsInProportion | webapp/utils/novaSonicAudioUtils.js:117-136 | Output sample k is the filtered input at the time k * fromRate / toRate, on the line between its two neighbours, cut off at full scale and otherwise in proportion, less than one step below it in size |
| Downsampler.FilterAnswersWithItsTaps | webapp/utils/novaSonicAudioUtils.js:109-114 | The filter answers a single sample with its taps in order |
| Downsampler.DotIsLinear | webapp/utils/novaSonicAudioUtils.js:109-114 | The filter is linear, so its answers to single samples tell it |
| Downsampler.ChunkOutput | webapp/utils/novaSonicAudioUtils.js:117-125 | Bookkeeping of the reference: what is due for a chunk completes what was due before |
| Downsampler.StreamingRefinesOneShot | webapp/utils/novaSonicAudioUtils.js:73-74 | Bookkeeping of the reference: what is due for chunks put together is what is due for all of the input |
| Downsampler.ReferenceIgnoresTheFuture | webapp/utils/novaSonicAudioUtils.js:108-125 | Later input changes no earlier output sample |
| Downsampler.CountIsTight | webapp/utils/novaSonicAudioUtils.js:119-125 | Output sample k is due exactly when the input samples on both sides of its position are there |
| Downsampler.CarryIsBounded | webapp/utils/novaSonicAudioUtils.js:126-127 | The position carried over stays above -1 and at most a step less one ahead |
| Downsampler.Pcm16Downsampler.Process | webapp/utils/novaSonicAudioUtils.js:99-140 | The bytes of one call are those the reference has due for the chunk after everything consumed; history and position stay right for the next call |
| Downsampler.Pcm16Downsampler.Resample | webapp/utils/novaSonicAudioUtils.js:117-126 | The loop emits exactly the samples due, each the interpolation of the filtered whole input, all reads inside history and chunk |
| Downsampler.Pcm16Downsampler.Locate | webapp/utils/novaSonicAudioUtils.js:119-122 | The loop stops exactly at the first sample that has to wait |
| Downsampler.Pcm16Downsampler.SampleAt | webapp/utils/novaSonicAudioUtils.js:123-124 | The filter over history and chunk gives the interpolation of the filtered whole input |
| Downsampler.FilterAt | webapp/utils/novaSonicAudioUtils.js:109-114 | The filter loop computes the convolution at one index |
| Downsampler.ToPcm | webapp/utils/novaSonicAudioUtils.js:129-136 | The bytes are those of the limited, scaled and truncated samples; read low octet first they are these samples (`Downsampler.StreamIsRead`) |
| LinearResampler.NoSeamsExactlyAtTheSameRate | webapp/utils/novaSonicAudioUtils.js:76-84 | Without the filter, chunks can be converted one by one without a difference if and only if the rates are equal, for all rates |
| LinearResampler.KeepsEveryNthSample | webapp/utils/novaSonicAudioUtils.js:61-64 | Where the rate goes down by a whole factor, linear resampling just keeps every factor-th sample |
| LinearResampler.LinearIsOnTheLine | webapp/utils/novaSonicAudioUtils.js:28-37 | Every sample is the nearest number to the point on the line between its two neighbours, the last one standing in beyond the end |
| LinearResampler.OutCountFits | webapp/utils/novaSonicAudioUtils.js:24-25 | There is at least one sample, and one more for each whole step of the input |
| LinearResampler.ResamplePcm16Linear | webapp/utils/novaSonicAudioUtils.js:22-40 | The loop writes the rounded interpolation at each position; without input and with a change of rate there is nothing to read |
| MicHandoff.EachChunkToOneReader | webapp/utils/micWorkletStream.js:89-123 | With any number of drains and views: handed chunks followed by queued ones are the pushed ones in order, each handed to one reader; a non-empty queue has no waiting reader; only a closed view can lose a chunk, and only its last |
| MicHandoff.FirstPullEndsTheDrain | webapp/utils/backupTranslation.js:784-796 | From a view's first pull on, its drain is handed no further chunk, whatever happens |
| MicHandoff.ViewGetsEverythingFromItsFirstPull | webapp/utils/backupTranslation.js:768-822 | From its first pull until it closes or another reader asks, a view gets everything queued or pushed later, in order |
| MicHandoff.StoppedDrainGetsNothing | webapp/utils/backupTranslation.js:828-850 | A stopped drain that is not waiting is never handed a chunk again |
| MicReaders.ChunksAreHandedOut | webapp/utils/micWorkletStream.js:89-117 | By the events alone: the chunks pushed are handed out in order and the rest is queued; a reader that asks gets the oldest chunk or the slot, a new chunk goes to the slot or the queue, and nothing else moves one |
| MicReaders.ReaderIsTold | webapp/utils/backupTranslation.js:768-850 | What every event makes of a reader: drains stop by `stop` or the first pull of their view, views close, wake and get what arrives while they are awake |
| MicReaders.DrainStaysAtWork | webapp/utils/backupTranslation.js:828-850 | A drain that is not stopped asks again after every chunk, as long as no other reader asks the stream |
| MicHandoff.MicWorkletStream.OnMessage | webapp/utils/micWorkletStream.js:89-99 | A chunk goes to the waiting reader or else to the queue; to nobody after the stream's end |
| MicHandoff.MicWorkletStream.Next | webapp/utils/micWorkletStream.js:107-117 | The end, the oldest chunk, or the slot, also from a reader already waiting there |
| MicHandoff.MicWorkletStream.Destroy | webapp/utils/micWorkletStream.js:129-137 | Ends the stream once and tells the waiting reader |
| AudioVetting.AudioIsVettedExactly | webapp/adapters/novaSonicAdapter.js:535-538 | In every event sequence audio is reported vetted if and only if a SPECULATIVE text that serves its block was passed to `onAssistantText` before it; which block a text serves is decided by the events before the text |
| AudioVetting.VettingIsInjective | webapp/adapters/novaSonicAdapter.js:801-825 | The blocks with vetted audio map one-to-one to distinct SPECULATIVE texts, each passed on before the block's vetted audio and after the previous block began |
| ResponseHistory.CallsAreTold | webapp/adapters/novaSonicAdapter.js:547-930 | In every run the calls of the handlers are, in order, those told by the events alone: the misplaced and shown texts, the roles and stages of blocks, turn ends, retractions, and which audio is vetted |
| ResponseHistory.MisplacedIsTold | webapp/adapters/novaSonicAdapter.js:562-735 | The checks suppress a text if and only if its block has ended, or it is in a user block begun after the assistant's ended, or says user without a name in an assistant's block |
| ResponseHistory.RetractionIsTold | webapp/adapters/novaSonicAdapter.js:860-886 | What is taken back are the user's texts that the assistant's cover, all of them if they are covered together |
| AudioVetting.OpennessIsRead | webapp/adapters/novaSonicAdapter.js:618-644 | After every event the flag says that an audio block of the assistant began and no known audio block has ended since, read from the events alone; the map holds the block last started under each id |
| AudioVetting.OpenIsTheBlockExactly | webapp/adapters/novaSonicAdapter.js:623-644 | At every moment of a run the flag is the openness of the assistant's block itself, if and only if no end strays: no other known audio block ends while it is open, and its own end is known by its id |
| AudioVetting.UnnamedEndIsMissed | webapp/adapters/novaSonicAdapter.js:632-644 | An end without an id leaves the ended block open |
| AudioVetting.OtherAudioClosesIt | webapp/adapters/novaSonicAdapter.js:644-644 | The end of the user's audio block closes the assistant's |
| AudioVetting.OnlyShownTextsAreRetracted | webapp/adapters/novaSonicAdapter.js:860-886 | In every run, only texts passed on before as the user's are retracted |
| AudioVetting.StepKeepsInv | webapp/adapters/novaSonicAdapter.js:618-644 | After every event the counters say exactly which of the current and the next audio block has a text |
| AudioVetting.NamedBlocksNeverMisfire | webapp/adapters/novaSonicAdapter.js:526-533 | With events as documented (no block names, no completion end) the name-keyed checks never suppress a text; only the check inside an assistant's block can |
| AudioVetting.ResponseStream.Process | webapp/adapters/novaSonicAdapter.js:547-560 | The loop reads the events in order and stops at a terminal exception or once the session is stopped |
| AudioVetting.ResponseStream.StartBlock | webapp/adapters/novaSonicAdapter.js:562-628 | Refines a block's start: checks, display, block by id, and the vetting of an audio block |
| AudioVetting.ResponseStream.StartAudio | webapp/adapters/novaSonicAdapter.js:623-628 | An audio block is vetted iff a text came since the last one that no block has taken |
| AudioVetting.ResponseStream.EndBlock | webapp/adapters/novaSonicAdapter.js:630-668 | Refines a block's end: the turn ends with the assistant's FINAL text, the audio block is left, names are closed |
| AudioVetting.ResponseStream.CloseBlock | webapp/adapters/novaSonicAdapter.js:632-644 | The block leaves the open ones; after an audio block no audio block is open |
| AudioVetting.ResponseStream.ReadText | webapp/adapters/novaSonicAdapter.js:670-811 | Refines a text: suppressed as a misfire, a status or an echo, or passed on for its role |
| AudioVetting.ResponseStream.ReadUserText | webapp/adapters/novaSonicAdapter.js:737-781 | A text of the user is an echo of the assistant, or passed on and noted for the turn |
| AudioVetting.ResponseStream.ReadAssistantText | webapp/adapters/novaSonicAdapter.js:769-811 | A text is judged by its own block where that is known, otherwise by the block that opened last, and passed on without leaked role labels |
| AudioVetting.ResponseStream.PassText | webapp/adapters/novaSonicAdapter.js:801-810 | A SPECULATIVE text counts for the next block, or for the open one and then for no other |
| AudioVetting.ResponseStream.Retract | webapp/adapters/novaSonicAdapter.js:860-886 | The user's texts of the turn that are part of one of the assistant's are taken back, all of them if they are so together |
| AudioVetting.ResponseStream.EndCompletion | webapp/adapters/novaSonicAdapter.js:860-904 | Refines the completion's end: misfired texts are taken back, the turn is complete and the per-turn checks start anew |
| CustomerAudio.RunAccountsForChunks | webapp/main.js:3634-3675 | In every run each chunk is exactly one of played on arrival, released, discarded or held, the held ones in order of arrival; nothing is held while the current answer is failed, nor after a turn's end with the checks on |
| CustomerAudio.FatesAreFinal | webapp/main.js:3388-3397 | What became of a chunk never changes |
| CustomerAudio.OnlyApprovedAnswersAreHeard | webapp/main.js:3640-3657 | With the checks on, whatever an event plays or releases is let through by a current answer that has had a sentence passed and has not failed; the chunk may have come under an earlier one |
| CustomerVerdicts.FlagsAreRead | webapp/main.js:3558-3677 | After every event: an answer has failed iff it had, or it is current and a sentence of it was judged bad or its end found audio on hold; it has passed iff it had, or a good sentence was judged; it is over iff it was, a later one was opened or the turn completed |
| CustomerVerdicts.HoldIsRead | webapp/main.js:3602-3675 | Exactly a sentence that passes releases the hold and exactly what fails an answer drops it; a chunk plays on arrival iff its answer has passed and its own sentence was seen, is dropped iff the answer has failed, and is held otherwise |
| CustomerVerdicts.BadSentenceFails | webapp/main.js:3612-3621 | Every judged sentence that is not Ok leaves the current answer failed, the hold empty and lets nothing through, whatever was passed before |
| CustomerVerdicts.SilentAfterABadSentence | webapp/main.js:3612-3648 | In every run, from a bad sentence on nothing is let through until an answer is opened |
| CustomerAudio.ReleasedUnderItsAnswerExactly | webapp/main.js:3562-3607 | In every run, a chunk that is held and later released came under the answer that passes if and only if no answer was opened while it was held; so what came under a failed answer is heard only with a later one |
| CustomerAudio.PlayedUnderItsAnswer | webapp/main.js:3649-3657 | A chunk played on arrival comes under the answer that lets it through |
| CustomerAudio.AudioAfterAFailureStartsTheNext | webapp/main.js:3640-3648 | A run in which unchecked audio that came after a failed answer's end starts the next answer, as the comment says, and is released with it |
| CustomerAudio.UnjudgedAudioCanBeHeard | webapp/main.js:3562-3563 | A run in which audio that came while an answer was under way, and whose own sentence was never judged, is released with the next answer |
| CustomerOrder.EachReleasePlaysInOrder | webapp/main.js:3387-3397 | In every run exactly the chunks played on arrival or released are handed to the player or waiting in a release for it, each once, and each release hands over its hold from the front, in order of arrival |
| CustomerOrder.PlaysInOrderExactly | webapp/main.js:3387-3397 | At every moment of a run audio has been handed over in order of arrival and nothing was left behind by later audio, if and only if no chunk plays on arrival while others are held or being released and no hold is released during another release |
| CustomerOrder.LaterAudioCanOvertake | webapp/main.js:3390-3396 | A run in which checked audio plays between two chunks of a release |
| CustomerPlayback.ContinuedInStep | webapp/main.js:3393-3395 | While nothing was overtaken a release that goes on overtakes nothing |
| CustomerPlayback.BegunInStepExactly | webapp/main.js:3388-3397 | Releasing a hold overtakes nothing if and only if it is empty or no release has chunks left |
| CustomerPlayback.PlayedNowInStepExactly | webapp/main.js:3656-3657 | A chunk that plays on arrival overtakes nothing if and only if nothing is held or left to a release |
| CustomerAudio.FailureIsFinal | webapp/main.js:3566-3574 | An answer that has failed stays failed |
| CustomerFallbacks.OneFallbackPerFailedAnswer | webapp/main.js:3403-3435 | Over every run exactly the failed answers ask for a fallback, once each, and each fallback is spoken at most once |
| CustomerWords.NothingIsSpokenTwice | webapp/main.js:3405-3415 | No piece of what the customer said is spoken by two fallbacks or twice by one |
| CustomerReplies.FallbacksSayWhatWasHeard | webapp/main.js:3403-3430 | In every run each piece a fallback speaks is, by its number, the text that Nova Sonic heard then |
| CustomerReplies.RepliesAreRead | webapp/main.js:3403-3435 | A fallback is asked for exactly when an answer fails that had not; it says the answer's words at once, or else those that came by the end of its wait, or nothing |
| CustomerReplies.WaitingIsRead | webapp/main.js:3485-3529 | The last twelve pieces wait in order; a retraction takes exactly the misfired ones; an answer that is opened, or a fallback that waited, takes all |
| CustomerReplies.WordsAreRead | webapp/main.js:3329-3341 | An answer's words are those that waited when it was opened, less what is retracted while it is open, or those its fallback waited for |
| CustomerTurns.CustomerSession.OnUserText | webapp/main.js:3485-3489 | With the checks on, the last twelve pieces heard wait for an answer |
| CustomerTurns.CustomerSession.OnUserTextRetraction | webapp/main.js:3525-3529 | Misfired pieces leave what is heard and the open turn |
| CustomerTurns.CustomerSession.OpenTurn | webapp/main.js:3329-3341 | A new answer takes what was heard since the last one |
| CustomerTurns.CustomerSession.AnswerUnderWay | webapp/main.js:3558-3564 | New words from the customer or a turn end before a sentence start a new answer |
| CustomerTurns.CustomerSession.ReleaseHeldAudio | webapp/main.js:3388-3397 | The held chunks become a release, whose first chunk is handed over at once |
| CustomerTurns.CustomerSession.DropHeldAudio | webapp/main.js:3616-3616 | The held chunks are discarded |
| CustomerTurns.CustomerSession.ReleaseGoesOn | webapp/main.js:3392-3396 | The next chunk of a release is handed over |
| CustomerTurns.CustomerSession.Judge | webapp/main.js:3566-3621 | Refines the verdict: nothing for the rest of a failed answer, the hold released for a passed sentence, dropped with a fallback for a failed one; in the answers' terms `CustomerVerdicts.FlagsAreRead` |
| CustomerTurns.CustomerSession.DropUnchecked | webapp/main.js:3662-3675 | Refines a turn's end that finds audio on hold: it is dropped and its answer fails |
| CustomerTurns.CustomerSession.FailTurn | webapp/main.js:3614-3621 | The answer fails and its fallback is asked for |
| CustomerTurns.CustomerSession.OnAssistantText | webapp/main.js:3530-3633 | Refines a sentence: second copies are passed over, any other is judged under the answer it belongs to |
| CustomerTurns.CustomerSession.OnAssistantAudioWav | webapp/main.js:3634-3658 | Refines a chunk: dropped, held or played |
| CustomerTurns.CustomerSession.OnTurnComplete | webapp/main.js:3659-3677 | Refines a turn's end: audio still held is dropped and its answer fails |
| CustomerTurns.CustomerSession.SpeakTurnFallback | webapp/main.js:3403-3415 | Refines asking for a fallback: once for each turn, waiting when no words are there |
| CustomerTurns.CustomerSession.FallbackGoesOn | webapp/main.js:3408-3430 | Refines the end of the wait: late words are taken from the waiting pieces, or there is nothing to say |
| CustomerTurns.CustomerSession.FallbackIsSpoken | webapp/main.js:3430-3433 | The fallback is over when its words have been played |
| SourceUtterances.NothingSaidIsLost | webapp/utils/translationGuards.js:363-450 | After every run, closed utterances followed by waiting segments are exactly the texts added since the last clear, in order; the last closed one is the one reported; provisional text implies no segments |
| SourceUtterances.TurnAndPendingPartitionCurrent | webapp/utils/translationGuards.js:401-416 | The turn's text and the pending text make up the current text; without a turn both are it |
| SourceUtterances.TurnKeepsItsWords | webapp/utils/translationGuards.js:356-358 | A turn with words keeps exactly these while it is open; everything said meanwhile is pending for the next |
| SourceUtterances.EmptyTurnTakesTheFirstSegment | webapp/utils/translationGuards.js:388-391 | A turn opened before any words takes the first segment iff it comes within three seconds, and never another one |
| SourceUtterances.LateWordsWait | webapp/utils/translationGuards.js:388-391 | Words that come later than that are left for the next turn |
| UtteranceHistory.EventsCloseExactly | webapp/utils/translationGuards.js:376-450 | Every event closes exactly the open turn's segments, or after four seconds without a turn all of them, and the others stay with new words last; which turn is open, what it takes and the provisional text are told likewise |
| UtteranceHistory.TurnClosesWhatWaited | webapp/utils/translationGuards.js:356-358 | A turn begun while segments wait closes exactly these as one utterance, and what was said meanwhile waits |
| UtteranceHistory.TimesAreTold | webapp/utils/translationGuards.js:376-438 | By the events alone: whether a turn is open and since when, and when words were last said |
| SourceUtterances.SourceUtterance.Add | webapp/utils/translationGuards.js:376-394 | Refines adding a segment: a pause closes the utterance, an empty young turn takes the segment |
| SourceUtterances.SourceUtterance.SetProvisional | webapp/utils/translationGuards.js:396-399 | Provisional text only while there are no segments |
| SourceUtterances.SourceUtterance.BeginTurn | webapp/utils/translationGuards.js:422-429 | A stale turn is closed first; an open one is left alone |
| SourceUtterances.SourceUtterance.EndTurn | webapp/utils/translationGuards.js:431-438 | The turn's segments become the last utterance, the others stay |
| SourceUtterances.SourceUtterance.Clear | webapp/utils/translationGuards.js:444-450 | Nothing waits and no turn is open |
| ProxyConnection.VerificationMayTakeItsTime | proxy_backend/src/server.js:136-191 | With a token that stays valid and a slot for the user, the connection is the same wherever among the frames the verification completes, if and only if at most 256 frames wait; what it does, call by call, is the same if and only if that holds or the first frame is refused in the words of the limit; with more than 256 the limit's refusal is all it does |
| ProxyConnection.FramesWait | proxy_backend/src/server.js:141-147 | While the token is verified frames wait in order, and the one too many closes the connection |
| ProxyConnection.OverStaysOver | proxy_backend/src/server.js:154-156 | A connection that is closing or closed drops every frame |
| ProxyConversation.ConversationIsTold | proxy_backend/src/server.js:136-243 | Everything a connection does is told by its frames: refused without a token, the verifier, the limit of 256 waiting frames, the start frame's faults, then each binary frame's data and each end to the session, up to the first frame that is neither |
| ProxyConversation.ClosingIsTold | proxy_backend/src/server.js:245-272 | A connection is closed once, its session told first; when the socket has closed the session is told |
| ProxyConnection.Connection.ReceiveFrame | proxy_backend/src/server.js:136-174 | Refines one frame in each state |
| ProxyConnection.Connection.Start | proxy_backend/src/server.js:193-227 | Refines the start frame: each fault has its answer, else a session of the right service |
| ProxyConnection.Connection.Begin | proxy_backend/src/server.js:219-226 | A session of the service is created and the connection is started |
| ProxyConnection.Connection.FailProtocol | proxy_backend/src/server.js:128-132 | One error message and one close, unless the connection is over |
| ProxyConnection.Connection.VerificationDone | proxy_backend/src/server.js:176-191 | Refines a good token: nothing if closed meanwhile, refused without a slot, else the waiting frames are replayed in order; the limiter changes only with the slot |
| ProxyConnection.Connection.Close | proxy_backend/src/server.js:245-253 | Closes once, ending the session |
| ProxyConnection.Connection.SocketClosed | proxy_backend/src/server.js:255-272 | The user's slot is given back iff one was taken |
| ProxyServer.SlotsAreExact | proxy_backend/src/server.js:524-537 | In every reachable state the total is the number of connections and each user's count is the number of the user's open connections, within the limits; no release finds nothing to release, also when a close overtakes a verification |
| ProxyServer.NothingIsHeldInTheEnd | proxy_backend/src/server.js:533-536 | With no connection left no slot is held |
| ProxyServer.RunKeepsExact | proxy_backend/src/server.js:176-191 | Exact accounting is kept by every run from every state that has it |
| ProxyConversation.UpgradeIsAcceptedExactly | proxy_backend/src/server.js:515-537 | In every run an upgrade is accepted iff it is welcome, draining has not begun and fewer connections than allowed are open; no other connection changes |
| ProxyConversation.UserIsLetInExactly | proxy_backend/src/server.js:176-191 | A verified user is let in iff fewer connections than allowed are the user's, and is refused with code 4429 otherwise |
| Limits.ConnectionLimiter.TryAcquireConnection | proxy_backend/src/limits.js:23-27 | Taken iff below the maximum |
| Limits.ConnectionLimiter.ReleaseConnection | proxy_backend/src/limits.js:29-31 | One less, never below zero |
| Limits.ConnectionLimiter.TryAcquireUser | proxy_backend/src/limits.js:33-38 | Taken iff the user is below the maximum; other users are untouched |
| Limits.ConnectionLimiter.ReleaseUser | proxy_backend/src/limits.js:40-44 | One less, and no entry for a user without connections |
| Limits.PruningDoesNotShow | proxy_backend/src/limits.js:71-77 | With a monotone clock, prunes anywhere change no answer of any take |
| Limits.WindowIsBounded | proxy_backend/src/limits.js:60-69 | In a window of w ms a key is granted at most perMinute + w * perMinute / 60000 takes |
| Limits.GrantsComeFromTheBucket | proxy_backend/src/limits.js:60-69 | Grants never exceed the bucket's level at the start and what has flowed in since |
| RateHistory.GrantedExactly | proxy_backend/src/limits.js:60-69 | By the times of the earlier grants alone: a take is granted if and only if, from each of them on, the grants including this one are no more than the allowance plus what has flowed in |
| RateHistory.PruneDropsExactlyTheFull | proxy_backend/src/limits.js:71-77 | A prune drops exactly the buckets that are full by now and leaves the others as they are |
| Limits.RateLimiter.TryTake | proxy_backend/src/limits.js:60-69 | Refines one take: refilled up to the capacity, granted iff a whole token is there |
| Limits.RateLimiter.PruneBuckets | proxy_backend/src/limits.js:72-77 | The loop deletes exactly the buckets that are full by now |
| Der.DecodeInvertsTlv | proxy_backend/src/selfSignedCert.js:18-24 | The reference decoder recovers tag, body and rest from the encoding followed by any bytes |
| Der.TlvInvertsDecode | proxy_backend/src/selfSignedCert.js:20-23 | Whatever the decoder accepts is what the encoder writes: one encoding for each element, with the shortest length |
| Der.DecodeAllInvertsTlvAll | proxy_backend/src/selfSignedCert.js:26-27 | A concatenation of elements reads back as the same list |
| Der.OidRoundTrip | proxy_backend/src/selfSignedCert.js:30-39 | An identifier reads back as the same arcs if and only if first <= 2, second < 40 for first < 2, and 40 * first + second <= 127 |
| Der.ArcIsRead | proxy_backend/src/selfSignedCert.js:33-37 | An arc of any size reads back, with no leading 0x80 |
| Der.EncodeTlv | proxy_backend/src/selfSignedCert.js:18-24 | The loop over the length octets writes the specified encoding |
| Der.EncodeArc | proxy_backend/src/selfSignedCert.js:34-36 | The loop over an arc's octets writes the specified ones |
| Der.EncodeOid | proxy_backend/src/selfSignedCert.js:30-39 | The loop over the arcs writes the specified body |
| SchemaNormalization.NormalizeIsCanonical | scripts/verify_v2v_support_agent_tools.py:38-88 | With the source's keywords and sort key, any two JSON values normalise to the same value if and only if they differ only by permuting `required` and `enum` arrays at schema positions |
| SchemaNormalization.CanonicalWhereTextsTell | scripts/verify_v2v_support_agent_tools.py:38-88 | The same for any keywords and any sort key, for a schema whose set arrays hold no two different elements with the same text |
| SchemaNormalization.NormalizeIsIdempotent | scripts/verify_v2v_support_agent_tools.py:38-88 | With any sort key, normalising changes nothing but that order, and normalising again changes nothing |
| SchemaMeaning.NormalizeTellsMeaning | scripts/verify_v2v_support_agent_tools.py:38-88 | By the keywords' names: two values normalise to the same one if and only if they differ only in the order of "required" and "enum" arrays where the named keywords hold schemas |
| SchemaMeaning.SetsAreSorted | scripts/verify_v2v_support_agent_tools.py:44-50 | A "required" or "enum" array keeps its elements and is sorted by their texts |
| SchemaMeaning.OtherValuesAreKept | scripts/verify_v2v_support_agent_tools.py:52-86 | What stands under any other keyword is kept as it is |
| SchemaNormalization.SortIsCanonical | scripts/verify_v2v_support_agent_tools.py:44-50 | An array whose elements' texts tell them apart sorts to the same one as another if and only if they hold the same elements as often |
| SchemaNormalization.SortForgetsOrderExactly | scripts/verify_v2v_support_agent_tools.py:44-50 | Every order of an array's elements sorts to the same array if and only if no two different elements have the same text |
| JsonText.DumpsIsInjective | scripts/verify_v2v_support_agent_tools.py:49-49 | `json.dumps(item, sort_keys=True)` writes different texts for different JSON values |
| JsonReading.QuotedReads | scripts/verify_v2v_support_agent_tools.py:49-49 | By section 7 of RFC 8259 a string's text reads back as the string, whatever characters it has, and ends at its quote |
| JsonReading.ArrayIsListed | scripts/verify_v2v_support_agent_tools.py:49-49 | An array's text is its elements' texts in order, `, ` between them |
| JsonReading.ObjectIsListed | scripts/verify_v2v_support_agent_tools.py:49-49 | An object's text is its fields' texts, `: ` after each key, every key once and in the order of Unicode texts |
| JsonText.TextTells | scripts/verify_v2v_support_agent_tools.py:49-49 | A value's text, followed by anything that may follow a value, determines the value and where its text ends |
| JsonText.EscapedTells | scripts/verify_v2v_support_agent_tools.py:49-49 | An escaped string ends at its closing quote and nowhere before, and determines the string |
| SchemaNormalization.KeywordsAreApart | scripts/verify_v2v_support_agent_tools.py:53-82 | No keyword is visited twice for the same kind of value, so the loops do not interfere |
| SchemaNormalization.NormalizeSchema | scripts/verify_v2v_support_agent_tools.py:38-88 | The loops over the keywords, updating a copy, compute the canonical form |
| SchemaNormalization.SortSets | scripts/verify_v2v_support_agent_tools.py:45-50 | The first loop sorts the arrays under set keywords and touches nothing else |
| SchemaNormalization.NormalizeMaps | scripts/verify_v2v_support_agent_tools.py:53-64 | The second loop normalises the schemas by name |
| SchemaNormalization.NormalizeSchemas | scripts/verify_v2v_support_agent_tools.py:66-80 | The third loop normalises the single schemas |
| SchemaNormalization.NormalizeLists | scripts/verify_v2v_support_agent_tools.py:82-86 | The fourth loop normalises the lists of schemas |
| SchemaNormalization.NormalizeByName | scripts/verify_v2v_support_agent_tools.py:61-64 | Every schema of a map is normalised under its name |
| SchemaNormalization.NormalizeEach | scripts/verify_v2v_support_agent_tools.py:84-86 | Every schema of a list is normalised in place |

## Left out

- Failover: notifications of state changes, the time spent on the backup and the readiness test for the
  handover; the operations given to the controller are assumed not to call it back, as `webapp/main.js:514-552`
  wires them.
- Speaker.BackupSpeaker.TranslationArrives: the two tries of a translation and the prefetched one are not
  modelled; what they give in the end is an input, at any time.
- Silence watchdog: word splitting and the share of contained words are parameters; the voice watchdog, the
  level meter and the mode poller are not modelled.
- Downsampler: the filter's design and floating-point rounding; coefficients are arbitrary, samples real and
  positions exact. A missing input rate and the WAV wrapper are not modelled.
- LinearResampler.ResamplePcm16Linear: works on samples instead of bytes, so an odd number of bytes is not modelled.
- Microphone: drains and views are values beside the stream object; the readers' world covers a stream that has
  not been destroyed.
- Audio vetting: the text heuristics are parameters and logging is left out. Which block an end ends is part of
  the events, for the code does not know it.
- Customer turns: the player itself, which takes any time over a chunk; turns are values by number; verdicts and
  remembered judgements are inputs; restarts for context hygiene, transcripts and session errors are not modelled.
- Source utterance: promises that wait for a segment.
- Limits: the tokens of the rate limiter are exact reals, without floating-point rounding.
- Proxy: HTTP requests, heartbeat, the draining delays, logging and metrics; the sessions' own behaviour. A
  timeout is a close at any time.
- Der: tags of several octets and the certificate's content, key and PEM form. Lengths are those the long form
  can announce (below 256^126).
- SchemaNormalization.NormalizeIsCanonical: a number is its numeral, so values are compared as JSON texts and
  Python's `1 == 1.0 == True` is not modelled; strings hold no lone surrogates. The comparison of whole tool
  configurations is not modelled.
- Everything else: AWS services, Lex and Connect configuration, the user interface, Web Audio and WebRTC, sign-in
  and cookies, certificate signing, statistics, queues and socket pools.
