# A verified model of Beacon

Beacon is a mesh messenger for iOS: push-to-talk and sealed messages over Bluetooth, with a
Nostr relay as fallback. This project models its stateful core and its codecs in Dafny and
proves what they promise over every input and every run.

`dafny verify dfyconfig.toml` checks the whole project.

## What is modelled

**The push-to-talk hold protocol** (`PttHold`, `StreamView`, `CaptureEngine`). Any number of
overlapping hold tasks share one holding flag, one token, one session slot and one capture
engine. A task suspends while it opens a session and while the microphone starts, and four
gates re-check the token afterwards. `PttHold` is the step machine with a ledger of opened and
closed sessions; `StreamView` holds the screen's fields, one method per uninterrupted segment,
each proved to take the machine's step and to stay on a recorded run, so that every result
about runs holds of the object. The main result is conservation of sessions; `PttOutcomes`
says exactly when a hold begins, records, ends and leaves a note.

**Boot, onboarding and erase** (`BootRouter`, `BootMachine`, `ContentView`). The world is a
Keychain identity, an Enclave key, store files, a session key, a Nostr secret and the sealed
contact stores. Every step may fail, the app may be killed between any two, and the mounted
arm may lag behind the phase. The results are about whole runs from a clean install. What is
promised holds throughout a run exactly when two clashes stay out of it: an identity saved under
an erase past its barrier, and terms accepted for a route that no longer holds
(`BootMachine.Clash`). The main actor's ordering of segments before taps is sufficient for that
(`BootMachine.OrderedRunsAreClean`). Results without a clash in their row hold of every run.
`BootOutcomes` says which screen boots, onboardings and erases end on.

**Bech32 and NIP-19** (`Bits`, `Bech32`, `Polymod`, `BechChecksum`, `BechString`, `Nip19`).
Regrouping is proved against bit strings. The checksum theory is stated for any linear,
invertible step and then instantiated, which gives unique checksums and detection of every
burst of up to six symbols at any length (BIP-173, section "Checksum"). `BechOutcomes` covers the
prefix, the alphabet and a test vector.

**Sealed audio frames** (`ReplayWindow`, `PttFrames`). A 64-bit window refines the set of all
accepted counters.

**Chunked media** (`MediaChunks`, `MediaReassembly`). The reassembler refines, for each
transfer, the set of pieces received since its last completion. For chunks, or chunks and
manifests, forged under a transfer's own id, the exact condition under which it can still be
received is proved. `MediaOutcomes` gives the bounds and the layout in numbers.

**Payload padding** (`Payload`), **delivery tracking** (`Router`, `MessageRouter`,
`RouterOutcomes`), **playout** (`Jitter`, `Playout`, `PttPlayer`, `PttSpurts`), **bounded FIFO
sets** (`Fifo`), **at-rest files and invite wire** (`AtRestCodec`, `Contacts`, `InviteWire`),
**NIP-44 padding** (`Nip44`) and **auto-play** (`AutoPlay`). `WireLayouts` gives the bytes of
every format field by field.

`Wrappers`, `BigEndian` and the bit modules are shared vocabulary.

## Where the code does not do what its comments say

- The router documents that no timer is ever armed for a cast message and that only a failure
  ack demotes it. Three inputs break this: a timer past its cancellation check when the relay
  takes the message, a timer armed while `send` is suspended that survives a relay outcome, and
  a superseded timer whose fire drops the slot of its successor, which a later commit then
  cannot cancel. `Router.CastKeptExactly` says from which states a cast message stays cast in
  every run, `Router.CommitSafeExactly` when a commit reaches such a state, and
  `Router.CastNeverTimed` and `Router.OrphansExactly` classify whole runs.
- An acknowledgement that arrives while a `send` of its message is suspended is overwritten by
  `.sent` and later times out; one that arrives while a reroute publishes is overwritten by
  `.cast`. `Router.AckFinalExactly` gives the exact condition.
- `decodeSealed` is documented as the exact inverse of `sealedPlaintext`. It is not for padded
  payloads from 2^25 up to 2^26 bytes, nor from 2^32 bytes on (`Payload.SealedRoundTrip`).
- `eraseEverything` calls the assembled wipe a no-op at the door. It is one only if this
  process never built a stack. When it was not built, the sealed contact stores survive an
  erase that reports success (`BootMachine.DoorEraseKeepsContactStores`).
- The terms are meant to gate onboarding as well as the ready screen. An erase from the door
  routes to onboarding without asking for them (`BootOutcomes.DoorEraseSkipsTerms`); the ready
  screen is always behind them (`BootOutcomes.ReadyNeedsTerms`).
- `completeOnboarding` stays in onboarding after a failed save "so the user can tap again". The
  view's `isGenerating` is never reset, so no tap is accepted (`BootMachine.FailedSaveIsFinal`).
- Auto-play keeps its claim when a note's setup resumes after its row left the screen; nothing
  releases it afterwards (`AutoPlay.BusyMeansOnScreenExactly`, `AutoPlay.LateClaimSticks`).
- One well-formed chunk with a wrong total under a transfer's id keeps that transfer from
  completing by anything its sender sends (`MediaReassembly.CanCompleteExactly`). Chunks with two
  different totals keep it from ever being received (`MediaReassembly.CanRecoverExactly`).
- The receiver's bounds limit the size a manifest claims. The length of what is reassembled is
  never compared with it, so the latter result needs no bound on the transfer.
- `push` on the jitter buffer returns true for a frame it evicts at once (`Playout.KeptButGone`).

## Model

| member | source | states |
|---|---|---|
| `PttHold.SessionsConserved` | Screens/Conversation1View.swift:576-693 | in every interleaving of presses, releases, dismissals and task resumptions each opened session is in exactly one place: with its task before Gate B, in the slot, or closed exactly once; nothing unopened is ever closed |
| `PttHold.QuiescentSessionsClosed` | Screens/Conversation1View.swift:576-693 | with no hold and no task before Gate B the slot is empty and every opened session was closed exactly once |
| `PttHold.SlotBelongsToCurrentHold` | Screens/Conversation1View.swift:600-626 | in every reachable state a non-nil `pttSessionID` implies `pttHolding` and was opened by the hold whose token is current |
| `PttHold.StaleTasksLeaveSlotAlone` | Screens/Conversation1View.swift:597-626 | no step of a superseded or released hold's task changes the slot |
| `PttHold.GateCNeverCloses` | Screens/Conversation1View.swift:610-626 | Gate C's own compare-and-close branch is never taken |
| `PttHold.MicrophoneOwned` | Screens/Conversation1View.swift:609-616 | a recording engine belongs to the current hold, or to a task that still has Gate C to run |
| `PttHold.MicrophoneOffWhenDrained` | Screens/Conversation1View.swift:654-675 | the engine is idle whenever no hold is live and all tasks have finished |
| `PttHold.MicrophoneOnOnlyWhileHeld` | Screens/Conversation1View.swift:608-616 | if `start` is entered in the segment that passed Gate B, the microphone is on only while its own hold is held |
| `PttHold.OneNotePerHold` | Screens/Conversation1View.swift:666-693 | every hold sends at most one note, in hold order, and only after it ended |
| `PttHold.UnguardedPressLosesSession` | Screens/Conversation1View.swift:2048-2051 | without the gesture's `holding` guard there is a run that ends with no hold, an empty slot and an opened session nobody closed |
| `PttHold.GapTurnsMicOnAfterRelease` | Screens/Conversation1View.swift:608-626 | a suspension between Gate B and `start` lets a release go first: the microphone comes on without a hold and Gate C turns it off |
| `PttOutcomes.HoldBeginsExactly` | Screens/Conversation1View.swift:577-586 | in any run a hold begins, with the next token and a task, exactly at a press of an unpressed globe under its cover |
| `PttOutcomes.HoldEndsExactly` | Screens/Conversation1View.swift:627-693 | in any run a hold ends exactly by its release, its cover or screen going away, or its denied microphone behind Gate C; its session is then closed once or still with its task, and a surface that goes away leaves no microphone on |
| `PttOutcomes.NoteSentExactly` | Screens/Conversation1View.swift:666-693 | in any run a step sends a note exactly if it is the release of a hold being recorded, the recording is readable, and the hold opened no session or sent fewer than 25 frames |
| `PttOutcomes.StartRecordsExactly` | Core/Media/PTTCaptureEngine.swift:252-345 | in any run `start` for a hold still held records for it exactly if the microphone was granted and the hardware came up; without a suspension before `start` it records for no other |
| `PttOutcomes.DenialEndsHold` | Screens/Conversation1View.swift:627-645 | a hold whose microphone was denied is over after Gate C with its session closed once; a granted one goes on with its slot |
| `PttOutcomes.UndisturbedHoldRecords` | Screens/Conversation1View.swift:577-626 | from any reachable state with the engine idle, a hold nothing disturbs ends up recording, with its own session or none in the slot |
| `PttOutcomes.RecordedHoldReleased` | Screens/Conversation1View.swift:666-693 | its release closes the session once, sends the note where it is due, and leaves globe, slot and engine free |
| `PttOutcomes.RecordingKept` | Core/Media/PTTCaptureEngine.swift:349-363 | in any run, while a hold goes on its own recording goes on, whatever older tasks do |
| `PttOutcomes.EntryOpensExactly` | Screens/Conversation1View.swift:582-587 | a task opens exactly if it finds its own hold current at its entry; otherwise it is done |
| `PttOutcomes.GlobeReady` | Screens/Conversation1View.swift:2048-2052 | the globe comes up unpressed with its cover and with every release |
| `StreamViewModel.StreamView.PressDown` | Screens/Conversation1View.swift:577-586 | the gesture and the synchronous part of `beginPTT` are the protocol's press step |
| `StreamViewModel.StreamView.PressUp` | Screens/Conversation1View.swift:666-693 | `endPTT` is the protocol's release step: owned stop, read and clear the slot, close, note |
| `StreamViewModel.StreamView.TeardownPTTIfHolding` | Screens/Conversation1View.swift:654-663 | teardown cancels without owner and closes what the hold armed, once |
| `StreamViewModel.StreamView.CoverDismissed` | Screens/Conversation1View.swift:229-237 | dismissing the cover is a teardown step |
| `StreamViewModel.StreamView.ScreenPopped` | Screens/Conversation1View.swift:202-209 | leaving the screen is a teardown step |
| `StreamViewModel.StreamView.TaskEntry` | Screens/Conversation1View.swift:582-587 | Gate A as a step |
| `StreamViewModel.StreamView.OpenReturns` | Screens/Conversation1View.swift:592-596 | `openPTT` returning a fresh session, or throwing and degrading to note-only |
| `StreamViewModel.StreamView.AfterOpen` | Screens/Conversation1View.swift:597-609 | Gate B with its token-validated slot write |
| `StreamViewModel.StreamView.StartReturns` | Screens/Conversation1View.swift:609-609 | `start` finishing, granted or denied |
| `StreamViewModel.StreamView.AfterStart` | Screens/Conversation1View.swift:610-645 | Gate C and the permission-denial surface |
| `CaptureEngine.PttCaptureEngine.BeginStart` | Core/Media/PTTCaptureEngine.swift:252-275 | a busy engine refuses `start`; an idle one records the owner and suspends |
| `CaptureEngine.PttCaptureEngine.ResumeStart` | Core/Media/PTTCaptureEngine.swift:275-345 | denial, abort, hardware failure and success each leave the state the source leaves |
| `CaptureEngine.PttCaptureEngine.StopOwned` | Core/Media/PTTCaptureEngine.swift:349-403 | only the owner stops; a note is yielded exactly for a readable recording that live audio did not make redundant |
| `CaptureEngine.PttCaptureEngine.CancelUnowned` | Core/Media/PTTCaptureEngine.swift:409-437 | cancel without owner never yields a note and aborts a start in flight |
| `BootRouter.RouteBoot` | Beacon/BootRouter.swift:53-72 | onboarding exactly on `.notFound`; unreadable and stack failure exactly on theirs; the stack is built only on a loaded identity |
| `BootMachine.PromisesHoldExactly` | Beacon/ContentView.swift:350-438 | over every run of boots, retries, terms, onboardings, erases and kills with failing steps: phases tell the truth, erases stay behind one barrier, sweeps stay swept and leftover files stay explained throughout, exactly if no step saves an identity (or wraps one after the Enclave key went) under an erase past the barrier and no terms are accepted for a route that no longer holds |
| `BootMachine.ClashBreaks` | Beacon/ContentView.swift:411-438 | either of those steps breaks the promises on the spot, from any state that had them |
| `BootMachine.PhasesTellTheTruth` | Beacon/ContentView.swift:350-438 | in every run without such a clash: onboarding, or terms held before it, implies no identity; ready and stack failure imply one |
| `BootMachine.UnclobberedExactly` | Beacon/ContentView.swift:411-423 | over every run: a generation never stands beside another or beside an identity, exactly if none is begun while another runs or an identity exists |
| `BootMachine.TripwireUnreachable` | Beacon/ContentView.swift:411-423 | in such runs the generated identity never meets one that is there, so `alreadyExists` never fires |
| `BootMachine.OrderedRunsAreClean` | Screens/OnboardingView.swift:191-199 | runs in which onboarding is begun only as the current phase, with no tapped erase still to run its first segment, have no clash and begin no such generation |
| `BootMachine.IdentityNeverReplaced` | Beacon/ContentView.swift:411-438 | no step from any state replaces an identity by another |
| `BootMachine.DeletesOnlyBehindBarrier` | Beacon/ContentView.swift:826-845 | in every run without a clash: short of reinstalling, anything is lost only by an erase step while the wiping arm is what is mounted |
| `BootMachine.EnclaveKeyOutlivesIdentity` | Beacon/ContentView.swift:846-905 | in every run without a clash the Enclave key is destroyed only when the identity item is already gone |
| `BootMachine.OneEraseAtATime` | Beacon/ContentView.swift:217-228 | in every run without a clash, however many erases are started, at most one is past the render barrier |
| `BootMachine.FiresOnlyWaiting` | Beacon/ContentView.swift:217-228 | in any run a render fires a continuation only while its erase waits on it |
| `BootMachine.ResumesAtMostOnce` | Beacon/ContentView.swift:841-845 | in any run no two steps fire the same continuation |
| `BootMachine.EraseReachesOnboardingClean` | Beacon/ContentView.swift:862-930 | in every run without a clash, an erase that routes to onboarding recorded no failure and left no identity, store file, session key or Nostr secret; contact stores survive exactly if the assembled wipe was absent and they existed |
| `BootMachine.OnboardingOverFilesExplained` | Beacon/ContentView.swift:846-928 | in every run without a clash, onboarding over surviving store files implies an erase cut short after its identity delete, or a late write by a stale handle |
| `BootMachine.OnboardingOverFilesEntered` | Beacon/ContentView.swift:364-390 | from any state, onboarding over store files is entered through a boot or the terms, never by an erase |
| `BootMachine.OrphanedEraseNeverRuns` | Beacon/ContentView.swift:841-845 | from any state an erase whose continuation was overwritten by a later one stays suspended for the rest of the process |
| `BootMachine.FailedSaveIsFinal` | Beacon/ContentView.swift:424-432 | after any run without a clash that is showing onboarding with one generation running and no erase spawned: if its save fails, nothing short of a relaunch leaves onboarding or tries again |
| `BootMachine.DoorEraseKeepsContactStores` | Beacon/ContentView.swift:300-343 | a run in which an erase from the door reaches onboarding without a recorded failure while the sealed contact stores survive |
| `BootMachine.SaveUnderEraseBreaksTruth` | Beacon/ContentView.swift:411-438 | a run in which an identity saved under an erase is still there when that erase routes to onboarding |
| `BootMachine.StaleTermsBreakTruth` | Beacon/ContentView.swift:179-183 | a run in which terms held before onboarding are accepted over an identity saved meanwhile |
| `BootOutcomes.EraseRoutesExactly` | Beacon/ContentView.swift:914-930 | over every run, an erase whose deletions have all answered, 12 with the assembled wipe and 4 without, shows onboarding exactly if none but the closing Enclave teardown failed, the store resolves and no store file is there; otherwise the door |
| `BootOutcomes.UndisturbedErase` | Beacon/ContentView.swift:826-930 | an erase tapped in any run on the ready screen or at the door and not disturbed shows onboarding exactly if its gate and every deletion but the closing Enclave teardown went well and the store resolves; otherwise the door, and with a failed gate nothing is lost |
| `BootOutcomes.BootShows` | Beacon/ContentView.swift:350-391 | the screen a boot shows, for each answer of the Keychain, the stack build and the terms |
| `BootOutcomes.RelaunchShows` | Beacon/ContentView.swift:350-391 | a relaunch keeps the world a boot then shows; a reinstall keeps the identity and asks for the terms again |
| `BootOutcomes.OnboardingReachesReady` | Beacon/ContentView.swift:411-438 | onboarding from any launch without an identity: the save decides whether one is kept, and the read and the stack build whether the app is ready |
| `BootOutcomes.OnboardingAgain` | Beacon/ContentView.swift:411-438 | onboarding entered again is a new view: a tap and a saved identity boot it as ever |
| `BootOutcomes.AcceptShows` | Beacon/ContentView.swift:179-183 | accepting the terms records it and shows what they were held before |
| `BootOutcomes.TripwireShowsDoor` | Beacon/ContentView.swift:415-423 | a generated identity that meets another is dropped at the door and the other stays |
| `BootOutcomes.BootLeaves` | Beacon/ContentView.swift:365-373 | a boot that builds the stack leaves a store, its key and the contact stores, takes nothing, and without an identity to read changes nothing |
| `BootOutcomes.ReadyNeedsTerms` | Beacon/ContentView.swift:374-391 | over every run the ready screen comes only after the terms were accepted, and with the assembled wipe built |
| `BootOutcomes.OnboardingWithoutTermsExactly` | Beacon/ContentView.swift:914-930 | from any state onboarding is entered without accepted terms exactly by an erase that ends well |
| `BootOutcomes.DoorEraseSkipsTerms` | Beacon/ContentView.swift:914-930 | a run that reaches onboarding by an erase from the door, in which no terms were accepted |
| `ContentViewModel.ContentView.RunBootstrap` | Beacon/ContentView.swift:350-391 | `bootstrap` is the machine's step: route, provision, then the terms gate |
| `ContentViewModel.ContentView.EnterRoute` | Beacon/ContentView.swift:397-407 | one phase per route |
| `ContentViewModel.ContentView.CompleteOnboarding` | Beacon/ContentView.swift:411-438 | save, tripwire, failure and success as the machine's step |
| `ContentViewModel.ContentView.Boot` | Beacon/ContentView.swift:350-391 | booting and retrying as a recorded step of the run |
| `ContentViewModel.ContentView.BeginGeneration` | Screens/OnboardingView.swift:191-199 | any tap the onboarding view accepts, as a recorded step of the run |
| `ContentViewModel.ContentView.TapEraseEverything` | Beacon/ContentView.swift:826-827 | a tap only spawns the erase |
| `ContentViewModel.ContentView.EraseEverything` | Beacon/ContentView.swift:841-845 | the first segment, whenever it runs, arms the barrier and flips to wiping |
| `ContentViewModel.ContentView.Commit` | Beacon/ContentView.swift:217-228 | a render commit resumes the armed erase exactly when the wiping arm appears |
| `ContentViewModel.ContentView.RunGate` | Beacon/ContentView.swift:847-855 | the identity delete gates everything else |
| `ContentViewModel.ContentView.RunSweep` | Beacon/ContentView.swift:862-912 | every deletion still runs; the collected failure flag is set exactly if a gating one failed |
| `ContentViewModel.ContentView.VerifyAndRoute` | Beacon/ContentView.swift:914-930 | onboarding exactly on no failure and verified absence of the store files |
| `Bech32.ConvertBits` | Core/Nostr/Bech32.swift:107-129 | the accumulator loop computes the regrouping of the bit string for any widths, padding included or refused |
| `Bech32.BytesRoundTrip` | Core/Nostr/Bech32.swift:107-129 | 8-to-5 then 5-to-8 is the identity on every byte string |
| `Bech32.SymbolsRoundTrip` | Core/Nostr/Bech32.swift:107-129 | 5-to-8 accepts only what 8-to-5 emits |
| `BechChecksum.Run` | Core/Nostr/Bech32.swift:38-48 | the two checksum loops are the fold of one step |
| `BechChecksum.IsChecksum` | Core/Nostr/Bech32.swift:34-48 | the BIP-173 step is linear over exclusive or, stays in 30 bits and loses no difference |
| `Polymod.ChecksumUnique` | Core/Nostr/Bech32.swift:60-68 | after any prefix exactly one six-symbol checksum is accepted, the computed one |
| `Polymod.BurstDetected` | Core/Nostr/Bech32.swift:38-48 | words that differ only within six adjacent symbols have different checksums at any length |
| `BechString.ChecksumVerifies` | Core/Nostr/Bech32.swift:60-68 | six symbols verify exactly when they are `createChecksum`'s |
| `BechString.BurstFailsChecksum` | Core/Nostr/Bech32.swift:60-63 | two data parts that differ only within six adjacent symbols never both verify |
| `BechString.EncodedDecodes` | Core/Nostr/Bech32.swift:71-102 | in ASCII decoding undoes encoding exactly for a nonempty human-readable part without upper-case letters |
| `BechString.EncodedFixed` | Core/Nostr/Bech32.swift:71-102 | in any script decoding undoes encoding exactly if the encoding is nonempty in front and its own lower case |
| `BechString.DecodesExactly` | Core/Nostr/Bech32.swift:83-102 | in any script a string decodes to a pair exactly when it is uniform in case and its lower-case form is that pair's encoding |
| `BechString.BurstRejected` | Core/Nostr/Bech32.swift:83-102 | in any script an accepted string with up to six adjacent data characters replaced, none by the separator, is rejected at any length |
| `BechOutcomes.HrpExpandIs` | Core/Nostr/Bech32.swift:50-58 | the expansion holds the high three bits of every prefix byte, a zero, and the low five bits of every one |
| `BechOutcomes.PrefixExchangeFails` | Core/Nostr/Bech32.swift:60-63 | the same symbols never verify under two prefixes of one length whose bytes share their high bits and differ within six adjacent ones |
| `BechOutcomes.PrefixExchangeRejected` | Core/Nostr/Bech32.swift:83-102 | in any script an accepted string with its prefix so exchanged is rejected |
| `BechOutcomes.UnmixedExactly` | Core/Nostr/Bech32.swift:84-86 | in ASCII a string passes the case check exactly if it does not hold both an upper-case and a lower-case letter |
| `BechOutcomes.Alphabet` | Core/Nostr/Bech32.swift:31-31 | the 32 characters in order |
| `BechOutcomes.VectorEncodes` | Core/Nostr/Bech32.swift:71-81 | a BIP-173 test vector, which touches all five generators |
| `BechOutcomes.VectorDecodes` | Core/Nostr/Bech32.swift:83-102 | it decodes in upper and in lower case and not in a mixture |
| `Nip19.KeyRoundTrip` | Core/Nostr/Bech32.swift:159-174 | every 32-byte key decodes back under any nonempty lower-case prefix |
| `Nip19.KeyStringsCanonical` | Core/Nostr/Bech32.swift:159-174 | in any script a string yields a key exactly when it is uniform in case and its lower case is that key's string |
| `Nip19.PrefixesDisjoint` | Core/Nostr/Bech32.swift:142-157 | a key string never decodes under another prefix |
| `BechOutcomes.NpubIsNoNsec` | Core/Nostr/Bech32.swift:142-157 | a public key string with its prefix rewritten is no secret key string, nor the other way round |
| `ReplayWindow.ReplayCheckExact` | Core/Media/PTTSessionCrypto.swift:172-178 | the bitmap test answers exactly whether the counter was accepted before or is 64 or more behind an accepted one |
| `ReplayWindow.CommitRepresents` | Core/Media/PTTSessionCrypto.swift:181-196 | committing keeps the bitmap standing for the set of all accepted counters |
| `PttFrames.WindowRepresentsAccepted` | Core/Media/PTTSessionCrypto.swift:141-196 | after any arrivals the 64-bit window represents the set of accepted counters |
| `PttFrames.AcceptedExactly` | Core/Media/PTTSessionCrypto.swift:156-169 | over any reordered, duplicated or forged arrivals a frame is refused as a replay exactly when stale, and otherwise the cipher decides |
| `PttFrames.AcceptedOnce` | Core/Media/PTTSessionCrypto.swift:156-169 | no counter is accepted twice |
| `PttFrames.ForgeriesInvisible` | Core/Media/PTTSessionCrypto.swift:150-169 | the window after any arrivals is the window after the authentic ones alone |
| `PttFrames.SealCounts` | Core/Media/PTTSessionCrypto.swift:98-114 | call k seals under start + k until the ceiling, and from there on refuses |
| `PttFrames.NonceNeverRepeats` | Core/Media/PTTSessionCrypto.swift:66-114 | no two seals of a session share a nonce |
| `PttFrames.HeardAtMostOnce` | Core/Media/PTTSessionCrypto.swift:98-169 | with a cipher that opens only sealed frames, each is heard at most once and as it was spoken |
| `PttFrames.WireRoundTrip` | Core/Media/PTTAudioWire.swift:34-50 | unpacking undoes packing exactly for 16-byte tags |
| `PttFrames.WireOnto` | Core/Media/PTTAudioWire.swift:44-50 | exactly the payloads of at least 24 bytes unpack, and packing restores them |
| `WireLayouts.NonceLayout` | Core/Media/PTTSessionCrypto.swift:66-73 | four zero bytes and the counter in eight, most significant first |
| `WireLayouts.FrameLayout` | Core/Media/PTTAudioWire.swift:34-42 | counter in eight bytes, ciphertext, sixteen bytes of tag |
| `PttFrames.PTTFrameSealer.Seal` | Core/Media/PTTSessionCrypto.swift:103-113 | refuse at the ceiling, otherwise seal under the counter and advance |
| `PttFrames.PTTFrameOpener.OpenFrame` | Core/Media/PTTSessionCrypto.swift:156-196 | accepts exactly fresh authentic counters; every refusal leaves window and accepted set unchanged |
| `MediaChunks.MakeChunker` | Core/Media/MediaChunker.swift:94-105 | only a known bucket with room for one media byte |
| `MediaChunks.Split` | Core/Media/MediaChunker.swift:122-165 | the carving loop yields the numbered pieces of the blob and its manifest; empty blobs and odd ids are refused |
| `MediaChunks.JoinCarve` | Core/Media/MediaChunker.swift:133-140 | the pieces concatenate to the blob |
| `MediaChunks.CarveCount` | Core/Media/MediaChunker.swift:133-140 | the piece count is the blob length divided by the piece size, rounded up |
| `MediaChunks.HexInjective` | Core/Media/MediaChunker.swift:154-155 | distinct ids have distinct hexadecimal keys |
| `MediaChunks.Reassemble` | Core/Media/MediaChunker.swift:191-233 | the loops give the result of the checks in source order: bounds, malformed, missing, inconsistent, gaps, integrity |
| `MediaChunks.MissingIndices` | Core/Media/MediaChunker.swift:237-250 | exactly the absent indices, increasing; nothing for an out-of-bounds manifest |
| `MediaReassembly.HonestReassembles` | Core/Media/MediaChunker.swift:191-233 | chunks of one transfer in any order with any duplicates reassemble to its bytes once all indices are present |
| `MediaReassembly.CompletesExactly` | Core/Media/MediaReassembler.swift:66-109 | over any interleaving, duplication and reordering, among arrivals of any other kind, an arrival completes a transfer nothing was forged under exactly when it is the last missing piece, and then with the original bytes |
| `MediaReassembly.FirstCompletion` | Core/Media/MediaReassembler.swift:95-109 | until the first completion the pieces got are exactly the pieces that arrived |
| `MediaReassembly.BuffersHoldWhatArrived` | Core/Media/MediaReassembler.swift:46-57 | the buffers hold, for each transfer nothing was forged under, exactly the pieces received since its last completion |
| `MediaReassembly.IntegrityKept` | Core/Media/MediaChunker.swift:225-231 | after any arrivals but a manifest forged under its own id, whatever is handed on under the id has the transfer's hash and metadata |
| `MediaReassembly.CanCompleteExactly` | Core/Media/MediaChunker.swift:199-224 | after any arrivals but a manifest forged under its own id, chunks forged under it included, a transfer can still complete with data of its hash and without such a manifest exactly when it is within bounds and no buffered chunk disagrees with it in total or index |
| `MediaReassembly.CanRecoverExactly` | Core/Media/MediaReassembler.swift:66-109 | after any arrivals whatsoever, manifests and chunks forged under its own id included, some continuation hands the transfer on with its own bytes exactly when the chunks buffered under its id fit one total up to 32768 |
| `MediaReassembly.OneChunkPoisons` | Core/Media/MediaReassembler.swift:74-79 | one well-formed chunk under the id with a wrong total or index is enough |
| `MediaReassembly.ResendCompletes` | Core/Media/MediaReassembler.swift:95-109 | from any state without such a chunk, sending everything again completes the transfer with data of its hash, whatever payloads were forged |
| `MediaReassembly.StraysChangeNothing` | Core/Media/MediaReassembler.swift:66-79 | out-of-bounds manifests and truncated chunks leave the state unchanged |
| `MediaReassembly.FramedChunksFill` | Core/Media/MediaChunker.swift:78-92 | with its reserved bytes every chunk but the last fills its bucket exactly, and the last fits |
| `MediaReassembly.MediaReassembler.Announce` | Core/Media/MediaReassembler.swift:66-70 | a manifest is stored and completion tried, or ignored when out of bounds |
| `MediaReassembly.MediaReassembler.Arrive` | Core/Media/MediaReassembler.swift:74-79 | a chunk is buffered under its id and completion tried |
| `MediaReassembly.MediaReassembler.Finish` | Core/Media/MediaReassembler.swift:95-109 | completion removes both buffers and carries the manifest's metadata |
| `MediaOutcomes.ManifestTakenExactly` | Core/Media/MediaChunker.swift:72-76 | a manifest is stored or completes exactly if it claims 1 to 32768 chunks and as many bytes up to 16777216; any other changes nothing |
| `MediaOutcomes.AnnouncementTakenExactly` | Core/Media/MediaChunker.swift:61-76 | the announcement of a blob is taken exactly if the blob has up to 16777216 bytes and fits 32768 chunks |
| `MediaOutcomes.SendingCompletes` | Core/Media/MediaReassembler.swift:66-109 | after any arrivals that forge nothing under its id and leave no piece pending, every blob of up to 16 MiB in the buckets 1024, 4096 and 16384, announced and then sent, comes back with its bytes at its last chunk |
| `MediaOutcomes.ReassembleVerdict` | Core/Media/MediaChunker.swift:191-233 | the refusals in order, each with its condition in numbers, and then the hash decides |
| `MediaOutcomes.ChunkLayout` | Core/Media/MediaChunker.swift:142-150 | id, index and total in four big-endian bytes each, payload |
| `MediaOutcomes.ChunkRead` | Core/Media/MediaChunker.swift:178-186 | 24 bytes or more are read by the same layout, fewer by none |
| `MediaOutcomes.HexDigits` | Core/Media/MediaChunker.swift:154-155 | two lower-case hexadecimal digits a byte, high half first |
| `Payload.PaddedSizeLeast` | Core/Media/PayloadPadding.swift:54-64 | the padded size is the least bucket or multiple of 16384 that holds the content |
| `Payload.PaddingRoundTrip` | Core/Media/PayloadPadding.swift:70-102 | padding is undone exactly below 4 GiB, where the header wraps |
| `Payload.SealedRoundTrip` | Core/Media/MessagePayload.swift:169-241 | `decodeSealed` inverts `sealedPlaintext` exactly for well-formed payloads that are media, or shorter than 2^32 with a length whose top byte is not a media tag |
| `Payload.SmallPayloadsRoundTrip` | Core/Media/MessagePayload.swift:225-241 | every well-formed payload under 2^25 bytes comes back |
| `Payload.MisreadAsMedia` | Core/Media/MessagePayload.swift:233-238 | a padded payload whose length has top byte 2 or 3 is decoded as media |
| `Payload.KindOf` | Core/Media/MessagePayload.swift:79-93 | exactly the tags 1 to 13 are kinds, 2 and 3 the media ones |
| `WireLayouts.Kinds` | Core/Media/MessagePayload.swift:79-93 | the number of each kind, written and read |
| `WireLayouts.DecodeExactly` | Core/Media/MessagePayload.swift:189-221 | a tag and a body decode, to themselves, exactly for tags 1 to 13 with a 48-byte open and a 16-byte close |
| `WireLayouts.SealedLayout` | Core/Media/MessagePayload.swift:169-178 | media bare; anything else behind its four-byte length and padded with zeros |
| `WireLayouts.UnpadExactly` | Core/Media/PayloadPadding.swift:85-102 | a padded payload is read by its length alone |
| `Router.SlotsHoldLiveTimers` | Core/Protocol_Seam/MessageRouter.swift:504-526 | over every run each slot names a live timer of its own message, and everything under way is tracked |
| `Router.CastTimedExactly` | Core/Protocol_Seam/MessageRouter.swift:254-258 | for each message, from any reachable state in which it is not cast with a live timer: a step makes it so exactly if it hands this message to the relay over a live timer, by a send, or by a commit or reroute over a timer no slot names |
| `Router.CastNeverTimed` | Core/Protocol_Seam/MessageRouter.swift:370-399 | over every run, for each message: it is never cast with a live timer exactly if no step of the run is such a hand-off of it |
| `Router.OrphansExactly` | Core/Protocol_Seam/MessageRouter.swift:504-521 | over every run: a live timer escapes its slot exactly if a cancelled timer fires while its message is armed |
| `Router.CastFailsExactly` | Core/Protocol_Seam/MessageRouter.swift:430-448 | in any state a cast message fails exactly by a failure ack, a failing resend, or the fire of one of its timers |
| `Router.TimerFailsCast` | Core/Protocol_Seam/MessageRouter.swift:504-521 | in any run the timer that fails a cast message had passed its check before it was cancelled, or an earlier hand-off of that same message left it a live timer |
| `Router.CastKeptExactly` | Core/Protocol_Seam/MessageRouter.swift:436-448 | a cast message stays cast in every run in which nothing acts on it, exactly when none of its timers is past its check or alive |
| `Router.CommitSafeExactly` | Core/Protocol_Seam/MessageRouter.swift:444-448 | committing to the relay makes a message safe from timers exactly when every timer that threatens it is asleep in its own slot |
| `Router.SupersededFireHarmless` | Core/Protocol_Seam/MessageRouter.swift:504-521 | the fire of a superseded timer changes nothing exactly when its message is settled and unarmed |
| `Router.CancelledSleeperNeverFires` | Core/Protocol_Seam/MessageRouter.swift:504-512 | a timer cancelled while asleep never fires in any run |
| `Router.AckFinalExactly` | Core/Protocol_Seam/MessageRouter.swift:228-259 | an acknowledgement survives all of the router's own steps exactly when neither a send nor a reroute of that message is under way |
| `Router.TerminalMovedExactly` | Core/Protocol_Seam/MessageRouter.swift:409-448 | which events take a settled message out of its state, exactly |
| `Router.LateTimerFailsCast` | Core/Protocol_Seam/MessageRouter.swift:504-521 | a run in which a timer past its check fails a message the relay has taken |
| `Router.ExtendDuringSendFailsCast` | Core/Protocol_Seam/MessageRouter.swift:395-399 | a run in which an extension during a send leaves a timer that fails a cast message |
| `Router.OrphanSurvivesCommit` | Core/Protocol_Seam/MessageRouter.swift:517-526 | a run in which a superseded timer drops its successor's slot, so that a commit leaves the successor alive |
| `Router.AckDuringSendIsLost` | Core/Protocol_Seam/MessageRouter.swift:254-258 | a run in which an ack that overtakes the end of its send is overwritten and times out |
| `Router.AckDuringRerouteIsLost` | Core/Protocol_Seam/MessageRouter.swift:326-351 | a run in which an ack that lands while a reroute publishes is overwritten by the relay hand-off |
| `RouterOutcomes.TimeoutsArmExactly` | Core/Protocol_Seam/MessageRouter.swift:377-399 | from any reachable state a timeout is started or extended, its old timer cancelled, exactly for a message sent, waiting for range or finding its path; otherwise nothing changes |
| `RouterOutcomes.AckSettles` | Core/Protocol_Seam/MessageRouter.swift:425-428 | an ack ends a tracked message as delivered or relayed by its hops and cancels its timer; of an unknown one it changes nothing |
| `RouterOutcomes.FailureSettles` | Core/Protocol_Seam/MessageRouter.swift:431-434 | a failure ack ends a tracked message and cancels its timer |
| `RouterOutcomes.CommitCasts` | Core/Protocol_Seam/MessageRouter.swift:444-448 | a relay commit casts a tracked message and cancels its slot's timer |
| `RouterOutcomes.QuietCalls` | Core/Protocol_Seam/MessageRouter.swift:361-420 | sending, tracking and finding a path set the status and leave all timers alone |
| `RouterOutcomes.SendEndsAs` | Core/Protocol_Seam/MessageRouter.swift:254-259 | the radio's answer becomes the status; sent arms a timer, failed cancels it, the others leave it |
| `RouterOutcomes.FireFailsExactly` | Core/Protocol_Seam/MessageRouter.swift:517-521 | a fired timer fails exactly a tracked, unsettled message |
| `RouterOutcomes.UnackedFails` | Core/Protocol_Seam/MessageRouter.swift:504-521 | from any reachable state a message handed to the radio and not acknowledged has failed once its timer has run |
| `RouterOutcomes.AckedStays` | Core/Protocol_Seam/MessageRouter.swift:425-428 | one acknowledged before that, with nothing else of it under way, keeps its ack whatever the router does, and its timer never fires |
| `RouterOutcomes.RerouteAdmitsExactly` | Core/Protocol_Seam/MessageRouter.swift:326-335 | in any run a reroute takes a message exactly if it is tracked and unsettled, was sent, and has not begun rerouting since |
| `RouterOutcomes.RerouteEndsAs` | Core/Protocol_Seam/MessageRouter.swift:346-349 | a reroute the relay took casts the message and cancels its timer; a miss changes neither status nor timer |
| `MessageRouterModel.MessageRouter.BeginSend` | Core/Protocol_Seam/MessageRouter.swift:228-239 | `send` up to its suspension |
| `MessageRouterModel.MessageRouter.EndSend` | Core/Protocol_Seam/MessageRouter.swift:254-259 | `send` after its suspension |
| `MessageRouterModel.MessageRouter.BeginTracking` | Core/Protocol_Seam/MessageRouter.swift:361-368 | tracks an unknown id and nothing else |
| `MessageRouterModel.MessageRouter.StartDeliveryTimeout` | Core/Protocol_Seam/MessageRouter.swift:377-381 | arms only a tracked, unsettled, uncast message |
| `MessageRouterModel.MessageRouter.ExtendTimeout` | Core/Protocol_Seam/MessageRouter.swift:395-399 | re-arms only a tracked, unsettled, uncast message |
| `MessageRouterModel.MessageRouter.MarkFindingPath` | Core/Protocol_Seam/MessageRouter.swift:417-420 | marks a tracked message as routing |
| `MessageRouterModel.MessageRouter.ConfirmDelivery` | Core/Protocol_Seam/MessageRouter.swift:425-428 | delivered or relayed by hop count, timer cancelled |
| `MessageRouterModel.MessageRouter.ConfirmFailure` | Core/Protocol_Seam/MessageRouter.swift:431-434 | not delivered, timer cancelled |
| `MessageRouterModel.MessageRouter.CommitToRelay` | Core/Protocol_Seam/MessageRouter.swift:444-448 | cast, timer cancelled |
| `MessageRouterModel.MessageRouter.StartReroute` | Core/Protocol_Seam/MessageRouter.swift:326-335 | a reroute queues the entries its snapshot admits |
| `MessageRouterModel.MessageRouter.BeginReroute` | Core/Protocol_Seam/MessageRouter.swift:337-346 | an entry is flagged and its publication suspends |
| `MessageRouterModel.MessageRouter.EndReroute` | Core/Protocol_Seam/MessageRouter.swift:346-349 | a relay success commits without looking at the entry again |
| `MessageRouterModel.MessageRouter.TimeoutFired` | Core/Protocol_Seam/MessageRouter.swift:517-521 | a fired timer clears the slot and fails an unsettled message |
| `Playout.PlaysInOrder` | Core/Media/PTTPlayer.swift:37-102 | under any pushes and any clock frames play in strictly increasing sequence, the buffer stays within 8 and beyond `lastPlayed` |
| `Playout.EveryFrameAccountedFor` | Core/Media/PTTPlayer.swift:73-101 | every pushed frame is played, refused, evicted, purged, flushed or still held, counted with multiplicity |
| `Playout.PlayedWasPushed` | Core/Media/PTTPlayer.swift:89-97 | what is heard was pushed with the same samples |
| `Playout.TrimKeepsNewest` | Core/Media/PTTPlayer.swift:78-81 | the cap evicts only frames older than all it keeps |
| `Playout.KeptButGone` | Core/Media/PTTPlayer.swift:70-83 | a push reported as kept is gone at once exactly when the buffer was full of newer frames |
| `Jitter.PTTJitterBuffer.Push` | Core/Media/PTTPlayer.swift:74-83 | late and duplicate frames are refused; the eviction loop trims to the newest eight |
| `Jitter.PTTJitterBuffer.PopSlot` | Core/Media/PTTPlayer.swift:89-97 | the slot plays, is a gap or an underrun; the gate advances and passed frames are purged |
| `Jitter.PTTJitterBuffer.Flush` | Core/Media/PTTPlayer.swift:101-101 | queued frames go, the gate stays |
| `PttPlayer.HeardInOrder` | Core/Media/PTTPlayer.swift:208-314 | over every run of frames, ticks, drops and dying engines, within one life of a link's buffer frames are heard in strictly increasing sequence across spurts, as enqueued; only the claiming link holds frames |
| `PttPlayer.OnlyClaimHeard` | Core/Media/PTTPlayer.swift:204-221 | only the link holding the claim is heard, one frame per tick |
| `PttSpurts.PushExactly` | Core/Media/PTTPlayer.swift:74-83 | a frame is kept exactly if its slot has not passed and it is not held; below eight frames nothing else changes |
| `PttSpurts.PopExactly` | Core/Media/PTTPlayer.swift:89-97 | a slot plays its frame, is a gap before later frames or finds nothing; later frames stay and the gate moves |
| `PttSpurts.SpurtHeard` | Core/Media/PTTPlayer.swift:208-290 | in any run, one to eight frames in sequence queued between spurts are heard one a tick from the first tick, or with fewer than three from the sixth, and not before |
| `PttSpurts.SpurtOver` | Core/Media/PTTPlayer.swift:297-314 | the claim is held through two silent ticks after the last frame and free with the third |
| `PttSpurts.TickHears` | Core/Media/PTTPlayer.swift:277-291 | on a playing spurt a slot whose frame is held is heard, and the silence starts over |
| `PttSpurts.TickMisses` | Core/Media/PTTPlayer.swift:277-291 | a slot whose frame is missing is silence; the third in a row ends the spurt and keeps the gate |
| `PttSpurts.DropForgets` | Core/Media/PTTPlayer.swift:225-230 | a dropped link is forgotten and gives up the claim if it holds it |
| `PttSpurts.EngineEnds` | Core/Media/PTTPlayer.swift:270-275 | an engine that dies or does not come up ends the spurt unheard, the gate kept |
| `PttSpurts.BusyDrops` | Core/Media/PTTPlayer.swift:214-219 | while one link holds the claim the frames of any other are dropped |
| `Fifo.RememberedExactly` | Core/Routing/ProcessedEventLedger.swift:68-82 | an id is remembered until exactly `capacity` further ids have come for the first time |
| `Fifo.InsertBounded` | Core/Routing/ProcessedEventLedger.swift:68-82 | insertion keeps the order duplicate-free and within capacity |
| `Fifo.InsertAllBounded` | Core/Protocol_Seam/MessageRouter.swift:77-96 | so does any run of insertions, in the ledger and in the router's seen cache |
| `Fifo.DecodeInvertsEncode` | Core/Routing/ProcessedEventLedger.swift:93-124 | decoding a stored ledger gives back its order and capacity |
| `Fifo.ProcessedEventLedger.ContainsOrInsert` | Core/Routing/ProcessedEventLedger.swift:73-82 | reports membership, keeps lookup set and order in agreement, evicts the oldest |
| `Fifo.ProcessedEventLedger.Contains` | Core/Routing/ProcessedEventLedger.swift:85-85 | membership in the order |
| `Fifo.ProcessedEventLedger.Decode` | Core/Routing/ProcessedEventLedger.swift:93-118 | any stored order is repaired to first sights, newest kept, within the cap |
| `Fifo.FirstSeen` | Core/Routing/ProcessedEventLedger.swift:102-108 | the loop keeps first sights in order |
| `Fifo.WaveformBarCache.Store` | Screens/Conversation1View.swift:1217-1227 | the value is found; at most the oldest other entry is lost, none changed |
| `AtRestCodec.EncodingCanonical` | Security/Session/ContactAllowlistCodec.swift:70-93 | the bytes do not depend on the order in which the table is iterated |
| `AtRestCodec.DecodeEncode` | Security/Session/ContactAllowlistCodec.swift:70-134 | encoding fails only on count or id size, and decoding gives the table back |
| `AtRestCodec.ReencodeExactly` | Security/Session/ContactAllowlistCodec.swift:99-134 | re-encoding an accepted file reproduces it exactly when its records are in ascending order |
| `AtRestCodec.SortCanonical` | Security/Session/PendingInvitesCodec.swift:77-96 | two listings of one table sort to the same sequence |
| `WireLayouts.FileLayout` | Security/Session/ContactAllowlistCodec.swift:70-93 | version 1, the count in two bytes, the records |
| `WireLayouts.RecordAt` | Security/Session/ContactAllowlistCodec.swift:82-93 | record after record in ascending order, each the id and its body |
| `WireLayouts.ContactLayout` | Security/Session/ContactAllowlistCodec.swift:82-93 | 32 bytes of identity, the time in eight, 1 for verified and 0 for not |
| `WireLayouts.PendingLayout` | Security/Session/PendingInvitesCodec.swift:77-96 | 16 bytes of id, the expiry in eight |
| `WireLayouts.EncodeVerdict` | Security/Session/ContactAllowlistCodec.swift:70-93 | a table is refused for its count first, then for the size of its first odd id in order |
| `WireLayouts.DecodeVerdict` | Security/Session/ContactAllowlistCodec.swift:99-134 | a file is refused for its header, version or length, in this order, and then only for a record |
| `AtRestCodec.DecodeListed` | Security/Session/ContactAllowlistCodec.swift:99-134 | records in any order, ascending or not, decode to their table |
| `Contacts.AllowlistRoundTrip` | Security/Session/ContactAllowlistCodec.swift:70-134 | the allowlist file decodes to its allowlist, whatever the iteration order |
| `Contacts.InvitesRoundTrip` | Security/Session/PendingInvitesCodec.swift:77-126 | the invite ledger file decodes to its ledger, whatever the iteration order |
| `Contacts.BurnsOnce` | Security/Session/Invite.swift:219-233 | between two successful burns of an id lies a registration of it |
| `Contacts.PendingSince` | Security/Session/Invite.swift:209-248 | a pending id carries the expiry of a registration nothing has touched since |
| `Contacts.PendingExactly` | Security/Session/Invite.swift:209-248 | after any calls an id is pending with an expiry exactly if a registration with that expiry stands: not registered again, not burned, not pruned as expired |
| `Contacts.BurnsExactly` | Security/Session/Invite.swift:219-233 | a call burns its invite exactly if a registration of the id stands and its expiry plus skew is not past |
| `Contacts.PendingInvites.RegisterInvite` | Security/Session/Invite.swift:210-212 | an id becomes pending with its expiry |
| `Contacts.PendingInvites.ConsumeInvite` | Security/Session/Invite.swift:223-233 | true exactly for a pending, live id; the id is gone in any case |
| `Contacts.PendingInvites.PruneExpired` | Security/Session/Invite.swift:244-247 | exactly the live ids remain |
| `InviteWire.InviteRoundTrip` | Security/Session/Invite.swift:101-142 | parsing undoes printing exactly for a 16-byte id and a 32-byte or absent key |
| `InviteWire.InviteOnto` | Security/Session/Invite.swift:115-142 | only printed bytes parse |
| `InviteWire.InvitePrefixFree` | Security/Session/Invite.swift:115-142 | no valid invite is a proper prefix of another |
| `InviteWire.PairingRoundTrip` | Security/Session/PairingPayload.swift:63-94 | parsing undoes printing exactly when a present key has 32 bytes |
| `InviteWire.PairingOnto` | Security/Session/PairingPayload.swift:75-94 | only printed bytes parse |
| `InviteWire.PairingPrefixFree` | Security/Session/PairingPayload.swift:75-94 | no valid payload is a proper prefix of another |
| `WireLayouts.InviteLayout` | Security/Session/Invite.swift:101-113 | version 1, id, minted, expires, and the length-prefixed payload |
| `WireLayouts.PairingLayout` | Security/Session/PairingPayload.swift:63-73 | version 1, the bundle and the key, each behind its length |
| `Nip44.PaddingBounded` | Core/Nostr/NIP44.swift:154-161 | at least the input, with less than max(32, n/4) added |
| `Nip44.PaddedMonotone` | Core/Nostr/NIP44.swift:154-161 | longer inputs are never padded shorter |
| `Nip44.PaddedIdempotent` | Core/Nostr/NIP44.swift:154-161 | a padded length pads to itself |
| `Nip44.PaddingRoundTrip` | Core/Nostr/NIP44.swift:133-174 | exactly texts of 1 to 65535 bytes come back from padding, anything else is refused |
| `Nip44.PaddedLeast` | Core/Nostr/NIP44.swift:154-161 | up to 32 the padded length is 32; above, the least multiple, from the input on, of an eighth of the next power of two, or of 32 if that is more |
| `WireLayouts.Nip44Layout` | Core/Nostr/NIP44.swift:165-174 | two bytes of length, the text, zeros |
| `WireLayouts.Nip44Reads` | Core/Nostr/NIP44.swift:133-152 | a text is read exactly if its length is positive, the padding is the one due to it, and it is text |
| `AutoPlay.OneClaimAtMost` | Screens/Conversation1View.swift:1192-1207 | over every run at most one note holds the claim, the serializer is busy exactly when one does, and its level is zero when free |
| `AutoPlay.BusyMeansOnScreenExactly` | Screens/Conversation1View.swift:1308-1342 | the holder is on screen if and only if no task took the claim after its row was gone |
| `AutoPlay.LateClaimSticks` | Screens/Conversation1View.swift:1326-1342 | a run in which a row that is gone takes the claim |
| `AutoPlay.StuckForever` | Screens/Conversation1View.swift:1326-1342 | a claim held by a row that is gone is never released |
| `AutoPlay.TurnsExactly` | Screens/Conversation1View.swift:1308-1342 | over every run the serializer passes to a note exactly when its row's task resumes with it eligible for the first time, recent, and nothing playing, and is freed exactly when the row that holds it stops or disappears; the level follows the holder |
| `AutoPlay.PTTAutoPlay.Claim` | Screens/Conversation1View.swift:1199-1203 | the first claim wins, later ones are refused |
| `AutoPlay.PTTAutoPlay.ReleaseClaim` | Screens/Conversation1View.swift:1204-1206 | only the holder frees the serializer, and silences it |
| `AutoPlay.VoiceNote.MaybeAutoPlay` | Screens/Conversation1View.swift:1326-1335 | one try per row, claiming only when eligible, recent and free |
| `AutoPlay.VoiceNote.ReleaseAutoPlay` | Screens/Conversation1View.swift:1337-1342 | a row releases only a claim it holds |

## Left out

Assumptions of the models:

- Session ids returned by `openPTT` are fresh, and hold tokens do not wrap.
- The globe's gesture fires only while the walkie cover is up, and `onAppear` fires once per entry into the wiping arm.
- The Keychain answers "not found" only when the item is absent; no item disappears except by a modelled step.
- A voice-note row appears once; its task may resume at any later time.
- The cipher, SHA-256 and Opus are functions passed in as parameters; a cipher result depends on the frame alone.
- A character of a bech32 string is atomic; case mapping and UTF-8 outside ASCII are parameters.
- MediaChunks.Split: the chunk count fits 32 bits, where the source would trap; random ids are a parameter.
- InviteWire.InviteRoundTrip: blob lengths fit 32 bits, where the source would trap.
- Contacts.PendingInvites.ConsumeInvite: expiry plus skew is exact, where the source would trap on overflow.
- MediaReassembly.CompletesExactly: speaks of transfers under whose id nothing was forged; for the others MediaReassembly.CanCompleteExactly and MediaReassembly.CanRecoverExactly say when they can still be received, not at which arrival they are.

Not modelled:

- Views, layout, animation, audio and video processing.
- libsignal sessions, key derivation, ChaCha20, HMAC, secp256k1, JSON encoding of manifests and ledgers.
- Core Bluetooth, websockets, the relay pool and split-horizon flooding.
- The router's `stop`, its update stream, and which peers a reroute selects.
- Enrollment, blocking, content filtering, reporting and calls.
- Progress of the scheduler: the results are about safety and quiet states.
