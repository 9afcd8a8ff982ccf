# Speech path and small state machines of the translator front end

This project is a Dafny model of the logic in a translator web front end (TypeScript and React). The rest of that front end is presentation code and `fetch` wrappers.

- **WAV encoder and Yoruba synthesis (`lib/yoruba-tts.ts`).**
  - `floatToWavBlob` turns float samples into a 16-bit mono PCM WAV file.
  - The model fills an `array` of bytes step by step: tags, little-endian header fields, then samples.
  - It is proved equal to a pure `WavFile` function.
  - `WavFile`'s header fields and samples are stated field by field.
  - A separate reader, `ParseWav`, is proved to recover the sample rate and the quantized samples. This is the round trip.
  - `getSynthesizer` is a create-once cache in a `Synthesizer` class.
  - `synthesizeYorubaToBlob` encodes the model output at the rate the model reported.
- **Audio unlock gate (`lib/audio-unlock.ts`).**
  - A `Gate` class holds the module flags `unlocked` and `unlocking`.
  - Each platform step succeeds or throws, as given by a `Platform` value.
  - Only the AudioContext constructor's exception escapes. Every other failure is swallowed.
  - The priming procedure completes at most once over any sequence of calls.
- **Translate form (`components/translate-form.tsx`).**
  - `mapToBcp47` is the tag table lookup.
  - `selectVoiceForLang` is the four-tier voice search. It is proved to pick the earliest voice of the best rank.
  - `handleSpeak` is the speech cascade. Each stage's success is a parameter, and the calls made are recorded as events.
  - Lemmas state which stages run, in what order, and that the speaking flag is raised first and lowered on every exit.
  - `swapLanguages` exchanges the panes.
- **Toasts (`components/ui/toast.tsx`).**
  - Toasts are objects whose keys may be absent, present but `undefined`, or present with a value. This is what object spread distinguishes.
  - `notify` prepends the merged toast and returns the auto-dismiss timer it starts. The timer removes by the generated id.
  - As the code is written, a toast whose id the caller overrode is not removed by its own timer (`OverriddenIdOutlivesTimer`).
  - `remove` is a filter by id.
  - The model also covers the kind helpers and `badge`.
- **Sign-up form (`components/auth/signup-form.tsx`).** `handleSubmit` runs two ordered checks, then the loading flag and the error message around the sign-up call.
- **Feedback dialog (`components/feedback-modal.tsx`).** The model covers:
  - the rating, the hover preview and the star highlight;
  - the payload, with the trimmed suggestion left out when blank;
  - the disabled submit button.

Two shared modules support the rest:
- `Text` models the JavaScript string operations the code uses: ASCII `toLowerCase`, `startsWith`, `split("-")[0]` and `trim` with the ECMAScript white-space set.
- `Wrappers` provides an `Option` type.

Foreign calls enter as parameters. These are the neural pipeline, inference, the backend TTS request, the sign-up request, the platform speech engine, `Math.random` ids and the presence of `window`.

## Model

| member | source | states |
|---|---|---|
| Wav.Le16 | lib/yoruba-tts.ts:56-67 | `setUint16`/`setInt16` with little-endian set store two bytes for the value modulo 2^16, low byte first (read back by `Le16Reads`) |
| Wav.Le32 | lib/yoruba-tts.ts:52-63 | `setUint32` with little-endian set stores four bytes for the value modulo 2^32, low byte first (read back by `Le32Reads`) |
| Wav.Le16Reads | lib/yoruba-tts.ts:56-61 | the little-endian uint16 read of the two bytes written is the value modulo 2^16 |
| Wav.Le32Reads | lib/yoruba-tts.ts:52-63 | the little-endian uint32 read of the four bytes written is the value modulo 2^32 |
| Wav.Le16ReadsSigned | lib/yoruba-tts.ts:67 | a value in the int16 range, stored little-endian, reads back as the same signed value |
| Wav.Ascii | lib/yoruba-tts.ts:35-38 | one byte per character, the character code modulo 256, as `setUint8` stores it |
| Wav.Clamp | lib/yoruba-tts.ts:42 | the clamped sample lies in [-1, 1]: inputs inside are kept, inputs beyond saturate at ±1 |
| Wav.Trunc | lib/yoruba-tts.ts:43 | the Int16Array store truncates toward zero |
| Wav.Wrap16 | lib/yoruba-tts.ts:43 | the Int16Array store wraps to [-32768, 32767], congruent modulo 2^16 |
| Wav.Int16Store | lib/yoruba-tts.ts:43 | the value an Int16Array element keeps is a signed 16-bit value, and for an input already in the int16 range it is the input truncated toward zero |
| Wav.Quantize | lib/yoruba-tts.ts:40-44 | a quantized sample is in [-32768, 32767] and keeps the sign of the input; the wrap never fires after the clamp |
| Wav.QuantizeSaturates | lib/yoruba-tts.ts:42-43 | inputs beyond ±1 encode like ±1, that is 32767 and -32768 |
| Wav.QuantizeMonotone | lib/yoruba-tts.ts:42-43 | quantization is monotone despite the asymmetric scale |
| Wav.Quantized | lib/yoruba-tts.ts:40-44 | the pcm16 array has one quantized value per input sample |
| Wav.WavFile | lib/yoruba-tts.ts:31-70 | the file is 44 + 2n bytes: the 44-byte header followed by the little-endian samples |
| Wav.PcmBytesAt | lib/yoruba-tts.ts:65-68 | quantized sample i occupies bytes 2i and 2i+1 of the data area, little-endian |
| Wav.TagBytes | lib/yoruba-tts.ts:51-62 | the tag strings are the bytes of "RIFF", "WAVE", "fmt " and "data" |
| Wav.RiffHeadFields | lib/yoruba-tts.ts:51-53 | "RIFF", then the uint32 36 + 2n, then "WAVE" |
| Wav.FmtChunkFields | lib/yoruba-tts.ts:54-61 | the `fmt ` chunk: size 16, format 1, one channel, the sample rate, byte rate = 2 × rate, block align 2, 16 bits |
| Wav.DataHeadFields | lib/yoruba-tts.ts:62-63 | "data", then the uint32 2n |
| Wav.HeaderFields | lib/yoruba-tts.ts:46-63 | all header fields at offsets 0 to 43 |
| Wav.WavHeaderFields | lib/yoruba-tts.ts:32-63 | the file has exactly 44 + 2n bytes, with every tag and field at its offset; for n = 0 that is a 44-byte file with data size 0 |
| Wav.WavSampleAt | lib/yoruba-tts.ts:65-68 | the int16 at offset 44 + 2i is the quantized sample i |
| Wav.DecodePcmBytes | lib/yoruba-tts.ts:65-68 | decoding the data area gives back the int16 samples written |
| Wav.ParseWav | lib/yoruba-tts.ts:46-63 | the reader accepts exactly the byte strings with the fixed fields and consistent sizes the encoder writes |
| Wav.ParseWavFile | lib/yoruba-tts.ts:31-71 | round trip: reading an encoded file yields its sample rate and its quantized samples |
| Wav.WriteString | lib/yoruba-tts.ts:35-38 | `writeString` stores the characters at the offset and touches no other byte |
| Wav.SetUint32 | lib/yoruba-tts.ts:52-63 | stores `Le32(v)` at the offset and nothing else |
| Wav.SetUint16 | lib/yoruba-tts.ts:56-61 | stores `Le16(v)` at the offset and nothing else |
| Wav.QuantizeAll | lib/yoruba-tts.ts:40-44 | the quantize loop fills a fresh array with `Quantized(samples)` |
| Wav.WriteRiffHead | lib/yoruba-tts.ts:51-53 | writes bytes 0 to 11 as `RiffHead(n)` and leaves the rest alone |
| Wav.WriteFmtChunk | lib/yoruba-tts.ts:54-61 | writes bytes 12 to 35 as `FmtChunk(rate)` and leaves the rest alone |
| Wav.WriteDataHead | lib/yoruba-tts.ts:62-63 | writes bytes 36 to 43 as `DataHead(n)` and leaves the rest alone |
| Wav.WriteSamples | lib/yoruba-tts.ts:65-68 | the sample loop writes `PcmBytes` from offset 44 and never touches bytes 0 to 43 |
| Wav.FloatToWav | lib/yoruba-tts.ts:31-71 | the buffer has 44 + 2n bytes and equals `WavFile(samples, rate)` |
| YorubaTts.SynthesisResult | lib/yoruba-tts.ts:73-79 | fails off the client, on a rejected load and on a failed inference; otherwise gives an audio/wav blob of the output encoded at the rate the model reported |
| YorubaTts.SynthesisUsesReportedRate | lib/yoruba-tts.ts:76-78 | the sample-rate field read back from a synthesized file is the model's `sampling_rate` |
| YorubaTts.Synthesizer.constructor | lib/yoruba-tts.ts:17 | the cache starts empty, with no load started |
| YorubaTts.Synthesizer.GetSynthesizer | lib/yoruba-tts.ts:17-28 | loads only when nothing is cached, and otherwise returns the cached promise unchanged |
| YorubaTts.Synthesizer.SynthesizeYorubaToBlob | lib/yoruba-tts.ts:73-79 | throws off the client without touching the cache; otherwise goes through the cache and yields `SynthesisResult` |
| YorubaTts.SynthesizeTwice | lib/yoruba-tts.ts:17-28 | two calls load once, and a rejected load stays cached, so the second call fails too |
| AudioUnlock.Priming | lib/audio-unlock.ts:16-50 | the priming run escapes exactly when an AudioContext exists and its constructor throws; without one only the HTML-audio step runs |
| AudioUnlock.Call | lib/audio-unlock.ts:12-54 | no effect with no window or when already unlocked or unlocking; otherwise primes, sets `unlocked` exactly when nothing escaped, and leaves `unlocking` false |
| AudioUnlock.OnlyContextFailureEscapes | lib/audio-unlock.ts:21 | the only exception that leaves a call is the context constructor's |
| AudioUnlock.SwallowedFailuresDoNotMatter | lib/audio-unlock.ts:22-48 | failures of resume, silent buffer, close and HTML audio change neither the gate state nor whether the call escapes |
| AudioUnlock.UnlockedIsFinal | lib/audio-unlock.ts:4 | once unlocked, every later call does nothing |
| AudioUnlock.CompletesAtMostOnce | lib/audio-unlock.ts:14-50 | across any sequence of calls the priming completes at most once |
| AudioUnlock.FailedCallAllowsRetry | lib/audio-unlock.ts:51-53 | after the constructor threw, the gate is closed and not in progress, and the next call primes again |
| AudioUnlock.Gate.constructor | lib/audio-unlock.ts:4-5 | the gate starts neither unlocked nor unlocking |
| AudioUnlock.Gate.EnsureAudioUnlocked | lib/audio-unlock.ts:12-54 | the imperative procedure produces the steps, the escape and the new flags of `Call` |
| TranslateForm.MapToBcp47 | components/translate-form.tsx:43-55 | the table entry for the eight known codes, any other input unchanged |
| TranslateForm.MapKeepsBaseSubtag | components/translate-form.tsx:43-55 | mapping never changes the lowercased base subtag |
| TranslateForm.MapIdempotent | components/translate-form.tsx:43-55 | mapping an already mapped tag changes nothing |
| TranslateForm.SpeechBase | components/translate-form.tsx:121 | the lowercased part of the tag before its first dash: dash-free, character by character the lowered tag, and followed by a dash when shorter |
| TranslateForm.Rank | components/translate-form.tsx:70-82 | the best of the four tiers a voice passes, or 5 |
| TranslateForm.FindInTier | components/translate-form.tsx:72-81 | `find` returns the first voice passing the tier, or nothing |
| TranslateForm.SelectVoiceForLang | components/translate-form.tsx:70-82 | none when no voice passes any tier (including the empty list); otherwise a listed voice of the best rank, with every earlier voice of a worse rank |
| TranslateForm.SelectedIsBest | components/translate-form.tsx:70-82 | the first voice of the first matching tier is the earliest voice of minimal rank |
| TranslateForm.StageEvents | components/translate-form.tsx:126-158 | the stages after the unlock never touch the speaking flag and never wait for the unlock again; the engine calls stop at the first one that throws |
| TranslateForm.TranslateFormState.AttemptStages | components/translate-form.tsx:126-158 | the imperative cascade, returning at the first stage that succeeds, makes exactly the calls `StageEvents` lists, and an exception leaves it exactly when an engine call threw |
| TranslateForm.SpeakEvents | components/translate-form.tsx:117-162 | the returned promise rejects exactly when the text is non-empty and either the unlock rejected or a platform engine call threw, the engine block having no catch of its own |
| TranslateForm.EmptyTextIsIgnored | components/translate-form.tsx:118 | empty text does nothing |
| TranslateForm.SpeakingFlagBrackets | components/translate-form.tsx:119-161 | `speaking` is set first, reset last on every exit (normal, rejected unlock, throwing engine call), and touched nowhere in between |
| TranslateForm.NeuralOnlyForYoruba | components/translate-form.tsx:120-136 | the neural stage is tried exactly when the mapped tag's base subtag is "yo" |
| TranslateForm.BackendIsFallback | components/translate-form.tsx:126-146 | the backend is asked, with the mapped tag, exactly when the neural stage was skipped or threw |
| TranslateForm.NativeIsLastResort | components/translate-form.tsx:137-158 | the engine is reached exactly when neither earlier stage ended the call and the platform has speech synthesis; `cancel` runs unless the utterance constructor threw, `speak` unless an earlier engine call threw |
| TranslateForm.EngineFailureRejects | components/translate-form.tsx:122-161 | once the unlock resolved, the promise rejects exactly when an engine call threw, and the flag is lowered last either way |
| TranslateForm.StagesRunInOrder | components/translate-form.tsx:122-161 | the full order: unlock, neural (for Yoruba), backend, cancel, speak with lang = mapped tag, the selected voice, rate 0.95 and pitch 1.0 |
| TranslateForm.UnlockFailureStopsSpeech | components/translate-form.tsx:124-161 | when the unlock rejects, no stage runs, the flag is reset and the rejection propagates |
| TranslateForm.Panes.Swapped | components/translate-form.tsx:170-175 | languages and texts change places |
| TranslateForm.SwapIsInvolution | components/translate-form.tsx:170-175 | swapping twice restores the form |
| TranslateForm.TranslateFormState.constructor | components/translate-form.tsx:31-41 | empty texts, English to Yoruba, no voices, not speaking |
| TranslateForm.TranslateFormState.LoadVoices | components/translate-form.tsx:60-62 | a non-empty voice list replaces the stored one, and an empty one is ignored |
| TranslateForm.TranslateFormState.SwapLanguages | components/translate-form.tsx:170-175 | the state after the swap is `Swapped` of the state before |
| TranslateForm.TranslateFormState.HandleSpeak | components/translate-form.tsx:117-162 | the imperative handler produces `SpeakEvents`, drives the shared unlock gate as `Call` does, and leaves `speaking` false (untouched for empty text) |
| Toasts.Prop.Over | components/ui/toast.tsx:51 | spread: the right-hand key wins whenever it exists, even when undefined |
| Toasts.Spread | components/ui/toast.tsx:47-52 | object spread key by key: each key of the right-hand object that exists wins, the others come from the left |
| Toasts.SpreadIdentity | components/ui/toast.tsx:47-52 | spreading an object with no keys changes nothing |
| Toasts.SpreadAssociative | components/ui/toast.tsx:64-69 | helper objects spread into `notify` compose |
| Toasts.Defaults | components/ui/toast.tsx:47-50 | the generated id, type "info" and duration 3500, with no title or description |
| Toasts.ToastProvider.constructor | components/ui/toast.tsx:38 | the provider starts with no toasts |
| Toasts.NextToast | components/ui/toast.tsx:47-52 | the generated id, type info and duration 3500 unless the caller supplies those keys; caller keys win |
| Toasts.DismissTimer | components/ui/toast.tsx:54-56 | a timer only for a positive duration, removing by the generated id |
| Toasts.WithoutId | components/ui/toast.tsx:40-42 | keeps exactly the toasts whose id is not the given one |
| Toasts.WithoutIdAppend | components/ui/toast.tsx:40-42 | the filter works element by element and keeps order |
| Toasts.RemoveIdempotent | components/ui/toast.tsx:40-42 | removing an id twice is removing it once |
| Toasts.TimerRemovesOnlyItsToast | components/ui/toast.tsx:53-56 | a fired timer removes its own toast and nothing else, wherever newer toasts pushed it |
| Toasts.OverriddenIdOutlivesTimer | components/ui/toast.tsx:46-56 | a toast whose id the caller overrode is never removed by its own timer |
| Toasts.NotifyDefaults | components/ui/toast.tsx:47-56 | `notify({})` shows an info toast that dismisses itself after 3500 ms |
| Toasts.ExplicitNoDurationStays | components/ui/toast.tsx:51-56 | an explicit undefined or zero duration overrides the default, and no timer starts |
| Toasts.HelperToast | components/ui/toast.tsx:64-69 | description = message and type = kind unless `opts` has those keys, in which case the values from `opts` win, one key at a time; all other keys come from `opts` |
| Toasts.HelperWithoutOptions | components/ui/toast.tsx:64-69 | a helper without options shows the message with its kind and the defaults |
| Toasts.HelperOptionsWin | components/ui/toast.tsx:64-69 | each key the options carry, even as undefined, overrides on its own the description, the kind, the id and the duration the helper and `notify` would set |
| Toasts.Badge | components/ui/toast.tsx:82-91 | green exactly for success, red exactly for error, blue for everything else including undefined |
| Toasts.ToastProvider.Remove | components/ui/toast.tsx:40-42 | the list becomes `WithoutId` of the old list |
| Toasts.ToastProvider.Notify | components/ui/toast.tsx:44-59 | exactly one toast is prepended and the old list follows unchanged; returns the timer |
| Toasts.ToastProvider.NotifyKind | components/ui/toast.tsx:64-69 | `notify` on the helper object |
| Toasts.ToastProvider.Success | components/ui/toast.tsx:64-65 | `notify` on the success helper object |
| Toasts.ToastProvider.Error | components/ui/toast.tsx:66-67 | `notify` on the error helper object |
| Toasts.ToastProvider.Info | components/ui/toast.tsx:68-69 | `notify` on the info helper object |
| Toasts.NotifyThenDismiss | components/ui/toast.tsx:53-56 | a success toast followed by its timer leaves the list as it was |
| Signup.ValidationError | components/auth/signup-form.tsx:30-38 | no message exactly when the passwords match and the password has at least 6 UTF-16 code units; the mismatch wins over the length |
| Signup.AstralPasswordPasses | components/auth/signup-form.tsx:35-38 | two letters and two emoji, four characters but six code units, pass the length check |
| Signup.SubmitEvents | components/auth/signup-form.tsx:26-49 | every submit first clears the error |
| Signup.SignupOnlyWhenValid | components/auth/signup-form.tsx:30-43 | `signup` is called exactly when both checks pass, with (email, password, name) |
| Signup.ShownError | components/auth/signup-form.tsx:28-46 | the message left shown: mismatch, then length, then "Failed to create account" on rejection, none on success |
| Signup.LoadingBracketsCall | components/auth/signup-form.tsx:40-49 | loading is raised after validation, before the call, and lowered at the end |
| Signup.SignupForm.constructor | components/auth/signup-form.tsx:19-24 | empty fields, not loading, no error |
| Signup.SignupForm.HandleSubmit | components/auth/signup-form.tsx:26-49 | the handler's events are those `SubmitEvents` gives and its final error is `LastError` of them; loading is false after a call and untouched when a check fails |
| FeedbackDialog.Suggestion | components/feedback-modal.tsx:31 | undefined exactly when the text is blank, otherwise the trimmed, non-empty text |
| FeedbackDialog.SuggestionIsTrimmed | components/feedback-modal.tsx:31 | a sent suggestion has no white space at either end and is stable under trimming again |
| FeedbackDialog.SubmitPayload | components/feedback-modal.tsx:25-33 | nothing exactly when the rating is 0; otherwise the translation id, the rating and the suggestion |
| FeedbackDialog.HighlightIsPrefix | components/feedback-modal.tsx:96 | the filled stars form a prefix |
| FeedbackDialog.FeedbackModal.constructor | components/feedback-modal.tsx:21-23 | rating 0, no hover, empty suggestion |
| FeedbackDialog.FeedbackModal.ClickStar | components/feedback-modal.tsx:85-89 | a click sets the rating to that star, one of 1 to 5 |
| FeedbackDialog.FeedbackModal.HoverStar | components/feedback-modal.tsx:90 | hovering previews that star: exactly the stars up to it are filled |
| FeedbackDialog.FeedbackModal.LeaveStar | components/feedback-modal.tsx:91 | leaving resets the hover to 0: exactly the stars up to the rating are filled |
| FeedbackDialog.FeedbackModal.EditSuggestion | components/feedback-modal.tsx:113 | typing replaces the suggestion |
| FeedbackDialog.FeedbackModal.StarFilled | components/feedback-modal.tsx:96 | a star is filled up to the hovered star count when that is non-zero, otherwise up to the rating; in a valid state no star past the fifth is filled |
| FeedbackDialog.FeedbackModal.SubmitDisabled | components/feedback-modal.tsx:130 | disabled while the rating is 0: an enabled button means the first star is filled, a disabled one with no hover means no star is |
| FeedbackDialog.FeedbackModal.HandleSubmit | components/feedback-modal.tsx:25-33 | sends nothing exactly when the button is disabled (rating 0); otherwise the id, the rating (between 1 and 5) and the suggestion |
| FeedbackDialog.RateAndSubmit | components/feedback-modal.tsx:89-130 | after a star is clicked, the submission is sent and carries that star |
| Text.Lower | components/translate-form.tsx:72-81 | `toLowerCase` maps each ASCII capital to its small letter and keeps everything else |
| Text.StartsWith | components/translate-form.tsx:75-80 | `startsWith`: the prefix is no longer than the string and agrees with it position by position |
| Text.BeforeDash | components/translate-form.tsx:74 | `split("-")[0]` is the longest dash-free prefix |
| Text.Trim | components/feedback-modal.tsx:31 | `trim` never lengthens the text, and a non-empty result starts and ends with a non-space |
| Text.TrimSpec | components/feedback-modal.tsx:31 | `trim` removes exactly the leading and trailing ECMAScript white space |
| Text.TrimEmptyIffBlank | components/feedback-modal.tsx:31 | the trimmed text is empty exactly when the text is all white space |
| Text.Utf16Length | components/auth/signup-form.tsx:35 | `length` in UTF-16 code units: between the character count and twice it, and equal to it exactly when no character lies above U+FFFF |

## Left out

- Float32 samples are idealised as exact reals. IEEE rounding and NaN are not modelled; NaN passes the clamp and stores as 0.
- Integer-valued sample rates only. A fractional `sampling_rate` would be truncated by `setUint32` and is not modelled.
- Wav.ParseWavFile: stated for sample rates below 2^31 and files below 4 GiB, where no header field wraps. The encoder itself is modelled with the wrap-around.
- The neural model download, the inference library, `Blob`, object URLs, `new Audio(...).play()` and `onended`. This includes `playYoruba` (lib/yoruba-tts.ts:81-90) and the backend playback (components/translate-form.tsx:138-143). They are foreign calls, so their outcomes are parameters.
- Concurrency: overlapping async calls, the `unlocking` guard while a call is in flight, and React state batching. Calls are modelled one after another.
- The `voiceschanged` listener wiring (components/translate-form.tsx:57-68). Only the list update `LoadVoices` is modelled.
- Toast durations are integers. A fractional duration, or NaN (falsy, so no timer starts), is not modelled.
- `window.setTimeout` and `Math.random`. The timer is returned as a value and the random id is an input.
- TranslateForm.MapToBcp47: keys inherited from `Object.prototype` (such as "constructor") are not modelled. The table is a plain map.
- Text.Lower: `toLowerCase` is modelled for the ASCII letters only. Unicode case mapping is not modelled.
- `lib/local-tts.ts` is entirely commented out and is not part of this model.
- `lib/api-client.ts`, `lib/translation-service.ts` and `lib/auth-context.tsx` are network and storage code and are not part of this model.
- The translate handler, copying, history and the rendering-only components are not part of this model.
