/**
 * The speech path of components/translate-form.tsx: the language-tag table
 * (`mapToBcp47`), native voice selection (`selectVoiceForLang`), the speech
 * cascade (`handleSpeak`) and the language swap (`swapLanguages`).
 *
 * The stages of the cascade are foreign calls (the in-browser neural model, the
 * backend TTS request, the platform speech engine); whether each succeeds is a
 * parameter, and the calls the form makes are recorded as events.
 */
module TranslateForm {
  import opened Wrappers
  import opened Text
  import AudioUnlock

  // ---------------------------------------------------------------------------
  // Language tags
  // ---------------------------------------------------------------------------

  /** The short codes the form knows and their region-qualified tags. */
  const Bcp47Table: map<string, string> := map[
    "yo" := "yo-NG", "ig" := "ig-NG", "ha" := "ha-NG", "en" := "en-NG",
    "fr" := "fr-FR", "es" := "es-ES", "sw" := "sw-TZ", "zu" := "zu-ZA"
  ]

  /** `mapToBcp47`: the table entry for a known code, any other input unchanged. */
  function MapToBcp47(lang: string): (tag: string)
    ensures lang in Bcp47Table ==> tag == Bcp47Table[lang]
    ensures lang !in Bcp47Table ==> tag == lang
  {
    if lang in Bcp47Table then Bcp47Table[lang] else lang
  }

  /**
   * Mapping keeps the language: every table entry has the code as its base
   * subtag, so the lowercased base subtag of the mapped tag is that of the input.
   */
  lemma MapKeepsBaseSubtag(lang: string)
    ensures BeforeDash(Lower(MapToBcp47(lang))) == BeforeDash(Lower(lang))
  {
    if lang in Bcp47Table {
      var region := Bcp47Table[lang][3..];
      assert Bcp47Table[lang] == lang + "-" + region;
      BaseOfTag(lang, region);
    }
  }

  /** A lowercase dash-free code is its own base subtag and that of `code-region`. */
  lemma BaseOfTag(code: string, region: string)
    requires '-' !in code && Lower(code) == code
    ensures BeforeDash(Lower(code)) == code
    ensures BeforeDash(Lower(code + "-" + region)) == code
  {
    var s := code + "-" + region;
    assert Lower(s) == code + "-" + Lower(region);
    assert Lower(s)[..|code|] == code;
    assert Lower(s)[|code|] == '-';
    var r := BeforeDash(Lower(s));
    assert |r| == |code|;
  }

  /** Mapping an already mapped tag changes nothing. */
  lemma MapIdempotent(lang: string)
    ensures MapToBcp47(MapToBcp47(lang)) == MapToBcp47(lang)
  {
    if lang in Bcp47Table {
      assert lang in {"yo", "ig", "ha", "en", "fr", "es", "sw", "zu"};
    }
  }

  /** The base subtag `handleSpeak` compares with "yo": `bcp.toLowerCase().split("-")[0]`. */
  function SpeechBase(bcp: string): (base: string)
    ensures |base| <= |bcp| && '-' !in base
    ensures forall i :: 0 <= i < |base| ==> base[i] == LowerChar(bcp[i])
    ensures |base| < |bcp| ==> bcp[|base|] == '-'
  {
    BeforeDash(Lower(bcp))
  }

  // ---------------------------------------------------------------------------
  // Voice selection
  // ---------------------------------------------------------------------------

  /** A platform voice; `lang` may be missing, which the source guards with `?.`. */
  datatype Voice = Voice(name: string, lang: Option<string>)

  const Regionals: seq<string> := ["en-NG", "en-ZA", "en-GB"]

  /** Case-insensitive exact tag match. */
  predicate ExactTag(v: Voice, bcp: string)
  {
    v.lang.Some? && Lower(v.lang.value) == Lower(bcp)
  }

  /** The voice's lowercased tag starts with the lowercased base subtag. */
  predicate SameBase(v: Voice, bcp: string)
  {
    v.lang.Some? && StartsWith(Lower(v.lang.value), Lower(BeforeDash(bcp)))
  }

  /** The voice's tag is exactly one of the accepted English regional tags. */
  predicate RegionalEnglish(v: Voice)
  {
    v.lang.Some? && v.lang.value in Regionals
  }

  /** The voice's lowercased tag starts with "en". */
  predicate AnyEnglish(v: Voice)
  {
    v.lang.Some? && StartsWith(Lower(v.lang.value), "en")
  }

  /** Whether `v` passes the `find` of tier 1, 2, 3 or 4. */
  predicate InTier(v: Voice, bcp: string, tier: nat)
  {
    if tier == 1 then ExactTag(v, bcp)
    else if tier == 2 then SameBase(v, bcp)
    else if tier == 3 then RegionalEnglish(v)
    else tier == 4 && AnyEnglish(v)
  }

  /** The best tier a voice passes, 5 when it passes none. */
  function Rank(v: Voice, bcp: string): (k: nat)
    ensures 1 <= k <= 5
    ensures k < 5 ==> InTier(v, bcp, k)
    ensures forall t :: 1 <= t < k ==> !InTier(v, bcp, t)
  {
    if ExactTag(v, bcp) then 1
    else if SameBase(v, bcp) then 2
    else if RegionalEnglish(v) then 3
    else if AnyEnglish(v) then 4
    else 5
  }

  /** `list.find(...)` for one tier, as an index (`|list|` when nothing matches). */
  function FindInTier(list: seq<Voice>, bcp: string, tier: nat): (i: nat)
    ensures i <= |list|
    ensures i < |list| ==> InTier(list[i], bcp, tier)
    ensures forall j :: 0 <= j < i ==> !InTier(list[j], bcp, tier)
  {
    if list == [] then 0
    else if InTier(list[0], bcp, tier) then 0
    else 1 + FindInTier(list[1..], bcp, tier)
  }

  /** The position of the first occurrence of `v`. */
  function IndexOf(list: seq<Voice>, v: Voice): (i: nat)
    requires v in list
    ensures i < |list| && list[i] == v
    ensures forall j :: 0 <= j < i ==> list[j] != v
  {
    if list[0] == v then 0 else 1 + IndexOf(list[1..], v)
  }

  /**
   * `selectVoiceForLang`: the first voice of tier 1, else of tier 2, 3, 4, else
   * none. Equivalently: the earliest voice of the best rank present in the
   * list, and none when no voice has a rank below 5.
   */
  function SelectVoiceForLang(list: seq<Voice>, bcp: string): (r: Option<Voice>)
    ensures r.None? <==> forall j :: 0 <= j < |list| ==> Rank(list[j], bcp) == 5
    ensures r.Some? ==> r.value in list && Rank(r.value, bcp) < 5
    ensures r.Some? ==> forall j :: 0 <= j < |list| ==> Rank(r.value, bcp) <= Rank(list[j], bcp)
    ensures r.Some? ==> forall j :: 0 <= j < IndexOf(list, r.value) ==>
      Rank(r.value, bcp) < Rank(list[j], bcp)
  {
    if list == [] then None
    else
      var i1 := FindInTier(list, bcp, 1);
      if i1 < |list| then
        SelectedIsBest(list, bcp, 1, i1);
        Some(list[i1])
      else
        var i2 := FindInTier(list, bcp, 2);
        if i2 < |list| then
          SelectedIsBest(list, bcp, 2, i2);
          Some(list[i2])
        else
          var i3 := FindInTier(list, bcp, 3);
          if i3 < |list| then
            SelectedIsBest(list, bcp, 3, i3);
            Some(list[i3])
          else
            var i4 := FindInTier(list, bcp, 4);
            if i4 < |list| then
              SelectedIsBest(list, bcp, 4, i4);
              Some(list[i4])
            else
              None
  }

  /**
   * When no voice passes a tier below `tier` and `i` is the first voice
   * passing `tier`, that voice has the best rank and every earlier voice a
   * worse one.
   */
  lemma SelectedIsBest(list: seq<Voice>, bcp: string, tier: nat, i: nat)
    requires 1 <= tier <= 4 && i < |list|
    requires forall t, j :: 1 <= t < tier && 0 <= j < |list| ==> !InTier(list[j], bcp, t)
    requires InTier(list[i], bcp, tier)
    requires forall j :: 0 <= j < i ==> !InTier(list[j], bcp, tier)
    ensures Rank(list[i], bcp) == tier
    ensures forall j :: 0 <= j < |list| ==> tier <= Rank(list[j], bcp)
    ensures forall j :: 0 <= j < IndexOf(list, list[i]) ==> tier < Rank(list[j], bcp)
  {
  }

  // ---------------------------------------------------------------------------
  // The speech cascade
  // ---------------------------------------------------------------------------

  /** The utterance handed to the platform speech engine. */
  datatype Utterance = Utterance(text: string, lang: string, voice: Option<Voice>, rate: real, pitch: real)

  /** What `handleSpeak` does, in order. */
  datatype SpeechEvent =
    | SpeakingChanged(on: bool)          // setSpeaking
    | AwaitUnlock                        // await ensureAudioUnlocked()
    | NeuralAttempt(text: string)        // await playYoruba(text)
    | BackendRequest(text: string, tag: string)  // await api.tts.speak(text, bcp)
    | NativeCancel                       // synth.cancel()
    | NativeSpeak(utterance: Utterance)  // synth.speak(utterance)

  /**
   * How the platform engine's calls turn out: none throws, or the first one
   * that throws (the utterance constructor, `cancel` or `speak`).
   */
  datatype NativeOutcome = NativeOk | UtteranceThrows | CancelThrows | SpeakThrows

  /**
   * How the foreign stages turn out: whether the in-browser neural synthesis
   * resolves, whether the backend request (and the playback set-up after it)
   * completes without throwing, whether the platform has a speech engine, and
   * how the engine's calls go.
   */
  datatype StageOutcomes = StageOutcomes(
    neuralSucceeds: bool, backendSucceeds: bool, hasSpeechSynthesis: bool, native: NativeOutcome)

  const SpeechRate: real := 0.95
  const SpeechPitch: real := 1.0

  /** The native utterance for `text` in language tag `bcp`. */
  function NativeUtterance(text: string, bcp: string, voices: seq<Voice>): Utterance
  {
    Utterance(text, bcp, SelectVoiceForLang(voices, bcp), SpeechRate, SpeechPitch)
  }

  /** The call reaches the platform engine: no earlier stage ended it and there is an engine. */
  predicate NativeAttempted(bcp: string, o: StageOutcomes)
  {
    !(SpeechBase(bcp) == "yo" && o.neuralSucceeds) && !o.backendSucceeds && o.hasSpeechSynthesis
  }

  /** The engine block has no catch of its own, so a throw there leaves the `try`. */
  predicate StagesThrow(bcp: string, o: StageOutcomes)
  {
    NativeAttempted(bcp, o) && o.native != NativeOk
  }

  /** The engine calls made before the first one that throws, if any. */
  function NativeEvents(text: string, bcp: string, voices: seq<Voice>, n: NativeOutcome): seq<SpeechEvent>
  {
    match n
    case UtteranceThrows => []
    case CancelThrows => [NativeCancel]
    case _ => [NativeCancel, NativeSpeak(NativeUtterance(text, bcp, voices))]
  }

  /**
   * The stage events between the unlock and the final lowering of the flag:
   * the neural attempt for Yoruba, ending the call when it resolves; then the
   * backend request, ending the call when it completes; then the platform
   * engine, when there is one, up to the first of its calls that throws.
   */
  function StageEvents(text: string, bcp: string, voices: seq<Voice>, o: StageOutcomes): (ev: seq<SpeechEvent>)
    ensures forall i :: 0 <= i < |ev| ==> !ev[i].SpeakingChanged? && !ev[i].AwaitUnlock?
  {
    var neural := SpeechBase(bcp) == "yo";
    var first := if neural then [NeuralAttempt(text)] else [];
    if neural && o.neuralSucceeds then first
    else
      var third := if !o.backendSucceeds && o.hasSpeechSynthesis
        then NativeEvents(text, bcp, voices, o.native)
        else [];
      first + [BackendRequest(text, bcp)] + third
  }

  /**
   * The events of one `handleSpeak(text, lang)` and whether the returned promise
   * rejects, given whether the unlock gate rejects and how the stages turn out.
   * The `finally` lowers the flag on both exits.
   */
  function SpeakEvents(text: string, lang: string, voices: seq<Voice>, unlockEscapes: bool, o: StageOutcomes)
    : (r: (seq<SpeechEvent>, bool))
    ensures r.1 <==> text != "" && (unlockEscapes || StagesThrow(MapToBcp47(lang), o))
  {
    if text == "" then ([], false)
    else if unlockEscapes then ([SpeakingChanged(true), AwaitUnlock, SpeakingChanged(false)], true)
    else
      var bcp := MapToBcp47(lang);
      ([SpeakingChanged(true), AwaitUnlock] + StageEvents(text, bcp, voices, o) + [SpeakingChanged(false)],
       StagesThrow(bcp, o))
  }

  /** An empty text does nothing at all. */
  lemma EmptyTextIsIgnored(lang: string, voices: seq<Voice>, unlockEscapes: bool, o: StageOutcomes)
    ensures SpeakEvents("", lang, voices, unlockEscapes, o) == ([], false)
  {
  }

  /**
   * For a non-empty text the speaking flag is raised first and lowered last,
   * whichever way the call ends (normally, by a rejected unlock or by a throw
   * from the platform engine), and it is changed nowhere in between.
   */
  lemma SpeakingFlagBrackets(text: string, lang: string, voices: seq<Voice>, unlockEscapes: bool, o: StageOutcomes)
    requires text != ""
    ensures var ev := SpeakEvents(text, lang, voices, unlockEscapes, o).0;
      2 <= |ev| && ev[0] == SpeakingChanged(true) && ev[|ev| - 1] == SpeakingChanged(false)
      && forall i :: 0 < i < |ev| - 1 ==> !ev[i].SpeakingChanged?
  {
  }

  /** The neural stage is tried exactly when the mapped tag's base subtag is "yo". */
  lemma NeuralOnlyForYoruba(text: string, lang: string, voices: seq<Voice>, o: StageOutcomes)
    requires text != ""
    ensures NeuralAttempt(text) in SpeakEvents(text, lang, voices, false, o).0
      <==> SpeechBase(MapToBcp47(lang)) == "yo"
  {
  }

  /** The backend is asked exactly when the neural stage was skipped or failed. */
  lemma BackendIsFallback(text: string, lang: string, voices: seq<Voice>, o: StageOutcomes)
    requires text != ""
    ensures var bcp := MapToBcp47(lang);
      BackendRequest(text, bcp) in SpeakEvents(text, lang, voices, false, o).0
      <==> !(SpeechBase(bcp) == "yo" && o.neuralSucceeds)
  {
  }

  /**
   * The platform engine is reached exactly when both earlier stages did not
   * end the call and the platform has an engine; `cancel` is called unless the
   * utterance constructor threw, and `speak` unless an earlier call threw. The
   * utterance carries the mapped tag, the selected voice, rate 0.95 and pitch 1.0.
   */
  lemma NativeIsLastResort(text: string, lang: string, voices: seq<Voice>, o: StageOutcomes)
    requires text != ""
    ensures var bcp := MapToBcp47(lang);
      var ev := SpeakEvents(text, lang, voices, false, o).0;
      && (NativeCancel in ev <==> NativeAttempted(bcp, o) && o.native != UtteranceThrows)
      && ((exists u :: NativeSpeak(u) in ev)
        <==> NativeAttempted(bcp, o) && (o.native == NativeOk || o.native == SpeakThrows))
  {
    var bcp := MapToBcp47(lang);
    var ev := SpeakEvents(text, lang, voices, false, o).0;
    if NativeAttempted(bcp, o) && (o.native == NativeOk || o.native == SpeakThrows) {
      assert NativeSpeak(NativeUtterance(text, bcp, voices)) in ev;
    }
  }

  /**
   * The engine block is not guarded by a catch: when one of its calls throws,
   * the promise rejects, after the flag has been lowered; nothing else rejects
   * once the unlock has resolved.
   */
  lemma EngineFailureRejects(text: string, lang: string, voices: seq<Voice>, o: StageOutcomes)
    requires text != ""
    ensures var r := SpeakEvents(text, lang, voices, false, o);
      && (r.1 <==> NativeAttempted(MapToBcp47(lang), o) && o.native != NativeOk)
      && r.0[|r.0| - 1] == SpeakingChanged(false)
  {
  }

  /** When the platform engine speaks, the stages ran in order: neural (for Yoruba), backend, engine. */
  lemma StagesRunInOrder(text: string, lang: string, voices: seq<Voice>, o: StageOutcomes)
    requires text != ""
    requires NativeAttempted(MapToBcp47(lang), o) && (o.native == NativeOk || o.native == SpeakThrows)
    ensures var bcp := MapToBcp47(lang);
      var ev := SpeakEvents(text, lang, voices, false, o).0;
      var stages := [BackendRequest(text, bcp), NativeCancel, NativeSpeak(NativeUtterance(text, bcp, voices))];
      ev == [SpeakingChanged(true), AwaitUnlock]
        + (if SpeechBase(bcp) == "yo" then [NeuralAttempt(text)] else [])
        + stages + [SpeakingChanged(false)]
  {
  }

  /** When the unlock gate rejects, no stage runs and the rejection propagates. */
  lemma UnlockFailureStopsSpeech(text: string, lang: string, voices: seq<Voice>, o: StageOutcomes)
    requires text != ""
    ensures SpeakEvents(text, lang, voices, true, o)
      == ([SpeakingChanged(true), AwaitUnlock, SpeakingChanged(false)], true)
  {
  }

  // ---------------------------------------------------------------------------
  // The form's state
  // ---------------------------------------------------------------------------

  /** The four values `swapLanguages` exchanges. */
  datatype Panes = Panes(sourceLang: string, targetLang: string, sourceText: string, translatedText: string)
  {
    /** Languages and texts trade places. */
    function Swapped(): (q: Panes)
      ensures q.sourceLang == targetLang && q.targetLang == sourceLang
      ensures q.sourceText == translatedText && q.translatedText == sourceText
    {
      Panes(targetLang, sourceLang, translatedText, sourceText)
    }
  }

  /** Swapping twice restores the form. */
  lemma SwapIsInvolution(p: Panes)
    ensures p.Swapped().Swapped() == p
  {
  }

  /** The state of the translate form that the speech path and the swap touch. */
  class TranslateFormState {
    var sourceText: string
    var translatedText: string
    var sourceLang: string
    var targetLang: string
    var voices: seq<Voice>
    var speaking: bool

    /** The initial state: empty texts, English to Yoruba, no voices, silent. */
    constructor ()
      ensures sourceText == "" && translatedText == ""
      ensures sourceLang == "en" && targetLang == "yo"
      ensures voices == [] && !speaking
    {
      sourceText := "";
      translatedText := "";
      sourceLang := "en";
      targetLang := "yo";
      voices := [];
      speaking := false;
    }

    function CurrentPanes(): Panes
      reads this
    {
      Panes(sourceLang, targetLang, sourceText, translatedText)
    }

    /** The voice loader: a non-empty list from the platform replaces the stored voices. */
    method LoadVoices(list: seq<Voice>)
      modifies this`voices
      ensures voices == if list != [] then list else old(voices)
    {
      if list != [] {
        voices := list;
      }
    }

    /** `swapLanguages`. */
    method SwapLanguages()
      modifies this`sourceLang, this`targetLang, this`sourceText, this`translatedText
      ensures CurrentPanes() == old(CurrentPanes()).Swapped()
    {
      sourceLang, targetLang, sourceText, translatedText := targetLang, sourceLang, translatedText, sourceText;
    }

    /**
     * `handleSpeak(text, lang)`: runs the cascade, going through the shared
     * unlock gate, and leaves the speaking flag lowered; an empty text touches
     * nothing.
     */
    method HandleSpeak(text: string, lang: string, gate: AudioUnlock.Gate, p: AudioUnlock.Platform, o: StageOutcomes)
      returns (events: seq<SpeechEvent>, escaped: bool)
      modifies this`speaking, gate
      ensures var call := AudioUnlock.Call(old(gate.State()), p);
        gate.State() == (if text == "" then old(gate.State()) else call.0)
        && (events, escaped) == SpeakEvents(text, lang, voices, text != "" && call.1.escaped, o)
      ensures speaking == (text == "" && old(speaking))
    {
      events, escaped := [], false;
      if text == "" {
        return;
      }
      speaking := true;
      events := events + [SpeakingChanged(true)];
      var bcp := MapToBcp47(lang);
      events := events + [AwaitUnlock];
      var _, unlockEscaped := gate.EnsureAudioUnlocked(p);
      if unlockEscaped {
        escaped := true;
      } else {
        var stages, threw := AttemptStages(text, bcp, o);
        events := events + stages;
        escaped := threw;
        assert events == [SpeakingChanged(true), AwaitUnlock] + StageEvents(text, MapToBcp47(lang), voices, o);
      }
      // finally
      speaking := false;
      events := events + [SpeakingChanged(false)];
      assert unlockEscaped ==> events == [SpeakingChanged(true), AwaitUnlock, SpeakingChanged(false)];
      assert unlockEscaped == AudioUnlock.Call(old(gate.State()), p).1.escaped;
    }

    /**
     * The body of the `try` after the unlock: the stages, each ending the call
     * when it succeeds, and whether an exception from the engine block escaped.
     */
    method AttemptStages(text: string, bcp: string, o: StageOutcomes) returns (stages: seq<SpeechEvent>, threw: bool)
      ensures stages == StageEvents(text, bcp, voices, o)
      ensures threw == StagesThrow(bcp, o)
    {
      stages, threw := [], false;
      var base := BeforeDash(Lower(bcp));
      if base == "yo" {
        stages := stages + [NeuralAttempt(text)];
        if o.neuralSucceeds {
          return;
        }
      }
      stages := stages + [BackendRequest(text, bcp)];
      if o.backendSucceeds {
        return;
      }
      if o.hasSpeechSynthesis {
        var voice := SelectVoiceForLang(voices, bcp);
        if o.native == UtteranceThrows {
          threw := true;
          return;
        }
        var utterance := Utterance(text, bcp, voice, SpeechRate, SpeechPitch);
        stages := stages + [NativeCancel];
        if o.native == CancelThrows {
          threw := true;
          return;
        }
        stages := stages + [NativeSpeak(utterance)];
        threw := o.native == SpeakThrows;
      }
    }
  }
}
