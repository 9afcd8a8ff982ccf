/**
 * The neural synthesis adapter of lib/yoruba-tts.ts: the module-level cache of
 * the text-to-speech pipeline (`getSynthesizer`) and `synthesizeYorubaToBlob`,
 * which runs inference and encodes the result with the WAV encoder.
 *
 * Loading the model and running inference are foreign library calls; their
 * results enter as parameters: the value the `pipeline(...)` promise settles to
 * and the outcome of one inference call.
 */
module YorubaTts {
  import opened Wrappers
  import opened Wav

  /** The settled value of the `pipeline("text-to-speech", ...)` promise. */
  datatype Pipeline = Loaded(model: nat) | LoadRejected

  /** `{ audio, sampling_rate }` as returned by one inference call. */
  datatype TtsOutput = TtsOutput(audio: seq<real>, samplingRate: int)

  /** The outcome of `await synth(text)`. */
  datatype Inference = Produced(output: TtsOutput) | InferenceThrew

  datatype SynthError = NotOnClient | LoadFailed | InferenceFailed

  /** A `Blob` of type "audio/wav" holding the encoded bytes, or the error that escaped. */
  datatype BlobResult = WavBlob(bytes: seq<Byte>, mimeType: string) | Threw(error: SynthError)

  const WavMimeType: string := "audio/wav"

  /**
   * What `synthesizeYorubaToBlob` yields once the cached pipeline is known:
   * an error when not in a browser, when the pipeline load was rejected or when
   * inference throws; otherwise the WAV encoding of the output at the sample
   * rate the model reported.
   */
  function SynthesisResult(hasWindow: bool, pipeline: Pipeline, inference: Inference): (r: BlobResult)
    ensures r.WavBlob? <==> hasWindow && pipeline.Loaded? && inference.Produced?
    ensures !hasWindow ==> r == Threw(NotOnClient)
    ensures hasWindow && pipeline.LoadRejected? ==> r == Threw(LoadFailed)
    ensures r.WavBlob? ==> r.mimeType == WavMimeType
    ensures r.WavBlob? ==> r.bytes == WavFile(inference.output.audio, inference.output.samplingRate)
  {
    if !hasWindow then Threw(NotOnClient)
    else if pipeline.LoadRejected? then Threw(LoadFailed)
    else match inference
      case InferenceThrew => Threw(InferenceFailed)
      case Produced(out) => WavBlob(WavFile(out.audio, out.samplingRate), WavMimeType)
  }

  /** The sample-rate field of a synthesized file is the rate the model reported. */
  lemma SynthesisUsesReportedRate(pipeline: Pipeline, out: TtsOutput)
    requires pipeline.Loaded?
    requires 0 <= out.samplingRate && out.samplingRate * 2 < 0x1_0000_0000
    requires 36 + 2 * |out.audio| < 0x1_0000_0000
    ensures var r := SynthesisResult(true, pipeline, Produced(out));
      && r.WavBlob?
      && ParseWav(r.bytes) == Some(WavInfo(out.samplingRate, Quantized(out.audio)))
  {
    ParseWavFile(out.audio, out.samplingRate);
  }

  /** The module state: `let synthesizerPromise = null`. */
  class Synthesizer {
    var promise: Option<Pipeline>
    /** How many times `pipeline(...)` has been called. */
    ghost var loads: nat

    constructor ()
      ensures promise == None && loads == 0
    {
      promise := None;
      loads := 0;
    }

    /**
     * `getSynthesizer`: starts loading only when nothing is cached, and
     * otherwise hands back the cached promise, whatever it settled to.
     */
    method GetSynthesizer(load: Pipeline) returns (p: Pipeline)
      modifies this
      ensures old(promise).Some? ==> p == old(promise).value && promise == old(promise) && loads == old(loads)
      ensures old(promise).None? ==> p == load && promise == Some(load) && loads == old(loads) + 1
    {
      if promise.None? {
        promise := Some(load);
        loads := loads + 1;
      }
      p := promise.value;
    }

    /**
     * `synthesizeYorubaToBlob`: `load` is what a fresh `pipeline(...)` call would
     * settle to and `inference` is the outcome of running the model on the text.
     */
    method SynthesizeYorubaToBlob(hasWindow: bool, load: Pipeline, inference: Inference) returns (r: BlobResult)
      modifies this
      ensures !hasWindow ==> r == Threw(NotOnClient) && promise == old(promise) && loads == old(loads)
      ensures hasWindow ==> promise == Some(if old(promise).Some? then old(promise).value else load)
      ensures hasWindow ==> loads == old(loads) + (if old(promise).None? then 1 else 0)
      ensures hasWindow ==> r == SynthesisResult(true, promise.value, inference)
    {
      if !hasWindow {
        return Threw(NotOnClient);
      }
      var synth := GetSynthesizer(load);
      if synth.LoadRejected? {
        return Threw(LoadFailed);
      }
      match inference {
        case InferenceThrew =>
          r := Threw(InferenceFailed);
        case Produced(output) =>
          var buf := FloatToWav(output.audio, output.samplingRate);
          r := WavBlob(buf[..], WavMimeType);
      }
    }
  }

  /**
   * Two synthesis calls in a row load the pipeline at most once, and a
   * rejected load stays cached: the second call fails too, whatever a new load
   * would have done.
   */
  method SynthesizeTwice(s: Synthesizer, load1: Pipeline, load2: Pipeline, inf1: Inference, inf2: Inference)
    returns (r1: BlobResult, r2: BlobResult)
    requires s.promise == None
    modifies s
    ensures s.loads == old(s.loads) + 1 && s.promise == Some(load1)
    ensures load1.LoadRejected? ==> r1 == r2 == Threw(LoadFailed)
    ensures r2 == SynthesisResult(true, load1, inf2)
  {
    r1 := s.SynthesizeYorubaToBlob(true, load1, inf1);
    r2 := s.SynthesizeYorubaToBlob(true, load2, inf2);
  }
}
