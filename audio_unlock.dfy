/**
 * The audio unlock gate of lib/audio-unlock.ts (`ensureAudioUnlocked`).
 *
 * Two module-level flags, `unlocked` and `unlocking`, guard a one-shot
 * priming procedure: resume a Web Audio context, start a one-sample silent
 * buffer, close the context, then play and unload a muted HTML audio element.
 * Every platform call is a foreign call; what it does (succeed or throw) is
 * described by a `Platform` value.
 */
module AudioUnlock {

  /** What the browser does at each priming step. */
  datatype Platform = Platform(
    hasWindow: bool,          // typeof window !== "undefined"
    hasAudioContext: bool,    // window.AudioContext || window.webkitAudioContext
    contextThrows: bool,      // `new AC()` throws
    suspended: bool,          // ctx.state === "suspended"
    resumeThrows: bool,       // `await ctx.resume()` rejects
    bufferThrows: bool,       // creating or starting the silent buffer throws
    closeThrows: bool,        // `await ctx.close()` rejects
    htmlAudioThrows: bool     // the HTML audio element steps throw
  )

  /** One attempted priming step and whether it failed. */
  datatype Step =
    | CreateContext(failed: bool)
    | Resume(failed: bool)
    | StartSilentBuffer(failed: bool)
    | CloseContext(failed: bool)
    | PrimeHtmlAudio(failed: bool)

  /** The steps one call attempted, and whether an exception escaped it. */
  datatype Run = Run(steps: seq<Step>, escaped: bool)

  datatype GateState = GateState(unlocked: bool, unlocking: bool)

  /**
   * The body of the outer `try`: only `new AC()` is outside an inner catch, so
   * it is the only step whose failure ends the run.
   */
  function Priming(p: Platform): (r: Run)
    ensures r.escaped <==> p.hasAudioContext && p.contextThrows
    ensures r.steps != []
    ensures !r.escaped ==> r.steps[|r.steps| - 1] == PrimeHtmlAudio(p.htmlAudioThrows)
    ensures !p.hasAudioContext ==> r.steps == [PrimeHtmlAudio(p.htmlAudioThrows)]
  {
    if p.hasAudioContext && p.contextThrows then
      Run([CreateContext(true)], true)
    else
      var webAudio :=
        if !p.hasAudioContext then []
        else [CreateContext(false)]
             + (if p.suspended then [Resume(p.resumeThrows)] else [])
             + [StartSilentBuffer(p.bufferThrows), CloseContext(p.closeThrows)];
      Run(webAudio + [PrimeHtmlAudio(p.htmlAudioThrows)], false)
  }

  /** One call of `ensureAudioUnlocked` from state `s`: the new state and the run. */
  function Call(s: GateState, p: Platform): (r: (GateState, Run))
    ensures !p.hasWindow || s.unlocked || s.unlocking ==> r == (s, Run([], false))
    ensures p.hasWindow && !s.unlocked && !s.unlocking ==>
      r.1 == Priming(p) && r.0 == GateState(!r.1.escaped, false)
  {
    if !p.hasWindow || s.unlocked || s.unlocking then (s, Run([], false))
    else
      var run := Priming(p);
      (GateState(!run.escaped, false), run)
  }

  /** The only exception that leaves the gate is the context constructor's. */
  lemma OnlyContextFailureEscapes(s: GateState, p: Platform)
    ensures Call(s, p).1.escaped <==>
      p.hasWindow && !s.unlocked && !s.unlocking && p.hasAudioContext && p.contextThrows
  {
  }

  /**
   * The swallowed failures (resume, silent buffer, close, HTML audio) change
   * nothing but their own step's outcome: the new state and the list of steps
   * attempted are those of a platform where every one of them succeeds.
   */
  lemma SwallowedFailuresDoNotMatter(s: GateState, p: Platform)
    ensures var q := p.(resumeThrows := false, bufferThrows := false, closeThrows := false,
                        htmlAudioThrows := false);
      && Call(s, p).0 == Call(s, q).0
      && Call(s, p).1.escaped == Call(s, q).1.escaped
      && |Call(s, p).1.steps| == |Call(s, q).1.steps|
  {
  }

  /** Sequential calls: the final state, and every run in order. */
  function Calls(s: GateState, ps: seq<Platform>): (r: (GateState, seq<Run>))
    ensures |r.1| == |ps|
    decreases ps
  {
    if ps == [] then (s, [])
    else
      var first := Call(s, ps[0]);
      var rest := Calls(first.0, ps[1..]);
      (rest.0, [first.1] + rest.1)
  }

  /** How many runs completed the priming procedure (set `unlocked`). */
  function Completed(runs: seq<Run>): nat
  {
    if runs == [] then 0
    else (if runs[0].steps != [] && !runs[0].escaped then 1 else 0) + Completed(runs[1..])
  }

  /** `unlocked` is never reset: once set, every later call does nothing. */
  lemma {:induction false} UnlockedIsFinal(s: GateState, ps: seq<Platform>)
    requires s.unlocked
    ensures Calls(s, ps).0 == s
    ensures forall i :: 0 <= i < |ps| ==> Calls(s, ps).1[i] == Run([], false)
    decreases ps
  {
    if ps != [] {
      UnlockedIsFinal(s, ps[1..]);
    }
  }

  /**
   * Over any sequence of calls, the priming procedure runs to completion at
   * most once; calls whose context constructor threw leave the gate as it was,
   * so a later call retries.
   */
  lemma {:induction false} CompletesAtMostOnce(s: GateState, ps: seq<Platform>)
    ensures Completed(Calls(s, ps).1) <= (if s.unlocked then 0 else 1)
    decreases ps
  {
    if ps != [] {
      var first := Call(s, ps[0]);
      CompletesAtMostOnce(first.0, ps[1..]);
      if first.1.steps != [] && !first.1.escaped {
        UnlockedIsFinal(first.0, ps[1..]);
        NoRunsCompleted(Calls(first.0, ps[1..]).1);
      }
    }
  }

  lemma {:induction false} NoRunsCompleted(runs: seq<Run>)
    requires forall i :: 0 <= i < |runs| ==> runs[i] == Run([], false)
    ensures Completed(runs) == 0
  {
    if runs != [] {
      NoRunsCompleted(runs[1..]);
    }
  }

  /** A call whose constructor threw leaves the gate closed and not in progress. */
  lemma FailedCallAllowsRetry(s: GateState, p: Platform)
    requires Call(s, p).1.escaped
    ensures Call(s, p).0 == GateState(false, false)
    ensures Call(Call(s, p).0, p).1 == Priming(p)
  {
  }

  /** The module state `unlocked`/`unlocking`. */
  class Gate {
    var unlocked: bool
    var unlocking: bool

    constructor ()
      ensures !unlocked && !unlocking
    {
      unlocked, unlocking := false, false;
    }

    function State(): GateState
      reads this
    {
      GateState(unlocked, unlocking)
    }

    /**
     * `ensureAudioUnlocked`: the steps it attempted and whether an exception
     * escaped; `unlocking` is cleared by the `finally` on both exits.
     */
    method EnsureAudioUnlocked(p: Platform) returns (steps: seq<Step>, escaped: bool)
      modifies this
      ensures (State(), Run(steps, escaped)) == Call(old(State()), p)
    {
      steps, escaped := [], false;
      if !p.hasWindow {
        return;
      }
      if unlocked || unlocking {
        return;
      }
      unlocking := true;
      // try {
      if p.hasAudioContext {
        if p.contextThrows {
          steps := steps + [CreateContext(true)];
          assert steps == [CreateContext(true)];
          escaped := true;
          unlocking := false;   // finally
          return;
        }
        steps := steps + [CreateContext(false)];
        if p.suspended {
          steps := steps + [Resume(p.resumeThrows)];
        }
        steps := steps + [StartSilentBuffer(p.bufferThrows)];
        steps := steps + [CloseContext(p.closeThrows)];
      }
      steps := steps + [PrimeHtmlAudio(p.htmlAudioThrows)];
      assert steps == Priming(p).steps;
      unlocked := true;
      // } finally {
      unlocking := false;
      // }
    }
  }
}
