/**
 * Compile-time constants of the visualiser (include/Globals.h) and the
 * start-up retry policy of the main program that reads RETRY_COUNT.
 */
module Globals {

  /** Number of frequency bars the newer renderer was meant to draw (not used by the model's renderers). */
  const BAR_COUNT: nat := 64

  /** How many times the main program is meant to retry building the audio manager. */
  const RETRY_COUNT: nat := 5

  /** Number of mono samples in one analysis window (the transform length). */
  const FFT_COUNT: nat := 480

  /** Default capture buffer duration, in 100-nanosecond units. */
  const REFTIMES_PER_SEC: nat := 1000000

  /** Number of spectrum bins kept after the transform: the first half of the window. */
  const HALF_SPECTRUM: nat := FFT_COUNT / 2

  /** Number of bars each rectangle renderer walks: a quarter of the window. */
  const RENDER_BARS: nat := FFT_COUNT / 4

  /** The bars drawn per frame all have a bin of their own in the half spectrum. */
  lemma RenderBarsFitSpectrum()
    ensures HALF_SPECTRUM == 240 && RENDER_BARS == 120
    ensures RENDER_BARS <= HALF_SPECTRUM
  {
  }

  /**
   * What the main program's start-up ends in.  Ready carries the value of
   * the retry counter `trys` once construction succeeded.
   */
  datatype Startup = Ready(trys: nat) | Aborted(trys: nat) | Uncaught

  /**
   * The start-up sequence of the main program: the audio manager is built
   * once outside any handler, then rebuilt inside a try block; on a runtime
   * error it is rebuilt once more inside the handler, the counter goes up by
   * one and the program aborts once the counter reaches RETRY_COUNT.  An
   * exception thrown by the first or by the handler's construction is not
   * caught.  Each flag says whether that construction throws.
   */
  function StartupOutcome(declarationFails: bool, firstFails: bool, retryFails: bool): (o: Startup)
    ensures o.Uncaught? <==> declarationFails || (firstFails && retryFails)
    ensures o.Ready? ==> o.trys == (if firstFails then 1 else 0)
  {
    if declarationFails then Uncaught
    else if !firstFails then Ready(0)
    else if retryFails then Uncaught
    else
      var trys: nat := 1;
      if trys >= RETRY_COUNT then Aborted(trys) else Ready(trys)
  }

  /**
   * With RETRY_COUNT = 5 the abort branch is dead: the handler runs at most
   * once, so the counter never exceeds 1.
   */
  lemma StartupNeverAborts(declarationFails: bool, firstFails: bool, retryFails: bool)
    ensures !StartupOutcome(declarationFails, firstFails, retryFails).Aborted?
    ensures StartupOutcome(declarationFails, firstFails, retryFails).Ready? ==>
              StartupOutcome(declarationFails, firstFails, retryFails).trys <= 1 < RETRY_COUNT
  {
  }
}
