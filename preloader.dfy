/**
 * The loading screen (src/components/PreLoader.tsx): a repeating timer whose
 * callback advances a progress counter by 2 until it has reached 100, then
 * stops itself and schedules the fade-out, after which `onComplete` is
 * called. Timer periods and delays are not modelled; each firing of the
 * interval or of a timeout is one method call.
 */
module PreLoader {

  /** The progress cap, and the value at which the interval stops itself. */
  const FULL := 100

  /** How much one tick below the cap adds. */
  const STEP := 2

  /** The updater passed to `setProgress` on every tick. */
  function NextProgress(prev: int): (next: int)
    ensures prev >= FULL ==> next == FULL
    ensures prev < FULL ==> next == prev + STEP
  {
    if prev >= FULL then FULL else prev + STEP
  }

  /** The progress after `n` ticks, starting from 0. */
  function ProgressAfter(n: nat): (p: int)
    ensures 0 <= p <= FULL && p % 2 == 0
  {
    if n == 0 then 0 else NextProgress(ProgressAfter(n - 1))
  }

  /** After `n` ticks the progress is `2 * n`, capped at 100. */
  lemma {:induction false} ProgressClosedForm(n: nat)
    ensures ProgressAfter(n) == if 2 * n < FULL then 2 * n else FULL
  {
    if n > 0 {
      ProgressClosedForm(n - 1);
    }
  }

  /** Progress never goes down from one tick to the next. */
  lemma ProgressMonotone(m: nat, n: nat)
    requires m <= n
    ensures ProgressAfter(m) <= ProgressAfter(n)
  {
    ProgressClosedForm(m);
    ProgressClosedForm(n);
  }

  /** The 50th tick is the first to reach 100; the 51st sees 100 and stops the timer. */
  lemma FullAfterFiftyTicks(n: nat)
    ensures ProgressAfter(n) == FULL <==> n >= 50
  {
    ProgressClosedForm(n);
  }

  class PreLoader {
    /** `progress`. */
    var progress: int
    /** `isAnimating`: the overlay is fully visible while it holds. */
    var isAnimating: bool
    /** The interval is running. */
    var timerActive: bool
    /** The first timeout (which ends the animation) is scheduled. */
    var fadePending: bool
    /** The second timeout (which calls `onComplete`) is scheduled. */
    var completePending: bool
    /** How many times `onComplete` has been called. */
    var completions: nat
    /** How many times the interval has fired. */
    ghost var ticks: nat

    /**
     * The phases follow one another: ticking, then fade pending, then
     * completion pending, then done. Progress is the closed form of the
     * ticks so far, and only a full bar ends the animation or completes.
     */
    ghost predicate Valid()
      reads this
    {
      && ticks <= 51
      && progress == ProgressAfter(ticks)
      && (timerActive <==> ticks <= 50)
      && (timerActive ==> isAnimating && !fadePending && !completePending && completions == 0)
      && (fadePending ==> isAnimating && !completePending && completions == 0)
      && (completePending ==> !isAnimating && completions == 0)
      && (!timerActive && isAnimating ==> fadePending)
      && (!isAnimating && !completePending ==> completions == 1)
      && completions <= 1
    }

    /** Mounting: progress 0, animating, interval started. */
    constructor ()
      ensures Valid()
      ensures progress == 0 && isAnimating && timerActive
      ensures !fadePending && !completePending && completions == 0 && ticks == 0
    {
      progress := 0;
      isAnimating := true;
      timerActive := true;
      fadePending := false;
      completePending := false;
      completions := 0;
      ticks := 0;
    }

    /**
     * One firing of the interval: below 100 the progress grows by 2; at
     * 100 the progress stays 100, the interval is cleared and the fade-out
     * timeout is scheduled.
     */
    method Tick()
      requires Valid() && timerActive
      modifies this
      ensures Valid()
      ensures progress == NextProgress(old(progress)) && progress >= old(progress)
      ensures old(progress) < FULL ==> timerActive && !fadePending
      ensures old(progress) >= FULL ==> !timerActive && fadePending
      ensures isAnimating == old(isAnimating) && completions == old(completions)
      ensures ticks == old(ticks) + 1
    {
      ProgressClosedForm(ticks);
      ProgressClosedForm(ticks + 1);
      if progress >= FULL {
        timerActive := false;
        fadePending := true;
        progress := FULL;
      } else {
        progress := progress + STEP;
      }
      ticks := ticks + 1;
    }

    /** The first timeout: the animation ends and `onComplete` is scheduled. */
    method FadeOut()
      requires Valid() && fadePending
      modifies this
      ensures Valid()
      ensures !isAnimating && !fadePending && completePending
      ensures progress == old(progress) == FULL && timerActive == old(timerActive)
      ensures completions == old(completions)
    {
      ProgressClosedForm(ticks);
      isAnimating := false;
      fadePending := false;
      completePending := true;
    }

    /** The second timeout: `onComplete` is called, once. */
    method FireComplete()
      requires Valid() && completePending
      modifies this
      ensures Valid()
      ensures completions == old(completions) + 1 == 1 && !completePending
      ensures progress == old(progress) == FULL && isAnimating == old(isAnimating)
    {
      ProgressClosedForm(ticks);
      completePending := false;
      completions := completions + 1;
    }

    /**
     * The overlay's visibility classes: fully visible while animating, else
     * transparent and letting clicks through.
     */
    function OverlayClasses(): (classes: string)
      reads this
      ensures classes == "opacity-100" <==> isAnimating
      ensures classes == "opacity-0 pointer-events-none" <==> !isAnimating
    {
      if !isAnimating then "opacity-0 pointer-events-none" else "opacity-100"
    }

    /**
     * The interval firing until it clears itself: 51 ticks from mount, the
     * bar full, and the fade-out scheduled.
     */
    method RunInterval()
      requires Valid() && timerActive
      modifies this
      ensures Valid()
      ensures !timerActive && fadePending && isAnimating
      ensures progress == FULL && ticks == 51
    {
      while timerActive
        invariant Valid()
        invariant isAnimating
        invariant !timerActive ==> fadePending
        decreases 51 - ticks
      {
        Tick();
      }
      ProgressClosedForm(ticks);
    }
  }

  /** The whole run of the loader: mount, 51 ticks, fade-out, completion. */
  method Run() returns (loader: PreLoader)
    ensures fresh(loader) && loader.Valid()
    ensures loader.progress == FULL && !loader.isAnimating && loader.completions == 1
    ensures !loader.timerActive && !loader.fadePending && !loader.completePending
  {
    loader := new PreLoader();
    loader.RunInterval();
    loader.FadeOut();
    loader.FireComplete();
  }
}
