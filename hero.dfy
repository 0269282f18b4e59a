/** The landing page's typewriter headline
    (src/components/home/HeroSection.tsx): a 50 ms interval that shows one
    more character of a fixed text on each tick and stops once the whole
    text is shown. */
module HeroSection {

  /** The headline exactly as the page holds it, including the three
      characters U+00E2 U+20AC U+201C where an en dash was mis-decoded. */
  const FullText: string :=
    "Real-Time AI Malware Detection \U{E2}\U{20AC}\U{201C} Secure Your System Now!"

  /** The interval period in milliseconds. */
  const TypingSpeed: nat := 50

  /** The text shown after `ticks` ticks: nothing before the first tick, and
      the first k - 1 characters after the k-th. */
  function ShownAfter(ticks: nat): (t: string)
    requires ticks <= |FullText| + 1
    ensures t <= FullText
    ensures |t| == if ticks == 0 then 0 else ticks - 1
  {
    if ticks == 0 then "" else FullText[..ticks - 1]
  }

  /** More ticks never show less: each shown text extends the earlier
      ones. */
  lemma ShownAfterGrows(i: nat, j: nat)
    requires i <= j <= |FullText| + 1
    ensures ShownAfter(i) <= ShownAfter(j)
  {
  }

  class Typewriter {
    /** The interval closure's character counter. */
    var index: nat
    var typedText: string
    var timerActive: bool

    /** The counter is the number of ticks so far, the text is what that
        many ticks show, and the timer runs until the counter passes the
        text length. */
    ghost predicate Valid()
      reads this
    {
      && index <= |FullText| + 1
      && typedText == ShownAfter(index)
      && (timerActive ==> index <= |FullText|)
    }

    /** Mounting: empty text, counter at 0, interval started. */
    constructor ()
      ensures Valid()
      ensures index == 0 && typedText == "" && timerActive
    {
      index := 0;
      typedText := "";
      timerActive := true;
    }

    /** One run of the interval callback: show the first `index`
        characters, count the tick, and stop once the counter passes the
        text length. */
    method Tick()
      requires Valid() && timerActive
      modifies this
      ensures Valid()
      ensures index == old(index) + 1
      ensures typedText == FullText[..old(index)]
      ensures old(typedText) <= typedText
      ensures timerActive <==> index <= |FullText|
    {
      typedText := FullText[..index];
      index := index + 1;
      if index > |FullText| {
        timerActive := false;
      }
    }

    /** The unmount cleanup: the interval is cleared and the text stays. */
    method Unmount()
      requires Valid()
      modifies this
      ensures Valid()
      ensures !timerActive && index == old(index) && typedText == old(typedText)
    {
      timerActive := false;
    }

    /** The interval left to run until it stops: it stops after
        |FullText| + 1 ticks in all, with the whole text shown, and the text
        only ever grows on the way. */
    method RunToEnd() returns (ticks: nat)
      requires Valid() && timerActive
      modifies this
      ensures Valid() && !timerActive
      ensures ticks == |FullText| + 1 - old(index)
      ensures index == |FullText| + 1
      ensures typedText == FullText
      ensures old(typedText) <= typedText
    {
      ticks := 0;
      ghost var start := typedText;
      while timerActive
        invariant Valid()
        invariant old(index) + ticks == index
        invariant !timerActive ==> index == |FullText| + 1
        invariant start <= typedText
        decreases |FullText| + 1 - index
      {
        Tick();
        ticks := ticks + 1;
      }
      assert FullText[..|FullText|] == FullText;
    }
  }
}
