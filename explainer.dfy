/** The explainer component's own state: the calculator configuration and an
    eight-slide presentation whose counter wraps around at both ends (unlike
    the outer deck, which clamps). */
module Explainer {
  import opened Js
  import opened Metrics

  /** The presentation has eight slides. */
  const SlideCount: int := 8

  /** The slide after `c`, wrapping from the last to the first. */
  function NextIndex(c: int): (r: int)
    ensures 0 <= c < SlideCount ==> 0 <= r < SlideCount
    ensures 0 <= c < SlideCount - 1 ==> r == c + 1
    ensures c == SlideCount - 1 ==> r == 0
  {
    Rem(c + 1, SlideCount)
  }

  /** The slide before `c`, wrapping from the first to the last. */
  function PrevIndex(c: int): (r: int)
    ensures 0 <= c < SlideCount ==> 0 <= r < SlideCount
    ensures 0 < c < SlideCount ==> r == c - 1
    ensures c == 0 ==> r == SlideCount - 1
  {
    Rem(c - 1 + SlideCount, SlideCount)
  }

  /** Slide counter, presenting flag and auto-play flag. */
  datatype Presentation = Presentation(currentSlide: int, isPresenting: bool, autoPlay: bool)

  predicate InRange(s: Presentation)
  {
    0 <= s.currentSlide < SlideCount
  }

  /** The explainer's keydown handler: each test is independent, and a key
      matches at most one of them. */
  function AfterKeyPress(s: Presentation, key: string): (r: Presentation)
    ensures InRange(s) ==> InRange(r)
  {
    var s1 := if key == "ArrowRight" || key == " " then s.(currentSlide := NextIndex(s.currentSlide)) else s;
    var s2 := if key == "ArrowLeft" then s1.(currentSlide := PrevIndex(s1.currentSlide)) else s1;
    var s3 := if key == "p" || key == "P" then s2.(isPresenting := !s.isPresenting) else s2;
    var s4 := if key == "a" || key == "A" then s3.(autoPlay := !s.autoPlay) else s3;
    if key == "Escape" then s4.(isPresenting := false) else s4
  }

  /** The auto-advance timer is pending exactly while presenting with auto-play on. */
  predicate TimerArmed(s: Presentation): (armed: bool)
    ensures armed ==> s.isPresenting
    ensures !s.autoPlay ==> !armed
  {
    s.autoPlay && s.isPresenting
  }

  /** `NextIndex` applied `k` times. */
  function NextIndexN(c: int, k: nat): int
    decreases k
  {
    if k == 0 then c else NextIndexN(NextIndex(c), k - 1)
  }

  // ---------------------------------------------------------------- lemmas

  /** Going forward then back, or back then forward, returns to the same slide. */
  lemma PrevUndoesNext(c: int)
    requires 0 <= c < SlideCount
    ensures PrevIndex(NextIndex(c)) == c
    ensures NextIndex(PrevIndex(c)) == c
  {
  }

  /** Advancing `k` times moves `k` slides forward modulo eight. */
  lemma {:induction false} NextIndexNIsModular(c: int, k: nat)
    requires 0 <= c < SlideCount
    ensures NextIndexN(c, k) == (c + k) % SlideCount
    decreases k
  {
    if k > 0 {
      NextIndexNIsModular(NextIndex(c), k - 1);
      assert NextIndex(c) == (c + 1) % SlideCount;
      assert ((c + 1) % SlideCount + (k - 1)) % SlideCount == (c + k) % SlideCount;
    }
  }

  /** Eight advances come back to the starting slide. */
  lemma EightAdvancesCycle(c: int)
    requires 0 <= c < SlideCount
    ensures NextIndexN(c, SlideCount) == c
  {
    NextIndexNIsModular(c, SlideCount);
  }

  /** 'p'/'P' flips presenting and nothing else; two presses restore the state. */
  lemma PresentKeyToggles(s: Presentation, k1: string, k2: string)
    requires k1 == "p" || k1 == "P"
    requires k2 == "p" || k2 == "P"
    ensures AfterKeyPress(s, k1) == s.(isPresenting := !s.isPresenting)
    ensures AfterKeyPress(AfterKeyPress(s, k1), k2) == s
  {
  }

  /** 'a'/'A' flips auto-play and nothing else; two presses restore the state. */
  lemma AutoPlayKeyToggles(s: Presentation, k1: string, k2: string)
    requires k1 == "a" || k1 == "A"
    requires k2 == "a" || k2 == "A"
    ensures AfterKeyPress(s, k1) == s.(autoPlay := !s.autoPlay)
    ensures AfterKeyPress(AfterKeyPress(s, k1), k2) == s
  {
  }

  /** Escape stops presenting, disarms the timer, and pressing it again changes nothing. */
  lemma EscapeStopsPresenting(s: Presentation)
    ensures AfterKeyPress(s, "Escape") == s.(isPresenting := false)
    ensures !TimerArmed(AfterKeyPress(s, "Escape"))
    ensures AfterKeyPress(AfterKeyPress(s, "Escape"), "Escape") == AfterKeyPress(s, "Escape")
  {
  }

  /** An armed timer is disarmed by 'p' (leaving the presentation), by 'a'
      (pausing) and by Escape, and stays armed when the slide moves. */
  lemma KeysDisarmTimer(s: Presentation)
    requires TimerArmed(s)
    ensures !TimerArmed(AfterKeyPress(s, "p")) && !TimerArmed(AfterKeyPress(s, "a"))
    ensures !TimerArmed(AfterKeyPress(s, "Escape"))
    ensures TimerArmed(AfterKeyPress(s, "ArrowRight")) && TimerArmed(AfterKeyPress(s, "ArrowLeft"))
  {
  }

  /** Arrows and Space move the slide whether or not the viewer is presenting,
      and leave both flags alone. */
  lemma ArrowsMoveInEveryMode(s: Presentation)
    ensures AfterKeyPress(s, "ArrowRight") == s.(currentSlide := NextIndex(s.currentSlide))
    ensures AfterKeyPress(s, " ") == s.(currentSlide := NextIndex(s.currentSlide))
    ensures AfterKeyPress(s, "ArrowLeft") == s.(currentSlide := PrevIndex(s.currentSlide))
  {
  }

  /** Every other key leaves the presentation unchanged. */
  lemma OtherKeysIgnored(s: Presentation, key: string)
    requires key !in ["ArrowRight", " ", "ArrowLeft", "p", "P", "a", "A", "Escape"]
    ensures AfterKeyPress(s, key) == s
  {
  }

  // ------------------------------------------------------------ the object

  /** The explainer component: four configuration cells and three
      presentation cells. */
  class SlmExplainer {
    var paramsM: real
    var contextLen: int
    var device: Device
    var quantBits: int
    var currentSlide: int
    var isPresenting: bool
    var autoPlay: bool

    function Presented(): Presentation
      reads this
    {
      Presentation(currentSlide, isPresenting, autoPlay)
    }

    ghost predicate Valid()
      reads this
    {
      InRange(Presented())
    }

    /** The metrics shown for the current configuration. */
    function CurrentMetrics(): (m: Metrics)
      reads this
      ensures m.memMB == m.weightMB + m.kvTotalMB
    {
      UseMetrics(paramsM, contextLen, quantBits, device)
    }

    /** Defaults: 50M parameters, 1024 tokens, desktop browser, 4-bit, first
        slide, not presenting, auto-play off. */
    constructor ()
      ensures Valid()
      ensures paramsM == 50.0 && contextLen == 1024 && device == DesktopBrowser && quantBits == 4
      ensures Presented() == Presentation(0, false, false)
    {
      paramsM := 50.0;
      contextLen := 1024;
      device := DesktopBrowser;
      quantBits := 4;
      currentSlide := 0;
      isPresenting := false;
      autoPlay := false;
    }

    method NextSlide()
      requires Valid()
      modifies this`currentSlide
      ensures Valid() && currentSlide == NextIndex(old(currentSlide))
    {
      currentSlide := Rem(currentSlide + 1, SlideCount);
    }

    method PrevSlide()
      requires Valid()
      modifies this`currentSlide
      ensures Valid() && currentSlide == PrevIndex(old(currentSlide))
    {
      currentSlide := Rem(currentSlide - 1 + SlideCount, SlideCount);
    }

    /** The keydown handler; it never touches the configuration. */
    method HandleKeyPress(key: string)
      requires Valid()
      modifies this`currentSlide, this`isPresenting, this`autoPlay
      ensures Valid() && Presented() == AfterKeyPress(old(Presented()), key)
    {
      var wasPresenting, wasAutoPlay := isPresenting, autoPlay;
      if key == "ArrowRight" || key == " " { NextSlide(); }
      if key == "ArrowLeft" { PrevSlide(); }
      if key == "p" || key == "P" { isPresenting := !wasPresenting; }
      if key == "a" || key == "A" { autoPlay := !wasAutoPlay; }
      if key == "Escape" { isPresenting := false; }
    }

    /** The "Start Presentation" and "Exit" buttons. */
    method SetIsPresenting(b: bool)
      requires Valid()
      modifies this`isPresenting
      ensures Valid() && isPresenting == b
    {
      isPresenting := b;
    }

    /** The "Auto" / "Pause" button. */
    method ToggleAutoPlay()
      requires Valid()
      modifies this`autoPlay
      ensures Valid() && autoPlay == !old(autoPlay)
    {
      autoPlay := !autoPlay;
    }

    /** The firing of the auto-advance timer, which is pending only while armed. */
    method AutoAdvance()
      requires Valid() && TimerArmed(Presented())
      modifies this`currentSlide
      ensures Valid() && currentSlide == NextIndex(old(currentSlide))
    {
      NextSlide();
    }

    /** The configuration controls; none of them moves the presentation. */
    method SetParamsM(v: real)
      modifies this`paramsM
      ensures paramsM == v
    {
      paramsM := v;
    }

    method SetContextLen(v: int)
      modifies this`contextLen
      ensures contextLen == v
    {
      contextLen := v;
    }

    method SetDevice(d: Device)
      modifies this`device
      ensures device == d
    {
      device := d;
    }

    method SetQuantBits(bits: int)
      modifies this`quantBits
      ensures quantBits == bits
    {
      quantBits := bits;
    }
  }
}
