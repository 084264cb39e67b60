/** The outer deck: which chapter is shown, which slide of it, and whether the
    navigation chrome is visible.  Slide movement clamps at both ends and never
    wraps; switching chapter starts the new chapter at its first slide. */
module Deck {

  datatype ChapterId = Chapter1 | Chapter2

  /** The fixed slide count of each chapter. */
  function TotalSlides(c: ChapterId): (n: nat)
    ensures n > 0
    ensures c == Chapter1 ==> n == 9
    ensures c == Chapter2 ==> n == 8
  {
    match c
    case Chapter1 => 9
    case Chapter2 => 8
  }

  /** The three state cells of the deck. */
  datatype Nav = Nav(chapter: ChapterId, slideIndex: int, navigationVisible: bool)

  /** The deck's invariant: the slide index lies inside the current chapter. */
  predicate InRange(s: Nav)
  {
    0 <= s.slideIndex < TotalSlides(s.chapter)
  }

  function LastIndex(s: Nav): int
  {
    TotalSlides(s.chapter) - 1
  }

  /** State on load: chapter 1, first slide, chrome visible. */
  const Initial := Nav(Chapter1, 0, true)

  function MinInt(a: int, b: int): int { if a <= b then a else b }
  function MaxInt(a: int, b: int): int { if a >= b then a else b }

  /** Advance one slide, staying put on the last one. */
  function Next(s: Nav): (r: Nav)
    ensures r.chapter == s.chapter && r.navigationVisible == s.navigationVisible
    ensures InRange(s) ==> InRange(r) && r.slideIndex == MinInt(s.slideIndex + 1, LastIndex(s))
    ensures r.slideIndex == s.slideIndex || r.slideIndex == s.slideIndex + 1
    ensures s.slideIndex == LastIndex(s) ==> r == s
  {
    if s.slideIndex < TotalSlides(s.chapter) - 1 then s.(slideIndex := s.slideIndex + 1) else s
  }

  /** Go back one slide, staying put on the first one. */
  function Previous(s: Nav): (r: Nav)
    ensures r.chapter == s.chapter && r.navigationVisible == s.navigationVisible
    ensures InRange(s) ==> InRange(r) && r.slideIndex == MaxInt(s.slideIndex - 1, 0)
    ensures r.slideIndex == s.slideIndex || r.slideIndex == s.slideIndex - 1
    ensures s.slideIndex == 0 ==> r == s
  {
    if s.slideIndex > 0 then s.(slideIndex := s.slideIndex - 1) else s
  }

  /** Jump to slide `i` when it exists in the current chapter; ignore it otherwise. */
  function GoTo(s: Nav, i: int): (r: Nav)
    ensures r.chapter == s.chapter && r.navigationVisible == s.navigationVisible
    ensures 0 <= i < TotalSlides(s.chapter) ==> r.slideIndex == i
    ensures !(0 <= i < TotalSlides(s.chapter)) ==> r == s
    ensures InRange(s) ==> InRange(r)
  {
    if i >= 0 && i < TotalSlides(s.chapter) then s.(slideIndex := i) else s
  }

  /** Flip the navigation chrome. */
  function Toggled(s: Nav): (r: Nav)
    ensures r.navigationVisible != s.navigationVisible
    ensures r.chapter == s.chapter && r.slideIndex == s.slideIndex
  {
    s.(navigationVisible := !s.navigationVisible)
  }

  /** Hide the navigation chrome. */
  function Hidden(s: Nav): (r: Nav)
    ensures !r.navigationVisible
    ensures r.chapter == s.chapter && r.slideIndex == s.slideIndex
  {
    s.(navigationVisible := false)
  }

  /** Pick a chapter with its button.  A different chapter starts at its first
      slide; picking the current chapter changes nothing, since the reset runs
      only when the chapter actually changes. */
  function WithChapter(s: Nav, c: ChapterId): (r: Nav)
    ensures r.chapter == c && r.navigationVisible == s.navigationVisible
    ensures c != s.chapter ==> r.slideIndex == 0
    ensures c == s.chapter ==> r == s
    ensures c != s.chapter || InRange(s) ==> InRange(r)
  {
    if c == s.chapter then s else Nav(c, 0, s.navigationVisible)
  }

  /** The keys that still act while the chrome is hidden. */
  const AllowedWhileHidden: seq<string> := ["ArrowRight", "ArrowLeft", " ", "Home", "End"]

  /** The deck's keydown handler. */
  function AfterKey(s: Nav, key: string): (r: Nav)
    ensures r.chapter == s.chapter
    ensures InRange(s) ==> InRange(r)
  {
    if key == "n" || key == "N" then Toggled(s)
    else if !s.navigationVisible && key !in AllowedWhileHidden then s
    else if key == "ArrowRight" || key == " " then Next(s)
    else if key == "ArrowLeft" then Previous(s)
    else if key == "Home" then GoTo(s, 0)
    else if key == "End" then GoTo(s, TotalSlides(s.chapter) - 1)
    else if key == "Escape" then Hidden(s)
    else s
  }

  /** A run of key presses, handled in arrival order. */
  function AfterKeys(s: Nav, keys: seq<string>): Nav
    decreases |keys|
  {
    if |keys| == 0 then s else AfterKeys(AfterKey(s, keys[0]), keys[1..])
  }

  /** `Next` applied `k` times. */
  function NextN(s: Nav, k: nat): Nav
    decreases k
  {
    if k == 0 then s else NextN(Next(s), k - 1)
  }

  /** `Previous` applied `k` times. */
  function PreviousN(s: Nav, k: nat): Nav
    decreases k
  {
    if k == 0 then s else PreviousN(Previous(s), k - 1)
  }

  function Repeat(key: string, k: nat): (keys: seq<string>)
    ensures |keys| == k && forall i :: 0 <= i < k ==> keys[i] == key
  {
    if k == 0 then [] else [key] + Repeat(key, k - 1)
  }

  // ---------------------------------------------------------------- lemmas

  /** Repeated advancing climbs one slide per step and stops at the last slide:
      it never leaves the chapter. */
  lemma {:induction false} NextNClamps(s: Nav, k: nat)
    requires InRange(s)
    ensures InRange(NextN(s, k))
    ensures NextN(s, k).slideIndex == MinInt(s.slideIndex + k, LastIndex(s))
    ensures NextN(s, k).chapter == s.chapter
    ensures NextN(s, k).navigationVisible == s.navigationVisible
    decreases k
  {
    if k > 0 {
      NextNClamps(Next(s), k - 1);
    }
  }

  /** Repeated going back descends one slide per step and stops at slide 0. */
  lemma {:induction false} PreviousNClamps(s: Nav, k: nat)
    requires InRange(s)
    ensures InRange(PreviousN(s, k))
    ensures PreviousN(s, k).slideIndex == MaxInt(s.slideIndex - k, 0)
    ensures PreviousN(s, k).chapter == s.chapter
    ensures PreviousN(s, k).navigationVisible == s.navigationVisible
    decreases k
  {
    if k > 0 {
      PreviousNClamps(Previous(s), k - 1);
    }
  }

  /** Advancing `TotalSlides` times from slide 0 ends on the last slide. */
  lemma NextFromFirstEndsOnLast(c: ChapterId, visible: bool)
    ensures NextN(Nav(c, 0, visible), TotalSlides(c)) == Nav(c, TotalSlides(c) - 1, visible)
  {
    NextNClamps(Nav(c, 0, visible), TotalSlides(c));
  }

  /** Pressing ArrowRight `k` times is advancing `k` times, chrome visible or not. */
  lemma {:induction false} ArrowRightsAreNextN(s: Nav, k: nat)
    ensures AfterKeys(s, Repeat("ArrowRight", k)) == NextN(s, k)
    decreases k
  {
    if k > 0 {
      var keys := Repeat("ArrowRight", k);
      assert keys[0] == "ArrowRight" && keys[1..] == Repeat("ArrowRight", k - 1);
      assert "ArrowRight" in AllowedWhileHidden;
      ArrowRightsAreNextN(Next(s), k - 1);
    }
  }

  /** From the initial state, eight ArrowRights reach the last slide of chapter 1,
      a ninth stays there, and Home returns to the first slide. */
  lemma EndToEndScenario()
    ensures AfterKeys(Initial, Repeat("ArrowRight", 8)) == Nav(Chapter1, 8, true)
    ensures AfterKeys(Initial, Repeat("ArrowRight", 9)) == Nav(Chapter1, 8, true)
    ensures AfterKey(Nav(Chapter1, 8, true), "Home") == Initial
  {
    ArrowRightsAreNextN(Initial, 8);
    NextNClamps(Initial, 8);
    ArrowRightsAreNextN(Initial, 9);
    NextNClamps(Initial, 9);
  }

  /** Switching chapter resets the index and keeps the chrome setting. */
  lemma ChapterSwitchResets(s: Nav)
    requires s.chapter == Chapter1
    ensures WithChapter(s, Chapter2) == Nav(Chapter2, 0, s.navigationVisible)
  {
  }

  /** 'n' and 'N' flip the chrome in every state and change nothing else;
      two presses restore the state. */
  lemma ToggleKeyInvolution(s: Nav, k1: string, k2: string)
    requires k1 == "n" || k1 == "N"
    requires k2 == "n" || k2 == "N"
    ensures AfterKey(s, k1) == s.(navigationVisible := !s.navigationVisible)
    ensures AfterKey(AfterKey(s, k1), k2) == s
  {
  }

  /** While the chrome is hidden, every key outside the movement keys and
      'n'/'N' (Escape included) is ignored. */
  lemma HiddenIgnoresOtherKeys(s: Nav, key: string)
    requires !s.navigationVisible
    requires key != "n" && key != "N"
    requires key !in AllowedWhileHidden
    ensures AfterKey(s, key) == s
  {
  }

  /** While the chrome is hidden, the movement keys act exactly as they do
      when it is visible, and leave it hidden. */
  lemma HiddenMovementUnaffected(s: Nav, key: string)
    requires !s.navigationVisible
    requires key in AllowedWhileHidden
    ensures AfterKey(s, key) == AfterKey(s.(navigationVisible := true), key).(navigationVisible := false)
  {
  }

  /** Home goes to slide 0 and End to the last slide, chrome visible or not. */
  lemma HomeAndEnd(s: Nav)
    requires InRange(s)
    ensures AfterKey(s, "Home") == s.(slideIndex := 0)
    ensures AfterKey(s, "End") == s.(slideIndex := LastIndex(s))
  {
  }

  /** ArrowRight and Space advance, ArrowLeft goes back, chrome visible or not. */
  lemma MovementKeys(s: Nav)
    ensures AfterKey(s, "ArrowRight") == Next(s)
    ensures AfterKey(s, " ") == Next(s)
    ensures AfterKey(s, "ArrowLeft") == Previous(s)
  {
  }

  /** While the chrome is visible, a key outside the deck's key table is ignored. */
  lemma VisibleIgnoresOtherKeys(s: Nav, key: string)
    requires s.navigationVisible
    requires key !in ["n", "N", "ArrowRight", " ", "ArrowLeft", "Home", "End", "Escape"]
    ensures AfterKey(s, key) == s
  {
  }

  /** Escape while the chrome is visible hides it and nothing else. */
  lemma EscapeOnlyHides(s: Nav)
    requires s.navigationVisible
    ensures AfterKey(s, "Escape") == s.(navigationVisible := false)
  {
  }

  /** No run of key presses changes the chapter or leaves the chapter's range. */
  lemma {:induction false} KeysKeepChapter(s: Nav, keys: seq<string>)
    requires InRange(s)
    ensures AfterKeys(s, keys).chapter == s.chapter
    ensures InRange(AfterKeys(s, keys))
    decreases |keys|
  {
    if |keys| > 0 {
      KeysKeepChapter(AfterKey(s, keys[0]), keys[1..]);
    }
  }

  // ------------------------------------------------------------ the object

  /** The deck component: three mutable state cells and the handlers that
      update them. */
  class Navigator {
    var chapter: ChapterId
    var slideIndex: int
    var navigationVisible: bool

    function State(): Nav
      reads this
    {
      Nav(chapter, slideIndex, navigationVisible)
    }

    ghost predicate Valid()
      reads this
    {
      InRange(State())
    }

    constructor ()
      ensures Valid() && State() == Initial
    {
      chapter := Chapter1;
      slideIndex := 0;
      navigationVisible := true;
    }

    method NextSlide()
      requires Valid()
      modifies this
      ensures Valid() && State() == Next(old(State()))
    {
      if slideIndex < TotalSlides(chapter) - 1 {
        slideIndex := slideIndex + 1;
      }
    }

    method PreviousSlide()
      requires Valid()
      modifies this
      ensures Valid() && State() == Previous(old(State()))
    {
      if slideIndex > 0 {
        slideIndex := slideIndex - 1;
      }
    }

    method GoToSlide(i: int)
      requires Valid()
      modifies this
      ensures Valid() && State() == GoTo(old(State()), i)
    {
      if i >= 0 && i < TotalSlides(chapter) {
        slideIndex := i;
      }
    }

    method ToggleNavigationControls()
      requires Valid()
      modifies this
      ensures Valid() && State() == Toggled(old(State()))
    {
      navigationVisible := !navigationVisible;
    }

    /** A chapter button: set the chapter and, when it changed, reset the slide. */
    method SelectChapter(c: ChapterId)
      requires Valid()
      modifies this
      ensures Valid() && State() == WithChapter(old(State()), c)
    {
      if c != chapter {
        chapter := c;
        slideIndex := 0;
      }
    }

    method HandleKeyDown(key: string)
      requires Valid()
      modifies this
      ensures Valid() && State() == AfterKey(old(State()), key)
    {
      if key == "n" || key == "N" {
        ToggleNavigationControls();
        return;
      }
      if !navigationVisible && key !in AllowedWhileHidden {
        return;
      }
      if key == "ArrowRight" || key == " " {
        NextSlide();
      } else if key == "ArrowLeft" {
        PreviousSlide();
      } else if key == "Home" {
        GoToSlide(0);
      } else if key == "End" {
        GoToSlide(TotalSlides(chapter) - 1);
      } else if key == "Escape" {
        navigationVisible := false;
      }
    }
  }
}
