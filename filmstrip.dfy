/** The "machine learning approach" slide: a filmstrip of cat pictures that
    scrolls one pixel per tick and wraps after fifty 210-px frames, with a
    learning-progress read-out derived from how far it has scrolled. */
module Filmstrip {
  import opened Js

  /** Fifty distinct frames, each 200 px wide plus a 10 px margin. */
  const TotalFrames: int := 50
  const FrameWidth: int := 210
  /** Scroll distance after which the strip jumps back to the start. */
  const Span: int := FrameWidth * TotalFrames

  function Abs(x: int): nat
  {
    if x < 0 then -x else x
  }

  /** The positions the strip can be at: (-10500, 0]. */
  predicate InStrip(pos: int)
  {
    -Span < pos <= 0
  }

  /** One tick of the position updater: move left one pixel, and jump back to
      0 once a whole strip of frames has gone by. */
  function StepPosition(prev: int): (r: int)
    ensures Abs(r) < Span
    ensures InStrip(prev) ==> InStrip(r)
    ensures InStrip(prev) && prev > -(Span - 1) ==> r == prev - 1
    ensures prev == -(Span - 1) ==> r == 0
  {
    var newPosition := prev - 1;
    if Abs(newPosition) >= FrameWidth * TotalFrames then 0 else newPosition
  }

  /** The position after `n` ticks. */
  function Ticks(pos: int, n: nat): int
    decreases n
  {
    if n == 0 then pos else StepPosition(Ticks(pos, n - 1))
  }

  /** The cat number shown under "Examples Seen". */
  function CatNumber(pos: int): (n: int)
    ensures 1 <= n <= TotalFrames
  {
    (Abs(pos) / FrameWidth) % TotalFrames + 1
  }

  /** Progress bar width in percent for a cat number. */
  function LearningProgress(cat: int): (r: real)
    ensures r <= 100.0
    ensures 1 <= cat <= TotalFrames ==> 2.0 <= r
  {
    Min((cat as real / TotalFrames as real) * 100.0, 100.0)
  }

  /** The accuracy read-out, in whole percent. */
  function DisplayedAccuracy(cat: int): (r: int)
    ensures r <= 95
    ensures 1 <= cat ==> 2 <= r
  {
    Round(Min((cat as real / TotalFrames as real) * 95.0, 95.0))
  }

  datatype Stage = Stage(name: string, accuracy: real, message: string)

  const LearningStages: seq<Stage> := [
    Stage("Learning", 0.0, "Recognizing basic patterns..."),
    Stage("Improving", 25.0, "Building feature recognition..."),
    Stage("Optimizing", 50.0, "Fine-tuning algorithms..."),
    Stage("Mastered", 75.0, "Pattern recognition complete!")
  ]

  /** The first stage whose threshold the progress has reached, or the last
      stage when none has been reached. */
  function CurrentStage(progress: real): (st: Stage)
    ensures st in LearningStages
  {
    match Find(LearningStages, (stage: Stage) => progress >= stage.accuracy)
    case Some(st) => st
    case None => LearningStages[|LearningStages| - 1]
  }

  /** The first stage whose threshold lies above the progress, or undefined. */
  function NextStage(progress: real): (r: Option<Stage>)
    ensures r.Some? ==> r.value in LearningStages && r.value.accuracy > progress
    ensures r.Some? ==> forall j :: 0 <= j < |LearningStages| && LearningStages[j].accuracy > progress ==>
                          r.value.accuracy <= LearningStages[j].accuracy
    ensures 0.0 <= progress < 75.0 ==> r.Some?
  {
    At(LearningStages, FindIndex(LearningStages, (stage: Stage) => stage.accuracy > progress))
  }

  /** The "% to next stage" figure of the status line, absent once no stage is
      left ahead. */
  function StatusPercent(cat: int, progress: real): (r: Option<int>)
    ensures r.Some? ==> 0 <= r.value <= 100
    ensures r.None? <==> NextStage(progress).None?
  {
    var current := CurrentStage(progress);
    match NextStage(progress)
    case None => None
    case Some(next) =>
      StagesDiffer(progress);
      var from := current.accuracy * TotalFrames as real / 100.0;
      var to := next.accuracy * TotalFrames as real / 100.0;
      Some(Round(Max(0.0, Min(100.0, ((cat as real - from) / (to - from)) * 100.0))))
  }

  // ---------------------------------------------------------------- lemmas

  /** Whenever there is a next stage it has a different threshold from the
      current one, so the status line never divides by zero. */
  lemma StagesDiffer(progress: real)
    ensures NextStage(progress).Some? ==> NextStage(progress).value.accuracy != CurrentStage(progress).accuracy
  {
    var reached := (stage: Stage) => progress >= stage.accuracy;
    var ahead := (stage: Stage) => stage.accuracy > progress;
    if progress >= 0.0 {
      assert reached(LearningStages[0]);
      assert CurrentStage(progress) == LearningStages[0];
    } else {
      assert ahead(LearningStages[0]);
      assert FindIndex(LearningStages, ahead) == 0;
      assert forall j :: 0 <= j < |LearningStages| ==> !reached(LearningStages[j]);
    }
  }

  /** For every non-negative progress the current stage is the first one,
      "Learning", whose threshold is 0. */
  lemma CurrentStageIsAlwaysLearning(progress: real)
    requires progress >= 0.0
    ensures CurrentStage(progress) == LearningStages[0]
    ensures CurrentStage(progress).name == "Learning" && CurrentStage(progress).accuracy == 0.0
  {
    var reached := (stage: Stage) => progress >= stage.accuracy;
    assert reached(LearningStages[0]);
  }

  /** There is no next stage exactly when the progress has reached 75. */
  lemma NextStageUndefinedIffMastered(progress: real)
    ensures NextStage(progress).None? <==> progress >= 75.0
  {
    var ahead := (stage: Stage) => stage.accuracy > progress;
    if progress < 75.0 {
      assert ahead(LearningStages[3]);
    } else {
      assert forall j :: 0 <= j < |LearningStages| ==> !ahead(LearningStages[j]);
    }
  }

  /** Within the strip the `% 50` never changes the cat number. */
  lemma CatNumberWithinStrip(pos: int)
    requires InStrip(pos)
    ensures CatNumber(pos) == Abs(pos) / FrameWidth + 1
  {
  }

  /** Progress read-outs are bounded: 2..100 percent of the bar, at most 95%
      accuracy. */
  lemma ReadoutBounds(pos: int)
    ensures 2.0 <= LearningProgress(CatNumber(pos)) <= 100.0
    ensures 2 <= DisplayedAccuracy(CatNumber(pos)) <= 95
  {
  }

  lemma {:induction false} TicksAdd(pos: int, a: nat, b: nat)
    ensures Ticks(pos, a + b) == Ticks(Ticks(pos, a), b)
    decreases b
  {
    if b > 0 {
      TicksAdd(pos, a, b - 1);
    }
  }

  /** From 0, the strip is at -k after k ticks, for every k short of a full strip. */
  lemma {:induction false} TicksFromZero(k: nat)
    requires k < Span
    ensures Ticks(0, k) == -(k as int)
    decreases k
  {
    if k > 0 {
      TicksFromZero(k - 1);
    }
  }

  /** The updater is periodic: after 10500 ticks the strip is back where it
      started, and from 0 it does not return any earlier. */
  lemma TicksPeriodic(pos: int)
    requires InStrip(pos)
    ensures Ticks(pos, Span) == pos
    ensures forall k :: 0 < k < Span ==> Ticks(0, k) != 0
  {
    var j := -pos;
    TicksFromZero(Span - 1);
    assert Ticks(0, Span) == 0;
    TicksFromZero(j);
    TicksAdd(0, j, Span);
    TicksAdd(0, Span, j);
    forall k | 0 < k < Span
      ensures Ticks(0, k) != 0
    {
      TicksFromZero(k);
    }
  }

  /** Ticking never takes a position inside the strip out of it. */
  lemma {:induction false} TicksStayInStrip(pos: int, n: nat)
    requires InStrip(pos)
    ensures InStrip(Ticks(pos, n))
    decreases n
  {
    if n > 0 {
      TicksStayInStrip(pos, n - 1);
    }
  }

  // ------------------------------------------------------------- the frames

  /** One entry of the strip: the cat number on its caption, and which of the
      four pictures and four backgrounds it shows. */
  datatype Frame = Frame(frameNumber: int, catImageIndex: int, gradientIndex: int)

  const CatImageCount: int := 4
  const GradientCount: int := 4

  /** Builds the 60 frames: the 50 cats, then the first 10 again so the strip
      has no gap when it wraps. */
  method GenerateFilmstripFrames() returns (frames: seq<Frame>)
    ensures |frames| == TotalFrames + 10
    ensures forall i :: 0 <= i < |frames| ==>
              frames[i] == Frame(i % TotalFrames + 1, i % CatImageCount, i % GradientCount)
    ensures forall i :: 0 <= i < 10 ==> frames[TotalFrames + i].frameNumber == frames[i].frameNumber
  {
    frames := [];
    var i := 0;
    while i < TotalFrames + 10
      invariant 0 <= i <= TotalFrames + 10
      invariant |frames| == i
      invariant forall j :: 0 <= j < i ==>
                  frames[j] == Frame(j % TotalFrames + 1, j % CatImageCount, j % GradientCount)
    {
      var frameNumber := (i % TotalFrames) + 1;
      var catImageIndex := i % CatImageCount;
      var gradientIndex := i % GradientCount;
      frames := frames + [Frame(frameNumber, catImageIndex, gradientIndex)];
      i := i + 1;
    }
  }

  // ------------------------------------------------------------ the object

  /** The slide's state cells, advanced by the 20 ms interval. */
  class FilmstripLearning {
    var filmstripPosition: int
    var examplesProcessed: int
    var learningProgress: real

    ghost predicate Valid()
      reads this
    {
      InStrip(filmstripPosition) && examplesProcessed >= 0 && 0.0 <= learningProgress <= 100.0
    }

    constructor ()
      ensures Valid()
      ensures filmstripPosition == 0 && examplesProcessed == 0 && learningProgress == 0.0
    {
      filmstripPosition := 0;
      examplesProcessed := 0;
      learningProgress := 0.0;
    }

    /** One firing of the interval.  The progress test reads the position as
        it was before this tick's update. */
    method Tick()
      requires Valid()
      modifies this
      ensures Valid()
      ensures filmstripPosition == StepPosition(old(filmstripPosition))
      ensures Abs(old(filmstripPosition)) % 20 == 0 ==>
                examplesProcessed == old(examplesProcessed) + 1
                && learningProgress == LearningProgress(CatNumber(old(filmstripPosition)))
      ensures Abs(old(filmstripPosition)) % 20 != 0 ==>
                examplesProcessed == old(examplesProcessed) && learningProgress == old(learningProgress)
    {
      var seen := filmstripPosition;
      var newPosition := filmstripPosition - 1;
      filmstripPosition := if Abs(newPosition) >= FrameWidth * TotalFrames then 0 else newPosition;
      if Abs(seen) % 20 == 0 {
        examplesProcessed := examplesProcessed + 1;
        var currentCatNumber := CatNumber(seen);
        learningProgress := LearningProgress(currentCatNumber);
      }
    }
  }
}
