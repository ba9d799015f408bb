/** Image sets (tsc/src/video/img_set.cpp): animation frames read from an
    ".imgset" description, with per-frame display times, random branches to
    other frames, and named frame ranges that a sprite switches between.
    Times are `Uint32` milliseconds; `rand()` is a parameter. */
module ImgSet {
  import opened Common
  import opened Paths
  import opened PropertyHelper

  /** `cImageSet_FrameInfo`: the frame's image file, its display-time window
      and its branches as (frame number, percentage) pairs. */
  datatype FrameInfo = FrameInfo(filename: String, timeMin: nat, timeMax: nat, branches: seq<(int, int)>)

  /** A time read from an ".imgset" line: `string_to_int` stored into a `Uint32`. */
  function TimeValue(s: String): (r: nat)
    ensures r < UIntModulus
    ensures 0 <= StringToInt(s) ==> r == StringToInt(s)
  {
    ToUInt(StringToInt(s))
  }

  /* ---------------------------------------------------------------------- */
  /* Parser                                                                  */

  /** The options after the file name, read from index `idx`: "time min max"
      sets the frame's window, "branch frame percent" adds a branch; both
      keywords consume their two arguments even when the line is too short
      to hold them, and any other word is skipped. */
  function ParseOptions(parts: seq<String>, idx: nat, info: FrameInfo): (r: FrameInfo)
    decreases |parts| - idx
    ensures r.filename == info.filename
    ensures |info.branches| <= |r.branches| && r.branches[..|info.branches|] == info.branches
  {
    if idx >= |parts| then info
    else if parts[idx] == "time" then
      ParseOptions(parts, idx + 3,
        if idx + 2 < |parts| then info.(timeMin := TimeValue(parts[idx + 1]), timeMax := TimeValue(parts[idx + 2]))
        else info)
    else if parts[idx] == "branch" then
      ParseOptions(parts, idx + 3,
        if idx + 2 < |parts| then info.(branches := info.branches + [(StringToInt(parts[idx + 1]), StringToInt(parts[idx + 2]))])
        else info)
    else ParseOptions(parts, idx + 1, info)
  }

  /** A "time" keyword with both arguments present at index `k`. */
  ghost predicate TimeAt(parts: seq<String>, k: int, tMin: nat, tMax: nat)
  {
    0 <= k && k + 2 < |parts| && parts[k] == "time"
    && tMin == TimeValue(parts[k + 1]) && tMax == TimeValue(parts[k + 2])
  }

  /** A "branch" keyword with both arguments present at index `k`. */
  ghost predicate BranchAt(parts: seq<String>, k: int, b: (int, int))
  {
    0 <= k && k + 2 < |parts| && parts[k] == "branch"
    && b == (StringToInt(parts[k + 1]), StringToInt(parts[k + 2]))
  }

  /** The options step from index `idx`: the index and frame information
      the parse continues with. */
  function OptionStep(parts: seq<String>, idx: nat, info: FrameInfo): (nat, FrameInfo)
    requires idx < |parts|
  {
    if parts[idx] == "time" then
      (idx + 3, if idx + 2 < |parts| then info.(timeMin := TimeValue(parts[idx + 1]), timeMax := TimeValue(parts[idx + 2])) else info)
    else if parts[idx] == "branch" then
      (idx + 3, if idx + 2 < |parts| then info.(branches := info.branches + [(StringToInt(parts[idx + 1]), StringToInt(parts[idx + 2]))]) else info)
    else (idx + 1, info)
  }

  lemma OptionStepUnfold(parts: seq<String>, idx: nat, info: FrameInfo)
    requires idx < |parts|
    ensures ParseOptions(parts, idx, info) == ParseOptions(parts, OptionStep(parts, idx, info).0, OptionStep(parts, idx, info).1)
  {
  }

  /** The frame's window is the parser's default or the arguments of some
      "time" keyword of the line. */
  lemma {:induction false} ParseTimeOrigin(parts: seq<String>, idx: nat, info: FrameInfo)
    decreases |parts| - idx
    ensures var r := ParseOptions(parts, idx, info);
      (r.timeMin, r.timeMax) == (info.timeMin, info.timeMax)
      || exists k :: idx <= k && TimeAt(parts, k, r.timeMin, r.timeMax)
  {
    if idx < |parts| {
      var (i2, next) := OptionStep(parts, idx, info);
      OptionStepUnfold(parts, idx, info);
      ParseTimeOrigin(parts, i2, next);
      var r := ParseOptions(parts, idx, info);
      if (r.timeMin, r.timeMax) == (next.timeMin, next.timeMax) {
        if (next.timeMin, next.timeMax) != (info.timeMin, info.timeMax) {
          assert TimeAt(parts, idx, r.timeMin, r.timeMax);
        }
      } else {
        var k :| i2 <= k && TimeAt(parts, k, r.timeMin, r.timeMax);
      }
    }
  }

  /** The branches from index `from` on are all arguments of "branch"
      keywords at or after `idx`. */
  ghost predicate BranchesFromLine(parts: seq<String>, idx: nat, from: nat, bs: seq<(int, int)>)
  {
    forall j :: from <= j < |bs| ==> BranchFrom(parts, idx, bs[j])
  }

  /** Some "branch" keyword at or after `idx` has the arguments `b`. */
  ghost predicate BranchFrom(parts: seq<String>, idx: nat, b: (int, int))
  {
    exists k :: idx <= k && BranchAt(parts, k, b)
  }

  /** Every branch the options add is the pair of arguments of some
      "branch" keyword of the line. */
  lemma {:induction false} ParseBranchOrigin(parts: seq<String>, idx: nat, info: FrameInfo)
    decreases |parts| - idx
    ensures BranchesFromLine(parts, idx, |info.branches|, ParseOptions(parts, idx, info).branches)
  {
    if idx < |parts| {
      var (i2, next) := OptionStep(parts, idx, info);
      OptionStepUnfold(parts, idx, info);
      ParseBranchOrigin(parts, i2, next);
      var r := ParseOptions(parts, idx, info);
      assert BranchesFromLine(parts, i2, |next.branches|, r.branches);
      forall j | |info.branches| <= j < |r.branches|
        ensures BranchFrom(parts, idx, r.branches[j])
      {
        if j < |next.branches| {
          assert parts[idx] == "branch" && idx + 2 < |parts|;
          assert next.branches == info.branches + [(StringToInt(parts[idx + 1]), StringToInt(parts[idx + 2]))];
          assert r.branches[..|next.branches|] == next.branches;
          assert r.branches[j] == next.branches[j];
          assert BranchAt(parts, idx, r.branches[j]);
        } else {
          assert BranchFrom(parts, i2, r.branches[j]);
          var k :| i2 <= k && BranchAt(parts, k, r.branches[j]);
          assert idx <= k;
        }
      }
    }
  }

  /** A line without keywords keeps the parser's window and has no branches. */
  lemma {:induction false} ParseOptionsPlain(parts: seq<String>, idx: nat, info: FrameInfo)
    requires forall k :: idx <= k < |parts| ==> parts[k] != "time" && parts[k] != "branch"
    decreases |parts| - idx
    ensures ParseOptions(parts, idx, info) == info
  {
    if idx < |parts| {
      ParseOptionsPlain(parts, idx + 1, info);
    }
  }

  /** The option loop of `HandleMessage`: `idx += 2` after a keyword, then
      the loop's own increment. */
  method ReadFrameOptions(parts: seq<String>, defaults: FrameInfo) returns (info: FrameInfo)
    ensures info == ParseOptions(parts, 1, defaults)
  {
    info := defaults;
    var idx: nat := 1;
    while idx < |parts|
      invariant ParseOptions(parts, 1, defaults) == ParseOptions(parts, idx, info)
      decreases |parts| - idx
    {
      if parts[idx] == "time" {
        if idx + 2 < |parts| {
          info := info.(timeMin := TimeValue(parts[idx + 1]), timeMax := TimeValue(parts[idx + 2]));
        }
        idx := idx + 2;
      } else if parts[idx] == "branch" {
        if idx + 2 < |parts| {
          info := info.(branches := info.branches + [(StringToInt(parts[idx + 1]), StringToInt(parts[idx + 2]))]);
        }
        idx := idx + 2;
      }
      idx := idx + 1;
    }
  }

  /** The parser's state between lines: the current default window and the
      frames read so far. */
  datatype ParserState = ParserState(timeMin: nat, timeMax: nat, images: seq<FrameInfo>)

  /** A line of the form "time t" or "time min max". */
  predicate IsTimeLine(parts: seq<String>)
  {
    (|parts| == 2 || |parts| == 3) && parts[0] == "time"
  }

  /** One line of an ".imgset" file, split into words; frame files are
      relative to the directory of `dataFile`. */
  function HandleLine(s: ParserState, parts: seq<String>, dataFile: String): (r: ParserState)
    ensures IsTimeLine(parts) ==> r.images == s.images
    ensures !IsTimeLine(parts) ==> r.timeMin == s.timeMin && r.timeMax == s.timeMax
    ensures !IsTimeLine(parts) && parts != [] ==> |r.images| == |s.images| + 1 && r.images[..|s.images|] == s.images
    ensures parts == [] ==> r == s
  {
    if |parts| == 2 && parts[0] == "time" then
      var t := TimeValue(parts[1]);
      s.(timeMin := t, timeMax := t)
    else if |parts| == 3 && parts[0] == "time" then
      s.(timeMin := TimeValue(parts[1]), timeMax := TimeValue(parts[2]))
    else if |parts| > 0 then
      var info := ParseOptions(parts, 1, FrameInfo(JoinPath(ParentPath(dataFile), parts[0]), s.timeMin, s.timeMax, []));
      s.(images := s.images + [info])
    else s
  }

  /** A frame line records its file next to the ".imgset" file, with the
      window of the latest time line (or the parser's initial time) unless
      it gives its own. */
  lemma FrameLineDefaults(s: ParserState, parts: seq<String>, dataFile: String)
    requires parts != [] && !IsTimeLine(parts)
    requires forall k :: 1 <= k < |parts| ==> parts[k] != "time" && parts[k] != "branch"
    ensures HandleLine(s, parts, dataFile).images
            == s.images + [FrameInfo(JoinPath(ParentPath(dataFile), parts[0]), s.timeMin, s.timeMax, [])]
  {
    ParseOptionsPlain(parts, 1, FrameInfo(JoinPath(ParentPath(dataFile), parts[0]), s.timeMin, s.timeMax, []));
  }

  /** The lines of a whole file, in order. */
  function HandleLines(s: ParserState, lines: seq<seq<String>>, dataFile: String): (r: ParserState)
    decreases |lines|
  {
    if lines == [] then s else HandleLines(HandleLine(s, lines[0], dataFile), lines[1..], dataFile)
  }

  /** `cImageSet_Parser`. */
  class ImageSetParser {
    var timeMin: nat
    var timeMax: nat
    var images: seq<FrameInfo>
    /** The file being parsed (`data_file`). */
    const dataFile: String

    function State(): ParserState
      reads this
    {
      ParserState(timeMin, timeMax, images)
    }

    /** The window starts as the `time` passed to `Add_Image_Set`. */
    constructor (time: nat, dataFile: String)
      ensures State() == ParserState(time, time, []) && this.dataFile == dataFile
    {
      timeMin := time;
      timeMax := time;
      images := [];
      this.dataFile := dataFile;
    }

    /** `HandleMessage`: always accepts the line. */
    method HandleMessage(parts: seq<String>) returns (ok: bool)
      modifies this
      ensures ok && State() == HandleLine(old(State()), parts, dataFile)
    {
      if |parts| == 2 && parts[0] == "time" {
        var t := TimeValue(parts[1]);
        timeMin, timeMax := t, t;
      } else if |parts| == 3 && parts[0] == "time" {
        timeMin := TimeValue(parts[1]);
        timeMax := TimeValue(parts[2]);
      } else if |parts| > 0 {
        var info := ReadFrameOptions(parts, FrameInfo(JoinPath(ParentPath(dataFile), parts[0]), timeMin, timeMax, []));
        images := images + [info];
      }
      return true;
    }

    /** Feeds every line of the file to `HandleMessage`. */
    method ParseLines(lines: seq<seq<String>>)
      modifies this
      ensures State() == HandleLines(old(State()), lines, dataFile)
    {
      var i := 0;
      while i < |lines|
        invariant 0 <= i <= |lines|
        invariant HandleLines(old(State()), lines, dataFile) == HandleLines(State(), lines[i..], dataFile)
      {
        assert lines[i..][1..] == lines[i + 1..];
        var _ := HandleMessage(lines[i]);
        i := i + 1;
      }
    }
  }

  /* ---------------------------------------------------------------------- */
  /* Frames: display time and branching                                      */

  /** `cImageSet_Surface::Enter`: `min + rand() % (max - min + 1)` in
      `Uint32` arithmetic; the window must not span all 2^32 values (the
      modulus would be 0). A well-ordered window yields a time inside it. */
  function FrameTime(info: FrameInfo, rnd: nat): (r: nat)
    requires ToUInt(info.timeMax - info.timeMin + 1) != 0
    ensures r < UIntModulus
    ensures info.timeMin <= info.timeMax < UIntModulus ==> info.timeMin <= r <= info.timeMax
  {
    var period := ToUInt(info.timeMax - info.timeMin + 1);
    ToUInt(info.timeMin + rnd % period)
  }

  /** The sum of the branch percentages. */
  function PercentSum(bs: seq<(int, int)>): int
  {
    if bs == [] then 0 else bs[0].1 + PercentSum(bs[1..])
  }

  /** The running total of the percentages of branches 0..j. */
  function RunningTotal(bs: seq<(int, int)>, j: nat): int
    requires j < |bs|
  {
    PercentSum(bs[..j + 1])
  }

  lemma RunningTotalStep(bs: seq<(int, int)>, j: nat)
    requires j < |bs|
    ensures RunningTotal(bs, j) == bs[0].1 + (if j == 0 then 0 else RunningTotal(bs[1..], j - 1))
  {
    assert bs[..j + 1][1..] == bs[1..][..j];
    assert PercentSum(bs[..j + 1]) == bs[0].1 + PercentSum(bs[1..][..j]);
  }

  /** The branch `Leave` takes for `rnd`, found by subtracting percentages. */
  function FirstCovering(bs: seq<(int, int)>, rnd: int): (r: Option<nat>)
    ensures r.Some? ==> r.value < |bs|
  {
    if bs == [] then None
    else if rnd <= bs[0].1 then Some(0)
    else match FirstCovering(bs[1..], rnd - bs[0].1)
      case None => None
      case Some(k) => Some(k + 1)
  }

  /** `FirstCovering` picks the first branch whose running total of
      percentages reaches `rnd`, and none when no running total does. */
  lemma {:induction false} FirstCoveringSpec(bs: seq<(int, int)>, rnd: int)
    ensures FirstCovering(bs, rnd).Some? ==>
      var k := FirstCovering(bs, rnd).value;
      rnd <= RunningTotal(bs, k) && forall j: nat :: j < k ==> rnd > RunningTotal(bs, j)
    ensures FirstCovering(bs, rnd).None? ==> forall j: nat :: j < |bs| ==> rnd > RunningTotal(bs, j)
  {
    if bs != [] {
      FirstCoveringSpec(bs[1..], rnd - bs[0].1);
      forall j: nat | j < |bs|
        ensures RunningTotal(bs, j) == bs[0].1 + (if j == 0 then 0 else RunningTotal(bs[1..], j - 1))
      {
        RunningTotalStep(bs, j);
      }
    }
  }

  /** `Leave` without branches, or when no running total reaches `rnd`,
      returns -1; otherwise the covering branch's frame number. */
  function Leave(info: FrameInfo, rnd: int): (r: int)
  {
    match FirstCovering(info.branches, rnd)
    case None => -1
    case Some(k) => info.branches[k].0
  }

  /** With non-negative `rnd` and percentages totalling at least `rnd`, a
      branch is always taken. */
  lemma LeaveCovered(info: FrameInfo, rnd: int)
    requires info.branches != [] && rnd <= PercentSum(info.branches)
    ensures FirstCovering(info.branches, rnd).Some?
  {
    FirstCoveringSpec(info.branches, rnd);
    assert info.branches[..|info.branches|] == info.branches;
    assert RunningTotal(info.branches, |info.branches| - 1) == PercentSum(info.branches);
  }

  /** The loop of `cImageSet_Surface::Leave` for `rnd = rand() % 101`. */
  method LeaveFrame(info: FrameInfo, rnd: int) returns (r: int)
    ensures r == Leave(info, rnd)
  {
    if |info.branches| == 0 {
      return -1;
    }
    var left := rnd;
    var i := 0;
    while i < |info.branches|
      invariant 0 <= i <= |info.branches|
      invariant FirstCovering(info.branches, rnd) ==
        match FirstCovering(info.branches[i..], left)
        case None => None
        case Some(k) => Some(k + i)
    {
      assert info.branches[i..][1..] == info.branches[i + 1..];
      if left <= info.branches[i].1 {
        return info.branches[i].0;
      }
      left := left - info.branches[i].1;
      i := i + 1;
    }
    return -1;
  }

  /* ---------------------------------------------------------------------- */
  /* The image set                                                           */

  /** `cImageSet_Surface`: the loaded image (`None` for a null surface), its
      current display time and its frame information. */
  datatype Surface = Surface(image: Option<String>, time: nat, info: FrameInfo)

  /** `Get_Package_Surface`: the surface of a file that can be loaded. */
  function SurfaceOf(file: String, loadable: set<String>): Option<String>
  {
    if file in loadable then Some(file) else None
  }

  /** The frame that follows `curr` in the range [start, end] after `Leave`
      returned `leave`: an in-range branch target (relative to `start`),
      else the range start once `curr` has reached the end, else `curr + 1`. */
  function NextFrame(curr: int, leave: int, start: int, end: int): int
  {
    var target := if leave >= 0 then leave + start else leave;
    if start <= target <= end then target
    else if curr >= end then start
    else curr + 1
  }

  /** An animation inside its range stays inside it. */
  lemma AnimationStaysInRange(curr: int, leave: int, start: int, end: int)
    requires start <= curr <= end
    ensures start <= NextFrame(curr, leave, start, end) <= end
  {
  }

  /** `n` frame changes without branching. */
  function Advance(curr: int, start: int, end: int, n: nat): int
    decreases n
  {
    if n == 0 then curr else Advance(NextFrame(curr, -1, start, end), start, end, n - 1)
  }

  /** Without branches the frames of a range [start, end] with start >= 0
      cycle: from any frame, the range start comes back after the frames up
      to the end have been shown. */
  lemma {:induction false} AnimationCycles(curr: int, start: int, end: int)
    requires 0 <= start <= curr <= end
    decreases end - curr
    ensures Advance(curr, start, end, end - curr + 1) == start
  {
    if curr < end {
      assert NextFrame(curr, -1, start, end) == curr + 1;
      AnimationCycles(curr + 1, start, end);
    }
  }

  /** The surfaces `Add_Image_Set` appends for parsed frames: each is added
      with its minimum time (0 meaning the default) and then given the
      frame's information. */
  function ParsedSurfaces(frames: seq<FrameInfo>, defaultTime: nat, loadable: set<String>): (r: seq<Surface>)
    ensures |r| == |frames|
    ensures forall k :: 0 <= k < |frames| ==> r[k].info == frames[k]
  {
    if frames == [] then []
    else
      var f := frames[0];
      [Surface(SurfaceOf(f.filename, loadable), if f.timeMin == 0 then defaultTime else f.timeMin, f)]
      + ParsedSurfaces(frames[1..], defaultTime, loadable)
  }

  lemma ParsedSurfacesStep(frames: seq<FrameInfo>, i: nat, defaultTime: nat, loadable: set<String>)
    requires i < |frames|
    ensures var f := frames[i];
      ParsedSurfaces(frames[i..], defaultTime, loadable)
      == [Surface(SurfaceOf(f.filename, loadable), if f.timeMin == 0 then defaultTime else f.timeMin, f)]
         + ParsedSurfaces(frames[i + 1..], defaultTime, loadable)
  {
    assert frames[i..][1..] == frames[i + 1..];
  }

  /** The frames `Add_Image_Set` appends, or `None` when it fails: one
      frame for a ".png" file, else the frames parsed from the image-set
      file, which must be found, parse, and hold at least one frame. */
  function ImageSetSurfaces(path: String, time: nat, defaultTime: nat, loadable: set<String>,
                            readingPath: String, lines: Option<seq<seq<String>>>): (r: Option<seq<Surface>>)
    ensures r.Some? ==> r.value != []
    ensures r.Some? <==> (Extension(path) == ".png"
                          || (readingPath != [] && lines.Some? && HandleLines(ParserState(time, time, []), lines.value, readingPath).images != []))
  {
    if Extension(path) == ".png" then
      var t := if time == 0 then defaultTime else time;
      Some([Surface(SurfaceOf(path, loadable), t, FrameInfo([], t, t, []))])
    else if readingPath == [] || lines.None? then None
    else
      var frames := HandleLines(ParserState(time, time, []), lines.value, readingPath).images;
      if frames == [] then None else Some(ParsedSurfaces(frames, defaultTime, loadable))
  }

  /** Every frame's time window can be drawn from (`Enter` divides by its
      width modulo 2^32). */
  predicate WindowsValid(images: seq<Surface>)
  {
    forall k :: 0 <= k < |images| ==> ToUInt(images[k].info.timeMax - images[k].info.timeMin + 1) != 0
  }

  /** `static_cast<Uint32>(counter * anim_mod)` for a non-negative speed. */
  function Scale(counter: nat, mod: real): (r: nat)
    requires mod >= 0.0
    ensures mod == 1.0 ==> r == counter
  {
    (counter as real * mod).Floor
  }

  /** The animation's frame, counter and frames. */
  datatype AnimState = AnimState(curr: int, counter: nat, images: seq<Surface>)

  /** `Enter` on frame `k`, if it exists. */
  function Entered(images: seq<Surface>, k: int, rnd: nat): (r: seq<Surface>)
    requires WindowsValid(images)
    ensures |r| == |images| && WindowsValid(r)
    ensures forall i :: 0 <= i < |r| ==> r[i].image == images[i].image && r[i].info == images[i].info
  {
    if 0 <= k < |images| then images[k := images[k].(time := FrameTime(images[k].info, rnd))] else images
  }

  /** An update of an animation on frame `s.curr`: once the scaled counter
      reaches the frame's time, the frame is left for `NextFrame`, the
      frame's time is subtracted from the scaled counter and the new frame
      draws its time; before that nothing changes. */
  function AnimationStep(s: AnimState, mod: real, start: int, end: int, leaveRnd: int, enterRnd: nat): AnimState
    requires 0 <= s.curr < |s.images| && mod >= 0.0 && WindowsValid(s.images)
  {
    var frame := s.images[s.curr];
    var scaled := Scale(s.counter, mod);
    if scaled < frame.time then s
    else
      var next := NextFrame(s.curr, Leave(frame.info, leaveRnd), start, end);
      AnimState(next, scaled - frame.time, Entered(s.images, next, enterRnd))
  }

  /** An update keeps an animation inside its range, keeps the frames'
      images, and never raises the (unscaled) counter above its scaled
      value. */
  lemma AnimationStepInRange(s: AnimState, mod: real, start: int, end: int, leaveRnd: int, enterRnd: nat)
    requires 0 <= s.curr < |s.images| && mod >= 0.0 && WindowsValid(s.images)
    requires start <= s.curr <= end
    ensures var r := AnimationStep(s, mod, start, end, leaveRnd, enterRnd);
      start <= r.curr <= end && |r.images| == |s.images|
      && (r == s || r.counter <= Scale(s.counter, mod))
  {
    var frame := s.images[s.curr];
    AnimationStaysInRange(s.curr, Leave(frame.info, leaveRnd), start, end);
  }

  /** `cImageSet`. The image handed to the owning sprite through
      `Set_Image_Set_Image` is kept in `shown`. */
  class ImageSet {
    var images: seq<Surface>
    var namedRanges: map<String, (int, int)>
    var currImg: int
    var animEnabled: bool
    var animStart: int
    var animEnd: int
    var defaultTime: nat
    var counter: nat
    var lastTicks: nat
    var animMod: real
    var shown: Option<String>

    /** Every named range is a non-empty range of existing frames, and the
        speed factor is not negative (`Set_Animation_Speed` clamps it). */
    predicate Valid()
      reads this
    {
      animMod >= 0.0
      && forall name :: name in namedRanges ==> 0 <= namedRanges[name].0 <= namedRanges[name].1 < |images|
    }

    /** No frame selected, animation off, default time 1000 ms; the last
        update is one tick before the current frame's ticks. */
    constructor (lastFrameTicks: nat)
      ensures Valid()
      ensures images == [] && namedRanges == map[] && currImg == -1 && !animEnabled
      ensures animStart == 0 && animEnd == 0 && defaultTime == 1000 && counter == 0
      ensures lastTicks == ToUInt(lastFrameTicks - 1) && animMod == 1.0 && shown == None
    {
      images := [];
      namedRanges := map[];
      currImg := -1;
      animEnabled := false;
      animStart := 0;
      animEnd := 0;
      defaultTime := 1000;
      counter := 0;
      lastTicks := ToUInt(lastFrameTicks - 1);
      animMod := 1.0;
      shown := None;
    }

    /** `Add_Image`: a time of 0 stands for the default time; the frame's
        window is that single time. */
    method AddImage(image: Option<String>, time: nat)
      requires Valid()
      modifies this`images
      ensures Valid()
      ensures var t := if time == 0 then defaultTime else time;
        images == old(images) + [Surface(image, t, FrameInfo([], t, t, []))]
    {
      var t := if time == 0 then defaultTime else time;
      images := images + [Surface(image, t, FrameInfo([], t, t, []))];
    }

    /** `Add_Image_Set`. A ".png" path is a single frame; otherwise
        `readingPath` is the package manager's lookup of the ".imgset" file
        ("" when missing) and `lines` its words per line (`None` when it
        cannot be parsed). On success the new frames form the named range
        [old size, new size - 1], also returned; on failure nothing changes
        and both numbers are -1. */
    method AddImageSet(name: String, path: String, time: nat, loadable: set<String>,
                       readingPath: String, lines: Option<seq<seq<String>>>)
      returns (ok: bool, startNum: int, endNum: int)
      requires Valid()
      modifies this`images, this`namedRanges
      ensures Valid()
      ensures ok <==> ImageSetSurfaces(path, time, defaultTime, loadable, readingPath, lines).Some?
      ensures !ok ==> startNum == -1 && endNum == -1 && images == old(images) && namedRanges == old(namedRanges)
      ensures ok ==> images == old(images) + ImageSetSurfaces(path, time, defaultTime, loadable, readingPath, lines).value
      ensures ok ==> startNum == |old(images)| && endNum == |images| - 1 && startNum <= endNum
                     && namedRanges == old(namedRanges)[name := (startNum, endNum)]
    {
      startNum, endNum := -1, -1;
      var start := |images|;
      var loaded := LoadImages(path, time, loadable, readingPath, lines);
      if !loaded {
        return false, startNum, endNum;
      }
      var end := |images| - 1;
      if end >= start {
        namedRanges := namedRanges[name := (start, end)];
        return true, start, end;
      } else {
        return false, startNum, endNum;
      }
    }

    /** The loading part of `Add_Image_Set`: appends the frames, or reports
        a missing, unparsable or empty image set. */
    method LoadImages(path: String, time: nat, loadable: set<String>,
                      readingPath: String, lines: Option<seq<seq<String>>>) returns (ok: bool)
      requires Valid()
      modifies this`images
      ensures Valid()
      ensures ok <==> ImageSetSurfaces(path, time, defaultTime, loadable, readingPath, lines).Some?
      ensures !ok ==> images == old(images)
      ensures ok ==> images == old(images) + ImageSetSurfaces(path, time, defaultTime, loadable, readingPath, lines).value
    {
      if Extension(path) == ".png" {
        AddImage(SurfaceOf(path, loadable), time);
        return true;
      }
      if readingPath == [] {
        return false;
      }
      var parser := new ImageSetParser(time, readingPath);
      if lines.None? {
        return false;
      }
      parser.ParseLines(lines.value);
      var frames := parser.images;
      if |frames| == 0 {
        return false;
      }
      AddFrames(frames, loadable);
      return true;
    }

    /** The adding loop of `Add_Image_Set` for parsed frames. */
    method AddFrames(frames: seq<FrameInfo>, loadable: set<String>)
      requires Valid()
      modifies this`images
      ensures Valid()
      ensures images == old(images) + ParsedSurfaces(frames, defaultTime, loadable)
    {
      var i := 0;
      ghost var all := ParsedSurfaces(frames, defaultTime, loadable);
      while i < |frames|
        invariant 0 <= i <= |frames| && Valid()
        invariant images + ParsedSurfaces(frames[i..], defaultTime, loadable) == old(images) + all
      {
        ghost var before := images;
        var f := frames[i];
        ghost var added := Surface(SurfaceOf(f.filename, loadable), if f.timeMin == 0 then defaultTime else f.timeMin, f);
        ParsedSurfacesStep(frames, i, defaultTime, loadable);
        AddImage(SurfaceOf(f.filename, loadable), f.timeMin);
        images := images[|images| - 1 := images[|images| - 1].(info := f)];
        assert images == before + [added];
        AppendAssoc(before, [added], ParsedSurfaces(frames[i + 1..], defaultTime, loadable));
        i := i + 1;
      }
    }

    /** `Set_Image_Num`: nothing happens for the current frame; otherwise the
        frame number is taken and a negative one shows no image, an existing
        one its image, and a too large one leaves the image as it was. */
    method SetImageNum(num: int)
      modifies this`currImg, this`shown
      ensures old(currImg) == num ==> currImg == num && shown == old(shown)
      ensures old(currImg) != num ==> currImg == num
      ensures old(currImg) != num ==> shown == (if num < 0 then None else if num < |images| then images[num].image else old(shown))
    {
      if currImg == num {
        return;
      }
      currImg := num;
      if currImg < 0 {
        shown := None;
      } else if currImg < |images| {
        shown := images[currImg].image;
      }
    }

    /** `Get_Image`: the image of frame `num`, none past the end. */
    function GetImage(num: nat): (r: Option<String>)
      reads this
      ensures num >= |images| ==> r == None
      ensures num < |images| ==> r == images[num].image
    {
      if num >= |images| then None else images[num].image
    }

    /** `Set_Image_Set`: an unknown name selects no frame and stops the
        animation; a known one selects its first frame, makes it the
        animation range, animates only a range of several frames and
        restarts the counter. */
    method SetImageSet(name: String) returns (found: bool)
      requires Valid()
      modifies this`currImg, this`shown, this`animStart, this`animEnd, this`animEnabled, this`counter
      ensures Valid()
      ensures found <==> name in namedRanges
      ensures !found ==> currImg == -1 && !animEnabled && animStart == old(animStart) && animEnd == old(animEnd)
                         && counter == old(counter)
      ensures !found && old(currImg) != -1 ==> shown == None
      ensures found ==> var (s, e) := namedRanges[name];
        currImg == s && animStart == s && animEnd == e && (animEnabled <==> e > s) && counter == 0
        && (old(currImg) != s ==> shown == images[s].image)
      ensures found && old(currImg) == namedRanges[name].0 ==> shown == old(shown)
      ensures old(currImg) == -1 && !found ==> shown == old(shown)
    {
      if name !in namedRanges {
        SetImageNum(-1);
        animEnabled := false;
        return false;
      }
      var (s, e) := namedRanges[name];
      SetImageNum(s);
      animStart, animEnd := s, e;
      animEnabled := e > s;
      counter := 0;
      return true;
    }

    /** `Clear_Images`. */
    method ClearImages()
      requires Valid()
      modifies this`currImg, this`images, this`namedRanges
      ensures Valid() && currImg == -1 && images == [] && namedRanges == map[]
    {
      currImg := -1;
      images := [];
      namedRanges := map[];
    }

    /** `Set_Time_All`: every frame gets the fixed time `time`, and with
        `defaultToo` so does the default time. */
    method SetTimeAll(time: nat, defaultToo: bool)
      requires Valid()
      modifies this`images, this`defaultTime
      ensures Valid() && |images| == |old(images)|
      ensures forall k :: 0 <= k < |images| ==>
        images[k] == old(images[k]).(time := time, info := old(images[k]).info.(timeMin := time, timeMax := time))
      ensures defaultTime == if defaultToo then time else old(defaultTime)
    {
      var i := 0;
      while i < |images|
        invariant 0 <= i <= |images| == |old(images)| && Valid() && defaultTime == old(defaultTime)
        invariant forall k :: 0 <= k < i ==>
          images[k] == old(images[k]).(time := time, info := old(images[k]).info.(timeMin := time, timeMax := time))
        invariant forall k :: i <= k < |images| ==> images[k] == old(images[k])
      {
        var obj := images[i];
        images := images[i := obj.(time := time, info := obj.info.(timeMin := time, timeMax := time))];
        i := i + 1;
      }
      if defaultToo {
        defaultTime := time;
      }
    }

    /** `Update_Animation` for a frame with `ticks` (the frame counter's
        last ticks) and `elapsed` ticks; `leaveRnd` and `enterRnd` are the
        `rand()` values of `Leave` and `Enter`. Once per tick value, an
        enabled animation with a non-zero end adds the elapsed time to its
        counter; an out-of-range frame is replaced by the range start;
        otherwise `AnimationStep` says what happens. */
    method UpdateAnimation(ticks: nat, elapsed: nat, leaveRnd: int, enterRnd: nat)
      requires Valid() && WindowsValid(images)
      modifies this`lastTicks, this`counter, this`currImg, this`shown, this`images
      ensures Valid() && WindowsValid(images) && |images| == |old(images)|
      ensures old(lastTicks) == ticks ==> unchanged(this)
      ensures old(lastTicks) != ticks ==> lastTicks == ticks
      ensures old(lastTicks) != ticks && (!animEnabled || animEnd == 0) ==>
        counter == old(counter) && currImg == old(currImg) && images == old(images)
      ensures old(lastTicks) != ticks && animEnabled && animEnd != 0 && !(0 <= old(currImg) < |images|) ==>
        currImg == animStart && counter == ToUInt(old(counter) + elapsed) && images == old(images)
      ensures old(lastTicks) != ticks && animEnabled && animEnd != 0 && 0 <= old(currImg) < |images| ==>
        AnimState(currImg, counter, images)
        == AnimationStep(AnimState(old(currImg), ToUInt(old(counter) + elapsed), old(images)), animMod, animStart, animEnd, leaveRnd, enterRnd)
    {
      if lastTicks == ticks {
        return;
      }
      lastTicks := ticks;
      if !animEnabled || animEnd == 0 {
        return;
      }
      counter := ToUInt(counter + elapsed);
      if currImg < 0 || currImg >= |images| {
        SetImageNum(animStart);
        return;
      }
      FrameExpiry(leaveRnd, enterRnd);
    }

    /** The expiry part of `Update_Animation` for a frame in range. */
    method FrameExpiry(leaveRnd: int, enterRnd: nat)
      requires Valid() && WindowsValid(images) && 0 <= currImg < |images|
      modifies this`counter, this`currImg, this`shown, this`images
      ensures Valid() && WindowsValid(images) && |images| == |old(images)|
      ensures AnimState(currImg, counter, images)
        == AnimationStep(AnimState(old(currImg), old(counter), old(images)), animMod, animStart, animEnd, leaveRnd, enterRnd)
    {
      var image := images[currImg];
      var scaled := Scale(counter, animMod);
      if scaled >= image.time {
        ChangeFrame(image, scaled, leaveRnd, enterRnd);
      }
    }

    /** Leaving an expired frame `image`: the next frame is chosen, the
        frame's time is subtracted from the `scaled` counter and the new
        frame draws its time. */
    method ChangeFrame(image: Surface, scaled: nat, leaveRnd: int, enterRnd: nat)
      requires Valid() && WindowsValid(images) && scaled >= image.time
      modifies this`counter, this`currImg, this`shown, this`images
      ensures Valid() && WindowsValid(images)
      ensures currImg == NextFrame(old(currImg), Leave(image.info, leaveRnd), animStart, animEnd)
      ensures counter == scaled - image.time && images == Entered(old(images), currImg, enterRnd)
    {
      var target := LeaveFrame(image.info, leaveRnd);
      if target >= 0 {
        target := target + animStart;
      }
      if animStart <= target <= animEnd {
        SetImageNum(target);
      } else if currImg >= animEnd {
        SetImageNum(animStart);
      } else {
        SetImageNum(currImg + 1);
      }
      counter := scaled - image.time;
      images := Entered(images, currImg, enterRnd);
    }
  }
}
