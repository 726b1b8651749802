/**
 The voice tracker of the stats tap, fed one level per frame. Levels are exact reals, durations
 whole milliseconds.
 */
module Voice {
  import opened Prelude

  const SUSTAIN: nat := 200
  const INITIAL_FLOOR: real := 0.003
  const SPEECH_MIN: real := 0.004
  const SPEECH_MAX: real := 0.08
  const SILENCE_FACTOR: real := 0.6

  /** One frame's level and how much audio it covers. */
  datatype Frame = Frame(rms: real, duration: nat)

  datatype Tracker = Tracker(
    floor: real,
    smoothed: Option<real>,
    started: bool,
    activeRun: nat,
    position: nat,
    noiseFloor: Option<real>,
    speechLevel: real,
    lastVoice: Option<nat>)

  const FRESH := Tracker(INITIAL_FLOOR, None, false, 0, 0, None, 0.0, None)

  function Min(a: real, b: real): real { if b < a then b else a }

  function Clamp(x: real, lo: real, hi: real): real {
    if x < lo then lo else if x > hi then hi else x
  }

  function SpeechThreshold(floor: real): real {
    Clamp(floor * 5.0, SPEECH_MIN, SPEECH_MAX)
  }

  function SilenceThreshold(floor: real): real {
    Clamp(floor * 3.0, SPEECH_MIN * SILENCE_FACTOR, SPEECH_MAX * SILENCE_FACTOR)
  }

  function NextFloor(floor: real, rms: real): real {
    if rms < floor then 0.2 * rms + 0.8 * floor
    else if rms <= Max(floor, SPEECH_MIN / 5.0) * 10.0 then 0.005 * rms + 0.995 * floor
    else floor
  }

  function NextSmoothed(smoothed: Option<real>, rms: real): real {
    if smoothed.Some? then 0.3 * rms + 0.7 * smoothed.value else rms
  }

  /** `VoiceTracker::observe` */
  function Observed(t: Tracker, f: Frame): Tracker {
    var position := t.position + f.duration;
    var floor := NextFloor(t.floor, f.rms);
    var smoothed := NextSmoothed(t.smoothed, f.rms);
    var noise := if t.noiseFloor.Some? then Min(t.noiseFloor.value, smoothed) else smoothed;
    var started := t.started || smoothed > SpeechThreshold(floor);
    var active := started && smoothed >= SilenceThreshold(floor);
    var run := if active then t.activeRun + f.duration else 0;
    var voiced := active && run >= SUSTAIN;
    Tracker(floor, Some(smoothed), started, run, position, Some(noise),
            if voiced then Max(t.speechLevel, smoothed) else t.speechLevel,
            if voiced then Some(position) else t.lastVoice)
  }

  /** The tracker after the first `n` frames. */
  ghost function At(fs: seq<Frame>, n: nat): Tracker
    requires n <= |fs|
  {
    if n == 0 then FRESH else Observed(At(fs, n - 1), fs[n - 1])
  }

  /** Frame `i` counts as active: voice has started and the level holds above silence. */
  ghost predicate Active(fs: seq<Frame>, i: nat)
    requires i < |fs|
  {
    At(fs, i + 1).started && At(fs, i + 1).smoothed.value >= SilenceThreshold(At(fs, i + 1).floor)
  }

  /** Audio covered by frames `i` up to `n`. */
  function Span(fs: seq<Frame>, i: nat, n: nat): nat
    requires i <= n <= |fs|
  {
    if i == n then 0 else Span(fs, i, n - 1) + fs[n - 1].duration
  }

  /** Frames `i` up to `n` are one active run long enough to be voice. */
  ghost predicate Sustained(fs: seq<Frame>, i: nat, n: nat)
    requires i < n <= |fs|
  {
    (forall j :: i <= j < n ==> Active(fs, j)) && Span(fs, i, n) >= SUSTAIN
  }

  /** Frame `n - 1` ends a sustained run. */
  ghost predicate VoiceEnds(fs: seq<Frame>, n: nat)
    requires n <= |fs|
  {
    exists i :: 0 <= i < n && Sustained(fs, i, n)
  }

  /** Leaving speech takes six tenths of the level that entering it took, at any floor. */
  lemma HysteresisIsExact(floor: real)
    ensures SilenceThreshold(floor) == SILENCE_FACTOR * SpeechThreshold(floor)
  {
  }

  ghost predicate Within(fs: seq<Frame>, lo: real, hi: real) {
    forall i :: 0 <= i < |fs| ==> lo <= fs[i].rms <= hi
  }

  /** Floor and smoother never leave the hull of what they were given. */
  lemma {:induction false} StaysInHull(fs: seq<Frame>, n: nat, lo: real, hi: real)
    requires n <= |fs| && Within(fs, lo, hi) && lo <= hi
    ensures At(fs, n).smoothed.Some? <==> n > 0
    ensures n > 0 ==> lo <= At(fs, n).smoothed.value <= hi
    ensures Min(lo, INITIAL_FLOOR) <= At(fs, n).floor <= Max(hi, INITIAL_FLOOR)
  {
    if n > 0 {
      StaysInHull(fs, n - 1, lo, hi);
    }
  }

  /** Input that never rises above the smallest speech threshold never yields voice. */
  lemma {:induction false} QuietInputIsNeverVoice(fs: seq<Frame>, n: nat)
    requires n <= |fs| && forall i :: 0 <= i < |fs| ==> fs[i].rms <= SPEECH_MIN
    ensures !At(fs, n).started && At(fs, n).lastVoice.None? && At(fs, n).speechLevel == 0.0
    ensures At(fs, n).smoothed.Some? ==> At(fs, n).smoothed.value <= SPEECH_MIN
  {
    if n > 0 {
      QuietInputIsNeverVoice(fs, n - 1);
    }
  }

  lemma {:induction false} SpanSplits(fs: seq<Frame>, i: nat, j: nat, n: nat)
    requires i <= j <= n <= |fs|
    ensures Span(fs, i, n) == Span(fs, i, j) + Span(fs, j, n)
  {
    if j < n {
      SpanSplits(fs, i, j, n - 1);
    }
  }

  /** First frame of the active run that ends before `n`. */
  ghost function RunStart(fs: seq<Frame>, n: nat): (i: nat)
    requires n <= |fs|
    ensures i <= n
    ensures forall j :: i <= j < n ==> Active(fs, j)
    ensures i == 0 || !Active(fs, i - 1)
  {
    if n == 0 || !Active(fs, n - 1) then n else RunStart(fs, n - 1)
  }

  /** The counters are what they count: capture time, and the length of the current active run. */
  lemma {:induction false} CountersCount(fs: seq<Frame>, n: nat)
    requires n <= |fs|
    ensures At(fs, n).position == Span(fs, 0, n)
    ensures At(fs, n).activeRun == Span(fs, RunStart(fs, n), n)
  {
    if n > 0 {
      CountersCount(fs, n - 1);
    }
  }

  /** A sustained run ends here exactly when the current active run has lasted. */
  lemma VoiceEndsIffRunLasted(fs: seq<Frame>, n: nat)
    requires 0 < n <= |fs|
    ensures VoiceEnds(fs, n) <==> Active(fs, n - 1) && Span(fs, RunStart(fs, n), n) >= SUSTAIN
  {
    var start := RunStart(fs, n);
    if Active(fs, n - 1) && Span(fs, start, n) >= SUSTAIN {
      assert Sustained(fs, start, n);
    }
    forall i | 0 <= i < n && Sustained(fs, i, n)
      ensures Active(fs, n - 1) && Span(fs, start, n) >= SUSTAIN
    {
      assert Active(fs, n - 1);
      assert start <= i;
      SpanSplits(fs, start, i, n);
    }
  }

  lemma VoiceMark(fs: seq<Frame>, n: nat)
    requires 0 < n <= |fs|
    ensures At(fs, n).lastVoice == if VoiceEnds(fs, n) then Some(Span(fs, 0, n)) else At(fs, n - 1).lastVoice
  {
    CountersCount(fs, n);
    CountersCount(fs, n - 1);
    VoiceEndsIffRunLasted(fs, n);
  }

  /** The mark is where the latest sustained run so far ends, in capture time, and there is one exactly
      when there is such a run. */
  lemma {:induction false} LastVoiceMarksSustainedRun(fs: seq<Frame>, n: nat)
    requires n <= |fs|
    ensures At(fs, n).lastVoice.Some? <==> exists m :: 0 < m <= n && VoiceEnds(fs, m)
    ensures At(fs, n).lastVoice.Some? ==>
      exists m :: 0 < m <= n && VoiceEnds(fs, m) && At(fs, n).lastVoice.value == Span(fs, 0, m)
                  && forall k :: m < k <= n ==> !VoiceEnds(fs, k)
  {
    if n > 0 {
      LastVoiceMarksSustainedRun(fs, n - 1);
      VoiceMark(fs, n);
    }
  }

  /** Once voice is heard, the quietest level heard is no louder than the speech. */
  lemma {:induction false} NoiseNeverAboveSpeech(fs: seq<Frame>, n: nat)
    requires n <= |fs|
    ensures At(fs, n).lastVoice.Some? ==> At(fs, n).noiseFloor.Some? && At(fs, n).noiseFloor.value <= At(fs, n).speechLevel
    ensures At(fs, n).noiseFloor.Some? ==> forall i :: 0 < i <= n ==> At(fs, n).noiseFloor.value <= At(fs, i).smoothed.value
  {
    if n > 0 {
      NoiseNeverAboveSpeech(fs, n - 1);
    }
  }

  // ---------------------------------------------------------------------------------------------
  // A steady level

  /** The tracker after `n` more frames of the same level. */
  ghost function Held(t: Tracker, f: Frame, n: nat): Tracker {
    if n == 0 then t else Observed(Held(t, f, n - 1), f)
  }

  /** Under a steady level the smoother closes three tenths of the distance with every frame. */
  lemma {:induction false} SmootherSettles(t: Tracker, f: Frame, n: nat)
    requires t.smoothed.Some?
    ensures Held(t, f, n).smoothed.Some?
    ensures Held(t, f, n).smoothed.value - f.rms == Decayed(t.smoothed.value - f.rms, 0.7, n)
  {
    if n > 0 {
      SmootherSettles(t, f, n - 1);
    }
  }

  /** A steady level under the floor draws it down by a fifth of the distance with every frame. */
  lemma {:induction false} FloorFallsFast(t: Tracker, f: Frame, n: nat)
    requires f.rms < t.floor
    ensures f.rms < Held(t, f, n).floor
    ensures Held(t, f, n).floor - f.rms == Decayed(t.floor - f.rms, 0.8, n)
  {
    if n > 0 {
      FloorFallsFast(t, f, n - 1);
    }
  }

  /** A steady level above it that could be noise lets it climb by one two-hundredth of the distance. */
  lemma {:induction false} FloorClimbsSlowly(t: Tracker, f: Frame, n: nat)
    requires t.floor <= f.rms <= Max(t.floor, SPEECH_MIN / 5.0) * 10.0
    ensures t.floor <= Held(t, f, n).floor <= f.rms
    ensures f.rms - Held(t, f, n).floor == Decayed(f.rms - t.floor, 0.995, n)
  {
    if n > 0 {
      FloorClimbsSlowly(t, f, n - 1);
    }
  }

  /** A level too loud for noise leaves it where it is. */
  lemma {:induction false} FloorIgnoresSpeech(t: Tracker, f: Frame, n: nat)
    requires f.rms >= t.floor && f.rms > Max(t.floor, SPEECH_MIN / 5.0) * 10.0
    ensures Held(t, f, n).floor == t.floor
  {
    if n > 0 {
      FloorIgnoresSpeech(t, f, n - 1);
    }
  }

  // ---------------------------------------------------------------------------------------------
  // Loud input, and what the levels are

  lemma {:induction false} LoudInputIsActive(fs: seq<Frame>, n: nat)
    requires n <= |fs| && forall i :: 0 <= i < |fs| ==> fs[i].rms > SPEECH_MAX
    ensures n > 0 ==> At(fs, n).started && At(fs, n).smoothed.value > SPEECH_MAX
    ensures At(fs, n).smoothed.Some? <==> n > 0
    ensures RunStart(fs, n) == 0
  {
    if n > 0 {
      LoudInputIsActive(fs, n - 1);
    }
  }

  /** Input always above the highest speech threshold is voice from the moment it has lasted. */
  lemma LoudInputIsVoice(fs: seq<Frame>, n: nat)
    requires 0 < n <= |fs| && forall i :: 0 <= i < |fs| ==> fs[i].rms > SPEECH_MAX
    ensures Span(fs, 0, n) >= SUSTAIN ==> At(fs, n).lastVoice == Some(Span(fs, 0, n))
  {
    LoudInputIsActive(fs, n);
    VoiceMark(fs, n);
    VoiceEndsIffRunLasted(fs, n);
  }

  /** Voice starts exactly with the first smoothed level over its frame's speech threshold, and for good. */
  lemma {:induction false} StartedExactlyWhen(fs: seq<Frame>, n: nat)
    requires n <= |fs|
    ensures At(fs, n).started <==> exists i :: 0 < i <= n && OverThreshold(fs, i)
  {
    if n > 0 {
      StartedExactlyWhen(fs, n - 1);
      assert At(fs, n).started <==> At(fs, n - 1).started || OverThreshold(fs, n);
    }
  }

  ghost predicate OverThreshold(fs: seq<Frame>, i: nat)
    requires i <= |fs|
  {
    At(fs, i).smoothed.Some? && At(fs, i).smoothed.value > SpeechThreshold(At(fs, i).floor)
  }

  /** The threshold is five times the floor, within its limits. */
  lemma ThresholdIsFiveFloors(floor: real)
    ensures SPEECH_MIN <= SpeechThreshold(floor) <= SPEECH_MAX
    ensures SPEECH_MIN <= 5.0 * floor <= SPEECH_MAX ==> SpeechThreshold(floor) == 5.0 * floor
    ensures 5.0 * floor <= SPEECH_MIN ==> SpeechThreshold(floor) == SPEECH_MIN
    ensures 5.0 * floor >= SPEECH_MAX ==> SpeechThreshold(floor) == SPEECH_MAX
  {
  }

  ghost function Smoothed(fs: seq<Frame>, i: nat): real
    requires 0 < i <= |fs|
  {
    At(fs, i).smoothed.value
  }

  /** The noise floor is the quietest smoothed level, the speech level the loudest that ended voice. */
  lemma {:induction false} LevelsAreExtremes(fs: seq<Frame>, n: nat)
    requires n <= |fs|
    ensures At(fs, n).noiseFloor.Some? <==> n > 0
    ensures n > 0 ==> exists i :: 0 < i <= n && At(fs, n).noiseFloor.value == Smoothed(fs, i)
    ensures forall i :: 0 < i <= n ==> At(fs, n).noiseFloor.value <= Smoothed(fs, i)
    ensures forall i :: 0 < i <= n && VoiceEnds(fs, i) ==> Smoothed(fs, i) <= At(fs, n).speechLevel
    ensures At(fs, n).speechLevel == 0.0 || exists i :: 0 < i <= n && VoiceEnds(fs, i) && At(fs, n).speechLevel == Smoothed(fs, i)
  {
    if n > 0 {
      LevelsAreExtremes(fs, n - 1);
      LevelStep(fs, n);
      if At(fs, n).noiseFloor.value == Smoothed(fs, n) {
      } else {
        assert At(fs, n).noiseFloor == At(fs, n - 1).noiseFloor;
      }
    }
  }

  lemma LevelStep(fs: seq<Frame>, n: nat)
    requires 0 < n <= |fs|
    ensures At(fs, n).noiseFloor
         == Some(if At(fs, n - 1).noiseFloor.Some? then Min(At(fs, n - 1).noiseFloor.value, Smoothed(fs, n)) else Smoothed(fs, n))
    ensures At(fs, n).speechLevel
         == if VoiceEnds(fs, n) then Max(At(fs, n - 1).speechLevel, Smoothed(fs, n)) else At(fs, n - 1).speechLevel
  {
    CountersCount(fs, n);
    CountersCount(fs, n - 1);
    VoiceEndsIffRunLasted(fs, n);
  }

  /** The tracker as the stats tap keeps it. */
  class VoiceTracker {
    var floor: real
    var smoothed: Option<real>
    var started: bool
    var activeRun: nat
    var position: nat
    var noiseFloor: Option<real>
    var speechLevel: real
    var lastVoice: Option<nat>

    ghost function View(): Tracker
      reads this
    {
      Tracker(floor, smoothed, started, activeRun, position, noiseFloor, speechLevel, lastVoice)
    }

    constructor ()
      ensures View() == FRESH
    {
      floor, smoothed, started := INITIAL_FLOOR, None, false;
      activeRun, position := 0, 0;
      noiseFloor, speechLevel, lastVoice := None, 0.0, None;
    }

    method AdaptFloor(rms: real)
      modifies this`floor
      ensures floor == NextFloor(old(floor), rms)
    {
      if rms < floor {
        floor := 0.2 * rms + 0.8 * floor;
      } else {
        var base := Max(floor, SPEECH_MIN / 5.0);
        if rms <= base * 10.0 {
          floor := 0.005 * rms + 0.995 * floor;
        }
      }
    }

    method Smooth(rms: real) returns (level: real)
      modifies this`smoothed, this`noiseFloor
      ensures level == NextSmoothed(old(smoothed), rms) && smoothed == Some(level)
      ensures noiseFloor == Some(if old(noiseFloor).Some? then Min(old(noiseFloor).value, level) else level)
    {
      level := rms;
      if smoothed.Some? {
        level := 0.3 * rms + 0.7 * smoothed.value;
      }
      smoothed := Some(level);
      noiseFloor := Some(if noiseFloor.Some? then Min(noiseFloor.value, level) else level);
    }

    method Observe(rms: real, frame: nat)
      modifies this
      ensures View() == Observed(old(View()), Frame(rms, frame))
    {
      position := position + frame;
      AdaptFloor(rms);
      var level := Smooth(rms);
      if level > SpeechThreshold(floor) {
        started := true;
      }
      if started && level >= SilenceThreshold(floor) {
        activeRun := activeRun + frame;
        if activeRun >= SUSTAIN {
          lastVoice := Some(position);
          speechLevel := Max(speechLevel, level);
        }
      } else {
        activeRun := 0;
      }
    }
  }
}
