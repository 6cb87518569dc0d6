/** Voice activity detection: an online automaton, described over the whole frame sequence. */
module Vad {
  import opened Numbers

  /** rms is the energy computed from the payload. */
  datatype Frame = Frame(payload: seq<int>, rms: real)

  datatype VadEvent = SpeechStart | SpeechActive | SpeechEnd

  datatype Config = Config(threshold: real, window: nat, onset: nat, hangover: nat, preRoll: nat)

  /** A closed speech segment: forwarded frames start..end, confirmed at frame onset. */
  datatype Segment = Segment(start: nat, onset: nat, end: nat)

  /** What is going on after the last closed segment. */
  datatype Now = Quiet | Talking(start: nat, onset: nat)

  predicate Loud(c: Config, f: Frame) {
    f.rms >= c.threshold
  }

  /** Some frame among the last `window` frames up to i is loud. */
  ghost predicate SpeechAt(c: Config, input: seq<Frame>, i: nat)
    requires i < |input|
  {
    exists j :: Max(0, i - c.window + 1) <= j <= i && Loud(c, input[j])
  }

  ghost function Flags(c: Config, input: seq<Frame>): (r: seq<bool>)
    ensures |r| == |input|
    ensures forall i :: 0 <= i < |r| ==> r[i] == SpeechAt(c, input, i)
  {
    seq(|input|, i requires 0 <= i < |input| => SpeechAt(c, input, i))
  }

  /** The k flags up to and including t are all v, and none of them is before `from`. */
  predicate Ran(flags: seq<bool>, from: nat, t: int, k: nat, v: bool)
    requires -1 <= t < |flags|
  {
    from + k <= t + 1 && forall i :: t - k < i <= t ==> flags[i] == v
  }

  /** No run of k flags v has completed in from..to. */
  predicate NoneYet(flags: seq<bool>, from: nat, to: nat, k: nat, v: bool)
    requires to <= |flags|
  {
    forall t :: from <= t < to ==> !Ran(flags, from, t, k, v)
  }

  /** t is where the first run of k flags v after `from` completes. */
  predicate FirstRun(flags: seq<bool>, from: nat, t: nat, k: nat, v: bool) {
    from <= t < |flags| && Ran(flags, from, t, k, v) && NoneYet(flags, from, t, k, v)
  }

  function StartOf(c: Config, from: nat, onset: nat): nat
    requires from <= onset
  {
    Max(from, onset - Max(c.preRoll, 1) + 1)
  }

  /** Where the search for the k-th segment begins. */
  function From(segments: seq<Segment>): nat {
    if segments == [] then 0 else segments[|segments| - 1].end + 1
  }

  predicate IsSegment(c: Config, flags: seq<bool>, from: nat, g: Segment) {
    && FirstRun(flags, from, g.onset, Max(c.onset, 1), true)
    && FirstRun(flags, g.onset + 1, g.end, Max(c.hangover, 1), false)
    && g.start == StartOf(c, from, g.onset)
  }

  predicate Segmented(c: Config, flags: seq<bool>, segments: seq<Segment>) {
    segments == [] || (
      var before := segments[..|segments| - 1];
      Segmented(c, flags, before) && IsSegment(c, flags, From(before), segments[|segments| - 1]))
  }

  predicate NowIs(c: Config, flags: seq<bool>, from: nat, now: Now) {
    match now
    case Quiet => NoneYet(flags, from, |flags|, Max(c.onset, 1), true)
    case Talking(start, onset) =>
      && FirstRun(flags, from, onset, Max(c.onset, 1), true)
      && start == StartOf(c, from, onset)
      && NoneYet(flags, onset + 1, |flags|, Max(c.hangover, 1), false)
  }

  /** The whole-input description: the closed segments and what is going on now. */
  predicate Describes(c: Config, flags: seq<bool>, segments: seq<Segment>, now: Now) {
    Segmented(c, flags, segments) && From(segments) <= |flags| && NowIs(c, flags, From(segments), now)
  }

  /** The frames to forward. */
  function Forwarded(input: seq<Frame>, segments: seq<Segment>): seq<Frame> {
    if segments == [] then []
    else
      var g := segments[|segments| - 1];
      Forwarded(input, segments[..|segments| - 1])
        + if g.start <= g.end < |input| then input[g.start..g.end + 1] else []
  }

  function Actives(flags: seq<bool>, lo: nat, hi: nat): seq<VadEvent>
    requires hi <= |flags|
  {
    if hi <= lo then [] else Actives(flags, lo, hi - 1) + if flags[hi - 1] then [SpeechActive] else []
  }

  /** The events to report: each segment gives a start, one active per further speech frame, and an end. */
  function Reported(flags: seq<bool>, segments: seq<Segment>): seq<VadEvent> {
    if segments == [] then []
    else
      var g := segments[|segments| - 1];
      Reported(flags, segments[..|segments| - 1])
        + [SpeechStart] + (if g.end < |flags| then Actives(flags, g.onset + 1, g.end + 1) else []) + [SpeechEnd]
  }

  function AllForwarded(input: seq<Frame>, segments: seq<Segment>, now: Now): seq<Frame> {
    Forwarded(input, segments) + if now.Talking? && now.start <= |input| then input[now.start..] else []
  }

  function AllReported(flags: seq<bool>, segments: seq<Segment>, now: Now): seq<VadEvent> {
    Reported(flags, segments) + if now.Talking? then [SpeechStart] + Actives(flags, now.onset + 1, |flags|) else []
  }

  // ---------- one more frame ----------

  /** count is the length of the run of v that the flags end with, within what comes after `from`. */
  predicate Counts(flags: seq<bool>, from: nat, count: nat, v: bool) {
    Ran(flags, from, |flags| - 1, count, v) && !Ran(flags, from, |flags| - 1, count + 1, v)
  }

  lemma FlagsExtend(c: Config, input: seq<Frame>, f: Frame)
    ensures Flags(c, input + [f]) == Flags(c, input) + [SpeechAt(c, input + [f], |input|)]
  {
    var more := input + [f];
    forall i | 0 <= i < |input| ensures SpeechAt(c, more, i) == SpeechAt(c, input, i) {
      if SpeechAt(c, more, i) {
        var j :| Max(0, i - c.window + 1) <= j <= i && Loud(c, more[j]);
        assert Loud(c, input[j]);
      }
      if SpeechAt(c, input, i) {
        var j :| Max(0, i - c.window + 1) <= j <= i && Loud(c, input[j]);
        assert Loud(c, more[j]);
      }
    }
  }

  lemma RanStable(flags: seq<bool>, b: bool, from: nat, t: int, k: nat, v: bool)
    requires -1 <= t < |flags|
    ensures Ran(flags + [b], from, t, k, v) == Ran(flags, from, t, k, v)
  {
    assert forall i :: 0 <= i <= t ==> (flags + [b])[i] == flags[i];
  }

  lemma NoneYetStable(flags: seq<bool>, b: bool, from: nat, to: nat, k: nat, v: bool)
    requires to <= |flags|
    ensures NoneYet(flags + [b], from, to, k, v) == NoneYet(flags, from, to, k, v)
  {
    hide Ran;
    forall t | from <= t < to ensures Ran(flags + [b], from, t, k, v) == Ran(flags, from, t, k, v) {
      RanStable(flags, b, from, t, k, v);
    }
  }

  lemma FirstRunStable(flags: seq<bool>, b: bool, from: nat, t: nat, k: nat, v: bool)
    requires t < |flags|
    ensures FirstRun(flags + [b], from, t, k, v) == FirstRun(flags, from, t, k, v)
  {
    hide Ran, NoneYet;
    RanStable(flags, b, from, t, k, v);
    NoneYetStable(flags, b, from, t, k, v);
  }

  lemma {:induction false} SegmentedStable(c: Config, flags: seq<bool>, b: bool, segments: seq<Segment>)
    requires Segmented(c, flags, segments)
    ensures Segmented(c, flags + [b], segments)
  {
    hide FirstRun;
    if segments != [] {
      var before, g := segments[..|segments| - 1], segments[|segments| - 1];
      SegmentedStable(c, flags, b, before);
      EndsInside(flags, g.onset + 1, g.end, Max(c.hangover, 1), false);
      EndsInside(flags, From(before), g.onset, Max(c.onset, 1), true);
      FirstRunStable(flags, b, From(before), g.onset, Max(c.onset, 1), true);
      FirstRunStable(flags, b, g.onset + 1, g.end, Max(c.hangover, 1), false);
    }
  }

  lemma EndsInside(flags: seq<bool>, from: nat, t: nat, k: nat, v: bool)
    requires FirstRun(flags, from, t, k, v)
    ensures from <= t < |flags|
  {}

  lemma RanStep(flags: seq<bool>, b: bool, from: nat, k: nat, v: bool)
    ensures Ran(flags + [b], from, |flags|, k + 1, v) <==> b == v && Ran(flags, from, |flags| - 1, k, v)
  {
    var more, n := flags + [b], |flags|;
    assert more[n] == b && forall i :: 0 <= i < n ==> more[i] == flags[i];
    if Ran(more, from, n, k + 1, v) {
      forall i | n - 1 - k < i <= n - 1 ensures flags[i] == v { assert more[i] == flags[i]; }
    }
  }

  lemma CountsStep(flags: seq<bool>, b: bool, from: nat, count: nat, v: bool)
    requires from <= |flags| && Counts(flags, from, count, v)
    ensures Counts(flags + [b], from, if b == v then count + 1 else 0, v)
  {
    RanStep(flags, b, from, if b == v then count else 0, v);
    RanStep(flags, b, from, count + 1, v);
  }

  /** The counter tells whether the run has just completed for the first time. */
  lemma RunDecided(flags: seq<bool>, b: bool, from: nat, count: nat, k: nat, v: bool)
    requires from <= |flags| && k > 0 && NoneYet(flags, from, |flags|, k, v) && Counts(flags + [b], from, count, v)
    ensures if count >= k then FirstRun(flags + [b], from, |flags|, k, v)
      else NoneYet(flags + [b], from, |flags| + 1, k, v)
  {
    var more, n := flags + [b], |flags|;
    NoneYetStable(flags, b, from, n, k, v);
    if count < k {
      assert !Ran(more, from, n, k, v) by {
        if Ran(more, from, n, k, v) { assert Ran(more, from, n, count + 1, v); }
      }
    }
  }

  lemma NothingCounted(flags: seq<bool>, v: bool)
    ensures Counts(flags, |flags|, 0, v)
  {}

  lemma {:induction false} ForwardedStable(
    c: Config, input: seq<Frame>, f: Frame, flags: seq<bool>, segments: seq<Segment>)
    requires |flags| == |input| && Segmented(c, flags, segments)
    ensures Forwarded(input + [f], segments) == Forwarded(input, segments)
  {
    hide FirstRun;
    if segments != [] {
      var before, g := segments[..|segments| - 1], segments[|segments| - 1];
      EndsInside(flags, g.onset + 1, g.end, Max(c.hangover, 1), false);
      ForwardedStable(c, input, f, flags, before);
      if g.start <= g.end { assert (input + [f])[g.start..g.end + 1] == input[g.start..g.end + 1]; }
    }
  }

  lemma {:induction false} ActivesStable(flags: seq<bool>, b: bool, lo: nat, hi: nat)
    requires hi <= |flags|
    ensures Actives(flags + [b], lo, hi) == Actives(flags, lo, hi)
  {
    if hi > lo { ActivesStable(flags, b, lo, hi - 1); }
  }

  lemma {:induction false} ReportedStable(c: Config, flags: seq<bool>, b: bool, segments: seq<Segment>)
    requires Segmented(c, flags, segments)
    ensures Reported(flags + [b], segments) == Reported(flags, segments)
  {
    hide FirstRun, Actives;
    if segments != [] {
      var before, g := segments[..|segments| - 1], segments[|segments| - 1];
      EndsInside(flags, g.onset + 1, g.end, Max(c.hangover, 1), false);
      ReportedStable(c, flags, b, before);
      ActivesStable(flags, b, g.onset + 1, g.end + 1);
    }
  }

  /** The description after one more frame: the same segments, a new segment open, or the open one closed. */
  lemma {:induction false} StillQuiet(c: Config, flags: seq<bool>, b: bool, segments: seq<Segment>)
    requires Describes(c, flags, segments, Quiet)
    requires NoneYet(flags + [b], From(segments), |flags| + 1, Max(c.onset, 1), true)
    ensures Describes(c, flags + [b], segments, Quiet)
  {
    hide Segmented, NoneYet;
    SegmentedStable(c, flags, b, segments);
  }

  lemma {:induction false} Opens(c: Config, flags: seq<bool>, b: bool, segments: seq<Segment>)
    requires Describes(c, flags, segments, Quiet)
    requires FirstRun(flags + [b], From(segments), |flags|, Max(c.onset, 1), true)
    ensures Describes(c, flags + [b], segments, Talking(StartOf(c, From(segments), |flags|), |flags|))
  {
    hide Segmented;
    SegmentedStable(c, flags, b, segments);
  }

  lemma {:induction false} StillTalking(c: Config, flags: seq<bool>, b: bool, segments: seq<Segment>, now: Now)
    requires Describes(c, flags, segments, now) && now.Talking?
    requires NoneYet(flags + [b], now.onset + 1, |flags| + 1, Max(c.hangover, 1), false)
    ensures Describes(c, flags + [b], segments, now)
  {
    hide Segmented, NoneYet, Ran;
    SegmentedStable(c, flags, b, segments);
    FirstRunStable(flags, b, From(segments), now.onset, Max(c.onset, 1), true);
  }

  lemma {:induction false} Closes(c: Config, flags: seq<bool>, b: bool, segments: seq<Segment>, now: Now)
    requires Describes(c, flags, segments, now) && now.Talking?
    requires FirstRun(flags + [b], now.onset + 1, |flags|, Max(c.hangover, 1), false)
    ensures Describes(c, flags + [b], segments + [Segment(now.start, now.onset, |flags|)], Quiet)
  {
    hide FirstRun, NoneYet;
    SegmentedStable(c, flags, b, segments);
    EndsInside(flags, From(segments), now.onset, Max(c.onset, 1), true);
    FirstRunStable(flags, b, From(segments), now.onset, Max(c.onset, 1), true);
    var g := Segment(now.start, now.onset, |flags|);
    assert (segments + [g])[..|segments|] == segments;
    assert Segmented(c, flags + [b], segments + [g]);
    NoneAtOnce(flags + [b], Max(c.onset, 1), true);
  }

  lemma NoneAtOnce(flags: seq<bool>, k: nat, v: bool)
    ensures NoneYet(flags, |flags|, |flags|, k, v)
  {}

  /** Everything one frame outside speech decides. */
  lemma {:induction false} QuietStep(c: Config, input: seq<Frame>, f: Frame, segments: seq<Segment>, count: nat)
    requires Describes(c, Flags(c, input), segments, Quiet) && Counts(Flags(c, input), From(segments), count, true)
    ensures var n, more, from := |input|, input + [f], From(segments);
      var flags, s := Flags(c, more), SpeechAt(c, more, n);
      var next := if s then count + 1 else 0;
      && Counts(flags, from, next, true) && from <= n
      && (s && next >= c.onset ==>
            var now := Talking(StartOf(c, from, n), n);
            && Describes(c, flags, segments, now) && Counts(flags, n + 1, 0, false)
            && AllForwarded(more, segments, now) == AllForwarded(input, segments, Quiet) + more[now.start..]
            && AllReported(flags, segments, now) == AllReported(Flags(c, input), segments, Quiet) + [SpeechStart])
      && (!(s && next >= c.onset) ==>
            && Describes(c, flags, segments, Quiet)
            && AllForwarded(more, segments, Quiet) == AllForwarded(input, segments, Quiet)
            && AllReported(flags, segments, Quiet) == AllReported(Flags(c, input), segments, Quiet))
  {
    hide Flags, SpeechAt, Segmented, Ran, Counts, NoneYet, FirstRun, Forwarded, Reported;
    var n, more, from := |input|, input + [f], From(segments);
    var was, s := Flags(c, input), SpeechAt(c, more, n);
    var next := if s then count + 1 else 0;
    FlagsExtend(c, input, f);
    CountsStep(was, s, from, count, true);
    RunDecided(was, s, from, next, Max(c.onset, 1), true);
    ForwardedStable(c, input, f, was, segments);
    ReportedStable(c, was, s, segments);
    if s && next >= c.onset {
      Opens(c, was, s, segments);
      NothingCounted(was + [s], false);
      assert Actives(was + [s], n + 1, n + 1) == [];
    } else {
      StillQuiet(c, was, s, segments);
    }
  }

  /** Everything one frame inside speech decides. */
  lemma {:induction false} TalkingStep(
    c: Config, input: seq<Frame>, f: Frame, segments: seq<Segment>, now: Now, count: nat)
    requires now.Talking? && now.onset < |input|
    requires Describes(c, Flags(c, input), segments, now) && Counts(Flags(c, input), now.onset + 1, count, false)
    ensures var n, more := |input|, input + [f];
      var flags, s := Flags(c, more), SpeechAt(c, more, n);
      var next := if s then 0 else count + 1;
      && Counts(flags, now.onset + 1, next, false)
      && (!s && next >= c.hangover ==>
            var longer := segments + [Segment(now.start, now.onset, n)];
            Describes(c, flags, longer, Quiet) && Counts(flags, From(longer), 0, true) && From(longer) == n + 1)
      && (!(!s && next >= c.hangover) ==> Describes(c, flags, segments, now))
  {
    hide Flags, SpeechAt, Segmented, Ran, Counts, NoneYet, FirstRun;
    var s := SpeechAt(c, input + [f], |input|);
    var was, next := Flags(c, input), if s then 0 else count + 1;
    FlagsExtend(c, input, f);
    CountsStep(was, s, now.onset + 1, count, false);
    RunDecided(was, s, now.onset + 1, next, Max(c.hangover, 1), false);
    if !s && next >= c.hangover {
      Closes(c, was, s, segments, now);
      NothingCounted(was + [s], true);
    } else {
      StillTalking(c, was, s, segments, now);
    }
  }

  /** What one frame inside speech adds to the audio, whether or not it closes the segment. */
  lemma {:induction false} TalkingAudio(c: Config, input: seq<Frame>, f: Frame, segments: seq<Segment>, now: Now)
    requires now.Talking? && now.start <= now.onset < |input| && Segmented(c, Flags(c, input), segments)
    ensures var more, longer := input + [f], segments + [Segment(now.start, now.onset, |input|)];
      && AllForwarded(more, segments, now) == AllForwarded(input, segments, now) + [f]
      && AllForwarded(more, longer, Quiet) == AllForwarded(input, segments, now) + [f]
  {
    hide Flags, Segmented, Forwarded;
    var n, more := |input|, input + [f];
    ForwardedStable(c, input, f, Flags(c, input), segments);
    assert more[now.start..] == input[now.start..] + [f];
    assert more[now.start..n + 1] == more[now.start..];
    LongerForwarded(more, segments, Segment(now.start, now.onset, n));
  }

  /** What it adds to the events. */
  lemma {:induction false} TalkingEvents(c: Config, input: seq<Frame>, f: Frame, segments: seq<Segment>, now: Now)
    requires now.Talking? && now.onset < |input| && Segmented(c, Flags(c, input), segments)
    ensures var n, more := |input|, input + [f];
      var was, flags, s := Flags(c, input), Flags(c, more), SpeechAt(c, more, n);
      var longer := segments + [Segment(now.start, now.onset, n)];
      && AllReported(flags, segments, now) == AllReported(was, segments, now) + (if s then [SpeechActive] else [])
      && (!s ==> AllReported(flags, longer, Quiet) == AllReported(was, segments, now) + [SpeechEnd])
  {
    hide Flags, SpeechAt, Segmented, Reported, Actives;
    var n := |input|;
    var was, s := Flags(c, input), SpeechAt(c, input + [f], n);
    FlagsExtend(c, input, f);
    ReportedStable(c, was, s, segments);
    ActivesStable(was, s, now.onset + 1, n);
    ActivesStep(was + [s], now.onset + 1, n + 1);
    LongerReported(was + [s], segments, Segment(now.start, now.onset, n));
  }

  lemma {:induction false} LongerForwarded(input: seq<Frame>, segments: seq<Segment>, g: Segment)
    requires g.start <= g.end < |input|
    ensures Forwarded(input, segments + [g]) == Forwarded(input, segments) + input[g.start..g.end + 1]
  {
    assert (segments + [g])[..|segments|] == segments;
  }

  lemma {:induction false} LongerReported(flags: seq<bool>, segments: seq<Segment>, g: Segment)
    requires g.end < |flags|
    ensures Reported(flags, segments + [g]) ==
              Reported(flags, segments) + [SpeechStart] + Actives(flags, g.onset + 1, g.end + 1) + [SpeechEnd]
  {
    hide Actives;
    assert (segments + [g])[..|segments|] == segments;
  }

  lemma {:induction false} ActivesStep(flags: seq<bool>, lo: nat, hi: nat)
    requires lo < hi <= |flags|
    ensures Actives(flags, lo, hi) == Actives(flags, lo, hi - 1) + if flags[hi - 1] then [SpeechActive] else []
  {}

  /** The automaton's state is the one the description of the input calls for. */
  ghost predicate Tracks(c: Config, input: seq<Frame>, segments: seq<Segment>, now: Now,
                         inSpeech: bool, onsets: nat, hangovers: nat, preRoll: seq<Frame>)
  {
    var flags := Flags(c, input);
    && Describes(c, flags, segments, now)
    && inSpeech == now.Talking?
    && (!inSpeech ==>
          && Counts(flags, From(segments), onsets, true)
          && preRoll == input[Max(From(segments), |input| - c.preRoll)..])
    && (inSpeech ==>
          && now.start <= now.onset < |input| && onsets == 0
          && Counts(flags, now.onset + 1, hangovers, false)
          && preRoll == [])
  }

  lemma PhaseTracked(c: Config, input: seq<Frame>, segments: seq<Segment>, now: Now,
                     inSpeech: bool, onsets: nat, hangovers: nat, preRoll: seq<Frame>)
    requires Tracks(c, input, segments, now, inSpeech, onsets, hangovers, preRoll)
    ensures inSpeech == now.Talking?
  {
    hide Flags, Describes, Counts;
  }

  lemma {:induction false} TalkingTracks(c: Config, input: seq<Frame>, f: Frame, segments: seq<Segment>, now: Now,
                                         onsets: nat, hangovers: nat, preRoll: seq<Frame>)
    requires Tracks(c, input, segments, now, true, onsets, hangovers, preRoll)
    ensures now.Talking? && now.start <= now.onset < |input| && Segmented(c, Flags(c, input), segments)
    ensures var s := SpeechAt(c, input + [f], |input|);
      var next := if s then 0 else hangovers + 1;
      if !s && next >= c.hangover then
        Tracks(c, input + [f], segments + [Segment(now.start, now.onset, |input|)], Quiet, false, onsets, 0, [])
      else Tracks(c, input + [f], segments, now, true, onsets, next, preRoll)
  {
    hide Flags, SpeechAt, Segmented, Counts, NowIs;
    TalkingStep(c, input, f, segments, now, hangovers);
    assert forall lo :: lo == |input + [f]| ==> (input + [f])[lo..] == [];
  }

  /** The pre-roll buffer after one more frame. */
  function Buffered(c: Config, preRoll: seq<Frame>, f: Frame): seq<Frame> {
    var longer := preRoll + [f];
    if |longer| > c.preRoll then longer[1..] else longer
  }

  lemma BufferedIs(c: Config, preRoll: seq<Frame>, f: Frame)
    ensures var longer := preRoll + [f];
      Buffered(c, preRoll, f) == if |longer| > c.preRoll then longer[1..] else longer
  {}

  /** It keeps the last frames since the search began, which is what an onset forwards. */
  lemma {:induction false} PreRollSlides(c: Config, input: seq<Frame>, f: Frame, from: nat, preRoll: seq<Frame>)
    requires from <= |input| && preRoll == input[Max(from, |input| - c.preRoll)..]
    ensures var more := input + [f];
      && Buffered(c, preRoll, f) == more[Max(from, |more| - c.preRoll)..]
      && (c.preRoll == 0 ==> Buffered(c, preRoll, f) == [])
      && more[StartOf(c, from, |input|)..] == if c.preRoll == 0 then [f] else Buffered(c, preRoll, f)
  {
    var more := input + [f];
    var lo := Max(from, |input| - c.preRoll);
    assert preRoll + [f] == more[lo..];
    if |preRoll| + 1 > c.preRoll { assert more[lo..][1..] == more[lo + 1..]; }
  }

  lemma {:induction false} QuietTracks(c: Config, input: seq<Frame>, f: Frame, segments: seq<Segment>,
                                       onsets: nat, hangovers: nat, preRoll: seq<Frame>)
    requires Tracks(c, input, segments, Quiet, false, onsets, hangovers, preRoll)
    ensures From(segments) <= |input|
    ensures var s, n, from := SpeechAt(c, input + [f], |input|), |input|, From(segments);
      var next := if s then onsets + 1 else 0;
      if s && next >= c.onset then
        Tracks(c, input + [f], segments, Talking(StartOf(c, from, n), n), true, 0, 0, [])
      else
        Tracks(c, input + [f], segments, Quiet, false, next, if s then 0 else hangovers, Buffered(c, preRoll, f))
  {
    hide Flags, SpeechAt, Segmented, NowIs, Counts, Buffered;
    QuietStep(c, input, f, segments, onsets);
    PreRollSlides(c, input, f, From(segments), preRoll);
  }

  /** What one frame outside speech adds to the outputs. */
  lemma {:induction false} QuietOutputs(c: Config, input: seq<Frame>, f: Frame, segments: seq<Segment>,
                                        onsets: nat, hangovers: nat, preRoll: seq<Frame>)
    requires Tracks(c, input, segments, Quiet, false, onsets, hangovers, preRoll)
    ensures From(segments) <= |input|
    ensures var n, more, buffered := |input|, input + [f], Buffered(c, preRoll, f);
      var s, was, flags := SpeechAt(c, more, n), Flags(c, input), Flags(c, more);
      if s && onsets + 1 >= c.onset then
        var now := Talking(StartOf(c, From(segments), n), n);
        && AllForwarded(more, segments, now) ==
             AllForwarded(input, segments, Quiet) + (if c.preRoll == 0 then [f] else buffered)
        && AllReported(flags, segments, now) == AllReported(was, segments, Quiet) + [SpeechStart]
        && (c.preRoll == 0 ==> buffered == [])
      else
        && AllForwarded(more, segments, Quiet) == AllForwarded(input, segments, Quiet)
        && AllReported(flags, segments, Quiet) == AllReported(was, segments, Quiet)
  {
    hide Flags, SpeechAt, Segmented, NowIs, Counts, Buffered, AllForwarded, AllReported;
    QuietStep(c, input, f, segments, onsets);
    PreRollSlides(c, input, f, From(segments), preRoll);
  }

  /** The energies of the last `window` frames. */
  predicate IsWindow(c: Config, frames: seq<Frame>, rms: seq<real>) {
    var lo := Max(0, |frames| - c.window);
    && |rms| == |frames| - lo
    && forall k :: 0 <= k < |rms| ==> rms[k] == frames[lo + k].rms
  }

  lemma WindowHolds(c: Config, frames: seq<Frame>, rms: seq<real>)
    requires c.window >= 1 && frames != [] && IsWindow(c, frames, rms)
    ensures rms != []
  {}

  lemma WindowSlides(c: Config, frames: seq<Frame>, f: Frame, rms: seq<real>)
    requires c.window >= 1 && IsWindow(c, frames, rms)
    ensures var longer := rms + [f.rms];
      IsWindow(c, frames + [f], if |longer| > c.window then longer[1..] else longer)
  {}

  /** The largest of the last energies reaches the threshold if and only if one of the last frames is loud. */
  lemma LargestIsLoud(c: Config, frames: seq<Frame>, rms: seq<real>, largest: real)
    requires c.window >= 1 && frames != [] && IsWindow(c, frames, rms)
    requires largest in rms && forall x :: x in rms ==> x <= largest
    ensures largest >= c.threshold <==> SpeechAt(c, frames, |frames| - 1)
  {
    var lo, i := Max(0, |frames| - c.window), |frames| - 1;
    if largest >= c.threshold {
      var k :| 0 <= k < |rms| && rms[k] == largest;
      assert Loud(c, frames[lo + k]);
    }
    if SpeechAt(c, frames, i) {
      var j :| Max(0, i - c.window + 1) <= j <= i && Loud(c, frames[j]);
      assert rms[j - lo] in rms;
    }
  }

  lemma NothingYet(c: Config)
    ensures Tracks(c, [], [], Quiet, false, 0, 0, [])
    ensures AllForwarded([], [], Quiet) == [] && AllReported(Flags(c, []), [], Quiet) == []
    ensures IsWindow(c, [], [])
  {}

  class EnergyVadDevice {
    const config: Config
    var active: bool
    var inSpeech: bool
    var onsetCounter: nat
    var hangoverCounter: nat
    var rmsWindow: seq<real>
    var preRollBuf: seq<Frame>
    /** What was sent on the two output ports since the last start. */
    var audio: seq<Frame>
    var events: seq<VadEvent>
    ghost var input: seq<Frame>
    ghost var closed: seq<Segment>
    ghost var now: Now

    ghost predicate Windowed(frames: seq<Frame>)
      reads this`rmsWindow
    {
      IsWindow(config, frames, rmsWindow)
    }

    ghost predicate Tracking()
      reads this`inSpeech, this`onsetCounter, this`hangoverCounter, this`preRollBuf, this`input, this`closed, this`now
    {
      Tracks(config, input, closed, now, inSpeech, onsetCounter, hangoverCounter, preRollBuf)
    }

    /** The outputs are exactly those of the whole-input description. */
    ghost predicate Outputs()
      reads this`audio, this`events, this`input, this`closed, this`now
    {
      && audio == AllForwarded(input, closed, now)
      && events == AllReported(Flags(config, input), closed, now)
    }

    ghost predicate Valid()
      reads this
    {
      config.window >= 1 && Windowed(input) && Tracking() && Outputs()
    }

    constructor (config: Config)
      ensures this.config == config && !active
    {
      this.config := config;
      active, inSpeech, onsetCounter, hangoverCounter := false, false, 0, 0;
      rmsWindow, preRollBuf, audio, events, input, closed, now := [], [], [], [], [], [], Quiet;
    }

    method Start()
      requires config.window >= 1
      modifies this
      ensures Valid() && active && input == []
    {
      hide Flags, Tracks, AllForwarded, AllReported, IsWindow;
      NothingYet(config);
      inSpeech, onsetCounter, hangoverCounter, rmsWindow, preRollBuf, active := false, 0, 0, [], [], true;
      audio, events, input, closed, now := [], [], [], [], Quiet;
    }

    method Stop()
      modifies this`active
      ensures !active
    {
      active := false;
    }

    method WindowMax() returns (m: real)
      requires rmsWindow != []
      ensures m in rmsWindow && forall x :: x in rmsWindow ==> x <= m
    {
      m := rmsWindow[0];
      for k := 1 to |rmsWindow|
        invariant m in rmsWindow && forall j :: 0 <= j < k ==> rmsWindow[j] <= m
      {
        if rmsWindow[k] > m { m := rmsWindow[k]; }
      }
    }

    /** The sliding maximum: speech if and only if one of the last frames is loud. */
    method Classify(frame: Frame) returns (isSpeech: bool)
      requires config.window >= 1 && Windowed(input)
      modifies this`rmsWindow
      ensures Windowed(input + [frame]) && isSpeech == SpeechAt(config, input + [frame], |input|)
    {
      hide SpeechAt, IsWindow;
      WindowSlides(config, input, frame, rmsWindow);
      rmsWindow := rmsWindow + [frame.rms];
      if |rmsWindow| > config.window { rmsWindow := rmsWindow[1..]; }
      WindowHolds(config, input + [frame], rmsWindow);
      var largest := WindowMax();
      LargestIsLoud(config, input + [frame], rmsWindow, largest);
      isSpeech := largest >= config.threshold;
    }

    /** A frame outside speech: buffered, and forwarded with the pre-roll if it confirms the onset. */
    method WhenQuiet(frame: Frame, isSpeech: bool)
      requires config.window >= 1 && Tracking() && Outputs() && !inSpeech
      requires isSpeech == SpeechAt(config, input + [frame], |input|)
      modifies this`inSpeech, this`onsetCounter, this`hangoverCounter, this`preRollBuf, this`audio, this`events,
               this`input, this`closed, this`now
      ensures Tracking() && Outputs() && input == old(input) + [frame]
    {
      hide Flags, Tracks, SpeechAt, AllForwarded, AllReported, Buffered;
      ghost var from, n := From(closed), |input|;
      PhaseTracked(config, input, closed, now, false, onsetCounter, hangoverCounter, preRollBuf);
      QuietTracks(config, input, frame, closed, onsetCounter, hangoverCounter, preRollBuf);
      QuietOutputs(config, input, frame, closed, onsetCounter, hangoverCounter, preRollBuf);
      ghost var buffered := Buffered(config, preRollBuf, frame);
      input := input + [frame];
      preRollBuf := preRollBuf + [frame];
      if |preRollBuf| > config.preRoll { preRollBuf := preRollBuf[1..]; }
      BufferedIs(config, old(preRollBuf), frame);
      if isSpeech {
        onsetCounter := onsetCounter + 1;
        hangoverCounter := 0;
        if onsetCounter >= config.onset {
          inSpeech := true;
          onsetCounter := 0;
          now := Talking(StartOf(config, from, n), n);
          events := events + [SpeechStart];
          if config.preRoll == 0 {
            audio := audio + [frame];
          } else {
            FlushPreRoll();
          }
        }
      } else {
        onsetCounter := 0;
      }
    }

    method FlushPreRoll()
      modifies this`audio, this`preRollBuf
      ensures audio == old(audio) + old(preRollBuf) && preRollBuf == []
    {
      for k := 0 to |preRollBuf|
        invariant preRollBuf == old(preRollBuf) && audio == old(audio) + preRollBuf[..k]
      {
        audio := audio + [preRollBuf[k]];
      }
      preRollBuf := [];
    }

    /** A frame inside speech is always forwarded; enough quiet ones in a row end the segment. */
    method WhenTalking(frame: Frame, isSpeech: bool)
      requires config.window >= 1 && Tracking() && Outputs() && inSpeech
      requires isSpeech == SpeechAt(config, input + [frame], |input|)
      modifies this`inSpeech, this`onsetCounter, this`hangoverCounter, this`preRollBuf, this`audio, this`events,
               this`input, this`closed, this`now
      ensures Tracking() && Outputs() && input == old(input) + [frame]
    {
      hide Flags, Tracks, Segmented, SpeechAt, AllForwarded, AllReported;
      PhaseTracked(config, input, closed, now, true, onsetCounter, hangoverCounter, preRollBuf);
      TalkingTracks(config, input, frame, closed, now, onsetCounter, hangoverCounter, preRollBuf);
      TalkingAudio(config, input, frame, closed, now);
      TalkingEvents(config, input, frame, closed, now);
      input := input + [frame];
      audio := audio + [frame];
      if isSpeech {
        hangoverCounter := 0;
        events := events + [SpeechActive];
      } else {
        hangoverCounter := hangoverCounter + 1;
        if hangoverCounter >= config.hangover {
          closed := closed + [Segment(now.start, now.onset, |input| - 1)];
          now := Quiet;
          inSpeech := false;
          hangoverCounter := 0;
          preRollBuf := [];
          events := events + [SpeechEnd];
        }
      }
    }

    /** Empty frames, and frames while stopped, are ignored; otherwise the outputs stay those of the whole input. */
    method OnInput(frame: Frame)
      requires active ==> Valid()
      modifies this
      ensures active == old(active) && (active ==> Valid())
      ensures input == if active && frame.payload != [] then old(input) + [frame] else old(input)
    {
      hide Tracking, Outputs, IsWindow, SpeechAt;
      if !active { return; }
      if frame.payload == [] { return; }
      var isSpeech := Classify(frame);
      if !inSpeech {
        WhenQuiet(frame, isSpeech);
      } else {
        WhenTalking(frame, isSpeech);
      }
    }
  }
}
