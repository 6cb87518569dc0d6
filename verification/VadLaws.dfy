/** What the whole-input description of voice activity says. */
module VadLaws {
  import opened Numbers
  import opened Vad

  lemma {:induction false} SegmentAt(c: Config, flags: seq<bool>, segments: seq<Segment>, k: nat)
    requires Segmented(c, flags, segments) && k < |segments|
    ensures Segmented(c, flags, segments[..k]) && IsSegment(c, flags, From(segments[..k]), segments[k])
    decreases |segments|
  {
    hide IsSegment;
    var before := segments[..|segments| - 1];
    if k < |before| {
      SegmentAt(c, flags, before, k);
      assert before[..k] == segments[..k];
    }
  }

  lemma FirstRunUnique(flags: seq<bool>, from: nat, t: nat, u: nat, k: nat, v: bool)
    requires FirstRun(flags, from, t, k, v) && FirstRun(flags, from, u, k, v)
    ensures t == u
  {
    hide Ran;
  }

  lemma SegmentUnique(c: Config, flags: seq<bool>, from: nat, g: Segment, h: Segment)
    requires IsSegment(c, flags, from, g) && IsSegment(c, flags, from, h)
    ensures g == h
  {
    hide FirstRun;
    FirstRunUnique(flags, from, g.onset, h.onset, Max(c.onset, 1), true);
    FirstRunUnique(flags, g.onset + 1, g.end, h.end, Max(c.hangover, 1), false);
  }

  lemma {:induction false} SharedSegments(c: Config, flags: seq<bool>, a: seq<Segment>, b: seq<Segment>)
    requires Segmented(c, flags, a) && Segmented(c, flags, b) && |a| <= |b|
    ensures a == b[..|a|]
  {
    hide IsSegment;
    if a != [] {
      var last := |a| - 1;
      SharedSegments(c, flags, a[..last], b);
      SegmentAt(c, flags, b, last);
      SegmentUnique(c, flags, From(a[..last]), a[last], b[last]);
      assert b[..|a|] == b[..last] + [b[last]];
    }
  }

  /** Nothing can still be going on where a segment was found. */
  lemma {:induction false} NowExcludesSegment(c: Config, flags: seq<bool>, from: nat, now: Now, g: Segment)
    requires from <= |flags| && NowIs(c, flags, from, now)
    ensures !IsSegment(c, flags, from, g)
  {
    hide Ran;
    var k := Max(c.onset, 1);
    if now.Talking? && FirstRun(flags, from, g.onset, k, true) {
      FirstRunUnique(flags, from, g.onset, now.onset, k, true);
    }
  }

  lemma {:induction false} NowUnique(c: Config, flags: seq<bool>, from: nat, a: Now, b: Now)
    requires from <= |flags| && NowIs(c, flags, from, a) && NowIs(c, flags, from, b)
    ensures a == b
  {
    hide Ran;
    if a.Talking? && b.Talking? {
      FirstRunUnique(flags, from, a.onset, b.onset, Max(c.onset, 1), true);
    }
  }

  lemma {:induction false} NoMoreSegments(c: Config, flags: seq<bool>, a: seq<Segment>, now: Now, b: seq<Segment>)
    requires Describes(c, flags, a, now) && Segmented(c, flags, b)
    ensures |b| <= |a|
  {
    hide IsSegment, NowIs;
    if |b| > |a| {
      SharedSegments(c, flags, a, b);
      SegmentAt(c, flags, b, |a|);
      NowExcludesSegment(c, flags, From(a), now, b[|a|]);
    }
  }

  /** The description fixes everything: segments, and what is going on now. */
  lemma {:induction false} DescriptionUnique(
    c: Config, flags: seq<bool>, a: seq<Segment>, nowA: Now, b: seq<Segment>, nowB: Now)
    requires Describes(c, flags, a, nowA) && Describes(c, flags, b, nowB)
    ensures a == b && nowA == nowB
  {
    hide Segmented, NowIs;
    NoMoreSegments(c, flags, a, nowA, b);
    NoMoreSegments(c, flags, b, nowB, a);
    SharedSegments(c, flags, a, b);
    NowUnique(c, flags, From(a), nowA, nowB);
  }

  /** Each segment lies after the one before it and reaches back at most preRoll frames from its onset. */
  lemma {:induction false} SegmentsInOrder(c: Config, flags: seq<bool>, segments: seq<Segment>, k: nat)
    requires Segmented(c, flags, segments) && k < |segments|
    ensures var g := segments[k];
      && g.start <= g.onset < g.end < |flags|
      && g.onset - g.start < Max(c.preRoll, 1)
      && (k > 0 ==> segments[k - 1].end < g.start)
      && flags[g.onset] && !flags[g.end]
  {
    SegmentAt(c, flags, segments, k);
  }

  /** The flag before the final quiet run is speech. */
  lemma {:induction false} LastSpeech(c: Config, flags: seq<bool>, from: nat, g: Segment)
    requires IsSegment(c, flags, from, g)
    ensures var h := Max(c.hangover, 1);
      && g.onset <= g.end - h && flags[g.end - h]
      && forall i :: g.end - h < i <= g.end ==> !flags[i]
  {
    var h := Max(c.hangover, 1);
    if g.end - h > g.onset && !flags[g.end - h] {
      assert Ran(flags, g.onset + 1, g.end - 1, h, false);
    }
  }

  /** A segment ends exactly window - 1 + max(hangover, 1) frames after the last loud frame before its end. */
  lemma {:induction false} EndsAfterLastLoud(c: Config, input: seq<Frame>, segments: seq<Segment>, k: nat)
    requires c.window >= 1 && Segmented(c, Flags(c, input), segments) && k < |segments|
    ensures var end, h := segments[k].end, Max(c.hangover, 1);
      var last := end - (c.window - 1 + h);
      && 0 <= last <= end < |input| && Loud(c, input[last])
      && forall i :: last < i <= end ==> !Loud(c, input[i])
  {
    hide Segmented, IsSegment, Loud;
    var flags, g, h := Flags(c, input), segments[k], Max(c.hangover, 1);
    SegmentAt(c, flags, segments, k);
    SegmentsInOrder(c, flags, segments, k);
    LastSpeech(c, flags, From(segments[..k]), g);
    var t := g.end - h;
    var last := t - c.window + 1;
    forall i | last < i <= g.end && 0 <= i ensures !Loud(c, input[i]) {
      var at := if i <= t + 1 then t + 1 else i;
      assert !flags[at] && !SpeechAt(c, input, at);
    }
    assert SpeechAt(c, input, t);
    var j :| Max(0, t - c.window + 1) <= j <= t && Loud(c, input[j]);
    assert j <= last;
  }
}
