/** Speaking a streamed reply: a character-at-a-time filter drops tagged blocks, and a segmenter hands on
    pieces of what is left. The filter erases an opening tag from the current token only. */
module TtsScan {
  import opened DialogueTypes
  import opened Text
  import opened ResponseFilter

  datatype TagState = TagState(inBlock: bool, buf: string)

  predicate Closes(b: string) {
    EndsWith(b, "</think>") || EndsWith(b, "</tool_call>") || EndsWith(b, "</tool_result>")
  }

  /** The opening tag b ends with, or "" if none. */
  function Opened(b: string): string {
    if EndsWith(b, "<think>") then "<think>"
    else if EndsWith(b, "<tool_call>") then "<tool_call>"
    else if EndsWith(b, "<tool_result>") then "<tool_result>"
    else ""
  }

  function Advance(s: TagState, ch: char): TagState {
    var b := s.buf + [ch];
    if s.inBlock then (if Closes(b) then TagState(false, "") else TagState(true, b))
    else if Opened(b) != "" then TagState(true, "") else TagState(false, b)
  }

  /** What one character does to the clean part of the current token. */
  function Keep(s: TagState, ch: char, clean: string): string {
    var tag := Opened(s.buf + [ch]);
    if s.inBlock then clean
    else if tag == "" then clean + [ch]
    else if |clean| >= |tag| - 1 then clean[..|clean| - (|tag| - 1)]
    else ""
  }

  /** The filter's state after a text. */
  function Scan(t: string): TagState {
    if t == "" then TagState(false, "") else Advance(Scan(t[..|t| - 1]), t[|t| - 1])
  }

  /** The clean part of a token that starts at `from`, after its characters up to n. */
  function Clean(t: string, from: nat, n: nat): string
    requires from <= n <= |t|
  {
    if n == from then "" else Keep(Scan(t[..n - 1]), t[n - 1], Clean(t, from, n - 1))
  }

  /** Everything handed to the segmenter for a list of tokens. */
  function Spoken(tokens: seq<string>): string {
    if tokens == [] then ""
    else
      var before := tokens[..|tokens| - 1];
      Spoken(before) + Clean(Concat(tokens), |Concat(before)|, |Concat(tokens)|)
  }

  ghost predicate NoToolTags(t: string) {
    !Occurs(t, "<tool_call>") && !Occurs(t, "</tool_call>") && !Occurs(t, "<tool_result>")
      && !Occurs(t, "</tool_result>")
  }

  /** An opening tag the strip scan stops at: it occurs at i and the text before it is outside any block. */
  predicate EffectiveOpen(t: string, i: nat) {
    OccursAt(t, OPEN, i) && !Unclosed(t[..i], OPEN, CLOSE)
  }

  /** Some effective opening tag straddles a token boundary. */
  ghost predicate SomeOpenSplit(tokens: seq<string>) {
    exists i: nat, k: nat ::
      k <= |tokens| && EffectiveOpen(Concat(tokens), i) && i < |Concat(tokens[..k])| < i + |OPEN|
  }

  // ---------- the scan against the strip specification ----------

  /** What stripping yields for everything consumed by closed parts of the scan. */
  function Base(t: string): string {
    if t == "" then ""
    else
      var s := Scan(t[..|t| - 1]);
      var b := s.buf + [t[|t| - 1]];
      if !s.inBlock && EndsWith(b, OPEN) then Base(t[..|t| - 1]) + b[..|b| - |OPEN|] else Base(t[..|t| - 1])
  }

  function Rest(s: TagState, x: string): string {
    if s.inBlock then Inside(s.buf + x, OPEN, CLOSE) else Outside(s.buf + x, OPEN, CLOSE)
  }

  predicate RestUnclosed(s: TagState, x: string) {
    if s.inBlock then UnclosedInside(s.buf + x, OPEN, CLOSE) else Unclosed(s.buf + x, OPEN, CLOSE)
  }

  lemma {:induction false} EndsWithOccurs(b: string, pat: string)
    requires EndsWith(b, pat)
    ensures Occurs(b, pat) && OccursAt(b, pat, |b| - |pat|)
  {
    assert b[|b| - |pat|..|b|] == b[|b| - |pat|..];
    assert OccursAt(b, pat, |b| - |pat|);
  }

  lemma {:induction false} OccursInLonger(t: string, lo: nat, hi: nat, pat: string)
    requires lo <= hi <= |t| && Occurs(t[lo..hi], pat)
    ensures Occurs(t, pat)
  {
    var i :| 0 <= i <= |t[lo..hi]| && OccursAt(t[lo..hi], pat, i);
    OccursInside(t, pat, lo, hi, i);
  }

  lemma {:induction false} FirstAtEnd(b: string, pat: string, x: string)
    requires pat != "" && EndsWith(b, pat) && !Occurs(b[..|b| - 1], pat)
    ensures Find(b + x, pat, 0) == Some(|b| - |pat|)
  {
    var at := |b| - |pat|;
    EndsWithOccurs(b, pat);
    OccursPrefix(b, x, pat, at);
    forall k: nat | k < at ensures !OccursAt(b + x, pat, k) {
      OccursPrefix(b, x, pat, k);
      OccursPrefix(b[..|b| - 1], [b[|b| - 1]], pat, k);
      assert b[..|b| - 1] + [b[|b| - 1]] == b;
    }
    FindIs(b + x, pat, 0, at);
  }

  lemma {:induction false} OccursPrefix(b: string, x: string, pat: string, k: nat)
    requires k + |pat| <= |b|
    ensures OccursAt(b + x, pat, k) <==> OccursAt(b, pat, k)
  {
    assert (b + x)[k..k + |pat|] == b[k..k + |pat|];
  }

  lemma {:induction false} OpenStep(b: string, x: string)
    requires EndsWith(b, OPEN) && !Occurs(b[..|b| - 1], OPEN)
    ensures Outside(b + x, OPEN, CLOSE) == b[..|b| - |OPEN|] + Inside(x, OPEN, CLOSE)
    ensures Unclosed(b + x, OPEN, CLOSE) == UnclosedInside(x, OPEN, CLOSE)
  {
    hide Find, Inside;
    FirstAtEnd(b, OPEN, x);
    assert (b + x)[|b|..] == x;
    assert (b + x)[..|b| - |OPEN|] == b[..|b| - |OPEN|];
  }

  lemma {:induction false} CloseStep(b: string, x: string)
    requires EndsWith(b, CLOSE) && !Occurs(b[..|b| - 1], CLOSE)
    ensures Inside(b + x, OPEN, CLOSE) == Outside(x, OPEN, CLOSE)
    ensures UnclosedInside(b + x, OPEN, CLOSE) == Unclosed(x, OPEN, CLOSE)
  {
    hide Find, Outside;
    FirstAtEnd(b, CLOSE, x);
    assert (b + x)[|b|..] == x;
  }

  /** A tag that does not end the extended text does not occur newly in it. */
  lemma {:induction false} NoNewOccurrence(b: string, ch: char, pat: string)
    requires pat != "" && !Occurs(b, pat) && !EndsWith(b + [ch], pat)
    ensures !Occurs(b + [ch], pat)
  {
    forall i | 0 <= i <= |b| + 1 ensures !OccursAt(b + [ch], pat, i) {
      if i + |pat| <= |b| {
        OccursPrefix(b, [ch], pat, i);
      } else if i + |pat| == |b| + 1 {
        assert (b + [ch])[i..i + |pat|] == (b + [ch])[|b + [ch]| - |pat|..];
      }
    }
  }

  /** The buffer is the text since the scan last changed mode, so it holds no complete tag of its mode. */
  ghost predicate BufferSound(t: string, s: TagState) {
    && |s.buf| <= |t| && s.buf == t[|t| - |s.buf|..]
    && !Occurs(s.buf, if s.inBlock then CLOSE else OPEN)
  }

  lemma {:induction false} NoToolTagEnds(t: string, b: string)
    requires NoToolTags(t) && |b| <= |t| && b == t[|t| - |b|..]
    ensures Closes(b) <==> EndsWith(b, CLOSE)
    ensures Opened(b) == if EndsWith(b, OPEN) then OPEN else ""
  {
    forall pat | EndsWith(b, pat) ensures Occurs(t, pat) {
      EndsWithOccurs(b, pat);
      assert t[|t| - |b|..|t|] == b;
      OccursInLonger(t, |t| - |b|, |t|, pat);
    }
  }

  lemma {:induction false} NoToolTagsPrefix(t: string, n: nat)
    requires NoToolTags(t) && n <= |t|
    ensures NoToolTags(t[..n])
  {
    forall pat | Occurs(t[..n], pat) ensures Occurs(t, pat) {
      assert t[0..n] == t[..n];
      OccursInLonger(t, 0, n, pat);
    }
  }

  lemma {:induction false} AdvanceIsSound(t: string, s: TagState)
    requires t != "" && NoToolTags(t) && BufferSound(t[..|t| - 1], s)
    ensures BufferSound(t, Advance(s, t[|t| - 1]))
  {
    hide Opened, Closes, NoToolTags, EndsWith;
    var ch := t[|t| - 1];
    var b := s.buf + [ch];
    assert b == t[|t| - |b|..];
    NoToolTagEnds(t, b);
    NothingOccurs(OPEN);
    NothingOccurs(CLOSE);
    var tag := if s.inBlock then CLOSE else OPEN;
    if !EndsWith(b, tag) { NoNewOccurrence(s.buf, ch, tag); }
  }

  lemma NothingOccurs(pat: string)
    requires pat != ""
    ensures !Occurs("", pat)
  {}

  lemma {:induction false} ScanIsSound(t: string)
    requires NoToolTags(t)
    ensures BufferSound(t, Scan(t))
    decreases |t|
  {
    hide Advance, NoToolTags;
    if t == "" {
      NothingOccurs(OPEN);
    } else {
      NoToolTagsPrefix(t, |t| - 1);
      ScanIsSound(t[..|t| - 1]);
      AdvanceIsSound(t, Scan(t[..|t| - 1]));
    }
  }

  /** One character of StripContinues. */
  lemma {:induction false} RestAdvances(t: string, s: TagState, x: string)
    requires t != "" && NoToolTags(t) && BufferSound(t[..|t| - 1], s)
    ensures var ch := t[|t| - 1];
      var b := s.buf + [ch];
      && Rest(s, [ch] + x) ==
            (if !s.inBlock && EndsWith(b, OPEN) then b[..|b| - |OPEN|] else "") + Rest(Advance(s, ch), x)
      && RestUnclosed(s, [ch] + x) == RestUnclosed(Advance(s, ch), x)
  {
    hide Opened, Closes, NoToolTags, EndsWith, Outside, Inside, Unclosed, UnclosedInside;
    var ch := t[|t| - 1];
    var b := s.buf + [ch];
    assert s.buf + ([ch] + x) == b + x && b[..|b| - 1] == s.buf && "" + x == x;
    assert b == t[|t| - |b|..];
    NoToolTagEnds(t, b);
    if s.inBlock {
      if EndsWith(b, CLOSE) { CloseStep(b, x); }
      assert "" + Rest(Advance(s, ch), x) == Rest(Advance(s, ch), x);
    } else {
      if EndsWith(b, OPEN) { OpenStep(b, x); }
      assert "" + Rest(Advance(s, ch), x) == Rest(Advance(s, ch), x);
    }
  }

  /** The scan's state says everything about how stripping continues after t. */
  lemma {:induction false} StripContinues(t: string, x: string)
    requires NoToolTags(t)
    ensures Think(t + x) == Base(t) + Rest(Scan(t), x)
    ensures Unclosed(t + x, OPEN, CLOSE) == RestUnclosed(Scan(t), x)
    decreases |t|
  {
    hide Outside, Inside, Unclosed, UnclosedInside, NoToolTags, Advance;
    assert "" + x == x;
    if t == "" {
      assert "" + Think(x) == Think(x);
    } else {
      hide Rest, RestUnclosed;
      var p, ch := t[..|t| - 1], t[|t| - 1];
      assert p + ([ch] + x) == t + x;
      NoToolTagsPrefix(t, |t| - 1);
      StripContinues(p, [ch] + x);
      ScanIsSound(p);
      RestAdvances(t, Scan(p), x);
      var s := Scan(p);
      var b := s.buf + [ch];
      hide EndsWith;
      var kept := if !s.inBlock && EndsWith(b, OPEN) then b[..|b| - |OPEN|] else "";
      Associate(Base(p), kept, Rest(Scan(t), x));
      assert Base(p) + "" == Base(p);
    }
  }

  lemma NotFound(t: string, pat: string)
    requires !Occurs(t, pat)
    ensures Find(t, pat, 0) == None
  {}

  /** Stripping a prefix, read off the scan. */
  lemma {:induction false} StripAt(t: string)
    requires NoToolTags(t)
    ensures var s := Scan(t);
      Think(t) == Base(t) + (if s.inBlock then "" else s.buf) && Unclosed(t, OPEN, CLOSE) == s.inBlock
  {
    StripContinues(t, "");
    ScanIsSound(t);
    var s := Scan(t);
    assert t + "" == t && s.buf + "" == s.buf;
    NotFound(s.buf, if s.inBlock then CLOSE else OPEN);
  }

  // ---------- which opening tags the scan acts on ----------

  /** Going back through the buffer meets only outside states. */
  lemma {:induction false} Backtrack(t: string, j: nat)
    requires !Scan(t).inBlock && j <= |Scan(t).buf|
    ensures j <= |t| && Scan(t[..|t| - j]) == TagState(false, Scan(t).buf[..|Scan(t).buf| - j])
    decreases j
  {
    hide Opened, Closes;
    if j == 0 {
      assert t[..|t|] == t && Scan(t).buf[..|Scan(t).buf|] == Scan(t).buf;
    } else {
      var p := t[..|t| - 1];
      assert Scan(t) == Advance(Scan(p), t[|t| - 1]);
      assert Scan(t).buf == Scan(p).buf + [t[|t| - 1]];
      Backtrack(p, j - 1);
      assert p[..|p| - (j - 1)] == t[..|t| - j];
      assert Scan(t).buf[..|Scan(t).buf| - j] == Scan(p).buf[..|Scan(p).buf| - (j - 1)];
    }
  }

  lemma EndingChar(b: string, pat: string)
    requires pat != "" && EndsWith(b, pat)
    ensures b != "" && b[|b| - 1] == pat[|pat| - 1]
  {
    assert b[|b| - |pat|..][|pat| - 1] == b[|b| - 1];
  }

  lemma {:induction false} NotATagEnd(s: TagState, ch: char)
    requires ch != '>' && !s.inBlock
    ensures Advance(s, ch) == TagState(false, s.buf + [ch])
  {
    hide EndsWith;
    var b := s.buf + [ch];
    if EndsWith(b, "<think>") { EndingChar(b, "<think>"); }
    if EndsWith(b, "<tool_call>") { EndingChar(b, "<tool_call>"); }
    if EndsWith(b, "<tool_result>") { EndingChar(b, "<tool_result>"); }
  }

  lemma {:induction false} ScanStep(t: string, ch: char)
    ensures Scan(t + [ch]) == Advance(Scan(t), ch)
  {
    hide Advance;
    assert (t + [ch])[..|t|] == t;
  }

  /** The first six characters of an opening tag are just collected. */
  lemma {:induction false} CollectsOpening(t: string, k: nat)
    requires !Scan(t).inBlock && k < |OPEN|
    ensures Scan(t + OPEN[..k]) == TagState(false, Scan(t).buf + OPEN[..k])
    decreases k
  {
    hide Advance, Scan;
    if k == 0 {
      assert t + OPEN[..0] == t && Scan(t).buf + OPEN[..0] == Scan(t).buf;
    } else {
      CollectsOpening(t, k - 1);
      var q, ch := t + OPEN[..k - 1], OPEN[k - 1];
      assert q + [ch] == t + OPEN[..k];
      ScanStep(q, ch);
      NotATagEnd(Scan(q), ch);
      assert Scan(q).buf + [ch] == Scan(t).buf + OPEN[..k];
    }
  }

  /** The scan completes an opening tag with the last character of t. */
  predicate OpensAtEnd(t: string)
    requires t != ""
  {
    var s := Scan(t[..|t| - 1]);
    !s.inBlock && EndsWith(s.buf + [t[|t| - 1]], OPEN)
  }

  lemma {:induction false} SuffixEnds(t: string, b: string, pat: string)
    requires |b| <= |t| && b == t[|t| - |b|..] && EndsWith(b, pat)
    ensures |pat| <= |t| && OccursAt(t, pat, |t| - |pat|)
  {
    assert b[|b| - |pat|..] == t[|t| - |pat|..] == t[|t| - |pat|..|t|];
  }

  lemma {:induction false} OpensAtEndIsEffective(t: string)
    requires t != "" && NoToolTags(t) && OpensAtEnd(t)
    ensures |t| >= |OPEN| && EffectiveOpen(t, |t| - |OPEN|)
  {
    hide Occurs, NoToolTags, Unclosed, Scan, EndsWith, OccursAt;
    var p, at := t[..|t| - 1], |t| - |OPEN|;
    var s := Scan(p);
    var b := s.buf + [t[|t| - 1]];
    NoToolTagsPrefix(t, |t| - 1);
    ScanIsSound(p);
    assert b == t[|t| - |b|..];
    SuffixEnds(t, b, OPEN);
    assert |s.buf| >= |OPEN| - 1 by { EndingLength(b, OPEN); }
    Backtrack(p, |OPEN| - 1);
    assert p[..|p| - (|OPEN| - 1)] == t[..at];
    NoToolTagsPrefix(t, at);
    StripAt(t[..at]);
  }

  lemma EndingLength(b: string, pat: string)
    requires EndsWith(b, pat)
    ensures |b| >= |pat|
  {}

  lemma {:induction false} OpenLetters(t: string, at: nat)
    requires |t| == at + |OPEN| && OccursAt(t, OPEN, at)
    ensures t[..|t| - 1] == t[..at] + OPEN[..|OPEN| - 1] && t[|t| - 1] == '>'
  {
    assert t[at..at + |OPEN|] == t[at..] && t == t[..at] + OPEN;
  }

  lemma {:induction false} OpenCompletes(b: string)
    ensures EndsWith(b + OPEN[..|OPEN| - 1] + ['>'], OPEN)
  {
    assert OPEN[..|OPEN| - 1] + ['>'] == OPEN;
    assert b + OPEN[..|OPEN| - 1] + ['>'] == b + OPEN;
  }

  lemma {:induction false} EffectiveOpensAtEnd(t: string)
    requires |t| >= |OPEN| && NoToolTags(t) && EffectiveOpen(t, |t| - |OPEN|)
    ensures OpensAtEnd(t)
  {
    hide NoToolTags, Unclosed, Scan, EndsWith, OccursAt;
    var at := |t| - |OPEN|;
    NoToolTagsPrefix(t, at);
    StripAt(t[..at]);
    CollectsOpening(t[..at], |OPEN| - 1);
    OpenLetters(t, at);
    OpenCompletes(Scan(t[..at]).buf);
  }

  lemma {:induction false} EffectiveStable(t: string, n: nat, i: nat)
    requires i + |OPEN| <= n <= |t|
    ensures EffectiveOpen(t, i) <==> EffectiveOpen(t[..n], i)
  {
    hide Unclosed;
    assert t[..n][i..i + |OPEN|] == t[i..i + |OPEN|];
    assert t[..n][..i] == t[..i];
  }

  // ---------- one token ----------

  /** While outside, the clean part ends with the buffer, or is the whole token so far if the buffer is longer. */
  ghost predicate CleanShape(t: string, from: nat, n: nat)
    requires from <= n <= |t|
  {
    var s, c := Scan(t[..n]), Clean(t, from, n);
    !s.inBlock ==>
      if |s.buf| >= n - from then c == t[from..n] else |s.buf| <= |c| && c[|c| - |s.buf|..] == s.buf
  }

  lemma {:induction false} CleanStep(t: string, from: nat, n: nat)
    requires from < n <= |t|
    ensures Clean(t, from, n) == Keep(Scan(t[..n - 1]), t[n - 1], Clean(t, from, n - 1))
    ensures t[..n] == t[..n - 1] + [t[n - 1]] && t[..n][..n - 1] == t[..n - 1] && t[..n][n - 1] == t[n - 1]
  {
    hide Keep, Scan;
  }

  lemma {:induction false} CleanHasShape(t: string, from: nat, n: nat)
    requires from <= n <= |t|
    ensures CleanShape(t, from, n)
    decreases n
  {
    hide Scan, Clean, Keep;
    if from == n {
      NothingYet(t, from);
    } else {
      CleanHasShape(t, from, n - 1);
      CleanStep(t, from, n);
      ScanStep(t[..n - 1], t[n - 1]);
      ShapeStep(t, from, n);
    }
  }

  lemma NothingYet(t: string, from: nat)
    requires from <= |t|
    ensures Clean(t, from, from) == "" && t[from..from] == ""
    ensures CleanShape(t, from, from)
  {
    hide Scan;
  }

  lemma {:induction false} ShapeStep(t: string, from: nat, n: nat)
    requires from < n <= |t| && CleanShape(t, from, n - 1)
    requires Scan(t[..n]) == Advance(Scan(t[..n - 1]), t[n - 1])
    requires Clean(t, from, n) == Keep(Scan(t[..n - 1]), t[n - 1], Clean(t, from, n - 1))
    ensures CleanShape(t, from, n)
  {
    hide Scan, Clean, Opened, Closes;
    var s, ch, c := Scan(t[..n - 1]), t[n - 1], Clean(t, from, n - 1);
    if !s.inBlock && Opened(s.buf + [ch]) == "" {
      assert t[from..n] == t[from..n - 1] + [ch];
    }
  }

  /** Some effective opening tag started before `from` and was completed by n. */
  ghost predicate Crosses(t: string, from: nat, n: nat) {
    exists i: nat :: EffectiveOpen(t, i) && i < from < i + |OPEN| <= n
  }

  /** What has been said so far equals the stripped text exactly when no tag has been split so far; a split
      leaves the tag's beginning behind, so it can only make what was said longer. */
  ghost predicate SaidExactly(said: string, text: string, split: bool) {
    && |said| >= |Think(text)|
    && (|said| == |Think(text)| <==> !split)
    && (!split ==> said == Think(text))
  }

  lemma CrossingTag(t: string, from: nat, n: nat) returns (i: nat)
    requires Crosses(t, from, n)
    ensures EffectiveOpen(t, i) && i < from < i + |OPEN| <= n
  {
    i :| EffectiveOpen(t, i) && i < from < i + |OPEN| <= n;
  }

  lemma TagCrosses(t: string, from: nat, n: nat, i: nat)
    requires EffectiveOpen(t, i) && i < from < i + |OPEN| <= n
    ensures Crosses(t, from, n)
  {}

  lemma {:induction false} CrossesLater(t: string, from: nat, n: nat)
    requires from < n <= |t| && NoToolTags(t)
    ensures Crosses(t, from, n) <==>
              Crosses(t, from, n - 1) || (OpensAtEnd(t[..n]) && n - |OPEN| < from)
  {
    hide NoToolTags, EffectiveOpen, OpensAtEnd, Crosses;
    NoToolTagsPrefix(t, n);
    if OpensAtEnd(t[..n]) && n - |OPEN| < from {
      OpensAtEndIsEffective(t[..n]);
      EffectiveStable(t, n, n - |OPEN|);
      TagCrosses(t, from, n, n - |OPEN|);
    }
    if Crosses(t, from, n - 1) {
      var i := CrossingTag(t, from, n - 1);
      TagCrosses(t, from, n, i);
    }
    if Crosses(t, from, n) {
      var i := CrossingTag(t, from, n);
      if i + |OPEN| == n {
        EffectiveStable(t, n, i);
        EffectiveOpensAtEnd(t[..n]);
      } else {
        TagCrosses(t, from, n - 1, i);
      }
    }
  }

  /** One character of the scan, with t as the text so far and ch the next character. */
  lemma {:induction false} BaseStep(t: string, ch: char)
    ensures var b := Scan(t).buf + [ch];
      Base(t + [ch]) == Base(t) + (if !Scan(t).inBlock && EndsWith(b, OPEN) then b[..|b| - |OPEN|] else "")
  {
    hide Advance, Scan, EndsWith;
    assert (t + [ch])[..|t|] == t;
    assert Base(t) + "" == Base(t);
  }

  /** How stripping the text so far changes with one more character. */
  lemma {:induction false} StripStep(t: string, ch: char)
    requires NoToolTags(t + [ch])
    ensures var s := Scan(t);
      if s.inBlock then Think(t + [ch]) == Think(t)
      else if !EndsWith(s.buf + [ch], OPEN) then Opened(s.buf + [ch]) == "" && Think(t + [ch]) == Think(t) + [ch]
      else
        && |s.buf| >= |OPEN| - 1 && |Think(t)| >= |OPEN| - 1 && Opened(s.buf + [ch]) == OPEN
        && Think(t + [ch]) == Think(t)[..|Think(t)| - (|OPEN| - 1)]
  {
    hide Occurs, NoToolTags, Outside, Unclosed, Scan, Base, EndsWith, Opened, Closes;
    var q := t + [ch];
    assert q[..|t|] == t;
    NoToolTagsPrefix(q, |t|);
    StripAt(t);
    StripAt(q);
    ScanStep(t, ch);
    BaseStep(t, ch);
    ScanIsSound(t);
    var s := Scan(t);
    var b := s.buf + [ch];
    assert b == q[|q| - |b|..];
    NoToolTagEnds(q, b);
    if s.inBlock {
      assert Base(t) + "" == Base(t);
    } else if !EndsWith(b, OPEN) {
      assert Base(t) + "" == Base(t);
      Associate(Base(t), s.buf, [ch]);
    } else {
      EndingLength(b, OPEN);
      assert (Base(t) + s.buf)[..|Base(t) + s.buf| - (|OPEN| - 1)] == Base(t) + b[..|b| - |OPEN|];
      assert Base(q) + "" == Base(q);
    }
  }

  /** One character that completes no opening tag: said and stripped text move together. */
  lemma {:induction false} PlainChar(t: string, from: nat, n: nat)
    requires from < n <= |t| && NoToolTags(t) && !OpensAtEnd(t[..n])
    ensures var more := if Scan(t[..n - 1]).inBlock then "" else [t[n - 1]];
      Think(t[..n]) == Think(t[..n - 1]) + more && Clean(t, from, n) == Clean(t, from, n - 1) + more
  {
    hide Think, NoToolTags, Scan, Clean, EndsWith, Opened;
    NoToolTagsPrefix(t, n);
    CleanStep(t, from, n);
    StripStep(t[..n - 1], t[n - 1]);
    var was := Think(t[..n - 1]);
    assert was + "" == was && Clean(t, from, n - 1) + "" == Clean(t, from, n - 1);
  }

  /** The last character of an opening tag: stripping takes back six characters, the token as many as it has. */
  lemma {:induction false} TagChar(t: string, from: nat, n: nat)
    requires from < n <= |t| && NoToolTags(t) && OpensAtEnd(t[..n])
    ensures var was, c := Think(t[..n - 1]), Clean(t, from, n - 1);
      && |was| >= |OPEN| - 1 && Think(t[..n]) == was[..|was| - (|OPEN| - 1)]
      && (if n - |OPEN| < from then Clean(t, from, n) == "" && |c| < |OPEN| - 1
          else |c| >= |OPEN| - 1 && Clean(t, from, n) == c[..|c| - (|OPEN| - 1)])
  {
    hide Think, NoToolTags, Scan, Clean, EndsWith, Opened;
    NoToolTagsPrefix(t, n);
    CleanStep(t, from, n);
    StripStep(t[..n - 1], t[n - 1]);
    CleanHasShape(t, from, n - 1);
  }

  /** One more character of a token, from what was said with the part of the token before it. */
  lemma {:induction false} SaidStep(t: string, from: nat, n: nat, said: string, split: bool)
    requires NoToolTags(t) && from < n <= |t|
    requires SaidExactly(said + Clean(t, from, n - 1), t[..n - 1], split)
    ensures SaidExactly(said + Clean(t, from, n), t[..n], split || (OpensAtEnd(t[..n]) && n - |OPEN| < from))
  {
    hide NoToolTags, Think, OpensAtEnd, Scan, Clean;
    var c := Clean(t, from, n - 1);
    if OpensAtEnd(t[..n]) {
      TagChar(t, from, n);
      if n - |OPEN| >= from {
        assert said + c[..|c| - (|OPEN| - 1)] == (said + c)[..|said + c| - (|OPEN| - 1)];
      } else {
        assert said + "" == said;
      }
    } else {
      PlainChar(t, from, n);
      Associate(said, c, if Scan(t[..n - 1]).inBlock then "" else [t[n - 1]]);
    }
  }

  lemma {:induction false} TokenStep(t: string, from: nat, n: nat, said: string, split: bool)
    requires NoToolTags(t) && from <= n <= |t| && SaidExactly(said, t[..from], split)
    ensures SaidExactly(said + Clean(t, from, n), t[..n], split || Crosses(t, from, n))
    decreases n
  {
    hide NoToolTags, SaidExactly, Crosses, OpensAtEnd, Keep, Scan;
    if n == from {
      assert said + "" == said;
      NoCrossing(t, from);
    } else {
      TokenStep(t, from, n - 1, said, split);
      CrossesLater(t, from, n);
      SaidStep(t, from, n, said, split || Crosses(t, from, n - 1));
    }
  }

  lemma NoCrossing(t: string, from: nat)
    ensures !Crosses(t, from, from)
  {}

  // ---------- all tokens ----------

  lemma {:induction false} ConcatGrows(tokens: seq<string>, k: nat)
    requires k <= |tokens|
    ensures |Concat(tokens[..k])| <= |Concat(tokens)|
    decreases |tokens|
  {
    if k == |tokens| {
      assert tokens[..k] == tokens;
    } else {
      var before := tokens[..|tokens| - 1];
      ConcatGrows(before, k);
      assert before[..k] == tokens[..k];
    }
  }

  lemma {:induction false} SplitsExtend(tokens: seq<string>)
    requires tokens != []
    ensures var before := tokens[..|tokens| - 1];
      SomeOpenSplit(tokens) <==>
        SomeOpenSplit(before) || Crosses(Concat(tokens), |Concat(before)|, |Concat(tokens)|)
  {
    hide EffectiveOpen, Crosses;
    var last := |tokens| - 1;
    var before := tokens[..last];
    var t, u := Concat(tokens), Concat(before);
    assert t[..|u|] == u;
    if SomeOpenSplit(before) {
      var i: nat, k: nat :| k <= |before| && EffectiveOpen(u, i) && i < |Concat(before[..k])| < i + |OPEN|;
      EffectiveFits(u, i);
      EffectiveStable(t, |u|, i);
      assert before[..k] == tokens[..k];
      assert SomeOpenSplit(tokens);
    }
    if Crosses(t, |u|, |t|) {
      var i := CrossingTag(t, |u|, |t|);
      assert tokens[..last] == before;
      assert SomeOpenSplit(tokens);
    }
    if SomeOpenSplit(tokens) {
      var i: nat, k: nat :| k <= |tokens| && EffectiveOpen(t, i) && i < |Concat(tokens[..k])| < i + |OPEN|;
      EffectiveFits(t, i);
      assert k <= last by { assert tokens[..|tokens|] == tokens; }
      assert tokens[..k] == before[..k];
      ConcatGrows(before, k);
      if i + |OPEN| <= |u| {
        EffectiveStable(t, |u|, i);
        assert SomeOpenSplit(before);
      } else {
        TagCrosses(t, |u|, |t|, i);
      }
    }
  }

  lemma EffectiveFits(t: string, i: nat)
    requires EffectiveOpen(t, i)
    ensures i + |OPEN| <= |t|
  {}

  lemma NoSplit()
    ensures !SomeOpenSplit([])
  {
    forall k: nat | k <= 0 ensures Concat([][..k]) == "" {}
  }

  lemma {:induction false} SpokenSoFar(tokens: seq<string>)
    requires NoToolTags(Concat(tokens))
    ensures SaidExactly(Spoken(tokens), Concat(tokens), SomeOpenSplit(tokens))
    decreases |tokens|
  {
    hide Occurs, NoToolTags, Outside, Unclosed, Crosses, EffectiveOpen;
    if tokens == [] {
      NothingOutside(OPEN, CLOSE);
      NoSplit();
    } else {
      var before := tokens[..|tokens| - 1];
      var t, u := Concat(tokens), Concat(before);
      assert t[..|u|] == u && t[..|t|] == t;
      NoToolTagsPrefix(t, |u|);
      SpokenSoFar(before);
      SplitsExtend(tokens);
      TokenStep(t, |u|, |t|, Spoken(before), SomeOpenSplit(before));
    }
  }

  /** For text without tool tags, the streamed filter agrees with stripping the whole text if and only if no
      opening tag that stripping acts on is cut by a token boundary. Closing tags may be cut anywhere. */
  lemma StreamedEqualsStripped(tokens: seq<string>)
    requires NoToolTags(Concat(tokens))
    ensures Spoken(tokens) == Think(Concat(tokens)) <==> !SomeOpenSplit(tokens)
  {
    SpokenSoFar(tokens);
  }
}
