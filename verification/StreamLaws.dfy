/** What the assembled completion means: stripping undoes wrapping, and calls are put together per index. */
module StreamLaws {
  import opened DialogueTypes
  import opened Text
  import opened ResponseFilter
  import opened StreamParser

  // ---------- wrapping and stripping ----------

  function ContentAfter(deltas: seq<Delta>): string {
    if deltas == [] then ""
    else
      var d := deltas[|deltas| - 1];
      WithContent(WithReasoning(ContentAfter(deltas[..|deltas| - 1]), d.reasoning), d.content)
  }

  function Value(field: Option<string>): string {
    if field.Some? then field.value else ""
  }

  /** The content fields alone, in order. */
  function Said(deltas: seq<Delta>): string {
    if deltas == [] then ""
    else
      var d := deltas[|deltas| - 1];
      Said(deltas[..|deltas| - 1]) + Value(d.content)
  }

  /** The fields received so far: the current run of one kind, reasoning or content, and the content before it. */
  datatype Stage = Stage(inThink: bool, base: string, run: string)

  const FIRST_STAGE := Stage(false, "", "")

  /** A field extends the run of its own kind and ends a run of the other kind. */
  function Extended(g: Stage, inThink: bool, field: Option<string>): Stage {
    if Value(field) == "" then g
    else if g.inThink == inThink then g.(run := g.run + Value(field))
    else Stage(inThink, Kept(g), Value(field))
  }

  function Kept(g: Stage): string {
    if g.inThink then g.base else g.base + g.run
  }

  function StageAfter(deltas: seq<Delta>): Stage {
    if deltas == [] then FIRST_STAGE
    else
      var d := deltas[|deltas| - 1];
      Extended(Extended(StageAfter(deltas[..|deltas| - 1]), true, d.reasoning), false, d.content)
  }

  /** The tag that begins a run, and the one that would end it. */
  function Mark(g: Stage): string {
    if g.inThink then OPEN else CLOSE
  }

  function Other(g: Stage): string {
    if g.inThink then CLOSE else OPEN
  }

  /** No tag that matters occurs in the run: a closing tag in reasoning, an opening tag in content. */
  ghost predicate Harmless(g: Stage) {
    !Occurs(g.run, Other(g))
  }

  /** Every run of adjacent reasoning fields is without a closing tag and every run of adjacent content fields
      without an opening tag, also one that is cut across fields. */
  ghost predicate HarmlessRuns(deltas: seq<Delta>)
    decreases |deltas|
  {
    deltas != [] ==>
      var before, d := deltas[..|deltas| - 1], deltas[|deltas| - 1];
      HarmlessRuns(before) && Harmless(Extended(StageAfter(before), true, d.reasoning)) && Harmless(StageAfter(deltas))
  }

  /** The runs are harmless and no tool block opens in the content. */
  ghost predicate TagFree(deltas: seq<Delta>) {
    HarmlessRuns(deltas) && !Occurs(Said(deltas), "<tool_call>") && !Occurs(Said(deltas), "<tool_result>")
  }

  /** The text before the run ends in the tag that began it, if there is any. */
  ghost predicate Marked(t: string, g: Stage) {
    exists n :: 0 <= n <= |t| && RunFrom(t, g, n)
  }

  predicate RunFrom(t: string, g: Stage, n: nat)
    requires n <= |t|
  {
    t[n..] == g.run && (if n == 0 then !g.inThink else EndsWith(t[..n], Mark(g)))
  }

  predicate Continues(t: string, g: Stage, x: string) {
    if g.inThink then
      Think(t + x) == g.base + Inside(g.run + x, OPEN, CLOSE)
        && Unclosed(t + x, OPEN, CLOSE) == UnclosedInside(g.run + x, OPEN, CLOSE)
    else
      Think(t + x) == g.base + Outside(g.run + x, OPEN, CLOSE)
        && Unclosed(t + x, OPEN, CLOSE) == Unclosed(g.run + x, OPEN, CLOSE)
  }

  /** However the text t goes on, stripping it keeps the content before the run and strips from the run on. */
  ghost predicate Assembled(t: string, g: Stage) {
    Marked(t, g) && Harmless(g) && forall x :: Continues(t, g, x)
  }

  lemma {:induction false} TagStart(t: string, tag: string, i: nat)
    requires tag != "" && OccursAt(t, tag, i)
    ensures i < |t| && t[i] == tag[0] && (|tag| > 1 ==> i + 1 < |t| && t[i + 1] == tag[1])
  {
    assert t[i..i + |tag|][0] == t[i];
    if |tag| > 1 { assert t[i..i + |tag|][1] == t[i + 1]; }
  }

  /** Both tags cannot occur at one place. */
  lemma {:induction false} OneTag(t: string, i: nat)
    ensures !(OccursAt(t, OPEN, i) && OccursAt(t, CLOSE, i))
  {
    if OccursAt(t, OPEN, i) && OccursAt(t, CLOSE, i) {
      TagStart(t, OPEN, i);
      TagStart(t, CLOSE, i);
    }
  }

  /** Neither tag begins in the middle of an occurrence of a tag. */
  lemma {:induction false} NoTagInTag(t: string, tag: string, at: nat, i: nat)
    requires (tag == OPEN || tag == CLOSE) && OccursAt(t, tag, at) && at < i < at + |tag|
    ensures !OccursAt(t, OPEN, i) && !OccursAt(t, CLOSE, i)
  {
    assert t[at..at + |tag|][i - at] == t[i];
    assert tag[i - at] != '<';
    if OccursAt(t, OPEN, i) { TagStart(t, OPEN, i); }
    if OccursAt(t, CLOSE, i) { TagStart(t, CLOSE, i); }
  }

  lemma {:induction false} InRun(t: string, n: nat, pat: string, i: nat)
    requires n <= i && i + |pat| <= |t| && OccursAt(t, pat, i)
    ensures Occurs(t[n..], pat)
  {
    OccursInside(t, pat, n, |t|, i - n);
    assert t[n..|t|] == t[n..];
    assert OccursAt(t[n..], pat, i - n);
  }

  lemma {:induction false} MarkFound(t: string, g: Stage, n: nat)
    requires 0 < n <= |t| && RunFrom(t, g, n)
    ensures n >= |Mark(g)| && OccursAt(t, Mark(g), n - |Mark(g)|)
  {
    var from := n - |Mark(g)|;
    assert t[from..n] == t[..n][from..];
  }

  /** From its mark on, a run has no tag of the other kind. */
  lemma {:induction false} NoOther(t: string, g: Stage, n: nat, k: nat)
    requires n <= |t| && RunFrom(t, g, n) && Harmless(g) && (n == 0 || n <= k + |Mark(g)|)
    ensures !OccursAt(t, Other(g), k)
  {
    hide OccursAt, Occurs;
    if n > 0 { MarkFound(t, g, n); }
    if OccursAt(t, Other(g), k) {
      OccursFits(t, Other(g), k);
      if k >= n { InRun(t, n, Other(g), k); }
      else if k == n - |Mark(g)| { OneTag(t, k); }
      else { NoTagInTag(t, Mark(g), n - |Mark(g)|, k); }
    }
  }

  /** The search for the last tags sees the kind of the run. */
  lemma {:induction false} MarkedMode(t: string, g: Stage)
    requires Marked(t, g) && Harmless(g)
    ensures InThink(t) == g.inThink
  {
    hide OccursAt, Harmless, RunFrom;
    var n :| 0 <= n <= |t| && RunFrom(t, g, n);
    assert n == 0 ==> !g.inThink by { FirstRun(t, g, n); }
    if n > 0 { MarkFound(t, g, n); }
    var last := RFind(t, Other(g));
    if last.Some? && (n == 0 || n <= last.value + |Mark(g)|) { NoOther(t, g, n, last.value); }
  }

  lemma FirstRun(t: string, g: Stage, n: nat)
    requires n <= |t| && RunFrom(t, g, n)
    ensures n == 0 ==> !g.inThink
  {}

  lemma MarkAt(t: string, tag: string, at: nat)
    requires at + |tag| <= |t| && t[at..at + |tag|] == tag
    ensures OccursAt(t, tag, at)
  {}

  lemma NeedOpenIsNotInThink(t: string)
    ensures NeedOpen(t) == !InThink(t)
  {
    var open, close := RFind(t, OPEN), RFind(t, CLOSE);
    if open.Some? && close.Some? { OneTag(t, open.value); }
  }

  /** A tag after text without that tag is the first one. */
  lemma {:induction false} FindAfterRun(c: string, tag: string, y: string)
    requires (tag == OPEN || tag == CLOSE) && !Occurs(c, tag)
    ensures Find(c + tag + y, tag, 0) == Some(|c|) && (c + tag + y)[..|c|] == c && (c + tag + y)[|c| + |tag|..] == y
  {
    hide OccursAt, Find;
    var t := c + tag + y;
    assert t[|c|..|c| + |tag|] == tag && t == c + (tag + y);
    MarkAt(t, tag, |c|);
    forall k | 0 <= k < |c| ensures !OccursAt(t, tag, k) {
      if k + |tag| <= |c| {
        Extend(c, tag + y, tag, k);
      } else if OccursAt(t, tag, k) {
        NoTagInTag(t, tag, k, |c|);
      }
    }
    FindIs(t, tag, 0, |c|);
  }

  /** The tag that ends a run. */
  lemma {:induction false} RunEnds(g: Stage, y: string)
    requires Harmless(g)
    ensures g.inThink ==>
      && Inside(g.run + CLOSE + y, OPEN, CLOSE) == Outside(y, OPEN, CLOSE)
      && UnclosedInside(g.run + CLOSE + y, OPEN, CLOSE) == Unclosed(y, OPEN, CLOSE)
    ensures !g.inThink ==>
      && Outside(g.run + OPEN + y, OPEN, CLOSE) == g.run + Inside(y, OPEN, CLOSE)
      && Unclosed(g.run + OPEN + y, OPEN, CLOSE) == UnclosedInside(y, OPEN, CLOSE)
  {
    hide Find, OccursAt, Occurs;
    FindAfterRun(g.run, Other(g), y);
  }

  /** A text without an opening tag is kept, and one without a closing tag leaves a block open. */
  lemma {:induction false} NothingToStrip(s: string, open: string, close: string)
    requires open != "" && close != ""
    ensures !Occurs(s, open) ==> Outside(s, open, close) == s && !Unclosed(s, open, close)
    ensures !Occurs(s, close) ==> Inside(s, open, close) == "" && UnclosedInside(s, open, close)
  {
    hide OccursAt, Outside, Inside;
    var a, b := Find(s, open, 0), Find(s, close, 0);
    if a.Some? { OccursFits(s, open, a.value); assert Occurs(s, open); }
    if b.Some? { OccursFits(s, close, b.value); assert Occurs(s, close); }
    Unfold(s, open, close);
  }

  lemma {:induction false} MoreMarks(t: string, g: Stage, c: string)
    requires Marked(t, g)
    ensures Marked(t + c, g.(run := g.run + c))
  {
    hide EndsWith;
    var n :| 0 <= n <= |t| && RunFrom(t, g, n);
    assert (t + c)[n..] == t[n..] + c && (t + c)[..n] == t[..n];
    assert RunFrom(t + c, g.(run := g.run + c), n);
  }

  lemma {:induction false} MoreContinues(t: string, g: Stage, c: string, x: string)
    requires Continues(t, g, c + x)
    ensures Continues(t + c, g.(run := g.run + c), x)
  {
    hide Outside, Inside, Unclosed, UnclosedInside, Think;
    Associate(t, c, x);
    Associate(g.run, c, x);
  }

  /** More of the same kind. */
  lemma {:induction false} AssembleMore(t: string, g: Stage, c: string)
    requires Assembled(t, g)
    ensures Marked(t + c, g.(run := g.run + c)) && forall x :: Continues(t + c, g.(run := g.run + c), x)
  {
    hide Continues, Marked, Harmless;
    var u, h := t + c, g.(run := g.run + c);
    MoreMarks(t, g, c);
    forall x ensures Continues(u, h, x) {
      assert Continues(t, g, c + x);
      MoreContinues(t, g, c, x);
    }
  }

  lemma {:induction false} TagMarks(t: string, g: Stage)
    ensures Marked(t + Other(g), Stage(!g.inThink, Kept(g), ""))
  {
    var tag, h := Other(g), Stage(!g.inThink, Kept(g), "");
    assert (t + tag)[|t + tag|..] == "" && (t + tag)[..|t + tag|] == t + tag && (t + tag)[|t|..] == tag;
    assert RunFrom(t + tag, h, |t + tag|);
  }

  lemma {:induction false} TagContinues(t: string, g: Stage, x: string)
    requires Harmless(g) && Continues(t, g, Other(g) + x)
    ensures Continues(t + Other(g), Stage(!g.inThink, Kept(g), ""), x)
  {
    hide Outside, Inside, Unclosed, UnclosedInside, Harmless;
    Associate(t, Other(g), x);
    Associate(g.run, Other(g), x);
    RunEnds(g, x);
    assert "" + x == x;
    if !g.inThink { Associate(g.base, g.run, Inside(x, OPEN, CLOSE)); }
  }

  /** The tag that changes the kind starts an empty run. */
  lemma {:induction false} AssembleTag(t: string, g: Stage)
    requires Assembled(t, g)
    ensures Assembled(t + Other(g), Stage(!g.inThink, Kept(g), ""))
  {
    hide Continues, Marked, Occurs;
    var u, h := t + Other(g), Stage(!g.inThink, Kept(g), "");
    TagMarks(t, g);
    forall x ensures Continues(u, h, x) {
      assert Continues(t, g, Other(g) + x);
      TagContinues(t, g, x);
    }
    NotInEmpty(OPEN);
    NotInEmpty(CLOSE);
  }

  lemma NotInEmpty(tag: string)
    requires tag != ""
    ensures !Occurs("", tag)
  {}

  lemma {:induction false} AssembleEmpty()
    ensures Assembled("", FIRST_STAGE)
  {
    hide Outside, Inside, Unclosed, UnclosedInside, OccursAt;
    assert RunFrom("", FIRST_STAGE, 0);
    NotInEmpty(OPEN);
    forall x ensures Continues("", FIRST_STAGE, x) {
      assert "" + x == x && "" + Outside(x, OPEN, CLOSE) == Outside(x, OPEN, CLOSE);
    }
  }

  /** A field of either kind, with the tag before it if the kind changes. */
  lemma {:induction false} AssembleField(t: string, g: Stage, inThink: bool, field: Option<string>)
    requires Assembled(t, g) && Harmless(Extended(g, inThink, field))
    ensures Assembled(if inThink then WithReasoning(t, field) else WithContent(t, field), Extended(g, inThink, field))
  {
    hide InThink, NeedOpen, Marked, Harmless, Continues;
    MarkedMode(t, g);
    NeedOpenIsNotInThink(t);
    var c := Value(field);
    if c != "" {
      NothingInThink();
      if g.inThink == inThink {
        assert t + "" == t;
        AssembleMore(t, g, c);
      } else {
        AssembleTag(t, g);
        AssembleMore(t + Other(g), Stage(inThink, Kept(g), ""), c);
        assert "" + c == c;
      }
    }
  }

  lemma NothingInThink()
    ensures !InThink("")
  {}

  lemma {:induction false} AssembleAll(deltas: seq<Delta>)
    requires HarmlessRuns(deltas)
    ensures Assembled(ContentAfter(deltas), StageAfter(deltas)) && Kept(StageAfter(deltas)) == Said(deltas)
    decreases |deltas|
  {
    hide Assembled, WithContent, WithReasoning, Harmless;
    if deltas == [] {
      AssembleEmpty();
    } else {
      var before, d := deltas[..|deltas| - 1], deltas[|deltas| - 1];
      AssembleAll(before);
      var t, g := ContentAfter(before), StageAfter(before);
      AssembleField(t, g, true, d.reasoning);
      AssembleField(WithReasoning(t, d.reasoning), Extended(g, true, d.reasoning), false, d.content);
      KeptGrows(g, true, d.reasoning);
      KeptGrows(Extended(g, true, d.reasoning), false, d.content);
    }
  }

  lemma KeptGrows(g: Stage, inThink: bool, field: Option<string>)
    ensures Kept(Extended(g, inThink, field)) == if inThink then Kept(g) else Kept(g) + Value(field)
  {}

  lemma {:induction false} ThinkAssembled(t: string, g: Stage)
    requires Assembled(t, g)
    ensures Think(t) == Kept(g) && Unclosed(t, OPEN, CLOSE) == g.inThink
  {
    hide Outside, Inside, Unclosed, UnclosedInside, Occurs;
    assert Continues(t, g, "");
    assert t + "" == t && g.run + "" == g.run && g.base + "" == g.base;
    NothingToStrip(g.run, OPEN, CLOSE);
  }

  lemma {:induction false} AssembleClosed(t: string, g: Stage)
    requires Assembled(t, g)
    ensures Think(Closed(t)) == Kept(g) && !Unclosed(Closed(t), OPEN, CLOSE)
  {
    hide InThink, Assembled;
    assert Marked(t, g) && Harmless(g) by { MarkOf(t, g); }
    MarkedMode(t, g);
    NothingInThink();
    if g.inThink {
      AssembleTag(t, g);
      ThinkAssembled(t + CLOSE, Stage(false, Kept(g), ""));
      assert Kept(g) + "" == Kept(g);
    } else {
      ThinkAssembled(t, g);
    }
  }

  lemma MarkOf(t: string, g: Stage)
    requires Assembled(t, g)
    ensures Marked(t, g) && Harmless(g)
  {}

  /** Whatever the mix of reasoning and content deltas, as long as no tag comes about inside a run, filtering the
      accumulated text gives back exactly the content deltas: at any moment, and after the end has closed the
      last block. */
  lemma StripUndoesWrap(deltas: seq<Delta>)
    requires TagFree(deltas)
    ensures Filtered(ContentAfter(deltas)) == Said(deltas)
    ensures Filtered(Closed(ContentAfter(deltas))) == Said(deltas)
    ensures !Unclosed(Closed(ContentAfter(deltas)), OPEN, CLOSE)
  {
    hide Assembled, ContentAfter, Said, Think, Unclosed, Closed, Outside, Occurs, StageAfter, Kept, HarmlessRuns;
    var said := Said(deltas);
    AssembleAll(deltas);
    ThinkAssembled(ContentAfter(deltas), StageAfter(deltas));
    AssembleClosed(ContentAfter(deltas), StageAfter(deltas));
    NothingToStrip(said, "<tool_call>", "</tool_call>");
    NothingToStrip(said, "<tool_result>", "</tool_result>");
  }

  predicate FreeField(field: Option<string>) {
    '<' !in Value(field)
  }

  lemma FreeText(s: string, tag: string)
    requires '<' !in s && tag != "" && tag[0] == '<'
    ensures !Occurs(s, tag)
  {
    forall i: nat | OccursAt(s, tag, i) ensures false { TagStart(s, tag, i); }
  }

  /** In particular, fields without any '<' are fine. */
  lemma {:induction false} PlainIsTagFree(deltas: seq<Delta>)
    requires forall d :: d in deltas ==> FreeField(d.reasoning) && FreeField(d.content)
    ensures TagFree(deltas) && '<' !in StageAfter(deltas).run && '<' !in Said(deltas)
    decreases |deltas|
  {
    hide Occurs, OccursAt;
    if deltas != [] {
      var before, d := deltas[..|deltas| - 1], deltas[|deltas| - 1];
      assert forall x :: x in before ==> x in deltas;
      PlainIsTagFree(before);
      var g := Extended(StageAfter(before), true, d.reasoning);
      FreeText(g.run, OPEN);
      FreeText(g.run, CLOSE);
      FreeText(StageAfter(deltas).run, OPEN);
      FreeText(StageAfter(deltas).run, CLOSE);
    } else {
      assert HarmlessRuns(deltas);
    }
    FreeText(Said(deltas), "<tool_call>");
    FreeText(Said(deltas), "<tool_result>");
  }

  /** Stripping never makes a text longer. */
  lemma {:induction false} StripShortens(t: string, open: string, close: string)
    requires open != "" && close != ""
    ensures |Outside(t, open, close)| <= |t| && |Inside(t, open, close)| <= |t|
    decreases |t|
  {
    hide OccursAt;
    Unfold(t, open, close);
    var a, b := Find(t, open, 0), Find(t, close, 0);
    if a.Some? {
      OccursFits(t, open, a.value);
      StripShortens(t[a.value + |open|..], open, close);
    }
    if b.Some? {
      OccursFits(t, close, b.value);
      StripShortens(t[b.value + |close|..], open, close);
    }
  }

  /** An opening tag that comes about inside a run of content always loses some of the content. */
  lemma {:induction false} OpeningTagLosesContent(deltas: seq<Delta>, d: Delta)
    requires HarmlessRuns(deltas) && Value(d.content) != ""
    requires Harmless(Extended(StageAfter(deltas), true, d.reasoning)) && !Harmless(StageAfter(deltas + [d]))
    ensures |Filtered(ContentAfter(deltas + [d]))| < |Said(deltas + [d])|
  {
    hide Assembled, WithReasoning, Harmless;
    assert (deltas + [d])[..|deltas|] == deltas;
    var t, g := WithReasoning(ContentAfter(deltas), d.reasoning), Extended(StageAfter(deltas), true, d.reasoning);
    AssembleAll(deltas);
    AssembleField(ContentAfter(deltas), StageAfter(deltas), true, d.reasoning);
    KeptGrows(StageAfter(deltas), true, d.reasoning);
    KeptGrows(g, false, d.content);
    OpenedInRun(t, g, d.content);
  }

  lemma {:induction false} OpenedInRun(t: string, g: Stage, content: Option<string>)
    requires Assembled(t, g) && Value(content) != "" && !Harmless(Extended(g, false, content))
    ensures |Filtered(WithContent(t, content))| < |Kept(Extended(g, false, content))|
  {
    hide InThink, Assembled, Outside, Harmless, Occurs;
    MarkOf(t, g);
    MarkedMode(t, g);
    NothingInThink();
    var h := Extended(g, false, content);
    if g.inThink { AssembleTag(t, g); }
    assert "" + Value(content) == Value(content);
    Began(Closed(t), if g.inThink then Stage(false, Kept(g), "") else g, Value(content));
    OpenIsCut(h);
    var kept := h.base + Outside(h.run, OPEN, CLOSE);
    assert Think(WithContent(t, content)) == kept;
    StripShortens(kept, "<tool_call>", "</tool_call>");
    StripShortens(Outside(kept, "<tool_call>", "</tool_call>"), "<tool_result>", "</tool_result>");
  }

  lemma {:induction false} Began(t: string, g: Stage, c: string)
    requires Assembled(t, g) && !g.inThink
    ensures Think(t + c) == g.base + Outside(g.run + c, OPEN, CLOSE)
  {
    hide Outside, Inside, Unclosed, UnclosedInside, Harmless, Marked;
    assert Continues(t, g, c);
  }

  lemma {:induction false} OpenIsCut(h: Stage)
    requires !h.inThink && !Harmless(h)
    ensures |Outside(h.run, OPEN, CLOSE)| < |h.run|
  {
    hide OccursAt;
    Unfold(h.run, OPEN, CLOSE);
    var a := Find(h.run, OPEN, 0);
    OccursFits(h.run, OPEN, a.value);
    StripShortens(h.run[a.value + |OPEN|..], OPEN, CLOSE);
  }

  /** What comes out of a run of reasoning that holds a closing tag: the text after the first one, stripped. */
  function Leak(run: string): string {
    var at := Find(run, CLOSE, 0);
    if at == None then "" else Outside(run[at.value + |CLOSE|..], OPEN, CLOSE)
  }

  /** A closing tag that comes about inside a run of reasoning lets exactly the leak through, so the think blocks
      are still undone if and only if nothing but further blocks follows the tag. */
  lemma {:induction false} ClosingTagLeaks(deltas: seq<Delta>, d: Delta)
    requires HarmlessRuns(deltas) && Value(d.content) == ""
    requires StageAfter(deltas + [d]).inThink && !Harmless(StageAfter(deltas + [d])) && Value(d.reasoning) != ""
    ensures var t, said, leak := ContentAfter(deltas + [d]), Said(deltas + [d]), Leak(StageAfter(deltas + [d]).run);
      && Think(t) == said + leak
      && (Think(t) == said <==> leak == "")
      && (!Occurs(said + leak, "<tool_call>") && !Occurs(said + leak, "<tool_result>") ==> Filtered(t) == said + leak)
  {
    hide Assembled, WithReasoning, Harmless, Occurs, Outside, Leak, Kept, Think;
    assert (deltas + [d])[..|deltas|] == deltas;
    var t, g := ContentAfter(deltas), StageAfter(deltas);
    AssembleAll(deltas);
    KeptGrows(g, true, d.reasoning);
    ClosedInRun(t, g, d.reasoning);
    var said, leak := Said(deltas), Leak(Extended(g, true, d.reasoning).run);
    assert said + "" == said;
    NothingToStrip(said + leak, "<tool_call>", "</tool_call>");
    NothingToStrip(said + leak, "<tool_result>", "</tool_result>");
  }

  lemma {:induction false} ClosedInRun(t: string, g: Stage, reasoning: Option<string>)
    requires Assembled(t, g) && Value(reasoning) != "" && !Harmless(Extended(g, true, reasoning))
    ensures var h := Extended(g, true, reasoning);
      Think(WithReasoning(t, reasoning)) == Kept(g) + Leak(h.run)
  {
    hide InThink, NeedOpen, Assembled, Harmless, Outside, Inside, Think, Leak;
    MarkOf(t, g);
    MarkedMode(t, g);
    NeedOpenIsNotInThink(t);
    var c := Value(reasoning);
    assert "" + c == c && t + "" == t;
    if g.inThink {
      BeganInside(t, g, c);
    } else {
      AssembleTag(t, g);
      BeganInside(t + OPEN, Stage(true, Kept(g), ""), c);
    }
    CloseIsFirst(Extended(g, true, reasoning));
  }

  lemma {:induction false} BeganInside(t: string, g: Stage, c: string)
    requires Assembled(t, g) && g.inThink
    ensures Think(t + c) == g.base + Inside(g.run + c, OPEN, CLOSE)
  {
    hide Outside, Inside, Unclosed, UnclosedInside, Harmless, Marked;
    assert Continues(t, g, c);
  }

  lemma {:induction false} CloseIsFirst(h: Stage)
    requires h.inThink && !Harmless(h)
    ensures Inside(h.run, OPEN, CLOSE) == Leak(h.run)
  {
    hide OccursAt, Outside, Inside;
    Unfold(h.run, OPEN, CLOSE);
  }

  /** A closing tag inside a reasoning delta ends the block early, and the rest of the reasoning is kept. */
  lemma TagsInDeltasLeak()
    ensures var deltas := [Delta(Some("</think>x"), None, [])];
      Said(deltas) == "" && Filtered(ContentAfter(deltas)) != ""
  {
    hide Find, Outside, Inside, RFindBelow, Occurs, OccursAt;
    var deltas := [Delta(Some("</think>x"), None, [])];
    assert deltas[..0] == [] && ContentAfter([]) == "" && Said([]) == "";
    NothingInThink();
    NeedOpenIsNotInThink("");
    assert ContentAfter(deltas) == "" + OPEN + (CLOSE + "x");
    NotInEmpty(OPEN);
    NotInEmpty(CLOSE);
    RunEnds(FIRST_STAGE, CLOSE + "x");
    RunEnds(Stage(true, "", ""), "x");
    assert "" + CLOSE + "x" == CLOSE + "x" && "" + OPEN + (CLOSE + "x") == OPEN + (CLOSE + "x");
    assert "" + Inside(CLOSE + "x", OPEN, CLOSE) == Inside(CLOSE + "x", OPEN, CLOSE);
    FreeText("x", OPEN);
    FreeText("x", "<tool_call>");
    FreeText("x", "<tool_result>");
    NothingToStrip("x", OPEN, CLOSE);
    NothingToStrip("x", "<tool_call>", "</tool_call>");
    NothingToStrip("x", "<tool_result>", "</tool_result>");
  }

  // ---------- tool calls ----------

  /** The fragments of one index, in order. */
  function Only(calls: seq<CallDelta>, j: nat): seq<Slot> {
    if calls == [] then []
    else
      var c := calls[|calls| - 1];
      Only(calls[..|calls| - 1], j) + if IndexOf(c) == j then [c.part] else []
  }

  /** The last of the values that are present. */
  function Last(parts: seq<Option<string>>): Option<string> {
    if parts == [] then None
    else if parts[|parts| - 1].Some? then parts[|parts| - 1]
    else Last(parts[..|parts| - 1])
  }

  /** The concatenation of the values that are present; absent if none is. */
  function Concatenated(parts: seq<Option<string>>): Option<string> {
    if parts == [] then None
    else
      var before, last := Concatenated(parts[..|parts| - 1]), parts[|parts| - 1];
      if last == None then before else if before == None then last else Some(before.value + last.value)
  }

  function Ids(parts: seq<Slot>): seq<Option<string>> {
    seq(|parts|, i requires 0 <= i < |parts| => parts[i].id)
  }

  function Kinds(parts: seq<Slot>): seq<Option<string>> {
    seq(|parts|, i requires 0 <= i < |parts| => parts[i].kind)
  }

  function Names(parts: seq<Slot>): seq<Option<string>> {
    seq(|parts|, i requires 0 <= i < |parts| => if parts[i].fn.Some? then parts[i].fn.value.name else None)
  }

  function Arguments(parts: seq<Slot>): seq<Option<string>> {
    seq(|parts|, i requires 0 <= i < |parts| => if parts[i].fn.Some? then parts[i].fn.value.arguments else None)
  }

  /** What the fragments of one call amount to: the last id and type, and the name and arguments concatenated. */
  ghost predicate MadeOf(s: Slot, parts: seq<Slot>) {
    && s.id == Last(Ids(parts)) && s.kind == Last(Kinds(parts))
    && (s.fn.Some? <==> exists p :: p in parts && p.fn.Some?)
    && (s.fn.Some? ==>
          && s.fn.value.name == Concatenated(Names(parts))
          && s.fn.value.arguments == Concatenated(Arguments(parts)))
  }

  lemma {:induction false} MadeOfMore(s: Slot, parts: seq<Slot>, p: Slot)
    requires MadeOf(s, parts)
    ensures MadeOf(MergeSlot(s, p), parts + [p])
  {
    var more := parts + [p];
    hide Concatenated;
    ConcatenatedMore(Names(parts), if p.fn.Some? then p.fn.value.name else None);
    ConcatenatedMore(Arguments(parts), if p.fn.Some? then p.fn.value.arguments else None);
    assert Names(more) == Names(parts) + [if p.fn.Some? then p.fn.value.name else None];
    assert Arguments(more) == Arguments(parts) + [if p.fn.Some? then p.fn.value.arguments else None];
    assert Ids(more)[..|parts|] == Ids(parts) && Kinds(more)[..|parts|] == Kinds(parts);
    assert forall q :: q in more <==> q in parts || q == p;
    if s.fn.None? {
      NoneToJoin(Names(parts));
      NoneToJoin(Arguments(parts));
    }
  }

  lemma {:induction false} ConcatenatedMore(parts: seq<Option<string>>, last: Option<string>)
    ensures Concatenated(parts + [last]) == Joined(Concatenated(parts), last)
  {
    assert (parts + [last])[..|parts|] == parts;
    if last.Some? { assert "" + last.value == last.value; }
  }

  lemma {:induction false} NoneToJoin(parts: seq<Option<string>>)
    requires forall i :: 0 <= i < |parts| ==> parts[i] == None
    ensures Concatenated(parts) == None
  {
    if parts != [] { NoneToJoin(parts[..|parts| - 1]); }
  }

  /** However the fragments of different calls interleave, each call is made of its own fragments. */
  lemma {:induction false} OwnFragments(calls: seq<CallDelta>, j: nat)
    ensures var slots := AbsorbCalls([], calls);
      if j < |slots| then MadeOf(slots[j], Only(calls, j)) else Only(calls, j) == []
    decreases |calls|
  {
    hide MergeSlot, MadeOf;
    NoFragments();
    if calls != [] {
      var before, c := calls[..|calls| - 1], calls[|calls| - 1];
      var was := AbsorbCalls([], before);
      OwnFragments(before, j);
      var s := if j < |was| then was[j] else EMPTY_SLOT;
      MadeOfMore(s, Only(before, j), c.part);
      assert Only(before, j) + [] == Only(before, j);
    }
  }

  lemma NoFragments()
    ensures MadeOf(EMPTY_SLOT, [])
  {}

  /** There are exactly as many calls as the highest index asks for. */
  lemma {:induction false} SlotCount(calls: seq<CallDelta>)
    ensures var n := |AbsorbCalls([], calls)|;
      (n > 0 ==> Only(calls, n - 1) != []) && forall j: nat :: n <= j ==> Only(calls, j) == []
    decreases |calls|
  {
    hide MergeSlot;
    var n := |AbsorbCalls([], calls)|;
    forall j: nat | n <= j ensures Only(calls, j) == [] { OwnFragments(calls, j); }
    if calls != [] { SlotCount(calls[..|calls| - 1]); }
  }

  lemma {:induction false} MadeOfUnique(a: Slot, b: Slot, parts: seq<Slot>)
    requires MadeOf(a, parts) && MadeOf(b, parts)
    ensures a == b
  {
    hide Last, Concatenated;
  }

  /** Two streams that agree on every call's own fragments assemble the same calls. */
  lemma {:induction false} InterleavingIrrelevant(a: seq<CallDelta>, b: seq<CallDelta>)
    requires forall j: nat :: Only(a, j) == Only(b, j)
    ensures AbsorbCalls([], a) == AbsorbCalls([], b)
  {
    hide AbsorbCall, MadeOf, Only;
    var s, t := AbsorbCalls([], a), AbsorbCalls([], b);
    SlotCount(a);
    SlotCount(b);
    assert |s| > 0 ==> Only(a, |s| - 1) == Only(b, |s| - 1);
    assert |t| > 0 ==> Only(a, |t| - 1) == Only(b, |t| - 1);
    forall j | 0 <= j < |s| ensures s[j] == t[j] {
      OwnFragments(a, j);
      OwnFragments(b, j);
      MadeOfUnique(s[j], t[j], Only(a, j));
    }
  }

  /** A fragment that carries anything beyond its index. */
  predicate Carries(p: Slot) {
    p != EMPTY_SLOT
  }

  lemma {:induction false} LastPresent(parts: seq<Option<string>>)
    ensures Last(parts).Some? <==> exists i :: 0 <= i < |parts| && parts[i].Some?
  {
    if parts != [] {
      var before := parts[..|parts| - 1];
      LastPresent(before);
      if Last(before).Some? {
        var i :| 0 <= i < |before| && before[i].Some?;
        assert parts[i].Some?;
      }
      if exists i :: 0 <= i < |parts| && parts[i].Some? {
        var i :| 0 <= i < |parts| && parts[i].Some?;
        assert i == |parts| - 1 || before[i].Some?;
      }
    }
  }

  /** A completion ends in tool calls if and only if some fragment of index 0 carries something; fragments of
      other indices alone are dropped. */
  lemma {:induction false} CallsNeedIndexZero(acc: Acc, calls: seq<CallDelta>)
    requires acc.slots == AbsorbCalls([], calls)
    ensures Built(acc).candidate.kind == ToolCallKind <==> exists p :: p in Only(calls, 0) && Carries(p)
  {
    hide Last, Concatenated, AbsorbCalls, Only, CallsOf;
    OwnFragments(calls, 0);
    var parts := Only(calls, 0);
    LastPresent(Ids(parts));
    LastPresent(Kinds(parts));
    if acc.slots != [] {
      var s := acc.slots[0];
      if s.id.Some? {
        var i :| 0 <= i < |parts| && Ids(parts)[i].Some?;
        assert Carries(parts[i]);
      }
      if s.kind.Some? {
        var i :| 0 <= i < |parts| && Kinds(parts)[i].Some?;
        assert Carries(parts[i]);
      }
      if exists p :: p in parts && Carries(p) {
        var i :| 0 <= i < |parts| && Carries(parts[i]);
        assert Ids(parts)[i] == parts[i].id && Kinds(parts)[i] == parts[i].kind;
      }
    }
  }
}
