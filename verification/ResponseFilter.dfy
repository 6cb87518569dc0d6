/** Removing tagged blocks from a complete response. */
module ResponseFilter {
  import opened DialogueTypes
  import opened Text

  const OPEN := "<think>"
  const CLOSE := "</think>"

  /** A closing tag can begin nowhere inside the opening tag. */
  predicate TagPair(open: string, close: string) {
    |open| >= 2 && |close| >= 2 && close[0] == '<' && open[1] != close[1] && '<' !in open[1..]
  }

  /** Text outside any block: kept up to the next opening tag. */
  function Outside(t: string, open: string, close: string): string
    requires open != "" && close != ""
    decreases |t|, 1
  {
    var at := Find(t, open, 0);
    if at == None then t else t[..at.value] + Inside(t[at.value + |open|..], open, close)
  }

  /** Text inside a block: dropped up to and including the next closing tag, or to the end. */
  function Inside(t: string, open: string, close: string): string
    requires open != "" && close != ""
    decreases |t|, 0
  {
    var end := Find(t, close, 0);
    if end == None then "" else Outside(t[end.value + |close|..], open, close)
  }

  /** The text ends inside a block. */
  predicate Unclosed(t: string, open: string, close: string)
    requires open != "" && close != ""
    decreases |t|, 1
  {
    var at := Find(t, open, 0);
    at.Some? && UnclosedInside(t[at.value + |open|..], open, close)
  }

  predicate UnclosedInside(t: string, open: string, close: string)
    requires open != "" && close != ""
    decreases |t|, 0
  {
    var end := Find(t, close, 0);
    end.None? || Unclosed(t[end.value + |close|..], open, close)
  }

  /** The search for the closing tag may as well start after the opening tag. */
  lemma {:induction false} CloseSkipsOpen(t: string, open: string, close: string, at: nat)
    requires TagPair(open, close) && OccursAt(t, open, at)
    ensures Find(t, close, at) == Find(t, close, at + |open|)
  {
    forall i | at <= i < at + |open| ensures !OccursAt(t, close, i) {
      if i == at {
        assert t[at..at + |open|][1] == t[at + 1];
        Mismatch(t, close, at, 1);
      } else {
        assert t[at..at + |open|][i - at] == t[i] && open[i - at] == open[1..][i - at - 1];
        Mismatch(t, close, i, 0);
      }
    }
    var a := Find(t, close, at);
    if a.Some? { FindIs(t, close, at + |open|, a.value); }
  }

  lemma {:induction false} Unfold(t: string, open: string, close: string)
    requires open != "" && close != ""
    ensures var at := Find(t, open, 0);
      Outside(t, open, close) == if at == None then t else t[..at.value] + Inside(t[at.value + |open|..], open, close)
    ensures var end := Find(t, close, 0);
      Inside(t, open, close) == if end == None then "" else Outside(t[end.value + |close|..], open, close)
  {
    hide Find, OccursAt;
  }

  lemma NothingOutside(open: string, close: string)
    requires open != "" && close != ""
    ensures Outside("", open, close) == ""
  {}

  /** What Inside does with the text after an opening tag found at `at`. */
  lemma {:induction false} InsideFrom(text: string, open: string, close: string, at: nat)
    requires TagPair(open, close) && OccursAt(text, open, at)
    ensures var end := Find(text, close, at);
      Inside(text[at + |open|..], open, close) ==
        if end == None then "" else Outside(text[end.value + |close|..], open, close)
  {
    hide Find, Outside, Inside;
    var body := at + |open|;
    Unfold(text[body..], open, close);
    CloseSkipsOpen(text, open, close, at);
    FindShift(text, close, body);
    var end := Find(text, close, at);
    if end.Some? { DropDrop(text, body, end.value - body + |close|); }
  }

  /** What Outside does with the text from pos on. */
  lemma {:induction false} OutsideFrom(text: string, open: string, close: string, pos: nat)
    requires TagPair(open, close) && pos <= |text|
    ensures var at := Find(text, open, pos);
      Outside(text[pos..], open, close) ==
        if at == None then text[pos..] else text[pos..at.value] + Inside(text[at.value + |open|..], open, close)
  {
    hide Find, Outside, Inside;
    Unfold(text[pos..], open, close);
    FindShift(text, open, pos);
    var at := Find(text, open, pos);
    if at.Some? {
      assert text[pos..][..at.value - pos] == text[pos..at.value];
      DropDrop(text, pos, at.value - pos + |open|);
    }
  }

  /** One round of the loop. */
  lemma {:induction false} Round(text: string, open: string, close: string, pos: nat, kept: string)
    requires TagPair(open, close) && pos <= |text|
    ensures var at := Find(text, open, pos);
      kept + Outside(text[pos..], open, close) ==
        if at == None then kept + text[pos..]
        else
          var end := Find(text, close, at.value);
          var more := kept + text[pos..at.value];
          if end == None then more else more + Outside(text[end.value + |close|..], open, close)
  {
    hide Outside, Inside, Find;
    OutsideFrom(text, open, close, pos);
    var at := Find(text, open, pos);
    if at.Some? {
      InsideFrom(text, open, close, at.value);
      Associate(kept, text[pos..at.value], Inside(text[at.value + |open|..], open, close));
    }
  }

  /** The scan-and-copy loop computes exactly the two-mode description. */
  method StripTag(text: string, open: string, close: string) returns (result: string)
    requires TagPair(open, close)
    ensures result == Outside(text, open, close)
  {
    hide Outside, Inside, Find, OccursAt;
    result := "";
    var pos := 0;
    assert text[0..] == text && "" + Outside(text, open, close) == Outside(text, open, close);
    while pos < |text|
      invariant pos <= |text|
      invariant result + Outside(text[pos..], open, close) == Outside(text, open, close)
      decreases |text| - pos
    {
      Round(text, open, close, pos, result);
      var at := Find(text, open, pos);
      if at == None {
        result := result + text[pos..];
        return;
      }
      assert at.value + |open| <= |text| by { assert OccursAt(text, open, at.value); OccursFits(text, open, at.value); }
      result := result + text[pos..at.value];
      var end := Find(text, close, at.value);
      if end == None { return; }
      OccursFits(text, close, end.value);
      pos := end.value + |close|;
    }
    assert text[pos..] == "";
    NothingOutside(open, close);
  }

  function Think(t: string): string {
    Outside(t, OPEN, CLOSE)
  }

  /** What the filter leaves of a response: think, tool-call and tool-result blocks removed in turn. */
  function Filtered(t: string): string {
    Outside(Outside(Think(t), "<tool_call>", "</tool_call>"), "<tool_result>", "</tool_result>")
  }

  method Filter(text: string) returns (result: string)
    ensures result == Filtered(text)
  {
    result := StripTag(text, OPEN, CLOSE);
    result := StripTag(result, "<tool_call>", "</tool_call>");
    result := StripTag(result, "<tool_result>", "</tool_result>");
  }
}
