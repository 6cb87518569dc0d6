/** Speaking a streamed reply: each token is filtered, buffered, and handed on in segments. */
module TtsStreams {
  import opened Text
  import opened ResponseFilter
  import opened TtsScan

  predicate SentenceEnd(c: char) {
    c == '.' || c == '?' || c == '!' || c == ';' || c == '\n'
  }

  predicate NoneEmpty(frames: seq<string>) {
    forall f :: f in frames ==> f != ""
  }

  lemma EmitSnoc(frames: seq<string>, f: string)
    requires NoneEmpty(frames) && f != ""
    ensures Concat(frames + [f]) == Concat(frames) + f && NoneEmpty(frames + [f])
  {
    ConcatSnoc(frames, f);
  }

  /** The first n characters are what may be spoken now. */
  predicate IsReady(buffer: string, minChars: nat, maxChars: nat, n: nat) {
    && n <= |buffer|
    && (|buffer| >= maxChars ==> n == |buffer|)
    && (|buffer| < maxChars && |buffer| < minChars ==> n == 0)
    && (minChars <= |buffer| < maxChars ==>
          (n > 0 ==> SentenceEnd(buffer[n - 1])) && forall k :: n <= k < |buffer| ==> !SentenceEnd(buffer[k]))
  }

  /** Nothing in the buffer is ready: it is short of the maximum, and of the minimum unless it holds no sentence end. */
  predicate NothingReady(buffer: string, minChars: nat, maxChars: nat) {
    && (buffer == "" || |buffer| < maxChars)
    && (|buffer| >= minChars ==> forall k :: 0 <= k < |buffer| ==> !SentenceEnd(buffer[k]))
  }

  /** A piece cut off the front of a buffer: all of it, or up to a sentence end. */
  predicate Segment(buffer: string, text: string) {
    text != "" && text <= buffer && (text == buffer || SentenceEnd(text[|text| - 1]))
  }

  lemma ReadyLeavesNothing(buffer: string, minChars: nat, maxChars: nat, n: nat)
    requires IsReady(buffer, minChars, maxChars, n)
    ensures NothingReady(buffer[n..], minChars, maxChars)
    ensures n > 0 ==> Segment(buffer, buffer[..n])
    ensures |buffer| < minChars && |buffer| < maxChars ==> n == 0
  {
    var rest := buffer[n..];
    assert forall k :: 0 <= k < |rest| ==> rest[k] == buffer[n + k];
  }

  class PunctuationSegmentStrategy {
    const minChars: nat
    const maxChars: nat
    var buffer: string

    constructor (minChars: nat, maxChars: nat)
      ensures this.minChars == minChars && this.maxChars == maxChars && buffer == ""
    {
      this.minChars, this.maxChars, buffer := minChars, maxChars, "";
    }

    method Append(token: string)
      modifies this`buffer
      ensures buffer == old(buffer) + token
    {
      buffer := buffer + token;
    }

    /** How much of the buffer may be spoken now: all of it once it is long, up to its last sentence end if
        it is long enough and has one, and otherwise nothing. */
    method ReadyLength() returns (n: nat)
      ensures IsReady(buffer, minChars, maxChars, n)
    {
      if |buffer| >= maxChars { return |buffer|; }
      if |buffer| < minChars { return 0; }
      n := |buffer|;
      while n > 0
        invariant n <= |buffer|
        invariant forall k :: n <= k < |buffer| ==> !SentenceEnd(buffer[k])
      {
        if SentenceEnd(buffer[n - 1]) { return; }
        n := n - 1;
      }
    }

    method Consume(n: nat)
      modifies this`buffer
      ensures buffer == if n >= |old(buffer)| then "" else old(buffer)[n..]
    {
      if n >= |buffer| { buffer := ""; } else { buffer := buffer[n..]; }
    }

    method Flush() returns (result: string)
      modifies this`buffer
      ensures result == old(buffer) && buffer == ""
    {
      result := buffer;
      buffer := "";
    }

    method Reset()
      modifies this`buffer
      ensures buffer == ""
    {
      buffer := "";
    }
  }

  /** One uninterrupted streaming attempt. */
  class TtsStream {
    const segment: PunctuationSegmentStrategy
    var inBlock: bool
    var tagBuf: string
    var frames: seq<string>
    ghost var tokens: seq<string>

    /** The filter's state is that of the text so far, and nothing clean is lost between buffer and frames. */
    ghost predicate Valid()
      reads this, segment
    {
      && TagState(inBlock, tagBuf) == Scan(Concat(tokens))
      && Concat(frames) + segment.buffer == Spoken(tokens)
      && NoneEmpty(frames)
    }

    constructor (segment: PunctuationSegmentStrategy)
      requires segment.buffer == ""
      ensures this.segment == segment && frames == [] && tokens == [] && Valid()
    {
      this.segment, inBlock, tagBuf, frames, tokens := segment, false, "", [], [];
    }

    method StepOutside(ch: char, clean: string) returns (kept: string)
      requires !inBlock
      modifies this`inBlock, this`tagBuf
      ensures TagState(inBlock, tagBuf) == Advance(TagState(false, old(tagBuf)), ch)
      ensures kept == Keep(TagState(false, old(tagBuf)), ch, clean)
    {
      hide EndsWith;
      kept := clean;
      tagBuf := tagBuf + [ch];
      var matched := false;
      if EndsWith(tagBuf, "<think>") {
        inBlock := true;
        kept := if |kept| >= 6 then kept[..|kept| - 6] else "";
        tagBuf := "";
        matched := true;
      }
      if !matched && EndsWith(tagBuf, "<tool_call>") {
        inBlock := true;
        kept := if |kept| >= 10 then kept[..|kept| - 10] else "";
        tagBuf := "";
        matched := true;
      }
      if !matched && EndsWith(tagBuf, "<tool_result>") {
        inBlock := true;
        kept := if |kept| >= 12 then kept[..|kept| - 12] else "";
        tagBuf := "";
        matched := true;
      }
      if !matched { kept := kept + [ch]; }
    }

    method StepInside(ch: char)
      requires inBlock
      modifies this`inBlock, this`tagBuf
      ensures TagState(inBlock, tagBuf) == Advance(TagState(true, old(tagBuf)), ch)
    {
      hide EndsWith;
      tagBuf := tagBuf + [ch];
      if EndsWith(tagBuf, "</think>") {
        inBlock, tagBuf := false, "";
      } else if EndsWith(tagBuf, "</tool_call>") {
        inBlock, tagBuf := false, "";
      } else if EndsWith(tagBuf, "</tool_result>") {
        inBlock, tagBuf := false, "";
      }
    }

    method StepChar(ch: char, clean: string) returns (kept: string)
      modifies this`inBlock, this`tagBuf
      ensures var s := old(TagState(inBlock, tagBuf));
        TagState(inBlock, tagBuf) == Advance(s, ch) && kept == Keep(s, ch, clean)
    {
      hide Advance, Opened;
      if inBlock {
        StepInside(ch);
        kept := clean;
      } else {
        kept := StepOutside(ch, clean);
      }
    }

    /** The clean part of one token. */
    method FilterToken(token: string) returns (clean: string)
      requires TagState(inBlock, tagBuf) == Scan(Concat(tokens))
      modifies this`inBlock, this`tagBuf
      ensures var t := Concat(tokens) + token;
        TagState(inBlock, tagBuf) == Scan(t) && clean == Clean(t, |Concat(tokens)|, |t|)
    {
      hide Advance, Keep, Scan, Clean;
      clean := "";
      ghost var u := Concat(tokens);
      ghost var t := u + token;
      assert t[..|u|] == u && t[..|t|] == t;
      NothingYet(t, |u|);
      for i := 0 to |token|
        invariant TagState(inBlock, tagBuf) == Scan(t[..|u| + i])
        invariant clean == Clean(t, |u|, |u| + i)
      {
        var ch := token[i];
        ghost var n := |u| + i + 1;
        assert t[n - 1] == ch;
        CleanStep(t, |u|, n);
        ScanStep(t[..n - 1], ch);
        clean := StepChar(ch, clean);
      }
    }

    method Emit(text: string)
      requires NoneEmpty(frames)
      modifies this`frames
      ensures frames == if text == "" then old(frames) else old(frames) + [text]
      ensures NoneEmpty(frames) && Concat(frames) == Concat(old(frames)) + text
    {
      hide Concat, NoneEmpty;
      if text != "" {
        EmitSnoc(frames, text);
        frames := frames + [text];
      } else {
        assert Concat(frames) + "" == Concat(frames);
      }
    }

    /** Emits what is ready: a whole overlong buffer, or the part up to its last sentence end. */
    method EmitReady()
      requires Valid()
      modifies this`frames, segment`buffer
      ensures Valid() && NothingReady(segment.buffer, segment.minChars, segment.maxChars)
      ensures frames != old(frames) ==>
        exists text :: Segment(old(segment.buffer), text) && frames == old(frames) + [text]
      ensures |old(segment.buffer)| < segment.minChars && |old(segment.buffer)| < segment.maxChars ==>
        frames == old(frames)
    {
      hide Scan, Spoken, IsReady, NothingReady, Segment, Concat, NoneEmpty;
      var ready := segment.ReadyLength();
      ReadyLeavesNothing(segment.buffer, segment.minChars, segment.maxChars, ready);
      if ready > 0 {
        var all := segment.Flush();
        var text, remainder := all[..ready], all[ready..];
        assert all == text + remainder;
        if remainder != "" { segment.Append(remainder); }
        assert "" + remainder == remainder;
        Associate(Concat(frames), text, remainder);
        Emit(text);
      }
    }

    method OnToken(token: string)
      requires Valid()
      modifies this, segment`buffer
      ensures Valid() && NothingReady(segment.buffer, segment.minChars, segment.maxChars)
      ensures tokens == old(tokens) + [token] && old(frames) <= frames
    {
      hide Scan, Clean, Concat;
      var clean := FilterToken(token);
      ghost var was, said := segment.buffer, Concat(frames);
      TokenAppended(tokens, token);
      tokens := tokens + [token];
      if clean != "" { segment.Append(clean); }
      assert was + "" == was;
      Associate(said, was, clean);
      EmitReady();
    }

    /** The end of the stream: whatever is buffered becomes the last frame. */
    method Finish()
      requires Valid()
      modifies this`frames, segment`buffer
      ensures Valid() && segment.buffer == "" && Concat(frames) == Spoken(tokens)
    {
      hide Scan, Spoken, Concat, NoneEmpty;
      var remaining := segment.Flush();
      Emit(remaining);
      assert Concat(frames) + "" == Concat(frames);
    }

    /** A whole streamed reply: what is spoken is the stripped text if and only if no opening tag that
        stripping acts on is cut by a token boundary, whatever the segment limits. */
    method Speak(reply: seq<string>)
      requires Valid() && tokens == [] && frames == []
      modifies this, segment`buffer
      ensures Concat(frames) == Spoken(reply) && NoneEmpty(frames)
      ensures NoToolTags(Concat(reply)) ==> (Concat(frames) == Think(Concat(reply)) <==> !SomeOpenSplit(reply))
    {
      hide NoToolTags, SomeOpenSplit, Think, Concat;
      for i := 0 to |reply|
        invariant Valid() && tokens == reply[..i]
      {
        OnToken(reply[i]);
        assert reply[..i] + [reply[i]] == reply[..i + 1];
      }
      assert reply[..|reply|] == reply;
      Finish();
      if NoToolTags(Concat(reply)) { StreamedEqualsStripped(reply); }
    }
  }

  lemma {:induction false} TokenAppended(tokens: seq<string>, token: string)
    ensures var t := Concat(tokens) + token;
      Concat(tokens + [token]) == t && Spoken(tokens + [token]) == Spoken(tokens) + Clean(t, |Concat(tokens)|, |t|)
  {
    hide Clean;
    assert (tokens + [token])[..|tokens|] == tokens;
  }

  /** A cut opening tag is spoken in part. */
  lemma CutTagLeaks()
    ensures Spoken(["<thi", "nk>x</think>"]) != Think(Concat(["<thi", "nk>x</think>"]))
  {
    var tokens := ["<thi", "nk>x</think>"];
    var t := "<think>x</think>";
    assert tokens[..1] == ["<thi"] && Concat(tokens[..1]) == "<thi";
    assert Concat(tokens) == t by { assert Concat(tokens[..1]) + tokens[1] == t; }
    assert t[..0] == "";
    NothingOutside(OPEN, CLOSE);
    assert EffectiveOpen(t, 0);
    assert SomeOpenSplit(tokens);
    NoToolTagsHere(t);
    StreamedEqualsStripped(tokens);
  }

  lemma NoToolTagsHere(t: string)
    requires forall i :: 0 <= i < |t| ==> t[i] != '_'
    ensures NoToolTags(t)
  {
    forall pat | '_' in pat ensures !Occurs(t, pat) {
      var k :| 0 <= k < |pat| && pat[k] == '_';
      forall i | 0 <= i <= |t| ensures !OccursAt(t, pat, i) {
        if i + |pat| <= |t| { Mismatch(t, pat, i, k); }
      }
    }
    assert "<tool_call>"[5] == '_' && "</tool_call>"[6] == '_' && "<tool_result>"[5] == '_'
      && "</tool_result>"[6] == '_';
  }
}
