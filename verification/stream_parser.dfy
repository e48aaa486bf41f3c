/** The quote-delimited stream parser that runs inside one streaming request
    of the agent loop: every fragment of generated text is appended to a
    look-back chunk and classified as thought or as part of a quoted message
    for the listener (Python/syconUI.py, lines 265-337). */
module StreamParser {
  import opened Text
  import opened Messages

  /** The three locals of one request: `capture_say_message`,
      `current_thought_chunk` and `say_message_buffer`. */
  datatype Parser = Parser(capture: bool, chunk: string, buf: string)

  /** The state at the start of every request (lines 265-267). */
  const Start: Parser := Parser(false, [], [])

  /** Outside capture mode the speech buffer is empty. */
  predicate Idle(p: Parser) {
    !p.capture ==> p.buf == []
  }

  /** A speech buffer is finished once its stripped form ends with a quote
      (line 296): exactly when some quote in it is followed by whitespace
      only. */
  function Closes(buf: string): (r: bool)
    ensures r <==> exists i :: 0 <= i < |buf| && buf[i] == Quote && TrailingSpace(buf, i + 1)
  {
    var t := StripSpace(buf);
    if t != [] && t[|t| - 1] == Quote then
      var a := SkipFrom(buf, Spaces, 0);
      var b := KeepUpTo(buf, Spaces, a, |buf|);
      assert t == buf[a..b];
      assert buf[b - 1] == Quote && TrailingSpace(buf, b);
      true
    else
      CloseSomewhere(buf);
      false
  }

  /** Any quote followed only by whitespace ends the stripped buffer. */
  lemma CloseSomewhere(buf: string)
    ensures (exists i :: 0 <= i < |buf| && buf[i] == Quote && TrailingSpace(buf, i + 1)) ==>
      var t := StripSpace(buf); t != [] && t[|t| - 1] == Quote
  {
    if exists i :: 0 <= i < |buf| && buf[i] == Quote && TrailingSpace(buf, i + 1) {
      var i :| 0 <= i < |buf| && buf[i] == Quote && TrailingSpace(buf, i + 1);
      CloseAt(buf, i);
    }
  }

  /** A quote followed only by whitespace is where the stripped buffer ends. */
  lemma CloseAt(buf: string, i: nat)
    requires i < |buf| && buf[i] == Quote && TrailingSpace(buf, i + 1)
    ensures var t := StripSpace(buf); t != [] && t[|t| - 1] == Quote
  {
    var a := SkipFrom(buf, Spaces, 0);
    var b := KeepUpTo(buf, Spaces, a, |buf|);
    assert StripSpace(buf) == buf[a..b];
    assert a <= i;
    assert b == i + 1;
  }

  /** Every character of `buf` from `k` on is whitespace. */
  predicate TrailingSpace(buf: string, k: nat) {
    forall j :: k <= j < |buf| ==> IsSpace(buf[j])
  }

  /** The message delivered for a finished buffer: the stripped buffer with
      exactly its one closing quote removed, then stripped again, so it neither
      starts nor ends with whitespace. */
  function Delivered(buf: string): (m: string)
    requires Closes(buf)
    ensures m != [] ==> !IsSpace(m[0]) && !IsSpace(m[|m| - 1])
    ensures var t := StripSpace(buf); Within(m, t[..|t| - 1], Spaces)
  {
    var t := StripSpace(buf);
    Strip(t[..|t| - 1], Spaces)
  }

  /** The outcome of feeding one fragment: the next state, the events shown,
      and the entries appended to the model's context. */
  datatype Stepped = Stepped(next: Parser, events: seq<Event>, said: seq<Message>)

  /** One iteration of the `for chunk in stream` loop (lines 273-319). The
      fragment is always appended to the look-back chunk first; then exactly
      one of three branches runs: capture start (a quote is somewhere in the
      chunk), active capture, or plain thought. */
  function Feed(p: Parser, word: string): (r: Stepped)
    ensures r.next.chunk == p.chunk + word || r.next.chunk == []
    ensures r.said == SpokenTurns(r.events)
    ensures Idle(p) ==> Idle(r.next)
    // capture start: the thought before the first quote, the rest seeds the buffer
    ensures !p.capture && Quote in p.chunk + word ==>
      && r.next.capture && r.next.chunk == [] && r.said == []
      && |r.events| == 1 && r.events[0].Thought?
      && Quote !in r.events[0].text
      && |p.buf| <= |r.next.buf| && r.next.buf[..|p.buf|] == p.buf
      && r.events[0].text + [Quote] + r.next.buf[|p.buf|..] == p.chunk + word
    // active capture, closing quote reached: deliver, record, back to thought mode
    ensures p.capture && Closes(p.buf + word) ==>
      && r.next == Parser(false, p.chunk + word, [])
      && r.events == [Speech(Delivered(p.buf + word))]
      && r.said == [SpokenTurn(Delivered(p.buf + word))]
    // active capture, not finished: only the buffer and the chunk grow
    ensures p.capture && !Closes(p.buf + word) ==>
      r == Stepped(Parser(true, p.chunk + word, p.buf + word), [], [])
    // plain thought: the fragment itself is shown unless it is blank
    ensures !p.capture && Quote !in p.chunk + word ==>
      && r.next == Parser(false, p.chunk + word, p.buf) && r.said == []
      && r.events == (if HasText(word) then [Thought(word)] else [])
  {
    var c := p.chunk + word;
    if !p.capture && Quote in c then
      var k := FirstQuote(c);
      assert c == c[..k] + [Quote] + c[k + 1..];
      Stepped(Parser(true, [], p.buf + c[k + 1..]), [Thought(c[..k])], [])
    else if p.capture then
      var b := p.buf + word;
      if Closes(b) then
        var m := Delivered(b);
        Stepped(Parser(false, c, []), [Speech(m)], [SpokenTurn(m)])
      else
        Stepped(Parser(true, c, b), [], [])
    else if HasText(word) then
      Stepped(Parser(false, c, p.buf), [Thought(word)], [])
    else
      Stepped(Parser(false, c, p.buf), [], [])
  }

  /** The events, context entries and final state of a whole stream. */
  datatype Trace = Trace(last: Parser, events: seq<Event>, said: seq<Message>)

  /** The `for` loop over the fragments actually received. A pause or stop
      breaks the loop before the next fragment (line 270); that is modelled by
      passing only the fragments received before the break. */
  function Run(p: Parser, frags: seq<string>): (r: Trace)
    ensures r.said == SpokenTurns(r.events)
    ensures Idle(p) ==> Idle(r.last)
    ensures EndsWith(p.chunk + Concat(frags), r.last.chunk)
    decreases |frags|
  {
    if frags == [] then Trace(p, [], [])
    else
      var s := Feed(p, frags[0]);
      var t := Run(s.next, frags[1..]);
      SpokenTurnsAppend(s.events, t.events);
      ChunkSuffix(p.chunk, frags, s.next.chunk, t.last.chunk);
      Trace(t.last, s.events + t.events, s.said + t.said)
  }

  /** A chunk that only ever grows or restarts stays a trailing piece of all
      the text received. */
  lemma ChunkSuffix(chunk: string, frags: seq<string>, mid: string, last: string)
    requires frags != []
    requires mid == chunk + frags[0] || mid == []
    requires EndsWith(mid + Concat(frags[1..]), last)
    ensures EndsWith(chunk + Concat(frags), last)
  {
    var rest := Concat(frags[1..]);
    Shift(chunk, frags[0], rest, Concat(frags));
    if mid == [] {
      assert [] + rest == rest;
      EndsWithExtend(chunk + frags[0], rest, last);
    }
  }

  /** The end-of-stream safety net (lines 327-331): a message still being
      captured is shown as incomplete and recorded in the context. */
  datatype Ending = Ending(events: seq<Event>, said: seq<Message>)

  function Finish(p: Parser): (r: Ending)
    ensures r.events == [] || r.events == [Incomplete(StripQuotes(StripSpace(p.buf)))]
    ensures r.said == (if r.events == [] then [] else [IncompleteTurn(r.events[0].text)])
    ensures r.events != [] <==> p.capture && HasText(p.buf) && StripQuotes(StripSpace(p.buf)) != []
  {
    if p.capture && HasText(p.buf) then
      var m := StripQuotes(StripSpace(p.buf));
      if m != [] then Ending([Incomplete(m)], [IncompleteTurn(m)]) else Ending([], [])
    else
      Ending([], [])
  }
}
