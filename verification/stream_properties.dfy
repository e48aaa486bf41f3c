/** Properties of the stream parser over whole fragment sequences: plain
    thought, an unclosed quote and the safety net, re-capture after a close,
    and worked examples of the parser's look-back behaviour. */
module StreamProperties {
  import opened Text
  import opened Messages
  import opened StreamParser

  /** The thought events a quote-free stream shows: one per fragment that
      holds a non-whitespace character, the fragment verbatim. */
  function ShownThoughts(frags: seq<string>): seq<Event> {
    if frags == [] then []
    else (if HasText(frags[0]) then [Thought(frags[0])] else []) + ShownThoughts(frags[1..])
  }

  predicate QuoteFree(frags: seq<string>) {
    forall i :: 0 <= i < |frags| ==> Quote !in frags[i]
  }

  /** A stream with no quote anywhere is pure thought: each non-blank fragment
      is shown as it arrived, nothing is said, and the chunk collects all of
      the text. */
  lemma {:induction false} ThoughtOnly(p: Parser, frags: seq<string>)
    requires !p.capture && Quote !in p.chunk && QuoteFree(frags)
    ensures Run(p, frags) == Trace(Parser(false, p.chunk + Concat(frags), p.buf), ShownThoughts(frags), [])
    decreases |frags|
  {
    if frags != [] {
      var c := p.chunk + frags[0];
      assert Quote !in c;
      var s := Feed(p, frags[0]);
      assert s.next == Parser(false, c, p.buf);
      assert s.events == (if HasText(frags[0]) then [Thought(frags[0])] else []);
      assert s.said == [];
      QuoteFreeTail(frags);
      ThoughtOnly(s.next, frags[1..]);
      var t := Run(s.next, frags[1..]);
      assert Run(p, frags) == Trace(t.last, s.events + t.events, s.said + t.said);
      assert c + Concat(frags[1..]) == p.chunk + Concat(frags);
      assert s.events + t.events == ShownThoughts(frags);
    }
  }

  lemma QuoteFreeTail(frags: seq<string>)
    requires frags != [] && QuoteFree(frags)
    ensures QuoteFree(frags[1..])
  {
    forall i | 0 <= i < |frags| - 1 ensures Quote !in frags[1..][i] {
      assert frags[1..][i] == frags[i + 1];
    }
  }

  /** A buffer without quotes never closes a message. */
  lemma NoQuoteNoClose(b: string)
    requires Quote !in b
    ensures !Closes(b)
  {
    var t := StripSpace(b);
    if t != [] && t[|t| - 1] == Quote {
      StripKeeps(b, Spaces, Quote);
    }
  }

  /** Once a quote has opened, a stream that brings no further quote leaves
      the parser capturing: nothing is shown or said, and the buffer gathers
      every later fragment. */
  lemma {:induction false} Unclosed(p: Parser, frags: seq<string>)
    requires p.capture && Quote !in p.buf && QuoteFree(frags)
    ensures Run(p, frags) == Trace(Parser(true, p.chunk + Concat(frags), p.buf + Concat(frags)), [], [])
    decreases |frags|
  {
    if frags != [] {
      QuoteFreeTail(frags);
      CaptureGrows(p, frags[0]);
      var q := Parser(true, p.chunk + frags[0], p.buf + frags[0]);
      assert Quote !in q.buf;
      Unclosed(q, frags[1..]);
      RunCons(p, frags);
      Regroup(p.chunk, frags);
      Regroup(p.buf, frags);
    }
  }

  /** One quote-free fragment during capture only grows the buffer and chunk. */
  lemma CaptureGrows(p: Parser, w: string)
    requires p.capture && Quote !in p.buf && Quote !in w
    ensures Quote !in p.buf + w
    ensures Feed(p, w) == Stepped(Parser(true, p.chunk + w, p.buf + w), [], [])
  {
    NoQuoteNoClose(p.buf + w);
  }

  lemma Regroup(a: string, frags: seq<string>)
    requires frags != []
    ensures a + frags[0] + Concat(frags[1..]) == a + Concat(frags)
  {
  }

  /** The safety net on a quote-free buffer loses nothing but the outer
      whitespace: one incomplete message when some text was captured, none
      otherwise. */
  lemma SafetyNetKeepsText(p: Parser)
    requires p.capture && Quote !in p.buf
    ensures Finish(p).events == (if HasText(p.buf) then [Incomplete(StripSpace(p.buf))] else [])
    ensures Finish(p).said == (if HasText(p.buf) then [IncompleteTurn(StripSpace(p.buf))] else [])
  {
    var t := StripSpace(p.buf);
    if t != [] {
      assert Quote !in t by {
        if Quote in t {
          StripKeeps(p.buf, Spaces, Quote);
        }
      }
      StripClean(t, Just(Quote));
    }
  }

  /** A stream that opens a quote and never closes it ends in exactly one
      incomplete message holding all the captured text (outer whitespace
      aside), provided some of it is not whitespace. */
  lemma UnclosedIsIncomplete(p: Parser, frags: seq<string>)
    requires p.capture && Quote !in p.buf && QuoteFree(frags)
    ensures var b := p.buf + Concat(frags);
      Finish(Run(p, frags).last).events == (if HasText(b) then [Incomplete(StripSpace(b))] else [])
  {
    Unclosed(p, frags);
    var b := p.buf + Concat(frags);
    assert Quote !in Concat(frags) by {
      QuoteFreeConcat(frags);
    }
    SafetyNetKeepsText(Parser(true, p.chunk + Concat(frags), b));
  }

  lemma {:induction false} QuoteFreeConcat(frags: seq<string>)
    requires QuoteFree(frags)
    ensures Quote !in Concat(frags)
    decreases |frags|
  {
    if frags != [] {
      QuoteFreeTail(frags);
      QuoteFreeConcat(frags[1..]);
    }
  }

  /** The guard `say_message_buffer.strip()` in front of the safety net is
      implied by the one after it: a non-empty quote-stripped text needs a
      non-empty whitespace-stripped one. */
  lemma SafetyNetGuard(p: Parser)
    ensures Finish(p).events != [] <==> p.capture && StripQuotes(StripSpace(p.buf)) != []
  {
  }

  /** Delivery undoes quoting: a message with no outer whitespace, followed
      by its closing quote and any whitespace, closes the buffer and is
      delivered unchanged. */
  lemma DeliveredRoundTrip(m: string, blank: string)
    requires m != [] ==> !IsSpace(m[0]) && !IsSpace(m[|m| - 1])
    requires AllIn(blank, Spaces)
    ensures Closes(m + [Quote] + blank) && Delivered(m + [Quote] + blank) == m
  {
    var r := m + [Quote];
    assert r[|r| - 1] == Quote && (m != [] ==> r[0] == m[0]);
    StripAround(r, blank, Spaces);
    assert r[..|r| - 1] == m;
    StripClean(m, Spaces);
  }

  /** The look-back chunk is not cleared when a message closes, so a closing
      fragment that carries the quote leaves that quote in the chunk, and the
      next fragment, whatever it is, starts a new capture. */
  lemma RecaptureAfterClose(p: Parser, w: string, w2: string)
    requires p.capture && Closes(p.buf + w) && Quote in w
    ensures var q := Feed(p, w).next;
      && !q.capture && Quote in q.chunk
      && Feed(q, w2).next.capture
      && |Feed(q, w2).events| == 1 && Feed(q, w2).events[0].Thought?
  {
    CloseKeepsChunk(p, w);
    QuoteInAppend(p.chunk, w);
    CaptureStarts(Feed(p, w).next, w2);
  }

  /** Closing a message resets the mode and the buffer but not the chunk. */
  lemma CloseKeepsChunk(p: Parser, w: string)
    requires p.capture && Closes(p.buf + w)
    ensures Feed(p, w).next == Parser(false, p.chunk + w, [])
  {
  }

  /** In thought mode, a chunk that already holds a quote makes any next
      fragment start a capture. */
  lemma CaptureStarts(q: Parser, w2: string)
    requires !q.capture && Quote in q.chunk
    ensures Feed(q, w2).next.capture
    ensures |Feed(q, w2).events| == 1 && Feed(q, w2).events[0].Thought?
  {
    assert Quote in q.chunk + w2 by {
      var j :| 0 <= j < |q.chunk| && q.chunk[j] == Quote;
      assert (q.chunk + w2)[j] == Quote;
    }
  }

  lemma QuoteInAppend(c: string, w: string)
    requires Quote in w
    ensures Quote in c + w
  {
    var j :| 0 <= j < |w| && w[j] == Quote;
    assert (c + w)[|c| + j] == Quote;
  }

  /** One fragment: just the step. */
  lemma RunOne(p: Parser, b: string)
    ensures Run(p, [b]) == Trace(Feed(p, b).next, Feed(p, b).events, Feed(p, b).said)
  {
    assert [b][1..] == [];
    var s := Feed(p, b);
    assert Run(s.next, []) == Trace(s.next, [], []);
    assert s.events + [] == s.events;
    assert s.said + [] == s.said;
  }

  /** A longer stream: the first step, then the rest from the state it left. */
  lemma RunCons(p: Parser, frags: seq<string>)
    requires frags != []
    ensures var s := Feed(p, frags[0]); var t := Run(s.next, frags[1..]);
      Run(p, frags) == Trace(t.last, s.events + t.events, s.said + t.said)
  {
  }

  /** Two fragments in a row: the events of the first step, then those of
      the second. */
  lemma RunTwo(p: Parser, a: string, b: string)
    ensures Run(p, [a, b]).events == Feed(p, a).events + Feed(Feed(p, a).next, b).events
    ensures Run(p, [a, b]).last == Feed(Feed(p, a).next, b).next
    ensures Run(p, [a, b]).said == Feed(p, a).said + Feed(Feed(p, a).next, b).said
  {
    RunCons(p, [a, b]);
    assert [a, b][1..] == [b];
    RunOne(Feed(p, a).next, b);
  }

  /** The closing quote may instead arrive in the text that followed the
      opening quote: a fragment `"m"` then a blank one deliver `m`, record
      one spoken turn, leave nothing for the safety net, and leave a chunk
      with no quote in it, so the next quote-free fragment is plain thought. */
  lemma CloseWithoutQuoteInChunk(m: string, blank: string)
    requires Quote !in m && (m != [] ==> !IsSpace(m[0]) && !IsSpace(m[|m| - 1]))
    requires AllIn(blank, Spaces)
    ensures var t := Run(Start, [[Quote] + m + [Quote], blank]);
      && t.events == [Thought([]), Speech(m)]
      && t.said == [SpokenTurn(m)]
      && t.last == Parser(false, blank, [])
      && Finish(t.last) == Ending([], [])
      && Quote !in t.last.chunk
  {
    var w := [Quote] + m + [Quote];
    OpenAtStart(m);
    CloseOnBlank(m, blank);
    var x := Feed(Start, w);
    TwoSteps(Start, w, blank, x, Feed(x.next, blank));
    Pair(Thought([]), Speech(m));
    SpacesHaveNoQuote(blank);
  }

  lemma Pair<T>(a: T, b: T)
    ensures [a] + [b] == [a, b]
  {
  }

  lemma SpacesHaveNoQuote(blank: string)
    requires AllIn(blank, Spaces)
    ensures Quote !in blank
  {
    forall j | 0 <= j < |blank| ensures blank[j] != Quote {
      assert IsSpace(blank[j]);
    }
  }

  /** A fragment that starts with a quote shows an empty thought and
      captures the rest. */
  lemma OpenAtStart(m: string)
    ensures Feed(Start, [Quote] + m + [Quote]) == Stepped(Parser(true, [], m + [Quote]), [Thought([])], [])
  {
    var w := [Quote] + m + [Quote];
    assert w[0] == Quote && w[1..] == m + [Quote] && [] + w == w;
    assert [] + (m + [Quote]) == m + [Quote];
  }

  /** In capture, a buffer `m"` closes on whitespace and delivers `m`. */
  lemma CloseOnBlank(m: string, blank: string)
    requires m != [] ==> !IsSpace(m[0]) && !IsSpace(m[|m| - 1])
    requires AllIn(blank, Spaces)
    ensures Feed(Parser(true, [], m + [Quote]), blank) == Stepped(Parser(false, blank, []), [Speech(m)], [SpokenTurn(m)])
  {
    DeliveredRoundTrip(m, blank);
    assert [] + blank == blank;
  }

  /** Two known steps make a known two-fragment run. */
  lemma TwoSteps(p: Parser, a: string, b: string, x: Stepped, y: Stepped)
    requires Feed(p, a) == x && Feed(x.next, b) == y
    ensures Run(p, [a, b]) == Trace(y.next, x.events + y.events, x.said + y.said)
  {
    RunTwo(p, a, b);
  }

  /** The look-back chunk makes the parser show thought text twice: a
      fragment shown as thought is shown again, as the start of the text
      before a quote that arrives in the next fragment. */
  lemma ThoughtShownTwice(w: string, v: string)
    requires HasText(w) && Quote !in w && Quote in v
    ensures Run(Start, [w, v]).events == [Thought(w), Thought(w + v[..FirstQuote(v)])]
  {
    ShowFirst(w);
    ShowAgain(w, v);
    RunTwo(Start, w, v);
  }

  lemma ShowFirst(w: string)
    requires HasText(w) && Quote !in w
    ensures Feed(Start, w) == Stepped(Parser(false, w, []), [Thought(w)], [])
  {
    assert [] + w == w;
  }

  lemma ShowAgain(w: string, v: string)
    requires Quote !in w && Quote in v
    ensures Feed(Parser(false, w, []), v).events == [Thought(w + v[..FirstQuote(v)])]
  {
    FirstQuoteAfter(w, v);
  }
}
