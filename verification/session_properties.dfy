/** Properties of whole passes of the thinking loop: what the context looks
    like afterwards, how the as-written `pop()` loses a spoken message, how
    the intended `pop()` keeps it, and how a fresh start feeds the kickoff
    input first. */
module SessionProperties {
  import opened Text
  import opened Optional
  import opened Messages
  import opened StreamParser
  import opened ContextManager
  import opened Pruning
  import opened Orchestration
  import opened StreamProperties

  /** A pass keeps a started session started, with the system prompt still
      first, whichever `pop()` it uses. */
  lemma PassKeepsStarted(s: Session, reply: Option<string>, stream: Stream)
    requires Started(s)
    ensures Started(Iterate(s, reply, stream).session)
    ensures Started(IterateIntended(s, reply, stream).session)
  {
    if s.running {
      var d := Drain(s);
      assert d.context[0] == s.context[0];
      PrefixHead(d.context, Iterate(s, reply, stream).session.context);
      PrefixHead(d.context, IterateIntended(s, reply, stream).session.context);
    }
  }

  /** After a fresh start, the first pass hands the model the system prompt
      followed by the kickoff input, and logs the kickoff as user input. */
  lemma KickoffComesFirst(s: Session, sp: string, reply: Option<string>, stream: Stream)
    requires !s.running && s.context == []
    ensures var t := Toggle(s, Some(sp)).session;
      var r := Iterate(t, reply, stream).session;
      && |r.context| >= 2
      && r.context[0] == Message(System, sp)
      && r.context[1] == UserTurn(Kickoff)
      && r.chatLog == s.chatLog + LogPrefix + Kickoff
  {
    var t := Toggle(s, Some(sp)).session;
    FreshDrain(s, sp);
    PrefixPair(Message(System, sp), UserTurn(Kickoff), Iterate(t, reply, stream).session.context);
  }

  /** Draining right after a fresh start moves the kickoff input into the
      context and the chat log. */
  lemma FreshDrain(s: Session, sp: string)
    requires !s.running && s.context == []
    ensures var t := Toggle(s, Some(sp)).session; var d := Drain(t);
      && t.running
      && d.context == [Message(System, sp), UserTurn(Kickoff)]
      && d.chatLog == s.chatLog + LogPrefix + Kickoff
  {
    LogOne(Kickoff);
  }

  /** A context that starts with two known entries has them at 0 and 1. */
  lemma PrefixPair<T>(x: T, y: T, c: seq<T>)
    requires IsPrefix([x, y], c)
    ensures |c| >= 2 && c[0] == x && c[1] == y
  {
    assert c[..2][1] == y;
  }

  /** As written, when no message closed during the stream the `pop()`
      removes the trigger: the context gains the drained inputs, any
      incomplete message, then the monologue, and the buffer gains the
      monologue after pruning. */
  lemma QuietPassShape(s: Session, reply: Option<string>, frags: seq<string>)
    requires s.running && Run(Start, frags).said == []
    ensures var d := Drain(s); var t := Run(Start, frags); var r := Iterate(s, reply, Completed(frags)).session;
      && r.context == d.context + Finish(t.last).said + [Message(Assistant, t.last.chunk)]
      && r.buffer == Prune(d.buffer, reply).buffer + t.last.chunk
  {
    var d := Drain(s);
    var t := Run(Start, frags);
    IterateParts(s, reply, Completed(frags));
    SettledContext(d, Prune(d.buffer, reply), t, PopLast(d.context, Trigger, t.said), Completed(frags));
  }

  /** As written, once a message has closed during the stream the `pop()`
      removes the last spoken turn instead of the trigger: the trigger stays
      right after the drained inputs, followed by all spoken turns but the
      last. */
  lemma PopDropsSpeech(s: Session, reply: Option<string>, stream: Stream)
    requires s.running && Run(Start, stream.frags).said != []
    ensures var d := Drain(s); var said := Run(Start, stream.frags).said;
      var c := Iterate(s, reply, stream).session.context;
      && IsPrefix(d.context + [Trigger] + said[..|said| - 1], c)
      && c[|d.context|] == Trigger
  {
    var d := Drain(s);
    var t := Run(Start, stream.frags);
    IterateParts(s, reply, stream);
    PrefixAt(d.context, Trigger, t.said[..|t.said| - 1], Iterate(s, reply, stream).session.context);
  }

  /** As written, a stream whose only closed message is its one spoken
      turn, with nothing left for the safety net, leaves the trigger where
      the spoken turn should be. */
  lemma OneSpeechLost(s: Session, reply: Option<string>, frags: seq<string>)
    requires s.running && |Run(Start, frags).said| == 1 && Finish(Run(Start, frags).last).said == []
    ensures var c := Iterate(s, reply, Completed(frags)).session.context;
      c == Drain(s).context + [Trigger, Message(Assistant, Run(Start, frags).last.chunk)]
  {
    var d := Drain(s);
    IterateParts(s, reply, Completed(frags));
    SettleOneTurn(d, Prune(d.buffer, reply), Run(Start, frags), Trigger, Completed(frags));
  }

  /** Settling after exactly one spoken turn, as written, keeps whatever
      was pushed before the stream and drops the turn. */
  lemma SettleOneTurn(d: Session, p: Pruned, t: Trace, trig: Message, stream: Stream)
    requires d.running && stream.Completed? && |t.said| == 1 && Finish(t.last).said == []
    ensures Settle(d, p, t, PopLast(d.context, trig, t.said), stream).session.context
      == d.context + [trig, Message(Assistant, t.last.chunk)]
  {
    assert t.said[..0] == [];
    SettledContext(d, p, t, PopLast(d.context, trig, t.said), stream);
  }

  /** A stream that opens and closes a message: the message is shown, but
      the context afterwards holds the trigger and the monologue, and no
      record that it was said. */
  lemma SpokenMessageLost(s: Session, reply: Option<string>)
    requires s.running && s.pending == []
    ensures var r := Iterate(s, reply, Completed(["\"Hi\"", " "]));
      && Speech("Hi") in r.events
      && r.session.context == s.context + [Trigger, Message(Assistant, " ")]
  {
    var frags := ["\"Hi\"", " "];
    var w := [Quote] + "Hi" + [Quote];
    assert w == "\"Hi\"" by {
      assert |w| == 4 && w[0] == '"' && w[1] == 'H' && w[2] == 'i' && w[3] == '"';
    }
    assert Quote !in "Hi" && !IsSpace("Hi"[0]) && !IsSpace("Hi"[1]) && AllIn(" ", Spaces);
    CloseWithoutQuoteInChunk("Hi", " ");
    assert Speech("Hi") in Run(Start, frags).events;
    assert Drain(s) == s;
    OneSpeechLost(s, reply, frags);
    var d := Drain(s);
    var t := Run(Start, frags);
    var p := Prune(d.buffer, reply);
    IterateParts(s, reply, Completed(frags));
    ShownLater(Speech("Hi"), p.events, t.events, Iterate(s, reply, Completed(frags)).events);
  }

  /** With the intended `pop()`, everything a pass adds after the drained
      inputs is the agent's own: every delivered message in order, then any
      incomplete message and the monologue. The trigger never stays. */
  lemma IntendedKeepsSpeech(s: Session, reply: Option<string>, stream: Stream)
    requires s.running
    ensures var d := Drain(s); var t := Run(Start, stream.frags);
      var c := IterateIntended(s, reply, stream).session.context;
      && IsPrefix(d.context + SpokenTurns(t.events), c)
      && forall i :: |d.context| <= i < |c| ==> c[i].role == Assistant
  {
    var d := Drain(s);
    IterateIntendedParts(s, reply, stream);
    SettleKeepsAgent(d, Prune(d.buffer, reply), Run(Start, stream.frags), stream);
  }

  /** Settling on a context that kept every spoken turn adds only agent
      entries after the drained inputs. */
  lemma SettleKeepsAgent(d: Session, p: Pruned, t: Trace, stream: Stream)
    requires d.running && AgentOnly(t.said)
    ensures var c := Settle(d, p, t, d.context + t.said, stream).session.context;
      && IsPrefix(d.context + t.said, c)
      && forall i :: |d.context| <= i < |c| ==> c[i].role == Assistant
  {
    var popped := d.context + t.said;
    assert popped[..|d.context|] == d.context;
    SettledContext(d, p, t, popped, stream);
    var c := Settle(d, p, t, popped, stream).session.context;
    if stream.Completed? {
      var f := Finish(t.last);
      var tail := [Message(Assistant, t.last.chunk)];
      assert AgentOnly(f.said);
      AgentAppend(t.said, f.said);
      AgentAppend(t.said + f.said, tail);
      assert c == d.context + (t.said + f.said + tail);
      AgentTail(d.context, t.said + f.said + tail, c);
    } else {
      AgentTail(d.context, t.said, c);
    }
  }

  /** Every entry is the agent's own. */
  predicate AgentOnly(ms: seq<Message>) {
    forall i :: 0 <= i < |ms| ==> ms[i].role == Assistant
  }

  lemma AgentAppend(a: seq<Message>, b: seq<Message>)
    requires AgentOnly(a) && AgentOnly(b)
    ensures AgentOnly(a + b)
  {
    forall i | 0 <= i < |a + b| ensures (a + b)[i].role == Assistant {
      if i >= |a| {
        assert (a + b)[i] == b[i - |a|];
      }
    }
  }

  /** When no message closed, the written and the intended `pop()` agree. */
  lemma QuietPassesAgree(s: Session, reply: Option<string>, stream: Stream)
    requires Run(Start, stream.frags).said == []
    ensures Iterate(s, reply, stream) == IterateIntended(s, reply, stream)
  {
    if s.running {
      var d := Drain(s);
      IterateParts(s, reply, stream);
      IterateIntendedParts(s, reply, stream);
      assert d.context + [] == d.context;
    }
  }

  /** A non-empty leading piece fixes the first entry. */
  lemma PrefixHead<T>(a: seq<T>, c: seq<T>)
    requires a != [] && IsPrefix(a, c)
    ensures c != [] && c[0] == a[0]
  {
    assert c[..|a|][0] == a[0];
  }

  /** An entry right after a known leading piece is found at that offset. */
  lemma PrefixAt<T>(pre: seq<T>, x: T, rest: seq<T>, c: seq<T>)
    requires IsPrefix(pre + [x] + rest, c)
    ensures |pre| < |c| && c[|pre|] == x
  {
    assert c[..|pre| + 1 + |rest|][|pre|] == x;
  }

  /** One drained input becomes one log line. */
  lemma LogOne(x: string)
    ensures LogLines([x]) == LogPrefix + x
  {
    assert [x][1..] == [];
    assert LogPrefix + x + [] == LogPrefix + x;
  }

  /** An event shown by the stream is shown by the pass. */
  lemma ShownLater(e: Event, a: seq<Event>, b: seq<Event>, c: seq<Event>)
    requires e in b && IsPrefix(a + b, c)
    ensures e in c
  {
    var j :| 0 <= j < |b| && b[j] == e;
    assert c[..|a + b|][|a| + j] == e;
  }

  /** A context made of a kept piece and agent entries has only agent
      entries after the kept piece. */
  lemma AgentTail(kept: seq<Message>, added: seq<Message>, c: seq<Message>)
    requires c == kept + added && AgentOnly(added)
    ensures forall i :: |kept| <= i < |c| ==> c[i].role == Assistant
  {
    forall i | |kept| <= i < |c| ensures c[i].role == Assistant {
      assert c[i] == added[i - |kept|];
    }
  }
}
