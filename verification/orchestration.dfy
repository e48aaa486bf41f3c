/** The session-level state machine: the start/pause/resume toggle
    (Python/syconUI.py, lines 59-81 and 424-438) and one pass of the
    thinking loop (lines 222-350): drain the inputs, prune, push the
    trigger, parse the stream, then tidy the context. The system prompt,
    the summarizer and the streamed fragments are inputs. */
module Orchestration {
  import opened Text
  import opened Optional
  import opened Messages
  import opened StreamParser
  import opened ContextManager
  import opened Pruning

  const ActivatedNotice: string := "\n*** SYCON ACTIVATED ***\n"

  /** Every context that has been started begins with the system prompt, and
      a running session has been started. */
  predicate Started(s: Session) {
    && (s.running ==> s.context != [])
    && (s.context != [] ==> s.context[0].role == System)
  }

  /** The outcome of pressing the button: the new session and the notices
      shown, or a start that failed because the system prompt could not be
      built (the prompt file is missing or unreadable). */
  datatype Toggled =
    | Toggled(session: Session, events: seq<Event>)
    | StartFailed(session: Session)

  /** `toggle_sycon`. A running session pauses. A paused one resumes when it
      has a context; without one it starts afresh: `start_new_session` clears
      the buffer and the queue, then builds the system prompt (`prompt`,
      `None` when that raises), installs it as the only context entry, queues
      the kickoff input and sets running. A failed build leaves the cleared
      buffer and queue behind and the session stopped. */
  function Toggle(s: Session, prompt: Option<string>): (r: Toggled)
    ensures r.StartFailed? <==> !s.running && s.context == [] && prompt.None?
    ensures r.Toggled? ==> r.session.running == !s.running
    ensures r.StartFailed? ==> !r.session.running && r.session.context == []
    ensures r.session.chatLog == s.chatLog
    ensures s.running || s.context != [] ==> r == Toggled(s.(running := !s.running), [])
    ensures !s.running && s.context == [] ==>
      && r.session.buffer == []
      && r.session.context == (if prompt.Some? then [Message(System, prompt.value)] else [])
      && r.session.pending == (if prompt.Some? then [Kickoff] else [])
    ensures Started(s) ==> Started(r.session)
  {
    if s.running then
      Toggled(s.(running := false), [])
    else if s.context != [] then
      Toggled(s.(running := true), [])
    else
      var cleared := s.(buffer := [], pending := []);
      match prompt
      case None => StartFailed(cleared)
      case Some(sp) =>
        Toggled(cleared.(context := [Message(System, sp)], pending := [Kickoff], running := true),
                [Notice(ActivatedNotice), Notice(Kickoff)])
  }

  /** Pausing and resuming a started session gives back the same session. */
  lemma PauseResume(s: Session, p1: Option<string>, p2: Option<string>)
    requires s.running && Started(s)
    ensures Toggle(Toggle(s, p1).session, p2) == Toggled(s, [])
  {
    assert s.(running := false).(running := true) == s;
  }

  /** A failed start leaves nothing behind that would stop the next press from
      trying a fresh start again. */
  lemma RetryAfterFailedStart(s: Session, p1: Option<string>, p2: Option<string>)
    requires !s.running && s.context == [] && p1.None?
    ensures var t := Toggle(s, p1).session;
      Toggle(t, p2) == Toggle(s, p2)
  {
  }

  /** What one streaming request delivered: every fragment up to the end of
      the stream or a pause, or the fragments received before the request
      raised, with the error text. */
  datatype Stream =
    | Completed(frags: seq<string>)
    | Failed(frags: seq<string>, error: string)

  /** The session after one pass of the loop, and everything it showed. */
  datatype Pass = Pass(session: Session, events: seq<Event>)

  /** The notice shown when a request raises (line 343). */
  function ErrorNotice(e: string): string {
    "\n[CRITICAL ERROR: " + e + " - Check Ollama connectivity: " + e + "]\n"
  }

  /** One pass of `consciousness_loop` while running, as written: the `pop()`
      after the stream removes the last context entry, whatever it is. */
  function Iterate(s: Session, reply: Option<string>, stream: Stream): (r: Pass)
    ensures !s.running ==> r == Pass(s, [])
    ensures s.running ==>
      && r.session.running && r.session.pending == []
      && r.session.chatLog == s.chatLog + LogLines(s.pending)
      && IsPrefix(Drain(s).context, r.session.context)
  {
    if !s.running then Pass(s, [])
    else
      var d := Drain(s);
      var t := Run(Start, stream.frags);
      Settle(d, Prune(d.buffer, reply), t, PopLast(d.context, Trigger, t.said), stream)
  }

  /** The same pass with the `pop()` doing what its comment says: it removes
      the trigger pushed before the request, and nothing else. */
  function IterateIntended(s: Session, reply: Option<string>, stream: Stream): (r: Pass)
    ensures !s.running ==> r == Pass(s, [])
    ensures s.running ==>
      && r.session.running && r.session.pending == []
      && r.session.chatLog == s.chatLog + LogLines(s.pending)
      && IsPrefix(Drain(s).context, r.session.context)
  {
    if !s.running then Pass(s, [])
    else
      var d := Drain(s);
      var t := Run(Start, stream.frags);
      var popped := d.context + t.said;
      assert popped[..|d.context|] == d.context;
      Settle(d, Prune(d.buffer, reply), t, popped, stream)
  }

  /** The context after the `pop()` of line 324, as written: the drained
      context `ctx`, the trigger `trig` and the spoken turns `said` recorded
      during the stream, less the last entry. With no spoken turn that entry
      is the trigger; otherwise it is the last spoken turn. */
  function PopLast(ctx: seq<Message>, trig: Message, said: seq<Message>): (r: seq<Message>)
    ensures IsPrefix(ctx, r)
    ensures said == [] ==> r == ctx
    ensures said != [] ==> r == ctx + [trig] + said[..|said| - 1]
  {
    var all := ctx + [trig] + said;
    assert all[..|ctx|] == ctx;
    all[..|all| - 1]
  }

  /** One pass, as written, in terms of its parts. */
  lemma IterateParts(s: Session, reply: Option<string>, stream: Stream)
    requires s.running
    ensures var d := Drain(s); var t := Run(Start, stream.frags);
      Iterate(s, reply, stream) == Settle(d, Prune(d.buffer, reply), t, PopLast(d.context, Trigger, t.said), stream)
  {
  }

  /** One pass with the intended `pop()`, in terms of its parts. */
  lemma IterateIntendedParts(s: Session, reply: Option<string>, stream: Stream)
    requires s.running
    ensures var d := Drain(s); var t := Run(Start, stream.frags);
      IterateIntended(s, reply, stream) == Settle(d, Prune(d.buffer, reply), t, d.context + t.said, stream)
  {
  }

  /** The context a settled pass leaves. */
  lemma SettledContext(d: Session, p: Pruned, t: Trace, popped: seq<Message>, stream: Stream)
    requires d.running && IsPrefix(d.context, popped)
    ensures stream.Completed? ==>
      Settle(d, p, t, popped, stream).session.context == popped + Finish(t.last).said + [Message(Assistant, t.last.chunk)]
    ensures stream.Failed? ==> Settle(d, p, t, popped, stream).session.context == popped
    ensures stream.Completed? ==>
      Settle(d, p, t, popped, stream).events == p.events + t.events + Finish(t.last).events + [Thought("\n")]
  {
  }

  /** The stream-end handling (lines 322-337), or the error handling (lines
      342-350), on a drained session `d`, its pruned buffer `p`, the parse
      `t` of the stream and the context `popped` left by the `pop()`. */
  function Settle(d: Session, p: Pruned, t: Trace, popped: seq<Message>, stream: Stream): (r: Pass)
    requires d.running && IsPrefix(d.context, popped)
    ensures r.session.running && r.session.pending == []
    ensures r.session.chatLog == d.chatLog
    ensures IsPrefix(d.context, r.session.context)
    ensures IsPrefix(popped, r.session.context)
    ensures IsPrefix(p.events + t.events, r.events)
  {
    match stream
    case Completed(_) =>
      var f := Finish(t.last);
      var next := popped + f.said + [Message(Assistant, t.last.chunk)];
      assert next[..|popped|] == popped;
      PrefixTransitive(d.context, popped, next);
      Pass(Session(true, next, [], p.buffer + t.last.chunk, d.chatLog),
           p.events + t.events + f.events + [Thought("\n")])
    case Failed(_, e) =>
      Pass(Session(true, popped, [], p.buffer, d.chatLog),
           p.events + t.events + [Notice(ErrorNotice(e))])
  }
}
