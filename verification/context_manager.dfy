/** The state of one agent session and the input drain that starts every
    pass of the loop (Python/syconUI.py, lines 23-29 and 231-235). */
module ContextManager {
  import opened Text
  import opened Messages

  /** `running`, `full_context`, `pending_user_input`, `context_buffer` (the
      raw monologue used for pruning) and `session_chat_log`. */
  datatype Session = Session(
    running: bool,
    context: seq<Message>,
    pending: seq<string>,
    buffer: string,
    chatLog: string)

  /** The context entries that a batch of inputs becomes, one per input,
      in queue order. */
  function UserTurns(items: seq<string>): (ms: seq<Message>)
    ensures |ms| == |items|
    ensures forall i :: 0 <= i < |items| ==> ms[i] == UserTurn(items[i])
    decreases |items|
  {
    if items == [] then [] else [UserTurn(items[0])] + UserTurns(items[1..])
  }

  /** The chat-log text that a batch of inputs becomes. */
  function LogLines(items: seq<string>): string
    decreases |items|
  {
    if items == [] then [] else LogPrefix + items[0] + LogLines(items[1..])
  }

  /** The `while self.pending_user_input` loop: pop the oldest input, wrap it
      as a user turn, log it, and append it raw to the monologue buffer, until
      the queue is empty. */
  function Drain(s: Session): (r: Session)
    ensures r.pending == []
    ensures r.running == s.running
    ensures r.context == s.context + UserTurns(s.pending)
    ensures r.chatLog == s.chatLog + LogLines(s.pending)
    ensures r.buffer == s.buffer + Concat(s.pending)
    decreases |s.pending|
  {
    if s.pending == [] then
      assert s.context + UserTurns([]) == s.context;
      assert s.chatLog + LogLines([]) == s.chatLog;
      assert s.buffer + Concat([]) == s.buffer;
      s
    else
      var inp := s.pending[0];
      var t := Session(s.running, s.context + [UserTurn(inp)], s.pending[1..],
                       s.buffer + inp, s.chatLog + (LogPrefix + inp));
      PopOldest(s.pending, s.context, s.chatLog, s.buffer);
      Drain(t)
  }

  /** Moving the oldest input out of the queue leaves every batch view of
      the whole queue unchanged. */
  lemma PopOldest(items: seq<string>, context: seq<Message>, log: string, buf: string)
    requires items != []
    ensures context + [UserTurn(items[0])] + UserTurns(items[1..]) == context + UserTurns(items)
    ensures log + (LogPrefix + items[0]) + LogLines(items[1..]) == log + LogLines(items)
    ensures buf + items[0] + Concat(items[1..]) == buf + Concat(items)
  {
    Shift(context, [UserTurn(items[0])], UserTurns(items[1..]), UserTurns(items));
    Shift(log, LogPrefix + items[0], LogLines(items[1..]), LogLines(items));
    Shift(buf, items[0], Concat(items[1..]), Concat(items));
  }

  /** First in, first out: draining a queue at once is the same as draining
      its older part, then queueing and draining the newer part. */
  lemma DrainInOrder(s: Session, older: seq<string>, newer: seq<string>)
    requires s.pending == older + newer
    ensures Drain(s) == Drain(Drain(s.(pending := older)).(pending := newer))
  {
    var x := Drain(s.(pending := older));
    var y := Drain(x.(pending := newer));
    var z := Drain(s);
    UserTurnsAppend(older, newer);
    AppendAssoc(s.context, UserTurns(older), UserTurns(newer));
    LogLinesAppend(older, newer);
    AppendAssoc(s.chatLog, LogLines(older), LogLines(newer));
    ConcatAppend(older, newer);
    AppendAssoc(s.buffer, Concat(older), Concat(newer));
    assert z.context == y.context && z.chatLog == y.chatLog && z.buffer == y.buffer;
  }

  lemma UserTurnsAppend(xs: seq<string>, ys: seq<string>)
    ensures UserTurns(xs + ys) == UserTurns(xs) + UserTurns(ys)
  {
    var l := UserTurns(xs + ys);
    var r := UserTurns(xs) + UserTurns(ys);
    forall i | 0 <= i < |l| ensures l[i] == r[i] {
      if i >= |xs| {
        assert (xs + ys)[i] == ys[i - |xs|];
      }
    }
  }

  lemma {:induction false} LogLinesAppend(xs: seq<string>, ys: seq<string>)
    ensures LogLines(xs + ys) == LogLines(xs) + LogLines(ys)
    decreases |xs|
  {
    if xs == [] {
      assert xs + ys == ys;
    } else {
      assert (xs + ys)[0] == xs[0];
      assert (xs + ys)[1..] == xs[1..] + ys;
      LogLinesAppend(xs[1..], ys);
      AppendAssoc(LogPrefix + xs[0], LogLines(xs[1..]), LogLines(ys));
    }
  }
}
