/** The chat messages handed to the language model, the events shown to the
    listener, and the fixed texts the agent loop writes into them. */
module Messages {
  import opened Text

  /** The `role` field of a chat message. */
  datatype Role = System | User | Assistant

  /** One `{"role": ..., "content": ...}` entry of the model's context. */
  datatype Message = Message(role: Role, content: string)

  /** What the agent shows: a piece of internal monologue, a finished spoken
      message, a spoken message cut off by the end of the stream (shown with an
      `[Incomplete]: ` prefix), or a system notice. */
  datatype Event =
    | Thought(text: string)
    | Speech(text: string)
    | Incomplete(text: string)
    | Notice(text: string)

  const SaidPrefix: string := "I said to the User: "
  const IncompletePrefix: string := "I said to the User (incomplete): "
  const ReactPrefix: string := "React to this: "
  const LogPrefix: string := "\n[User said]: "

  /** The context entry recording a delivered message. */
  function SpokenTurn(msg: string): Message {
    Message(Assistant, SaidPrefix + msg)
  }

  /** The context entry recording a message cut off by the end of the stream. */
  function IncompleteTurn(msg: string): Message {
    Message(Assistant, IncompletePrefix + msg)
  }

  /** The context entry wrapping one drained input. */
  function UserTurn(inp: string): Message {
    Message(User, ReactPrefix + inp)
  }

  /** The instruction pushed before every streaming request. */
  const Trigger: Message := Message(User, "Continue your stream of consciousness. Reflect, observe, or decide to speak. **CRITICAL REMINDER: If you speak to the user, you MUST use double quotes for the entire message (e.g., \"Hello, User.\")**")

  /** The input queued by a fresh start. */
  const Kickoff: string := "\n[SYSTEM KICKOFF: Begin reflection on goals and past existence.]\n"

  /** The context entries that the speech events of `evs` record, in order. */
  function SpokenTurns(evs: seq<Event>): (ms: seq<Message>)
    ensures |ms| <= |evs|
    ensures forall i :: 0 <= i < |ms| ==> ms[i].role == Assistant
    ensures ms == [] <==> forall i :: 0 <= i < |evs| ==> !evs[i].Speech?
  {
    if evs == [] then []
    else
      var rest := SpokenTurns(evs[1..]);
      assert forall i :: 1 <= i < |evs| ==> evs[i] == evs[1..][i - 1];
      (if evs[0].Speech? then [SpokenTurn(evs[0].text)] else []) + rest
  }

  lemma {:induction false} SpokenTurnsAppend(a: seq<Event>, b: seq<Event>)
    ensures SpokenTurns(a + b) == SpokenTurns(a) + SpokenTurns(b)
    decreases |a|
  {
    if a == [] {
      assert a + b == b;
    } else {
      var h := if a[0].Speech? then [SpokenTurn(a[0].text)] else [];
      assert (a + b)[0] == a[0];
      assert (a + b)[1..] == a[1..] + b;
      assert SpokenTurns(a + b) == h + SpokenTurns(a[1..] + b);
      SpokenTurnsAppend(a[1..], b);
      AppendAssoc(h, SpokenTurns(a[1..]), SpokenTurns(b));
    }
  }
}
