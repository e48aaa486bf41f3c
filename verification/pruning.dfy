/** The size-triggered pruning of the monologue buffer that runs before every
    streaming request (Python/syconUI.py, lines 14, 152-172 and 182-210).
    The summarizing model is an oracle: `reply` is its answer for the chunk
    it is given, or `None` when the call fails. */
module Pruning {
  import opened Text
  import opened Optional
  import opened Messages

  /** `MAX_CONTEXT_CHARS`: pruning starts once the buffer is longer. */
  const MaxContextChars: nat := 12000

  /** How many characters of a failed chunk the fallback quotes. */
  const FallbackQuoted: nat := 50

  const NoteOpen: string := "\n[INTERNAL ARCHIVE NOTE (Pruning System): Older thoughts summarized: \""
  const NoteClose: string := "\"]\n"
  const FallbackOpen: string := "[FAILED TO SUMMARIZE: LLM ERROR. Content truncated: "
  const FallbackClose: string := "...]"

  /** The archive note that replaces the pruned chunk. */
  function Note(summary: string): string {
    NoteOpen + summary + NoteClose
  }

  /** `get_llm_summary`: the stripped reply, or on failure a fallback that
      quotes the start of the chunk. */
  function Summary(chunk: string, reply: Option<string>): (s: string)
    ensures reply.Some? ==> s == StripSpace(reply.value)
    ensures reply.Some? ==> s != [] ==> !IsSpace(s[0]) && !IsSpace(s[|s| - 1])
    ensures reply.None? ==> |FallbackOpen| + |FallbackClose| <= |s|
    ensures reply.None? ==>
      var q := s[|FallbackOpen|..|s| - |FallbackClose|];
      && s[..|FallbackOpen|] == FallbackOpen
      && s[|s| - |FallbackClose|..] == FallbackClose
      && |q| == Min(FallbackQuoted, |chunk|) && q == chunk[..|q|]
  {
    match reply
    case Some(text) => StripSpace(text)
    case None =>
      var q := chunk[..Min(FallbackQuoted, |chunk|)];
      var s := FallbackOpen + q + FallbackClose;
      assert s[|FallbackOpen|..|s| - |FallbackClose|] == q;
      s
  }

  function Min(a: nat, b: nat): nat {
    if a <= b then a else b
  }

  /** `int(len * 0.20)`: the length of the oldest chunk that is cut. */
  function CutLength(n: nat): (cut: nat)
    ensures 5 * cut <= n < 5 * cut + 5
  {
    n / 5
  }

  /** The buffer after pruning, and the notice shown when pruning happened. */
  datatype Pruned = Pruned(buffer: string, events: seq<Event>)

  /** `prune_context`: a buffer over the limit loses its oldest fifth, which
      is replaced by an archive note holding the summary of exactly that
      fifth; the rest of the buffer is kept verbatim. */
  function Prune(buf: string, reply: Option<string>): (r: Pruned)
    ensures |buf| <= MaxContextChars ==> r == Pruned(buf, [])
    ensures |buf| > MaxContextChars ==>
      var cut := CutLength(|buf|);
      && cut < |buf|
      && |r.buffer| == |buf| - cut + |Note(Summary(buf[..cut], reply))|
      && r.buffer[|r.buffer| - (|buf| - cut)..] == buf[cut..]
      && r.buffer[..|r.buffer| - (|buf| - cut)] == Note(Summary(buf[..cut], reply))
      && r.events == [Notice(PruneNotice(cut))]
  {
    if |buf| > MaxContextChars then
      var cut := CutLength(|buf|);
      var chunk := buf[..cut];
      var note := Note(Summary(chunk, reply));
      var nb := note + buf[cut..];
      assert nb[|note|..] == buf[cut..];
      assert nb[..|note|] == note;
      Pruned(nb, [Notice(PruneNotice(cut))])
    else
      Pruned(buf, [])
  }

  /** The system notice shown after a prune. */
  function PruneNotice(cut: nat): string {
    "\n[SYSTEM NOTICE: Context Pruning Occurred. " + Decimal(cut)
      + " characters removed, summarized to 1 memory note.]\n"
  }

  /** Python's `str(n)` for a natural number. */
  function Decimal(n: nat): (d: string)
    ensures d != [] && forall i :: 0 <= i < |d| ==> '0' <= d[i] <= '9'
  {
    var last := ['0' + (n % 10) as char];
    if n < 10 then last else Decimal(n / 10) + last
  }

  /** Pruning makes the buffer strictly shorter exactly when the archive
      note is shorter than the chunk it replaces. */
  lemma PruneShrinksIff(buf: string, reply: Option<string>)
    requires |buf| > MaxContextChars
    ensures var cut := CutLength(|buf|);
      |Prune(buf, reply).buffer| < |buf| <==> |Note(Summary(buf[..cut], reply))| < cut
  {
  }

  /** When the summarizer fails, the fallback note is always shorter than
      the chunk it replaces, so the buffer shrinks. */
  lemma FallbackShrinks(buf: string, reply: Option<string>)
    requires |buf| > MaxContextChars && reply.None?
    ensures |Prune(buf, reply).buffer| < |buf|
  {
    var cut := CutLength(|buf|);
    var s := Summary(buf[..cut], None);
    assert |s| <= |FallbackOpen| + FallbackQuoted + |FallbackClose|;
    PruneShrinksIff(buf, reply);
  }

  /** A reply short enough after stripping makes the buffer shrink. */
  lemma ShortReplyShrinks(buf: string, reply: Option<string>)
    requires |buf| > MaxContextChars
    requires reply.Some? && |NoteOpen| + |reply.value| + |NoteClose| < CutLength(|buf|)
    ensures |Prune(buf, reply).buffer| < |buf|
  {
    PruneShrinksIff(buf, reply);
  }

  /** Pruning, whether it happens or not, never touches the newest
      four fifths of the buffer: every trailing piece of at most that length
      is still a trailing piece afterwards. */
  lemma PruneKeepsTail(buf: string, reply: Option<string>, n: nat)
    requires n <= |buf| - CutLength(|buf|)
    ensures EndsWith(Prune(buf, reply).buffer, buf[|buf| - n..])
  {
    var r := Prune(buf, reply).buffer;
    if |buf| > MaxContextChars {
      var kept := buf[CutLength(|buf|)..];
      EndsWithShorter(r, kept, n);
      assert kept[|kept| - n..] == buf[|buf| - n..];
    } else {
      EndsWithShorter(buf, buf, n);
    }
  }
}
