# Sycon agent loop, modelled in Dafny

Sycon is a "consciousness simulator". A background loop keeps asking a local
language model to continue an internal monologue, and everything the model
writes between double quotes is treated as speech to the user. This project
models the sequential heart of `SyconConsciousness` in `Python/syconUI.py`
as pure functions and proves properties about them:

- the quote-delimited **stream parser** that splits streamed fragments into
  thought, speech and incomplete speech, and records them in the context;
- the **input drain** that folds the pending-input queue into the context,
  the chat log and the monologue buffer;
- the **pruning policy** that replaces the oldest fifth of an oversized
  monologue buffer with an archive note;
- the **memory selection** of `load_memories`, which picks the newest three
  names of the memory folder and formats their records;
- the **start/pause/resume toggle** together with `start_new_session`, and
  one whole pass of `consciousness_loop` (drain, prune, push the trigger,
  stream, tidy the context), including its error path.

The language model, the clock and the file system are inputs:

- the summarizer's answer is an `Option<string>` (`None` when the call raises);
- the stream is the sequence of fragments received, ending either normally or
  with an error text;
- the system prompt is an `Option<string>` (`None` when the prompt file cannot
  be read);
- the memory folder is a listing plus a map from names to parsed records.

Modules (one file each):

- `Text` (`text.dfy`): Python's `strip`, `split('"', 1)`, `endswith` and `"".join`.
  `strip()` uses Python's full `str.isspace()` table, not only ASCII whitespace.
- `Messages` (`messages.dfy`): roles, context entries, shown events and the fixed texts.
- `StreamParser` (`stream_parser.dfy`): `Feed`, `Run` and `Finish`.
- `StreamProperties` (`stream_properties.dfy`): lemmas about the parser.
- `ContextManager` (`context_manager.dfy`): the session record and `Drain`.
- `Optional` (`optional.dfy`): the option type.
- `Pruning` (`pruning.dfy`): `Summary` and `Prune`.
- `MemoryStore` (`memory_store.dfy`): `LoadMemories`.
- `Orchestration` (`orchestration.dfy`): `Toggle` and `Iterate`.
- `SessionProperties` (`session_properties.dfy`): lemmas about whole passes.

Behaviours of the code worth knowing, each proved about the model:

- The comments at lines 243 and 323 call the trigger temporary and say the
  `pop()` removes it. On the success path the `pop()` removes the last
  context entry, which is a spoken turn whenever a message closed during the
  stream (see Findings).
- The look-back chunk is cleared only when a capture starts, so text already
  shown as thought is shown again as the thought before a quote that arrives
  in a later fragment (`ThoughtShownTwice`).
- A speech whose closing quote arrives in its own fragment leaves that quote
  in the chunk, so the next fragment, whatever it is, starts a new capture
  (`RecaptureAfterClose`). Thought text after a spoken message then becomes
  an incomplete message at the end of the stream.
- Re-capture after a close is certain only when the closing fragment itself
  carries a quote. The closing quote may have arrived earlier, in the text
  after the opening quote (`CloseWithoutQuoteInChunk`).
- `start_new_session` clears the buffer and the queue before it reads the
  prompt file, so a failed start leaves them cleared (`Toggle`).

## Model

| member | source | states |
|---|---|---|
| Text.FirstQuote | Python/syconUI.py:281 | where `split('"', 1)` cuts, on a text the code has already found a quote in: a quote, with no quote before it |
| Text.Strip | Python/syconUI.py:296-302 | `str.strip`: the result is a contiguous piece of the input with only stripped characters around it; its ends are not strippable; it is empty exactly when every character is strippable |
| StreamParser.Closes | Python/syconUI.py:296 | the close test holds exactly when some quote in the buffer is followed by nothing but whitespace |
| StreamParser.Delivered | Python/syconUI.py:296-302 | a finished buffer is delivered without outer whitespace, as a piece of the stripped buffer minus its one closing quote |
| StreamParser.Feed | Python/syconUI.py:273-319 | one fragment. Capture start shows the text before the first quote (quote-free), and thought + quote + buffer growth equals the chunk. A closing buffer delivers exactly one speech, records one spoken turn and resets to thought mode with an empty buffer but the chunk kept. An unfinished capture only grows buffer and chunk. A non-blank fragment in thought mode is shown verbatim and a blank one shows nothing |
| StreamParser.Run | Python/syconUI.py:269-319 | over a fragment sequence, the recorded context entries are exactly the spoken turns of the shown speech events in order; an idle parser stays idle; the chunk is always a trailing piece of all text received |
| StreamParser.Finish | Python/syconUI.py:327-331 | the safety net shows one incomplete message, and records it, exactly when capturing with a buffer whose stripped, quote-stripped text is non-empty; that text is the payload |
| StreamProperties.ThoughtOnly | Python/syconUI.py:314-316 | a quote-free stream shows every non-blank fragment verbatim, says nothing, and leaves the whole text in the chunk |
| StreamProperties.Unclosed | Python/syconUI.py:291-296 | after an opening quote, quote-free fragments show nothing and only grow the buffer and chunk |
| StreamProperties.UnclosedIsIncomplete | Python/syconUI.py:327-331 | an opened, never-closed quote ends in exactly one incomplete message holding all captured text minus outer whitespace, or none when that text is blank |
| StreamProperties.SafetyNetKeepsText | Python/syconUI.py:327-331 | on a quote-free buffer the safety net drops only outer whitespace |
| StreamProperties.SafetyNetGuard | Python/syconUI.py:327-329 | the `strip()` guard is implied by the non-empty payload check |
| StreamProperties.DeliveredRoundTrip | Python/syconUI.py:296-302 | a message without outer whitespace, followed by its closing quote and any whitespace, closes the buffer and is delivered unchanged |
| StreamProperties.RecaptureAfterClose | Python/syconUI.py:274-311 | after a close whose fragment carries the quote, the chunk still holds it and the next fragment, whatever it is, starts a new capture |
| StreamProperties.CloseWithoutQuoteInChunk | Python/syconUI.py:278-311 | a fragment `"m"` then a whitespace-only one: an empty thought and the speech `m` are shown and one spoken turn is recorded. Nothing is left for the safety net, and the chunk holds no quote, so a next quote-free fragment is plain thought |
| StreamProperties.ThoughtShownTwice | Python/syconUI.py:274-289 | a thought fragment is shown again as the start of the text before a quote in the next fragment |
| ContextManager.Drain | Python/syconUI.py:231-235 | the queue ends empty; each input in queue order adds one `React to this: ` user turn, one log line, and its raw text to the buffer |
| ContextManager.DrainInOrder | Python/syconUI.py:231-232 | first in, first out: draining a queue equals draining its older part, then its newer part |
| Pruning.Summary | Python/syconUI.py:152-172 | a reply gives exactly that reply with its outer whitespace removed; a failure gives the fallback frame around exactly the first `min(50, len)` characters of the chunk |
| Pruning.CutLength | Python/syconUI.py:192 | the cut is the floor of a fifth of the length |
| Pruning.Prune | Python/syconUI.py:182-210 | a buffer of at most 12000 characters is unchanged with no notice. A longer one keeps exactly `buf[cut..]` as its tail behind the note of the summary of exactly `buf[..cut]`, with one notice |
| Pruning.PruneShrinksIff | Python/syconUI.py:189-204 | pruning shortens the buffer if and only if the note is shorter than the cut |
| Pruning.FallbackShrinks | Python/syconUI.py:170-172 | when the summarizer fails, pruning always shortens the buffer |
| Pruning.ShortReplyShrinks | Python/syconUI.py:198-204 | a reply shorter than the cut less the note frame shortens the buffer |
| Pruning.PruneKeepsTail | Python/syconUI.py:204 | every trailing piece of the newest four fifths survives pruning |
| MemoryStore.Recent | Python/syconUI.py:91 | `files[-3:]`: all names when there are fewer than three, otherwise exactly three, and always a trailing piece of the sorted listing |
| MemoryStore.Sort | Python/syconUI.py:86 | `sorted`: an ordered permutation of the listing |
| MemoryStore.SortedUnique | Python/syconUI.py:86 | two ordered permutations of the same names are equal |
| MemoryStore.Entry | Python/syconUI.py:92-98 | a name shows something exactly when it ends in `.json` and was read; what it shows is exactly the bracketed timestamp, a space, the summary and a newline |
| MemoryStore.LoadMemories | Python/syconUI.py:83-99 | an empty folder gives `No previous memories.`; otherwise the header followed by the lines of the newest three sorted names |
| MemoryStore.OrderIrrelevant | Python/syconUI.py:86 | the order `listdir` returns names in does not matter |
| MemoryStore.OnlyRecentMatter | Python/syconUI.py:91-98 | records outside the newest three names make no difference |
| MemoryStore.NonMemoryTakesSlot | Python/syconUI.py:91-92 | a newest name that is not `.json` still uses one of the three places |
| Orchestration.Toggle | Python/syconUI.py:424-438 | a running session pauses and a paused one with context resumes, both unchanged otherwise. An empty one starts afresh with buffer and queue cleared, context `[system]`, queue `[kickoff]` and running. A failed prompt build leaves it stopped with those cleared. A started session stays started |
| Orchestration.PauseResume | Python/syconUI.py:425-436 | pausing then resuming gives back the same session |
| Orchestration.RetryAfterFailedStart | Python/syconUI.py:59-69 | a failed start does not stop the next press from trying a fresh start |
| Orchestration.PopLast | Python/syconUI.py:324 | the `pop()` removes the trigger when no message closed, else the last spoken turn |
| Orchestration.Iterate | Python/syconUI.py:225-350 | a stopped session is untouched. A running pass keeps the drained context as a leading piece, empties the queue, logs every input, and stays running |
| Orchestration.IterateIntended | Python/syconUI.py:322-324 | the pass with the `pop()` removing the trigger its comment names: a stopped session is untouched; a running pass keeps the drained context as a leading piece, empties the queue, logs every input, and stays running |
| Orchestration.Settle | Python/syconUI.py:322-350 | whether the stream completed or raised, the session stays running with an empty queue and an unchanged log. The context keeps the popped context as a leading piece. The events shown start with the pruning notice and the stream's own events |
| SessionProperties.QuietPassShape | Python/syconUI.py:324-337 | when no message closed, the context gains the drained inputs, any incomplete turn, then the monologue, and the buffer gains the monologue after pruning |
| SessionProperties.PopDropsSpeech | Python/syconUI.py:250-324 | once a message closed, the trigger stays right after the drained inputs and the last spoken turn is lost |
| SessionProperties.SpokenMessageLost | Python/syconUI.py:250-337 | fragments `"Hi"` then a blank: `Hi` is shown but the context holds the trigger and the monologue, with no record that it was said |
| SessionProperties.OneSpeechLost | Python/syconUI.py:250-337 | any completed stream with exactly one spoken turn and no incomplete message leaves the trigger where the turn should be |
| SessionProperties.IntendedKeepsSpeech | Python/syconUI.py:322-337 | with the `pop()` removing the trigger, every spoken turn is kept in order and everything after the drained inputs is the agent's own |
| SessionProperties.QuietPassesAgree | Python/syconUI.py:322-324 | when no message closed, the written and the intended `pop()` agree |
| SessionProperties.PassKeepsStarted | Python/syconUI.py:250-324 | the trigger pushed at line 250 and the `pop()` at line 324 act only at the end of the context, so a pass keeps the system prompt installed at line 73 first |
| SessionProperties.KickoffComesFirst | Python/syconUI.py:76-81 | after a fresh start, the first pass gives the model the system prompt then the kickoff input, and logs the kickoff |

## Left out

- The Tk interface (window, buttons, colours, `after()` scheduling). Display
  callbacks are replaced by the list of events a pass shows.
- Threads, `stop_event`, `time.sleep` pacing, the five-second back-off and
  the waiting loop while paused. They concern concurrency and wall-clock time.
- The time-keeper loop and `inject_user_input`. They only append to the
  pending queue, which the model takes as given.
- Input queued by another thread while a stream runs. The model drains the
  queue at the start of a pass only.
- The Ollama calls. The stream, the summarizer reply and the request error
  are inputs.
- File and JSON I/O, `os.makedirs` and the prompt template's `format`. The
  system prompt, the folder listing and the parsed records are inputs.
- `save_memory` and `get_session_memory_summary`. They run only when the
  window closes (line 469): they call the model, write a memory file, and
  then clear `session_chat_log` (line 149), the chat log the session model
  carries. That reset is not modelled because no pass runs after it.
- `datetime`/`time.time()` timestamps and `thinking_speed`.
- Pruning.CutLength: `int(len * 0.20)` is modelled as `len / 5`. The two
  agree until lengths reach about 2^50 characters, far beyond any buffer
  here, because 0.2 as a double is slightly above one fifth.
- Orchestration.Iterate: an exception raised after the stream has finished,
  for example in a display callback, would pop a second time. The model
  treats every error as raised by the request, before the stream-end
  handling.
- Orchestration.Toggle: the button label update, and the exception escaping
  the Tk callback when the prompt file is missing, are not modelled. The
  failure is only the `StartFailed` outcome.
- `print` calls in the summarizer and in `save_memory` are not modelled.

## Findings

| source | as written | input that shows it | evidently intended | confidence | as-written member | corrected member |
|---|---|---|---|---|---|---|
| Python/syconUI.py:322-324 | after the stream, `full_context.pop()` removes the last context entry, which is the last spoken turn whenever a message closed during the stream | a running session with no pending input, and fragments `"Hi"` then a space: `Hi` is shown, but the context ends with the trigger and the monologue and holds no record that `Hi` was said | the comment says the pop removes the temporary trigger pushed at line 250, which keeps every spoken turn and drops the trigger | high; not executed | SessionProperties.SpokenMessageLost | Orchestration.IterateIntended, SessionProperties.IntendedKeepsSpeech |
