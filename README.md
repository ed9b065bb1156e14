# Voice assistant session core, in Dafny

This project models the backend core of a push-to-talk voice assistant.
The user starts a recording and an audio callback fills a buffer of sample
chunks. When the user stops, a background job runs four stages in order:

1. transcribe the audio (speech-to-text);
2. retrieve two lines of context from a small text corpus;
3. ask a local language model through its HTTP generate endpoint;
4. speak the reply (text-to-speech).

A shared status record (`status`, `you_said`, `assistant`) reports each
phase to a polling front end.

The files, one module each:

- `option.dfy` (`Optional`): the `Option` type.
- `py_str.dfy` (`PyStr`): Python's `str.strip()` with no argument, using
  the `str.isspace` character set, and `sep.join(list)`. Both are
  specified by lemmas. `strip` keeps a contiguous slice, drops only
  whitespace, is empty exactly for all-whitespace input, and is
  idempotent.
- `ollama.dfy` (`Ollama`): `call_ollama` as a total function from the
  outcome of the HTTP request to the reply string. It never fails.
- `retrieval.dfy` (`Retrieval`): turning a search result into the
  context string. This includes Python's negative list indexing. When
  the corpus has one line, the index returns `-1` for the missing second
  neighbour, and Python reads `docs[-1]` as the last line. An
  out-of-range index and any failure in the step both give the empty
  context.
- `voice_core.dfy` (`VoiceCore`) holds the session itself:
  - The `Status` phases.
  - The prompt template.
  - `Job`, a function stating what one run of the background job does.
  - Lemmas on each path through `Job`.
  - The `Session` class: the status record, the `recording` flag and the
    `frames` buffer, with ghost logs of every status assigned, every
    buffer handed to the transcriber, every prompt sent and every reply
    the job tries to speak.

Each external call becomes an outcome passed in as a parameter: the
value it returned, or the text of the `Exception` it raised. A run calls
each external at most once, so one outcome per call covers every way the
external code can return or raise an `Exception`. The outcomes are:

| Outcome | External call |
|---|---|
| `SttOutcome` | transcriber |
| `RagOutcome` | corpus read, embedding and nearest-neighbour search |
| `HttpOutcome` | HTTP request |
| `TtsOutcome` | synthesizer |

`Session.BackgroundJob` performs the source's steps in order and is
proved against `Job`. The lemmas about `Job` carry the core promises:

- every run ends in `idle`, whatever each external call returned or raised;
- the no-audio and speech-recognition-failure paths;
- a failed retrieval is not fatal;
- the language model's failures become visible replies;
- an empty reply is replaced by the placeholder, so the answer shown
  while `speaking` is never empty.

## Model

| member | source | states |
|---|---|---|
| PyStr.LStripSpec | voice_core.py:99 | `lstrip` keeps a suffix of its input, drops only whitespace and leaves no leading whitespace |
| PyStr.RStripSpec | voice_core.py:99 | `rstrip` keeps a prefix of its input, drops only whitespace and leaves no trailing whitespace |
| PyStr.StripIsTrimmedSlice | voice_core.py:99 | `strip` yields a contiguous slice with only whitespace outside it and no whitespace at either end |
| PyStr.StripEmptyIff | voice_core.py:69 | `strip` yields the empty string if and only if its input is all whitespace |
| PyStr.StripTrimmed | voice_core.py:69 | a string with no whitespace at its ends is unchanged by `strip` |
| PyStr.StripIdempotent | voice_core.py:99 | stripping twice is the same as stripping once |
| PyStr.JoinSnoc | voice_core.py:119 | joining one more line appends the separator and that line |
| PyStr.JoinLength | voice_core.py:119 | a join is as long as its parts plus one separator between each pair |
| Ollama.CallOllamaShape | voice_core.py:57-71 | a raised exception gives the fixed error prefix followed by exactly the exception text; a success has no whitespace at its ends; a missing `response` field gives "" |
| Ollama.CallOllamaEmptyIff | voice_core.py:69 | the reply is empty if and only if the request succeeded and `response` was missing or only whitespace |
| Ollama.CallOllamaKeepsText | voice_core.py:69 | on success the reply is the `response` text with only surrounding whitespace removed |
| Retrieval.LookupSpec | voice_core.py:119 | the list comprehension succeeds if and only if every index is within Python's range (negative ones included), and then has one line per index, each the line Python's indexing selects |
| Retrieval.ContextOnFailure | voice_core.py:109-121 | an exception in the retrieval step or an out-of-range index leaves the context empty |
| Retrieval.ContextOfTwo | voice_core.py:118-119 | with the `K` = 2 neighbours the search asks for, both in range, the context is the two selected lines joined by a newline |
| Retrieval.SingleLineCorpus | voice_core.py:118-119 | a one-line corpus whose search reports `[0, -1]` yields that line twice, joined by a newline |
| VoiceCore.StatusNameInjective | voice_core.py:20 | distinct phases are reported under distinct status names, and only distinct ones |
| VoiceCore.PromptCarries | voice_core.py:124-132 | the prompt holds the context and the question unaltered, at fixed offsets from its two ends |
| VoiceCore.ShownReply | voice_core.py:135-136 | the reply shown is never empty, and is the model's reply whenever that one is non-empty |
| VoiceCore.WalkAppend | voice_core.py:75-150 | two sequences of allowed status transitions joined by an allowed one form a single such sequence |
| VoiceCore.JobTracesAreWalks | voice_core.py:81-150 | both status sequences a job can assign take only allowed transitions |
| VoiceCore.JobEndsIdle | voice_core.py:75-150 | every run reports `transcribing` first and `idle` last, takes only allowed transitions, whatever each external call returned |
| VoiceCore.SessionExtendsWalk | voice_core.py:35-150 | a start request or a whole job, from `idle` or `listening`, extends a sequence of allowed transitions and leaves it resting in `idle` or `listening` |
| VoiceCore.JobNoAudio | voice_core.py:89-92 | with no recorded chunk the answer is the no-audio notice, the status goes back to `idle`, the transcript is untouched and nothing external is asked |
| VoiceCore.JobSttFailure | voice_core.py:98-103 | a transcription failure makes the answer the fixed prefix plus the exception text, returns to `idle` and leaves the transcript untouched |
| VoiceCore.JobFullPath | voice_core.py:105-150 | a successful transcription goes through transcribing, thinking, speaking, idle; the transcript is the stripped text; the prompt carries the context and that text; the answer is the model's reply or the placeholder when that is empty, is never empty and is what is spoken |
| VoiceCore.JobRetrievalFailure | voice_core.py:109-133 | a failed retrieval still asks the model, with an empty context, and the job runs to the end |
| VoiceCore.JobLlmFailure | voice_core.py:70-71 | a failed model call becomes the shown and spoken answer: the fixed prefix followed by the exception text |
| VoiceCore.JobEmptyReply | voice_core.py:133-138 | a missing or all-whitespace model reply is replaced by the placeholder; any other reply is shown stripped and is non-empty |
| VoiceCore.JobAnswerNonEmpty | voice_core.py:89-138 | after every run the answer field holds something to show |
| VoiceCore.Session.constructor | voice_core.py:19-26 | initial state: status `idle`, both text fields empty, not recording, an empty buffer, empty logs |
| VoiceCore.Session.SetStatus | voice_core.py:81 | assigning the status sets the field and logs exactly that assignment |
| VoiceCore.Session.StartRecording | voice_core.py:35-43 | a fresh empty buffer, capture on, status `listening`, both text fields cleared, one `listening` logged |
| VoiceCore.Session.OnChunk | voice_core.py:45-47 | a chunk is appended to the buffer while capture is on and dropped otherwise; nothing else changes |
| VoiceCore.Session.Respond | voice_core.py:105-150 | publishes the transcript, sends the prompt built from the retrieved context, shows and speaks the (placeholder-guarded) reply, and assigns thinking, speaking, idle in that order |
| VoiceCore.Session.BackgroundJob | voice_core.py:75-150 | ends capture and leaves every field, the status log, the prompt log and the spoken log exactly as `Job` on the recorded buffer describes, with status `idle`; a non-empty buffer, and only that, is handed to the transcriber as it stood; the synthesizer's outcome makes no difference |
| VoiceCore.Session.GetState | voice_core.py:155-156 | the reported status string names exactly one phase, the current one; between calls a poller sees only `idle` or `listening`; both text fields are reported as they are |
| VoiceCore.RestartThenStop | voice_core.py:35-150 | after start, chunk, start, chunk, stop, the transcriber is handed exactly the buffer holding the chunk captured after the second start, and a successful transcription takes the status through every phase in order |

## Left out

- Opening, starting, stopping and closing the audio input stream are not modelled. Its exceptions on stop are swallowed in the source, so they change nothing. Opening and starting it sit outside any `try`: an exception there escapes a start request only after the state has been reset, so it leaves the state `Session.StartRecording` describes.
- A second start opens another stream without closing the first. After that, chunks from either stream reach the same callback, which `Session.OnChunk` models for any stream.
- Concatenating the chunks and writing the WAV file are left out. They sit outside any `try`, so a failure there would end the thread with the status stuck at `transcribing`. The model assumes they succeed.
- Every external call is assumed to return or raise an `Exception`. The transcriber, the synthesizer and the file and index calls have no timeout, so one that blocks forever would leave the status at `transcribing`, `thinking` or `speaking`. A `BaseException` that is not an `Exception` passes every `except Exception` and ends the job. `VoiceCore.JobEndsIdle` and `Session.BackgroundJob` hold under this assumption only.
- The transcriber, the sentence embedder, the FAISS index and the text-to-speech engine are replaced by their outcomes. A missing `text` key in the transcription result is one more `SttRaised` outcome.
- The path `docs.txt`, the model names and the sample rate are constants of those external calls and are not modelled.
- The HTTP request (URL, JSON body, 60-second timeout) is replaced by its outcome. The exception text is taken as given, word for word as `str(e)` renders it.
- Outcomes do not record which input each external call saw. The ghost `recordings`, `prompts` and `spoken` logs record what the transcriber, the language model and the synthesizer were given.
- The worker thread and the lock are left out, and so are races between a running job and a new start or a status poll. `Session.BackgroundJob` is one sequential call. It requires that no other job be half-way, so the status is `idle` or `listening` when it starts.
- `get_state` returns the live dictionary, so the caller shares it. `Session.GetState` returns a copy (`Snapshot`).
- The web server and the browser front end are not part of this model.
- `Chunk` is a sequence of `real` values, not 32-bit floats. The samples are only buffered, never computed with.
- A Dafny `char` is a Unicode scalar value, which matches Python's code points for every text without lone surrogates. A `\ud800` escape in the model's JSON reply would decode to such a surrogate, which no `char` can hold. No encoding or decoding is modelled.
