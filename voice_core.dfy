/** The session state machine of the voice assistant: the shared status
    record, the capture buffer filled by the audio callback, and the
    background job that runs transcription, retrieval, the language model
    and speech synthesis and reports each phase in the status field.

    Every external call is replaced by its outcome, given as a parameter:
    the value it returned or the text of the `Exception` it raised. A run
    calls each of them at most once, so one outcome per call covers every
    way the external code can return or raise an `Exception`; a call that
    never returns is not modelled. */
module VoiceCore {
  import opened PyStr
  import opened Optional
  import opened Ollama
  import opened Retrieval

  /** The phases the `status` field steps through. */
  datatype Status = Idle | Listening | Transcribing | Thinking | Speaking

  /** The text the status field holds for each phase. */
  function StatusName(s: Status): string {
    match s
    case Idle => "idle"
    case Listening => "listening"
    case Transcribing => "transcribing"
    case Thinking => "thinking"
    case Speaking => "speaking"
  }

  /** Distinct phases are reported under distinct names, so a reader of the
      status field can tell every phase apart. */
  lemma StatusNameInjective(a: Status, b: Status)
    ensures StatusName(a) == StatusName(b) <==> a == b
  {
  }

  /** One block of samples delivered by the audio driver (one channel). */
  type Chunk = seq<real>

  /** What transcribing the recorded audio produced: the `text` field of
      the transcriber's result, or the text of the exception raised. */
  datatype SttOutcome = Transcribed(text: string) | SttRaised(message: string)

  /** What speaking the reply produced; the job ignores it either way. */
  datatype TtsOutcome = Spoken | TtsRaised(message: string)

  const NoAudioNotice: string := "No audio was recorded."
  const SttErrorPrefix: string := "Speech recognition failed: "
  const EmptyReplyNotice: string := "Sorry, I couldn't generate a response."

  /** The prompt sent to the language model: the context, then the question. */
  function Prompt(context: string, question: string): string
  {
    "\nContext:\n" + context + "\n\nQuestion:\n" + question + "\n\nAnswer clearly:\n"
  }

  /** The context and the question sit at fixed offsets from the two ends of
      the prompt, so the prompt carries both unaltered. */
  lemma PromptCarries(context: string, question: string)
    ensures var p := Prompt(context, question);
            |p| == |context| + |question| + 40
            && p[10..10 + |context|] == context
            && p[|p| - |question| - 18..|p| - 18] == question
  {
  }

  /** The reply shown and spoken: an empty reply is replaced by a placeholder. */
  function ShownReply(reply: string): (r: string)
    ensures r != ""
    ensures reply != "" ==> r == reply
  {
    if reply == "" then EmptyReplyNotice else reply
  }

  /** What one run of the background job does, as a value.
      `youSaid`: the new transcript, or `None` when the field is left alone;
      `assistant`: the final answer field; `trace`: every status assigned,
      in order; `prompt`: what was sent to the language model, if anything;
      `spoken`: what was handed to the synthesizer, if anything. */
  datatype JobResult = JobResult(
    youSaid: Option<string>,
    assistant: string,
    trace: seq<Status>,
    prompt: Option<string>,
    spoken: Option<string>)

  /** The background job of a stop request, on the chunks recorded so far. */
  function Job(frames: seq<Chunk>, stt: SttOutcome,
               rag: RagOutcome, llm: HttpOutcome): JobResult
  {
    if frames == [] then
      JobResult(None, NoAudioNotice, [Transcribing, Idle], None, None)
    else
      match stt
      case SttRaised(e) =>
        JobResult(None, SttErrorPrefix + e, [Transcribing, Idle], None, None)
      case Transcribed(raw) =>
        var text := Strip(raw);
        var prompt := Prompt(Context(rag), text);
        var reply := ShownReply(CallOllama(llm));
        JobResult(Some(text), reply, [Transcribing, Thinking, Speaking, Idle], Some(prompt), Some(reply))
  }

  /** The transitions the status field may take: a recording may be
      (re)started whenever no job is running, a stop request starts the job
      from either of those phases, and a job moves forward or ends in idle. */
  predicate Step(a: Status, b: Status) {
    match b
    case Listening => a == Idle || a == Listening
    case Transcribing => a == Idle || a == Listening
    case Thinking => a == Transcribing
    case Speaking => a == Thinking
    case Idle => a == Transcribing || a == Speaking
  }

  /** Every consecutive pair of `t` is an allowed transition. */
  ghost predicate Walk(t: seq<Status>) {
    forall i, j :: 0 <= i < j < |t| && j == i + 1 ==> Step(t[i], t[j])
  }

  /** Two walks joined by an allowed transition form one walk. */
  lemma WalkAppend(h: seq<Status>, t: seq<Status>)
    requires h != [] && t != [] && Walk(h) && Walk(t) && Step(h[|h| - 1], t[0])
    ensures Walk(h + t)
  {
  }

  /** The two status sequences a job can produce are walks. */
  lemma JobTracesAreWalks()
    ensures Walk([Transcribing, Idle])
    ensures Walk([Transcribing, Thinking, Speaking, Idle])
  {
  }

  /** Every run of the job starts by reporting `transcribing`, takes only
      allowed transitions and ends with the status back at `idle`, whatever
      each external call returned. */
  lemma JobEndsIdle(frames: seq<Chunk>, stt: SttOutcome,
                    rag: RagOutcome, llm: HttpOutcome)
    ensures var t := Job(frames, stt, rag, llm).trace;
            |t| >= 2 && t[0] == Transcribing && t[|t| - 1] == Idle && Walk(t)
  {
    JobTracesAreWalks();
    var t := Job(frames, stt, rag, llm).trace;
    assert t == [Transcribing, Idle] || t == [Transcribing, Thinking, Speaking, Idle];
  }

  /** Starting from any history that is a walk and rests in `idle` or
      `listening`, both a start request and a whole job extend it to a
      longer walk, again resting in `idle` or `listening`. With the
      `trace` postconditions of the session's methods this shows that the
      status field only ever takes allowed transitions. */
  lemma {:induction false} SessionExtendsWalk(h: seq<Status>, frames: seq<Chunk>, stt: SttOutcome,
                                              rag: RagOutcome, llm: HttpOutcome)
    requires h != [] && Walk(h) && (h[|h| - 1] == Idle || h[|h| - 1] == Listening)
    ensures Walk(h + [Listening])
    ensures var h' := h + Job(frames, stt, rag, llm).trace;
            Walk(h') && h'[|h'| - 1] == Idle
  {
    WalkAppend(h, [Listening]);
    JobEndsIdle(frames, stt, rag, llm);
    WalkAppend(h, Job(frames, stt, rag, llm).trace);
  }

  /** No recorded audio: the job reports the notice, goes straight back to
      idle, leaves the transcript alone and calls nothing external. */
  lemma JobNoAudio(stt: SttOutcome,
                   rag: RagOutcome, llm: HttpOutcome)
    ensures Job([], stt, rag, llm) ==
            JobResult(None, "No audio was recorded.", [Transcribing, Idle], None, None)
  {
  }

  /** A failed transcription becomes the visible answer and ends the run;
      the transcript is left alone and neither the model nor the
      synthesizer is called. */
  lemma JobSttFailure(frames: seq<Chunk>, stt: SttOutcome,
                      rag: RagOutcome, llm: HttpOutcome, m: string)
    requires frames != [] && stt == SttRaised(m)
    ensures Job(frames, stt, rag, llm) ==
            JobResult(None, "Speech recognition failed: " + m, [Transcribing, Idle], None, None)
  {
  }

  /** A successful transcription runs the whole pipeline: the status goes
      through every phase in order, the transcript is the stripped text, the
      model is asked with the retrieved context and that text, and the answer
      shown is the one spoken, never empty. */
  lemma JobFullPath(frames: seq<Chunk>, stt: SttOutcome,
                    rag: RagOutcome, llm: HttpOutcome, raw: string)
    requires frames != [] && stt == Transcribed(raw)
    ensures var j := Job(frames, stt, rag, llm);
            var text := Strip(raw);
            var prompt := Prompt(Context(rag), text);
            j.trace == [Transcribing, Thinking, Speaking, Idle]
            && j.youSaid == Some(text) && Trimmed(text)
            && j.prompt == Some(prompt)
            && j.assistant != "" && j.spoken == Some(j.assistant)
            && (CallOllama(llm) != "" ==> j.assistant == CallOllama(llm))
            && (CallOllama(llm) == "" ==> j.assistant == "Sorry, I couldn't generate a response.")
  {
    StripIsTrimmedSlice(raw);
  }

  /** A failed retrieval is not fatal: the model is still asked, with an
      empty context. */
  lemma JobRetrievalFailure(frames: seq<Chunk>, stt: SttOutcome,
                            rag: RagOutcome, llm: HttpOutcome, raw: string)
    requires frames != [] && stt == Transcribed(raw) && rag.Failed?
    ensures Job(frames, stt, rag, llm).prompt == Some(Prompt("", Strip(raw)))
    ensures Job(frames, stt, rag, llm).trace == [Transcribing, Thinking, Speaking, Idle]
  {
  }

  /** A failed model call becomes the visible, spoken answer: the fixed
      prefix followed by the exception text. */
  lemma JobLlmFailure(frames: seq<Chunk>, stt: SttOutcome,
                      rag: RagOutcome, llm: HttpOutcome, raw: string, m: string)
    requires frames != [] && stt == Transcribed(raw)
    requires llm == Raised(m)
    ensures Job(frames, stt, rag, llm).assistant == LlmErrorPrefix + m
    ensures Job(frames, stt, rag, llm).spoken == Some(LlmErrorPrefix + m)
  {
  }

  /** A reply that is missing or only whitespace is replaced by the
      placeholder, and only such a reply is. */
  lemma JobEmptyReply(frames: seq<Chunk>, stt: SttOutcome,
                      rag: RagOutcome, llm: HttpOutcome, raw: string)
    requires frames != [] && stt == Transcribed(raw)
    ensures var res := llm;
            var j := Job(frames, stt, rag, llm);
            (res.Reply? && (res.response.None? || AllSpace(res.response.value)))
            ==> j.assistant == "Sorry, I couldn't generate a response."
    ensures var res := llm;
            var j := Job(frames, stt, rag, llm);
            res.Reply? && res.response.Some? && !AllSpace(res.response.value)
            ==> j.assistant == Strip(res.response.value) && j.assistant != ""
  {
    CallOllamaEmptyIff(llm);
  }

  /** After any run the answer field holds something to show. */
  lemma JobAnswerNonEmpty(frames: seq<Chunk>, stt: SttOutcome,
                          rag: RagOutcome, llm: HttpOutcome)
    ensures Job(frames, stt, rag, llm).assistant != ""
  {
  }

  /** The snapshot the status endpoint returns. */
  datatype Snapshot = Snapshot(status: string, youSaid: string, assistant: string)

  /** The session: the shared status record (`status`, `you_said`,
      `assistant`) together with the capture flag and buffer. */
  class Session {
    var status: Status
    var youSaid: string
    var assistant: string
    var recording: bool
    var frames: seq<Chunk>

    /** Every status assigned so far, in order. */
    ghost var trace: seq<Status>
    /** Every prompt sent to the language model, in order. */
    ghost var prompts: seq<string>
    /** Every reply the job tries to speak, in order (whether or not the
      synthesizer could be started). */
    ghost var spoken: seq<string>
    /** Every buffer handed to the transcriber, in order. */
    ghost var recordings: seq<seq<Chunk>>

    /** Between calls no job is half-way (the status is `idle` or
      `listening`) and the capture flag is set exactly while listening. */
    ghost predicate Valid()
      reads this
    {
      (status == Idle || status == Listening)
      && (recording <==> status == Listening)
    }

    /** The module's initial state. */
    constructor ()
      ensures Valid()
      ensures status == Idle && youSaid == "" && assistant == ""
      ensures !recording && frames == []
      ensures trace == [] && prompts == [] && spoken == [] && recordings == []
    {
      status, youSaid, assistant := Idle, "", "";
      recording, frames := false, [];
      trace, prompts, spoken, recordings := [], [], [], [];
    }

    /** Assigns the status field and records the assignment. */
    method SetStatus(s: Status)
      modifies this`status, this`trace
      ensures status == s && trace == old(trace) + [s]
    {
      status := s;
      trace := trace + [s];
    }

    /** `start_recording`: a fresh buffer, capture on, status `listening`,
      both text fields cleared. Opening the input stream is not modelled. */
    method StartRecording()
      requires Valid()
      modifies this
      ensures Valid()
      ensures frames == [] && recording
      ensures status == Listening && youSaid == "" && assistant == ""
      ensures trace == old(trace) + [Listening]
      ensures prompts == old(prompts) && spoken == old(spoken) && recordings == old(recordings)
    {
      frames := [];
      recording := true;
      SetStatus(Listening);
      youSaid := "";
      assistant := "";
    }

    /** The audio callback: the chunk is appended only while capturing;
      nothing else changes. */
    method OnChunk(c: Chunk)
      requires Valid()
      modifies this`frames
      ensures Valid()
      ensures frames == if recording then old(frames) + [c] else old(frames)
    {
      if recording {
        frames := frames + [c];
      }
    }

    /** The stages after a successful transcription: the transcript is
      published and the status becomes `thinking`; retrieval builds the
      context (empty on failure); the model's reply, or the placeholder for
      an empty one, is published with status `speaking`; the reply is handed
      to the synthesizer, whose failure is swallowed; the status returns to
      `idle`. */
    method Respond(text: string, rag: RagOutcome, llm: HttpOutcome)
      modifies this`youSaid, this`assistant, this`status, this`trace, this`prompts, this`spoken
      ensures youSaid == text && assistant == ShownReply(CallOllama(llm)) && status == Idle
      ensures trace == old(trace) + [Thinking, Speaking, Idle]
      ensures prompts == old(prompts) + [Prompt(Context(rag), text)]
      ensures spoken == old(spoken) + [assistant]
    {
      youSaid := text;
      SetStatus(Thinking);

      var context := Context(rag);
      var prompt := Prompt(context, text);
      prompts := prompts + [prompt];
      var reply := CallOllama(llm);
      if reply == "" {
        reply := EmptyReplyNotice;
      }
      assistant := reply;
      SetStatus(Speaking);

      spoken := spoken + [reply];
      SetStatus(Idle);
    }

    /** The background job of `stop_recording_and_process`, run as one
      sequential call. It ends capture and leaves the session as `Job`
      describes; the synthesizer's outcome makes no difference. */
    method BackgroundJob(stt: SttOutcome, rag: RagOutcome,
                         llm: HttpOutcome, tts: TtsOutcome)
      requires Valid()
      modifies this`recording, this`status, this`trace, this`assistant, this`youSaid
      modifies this`prompts, this`spoken, this`recordings
      ensures Valid()
      ensures var j := Job(old(frames), stt, rag, llm);
              status == Idle && !recording && frames == old(frames)
              && assistant == j.assistant
              && youSaid == (match j.youSaid case Some(t) => t case None => old(youSaid))
              && trace == old(trace) + j.trace
              && prompts == old(prompts) + (match j.prompt case Some(p) => [p] case None => [])
              && spoken == old(spoken) + (match j.spoken case Some(r) => [r] case None => [])
      ensures recordings == old(recordings) + (if old(frames) == [] then [] else [old(frames)])
    {
      var recorded := frames;
      ghost var j := Job(recorded, stt, rag, llm);

      recording := false;
      SetStatus(Transcribing);
      // Stopping and closing the stream: any exception is swallowed.

      if frames == [] {
        assert recordings == old(recordings);
        assistant := NoAudioNotice;
        SetStatus(Idle);
        return;
      }

      recordings := recordings + [recorded];
      var heard := stt;
      if heard.SttRaised? {
        assistant := SttErrorPrefix + heard.message;
        SetStatus(Idle);
        return;
      }

      Respond(Strip(heard.text), rag, llm);
    }

    /** `get_state`: the three fields as the status endpoint reports them.
      The reported name identifies exactly one phase, the current one, and
      between calls a poller sees only `idle` or `listening`. */
    function GetState(): (snap: Snapshot)
      reads this
      ensures forall p: Status :: snap.status == StatusName(p) <==> p == status
      ensures Valid() ==> snap.status == "idle" || snap.status == "listening"
      ensures snap.youSaid == youSaid && snap.assistant == assistant
    {
      forall p: Status ensures StatusName(p) == StatusName(status) <==> p == status {
        StatusNameInjective(p, status);
      }
      Snapshot(StatusName(status), youSaid, assistant)
    }
  }

  /** Two starts in a row, a chunk after each, then a stop: only the chunk
      captured after the second start reaches the transcriber, and the
      status field has gone through every phase in order. */
  method RestartThenStop(s: Session, a: Chunk, b: Chunk,
                         stt: SttOutcome, rag: RagOutcome,
                         llm: HttpOutcome, tts: TtsOutcome)
    requires s.Valid()
    modifies s
    ensures s.Valid()
    ensures s.frames == [b] && s.recordings == old(s.recordings) + [[b]]
    ensures s.assistant == Job([b], stt, rag, llm).assistant
    ensures stt.Transcribed? ==>
            s.trace == old(s.trace) + [Listening, Listening, Transcribing, Thinking, Speaking, Idle]
            && s.youSaid == Strip(stt.text)
  {
    s.StartRecording();
    s.OnChunk(a);
    s.StartRecording();
    ghost var t1 := s.trace;
    assert t1 == old(s.trace) + [Listening, Listening];
    s.OnChunk(b);
    assert s.frames == [b] && s.trace == t1;
    if stt.Transcribed? {
      JobFullPath([b], stt, rag, llm, stt.text);
    }
    s.BackgroundJob(stt, rag, llm, tts);
  }
}
