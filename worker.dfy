/** The synthesis worker's generation queue: a FIFO of (chunk, voice) requests that
    is drained one synthesis at a time. `processQueue` is an async function with a
    single suspension point, the awaited synthesis call; it is modelled as two steps,
    ProcessQueue (up to the await) and Settle (from the await on, given how the
    synthesis ended). */
module Worker {
  import opened Base
  import opened Messages
  import Voices

  const MAX_CHUNK_LENGTH: nat := 600

  /** `{ chunk, voice }`, one queued synthesis request. */
  datatype Request = Request(chunk: string, voice: string)

  /** How the awaited `tts.generate` call ended: with the waveform, or with an
      exception carrying a message. */
  datatype Synthesis = Synthesized(audio: seq<Float32>) | Failed(message: string)

  /** The message posted when the synthesis of `req` ends with `outcome`. The error
      message carries only the exception's message, not which chunk failed. */
  function Reply(req: Request, outcome: Synthesis): (m: WorkerMessage)
    ensures m.Stream? || m.Error?
  {
    match outcome
    case Synthesized(audio) => Stream(audio, req.chunk)
    case Failed(message) => Error(message)
  }

  predicate IsResult(m: WorkerMessage) {
    m.Stream? || m.Error?
  }

  /** The per-chunk messages (`stream` and `error`) among the posted ones, in order. */
  function Results(out: seq<WorkerMessage>): (r: seq<WorkerMessage>)
    ensures |r| <= |out|
    ensures forall i :: 0 <= i < |r| ==> IsResult(r[i])
    decreases |out|
  {
    if out == [] then []
    else Results(out[..|out| - 1]) + (if IsResult(out[|out| - 1]) then [out[|out| - 1]] else [])
  }

  lemma ResultsAppend(out: seq<WorkerMessage>, m: WorkerMessage)
    ensures Results(out + [m]) == Results(out) + (if IsResult(m) then [m] else [])
  {
    assert (out + [m])[..|out|] == out;
  }

  /** A per-chunk message answers a request when it is an error, or a stream of that
      request's chunk text. */
  predicate Answers(m: WorkerMessage, req: Request) {
    IsResult(m) && (m.Stream? ==> m.text == req.chunk)
  }

  /** The requests a message's chunks become, in order, all with the message's voice. */
  function Tagged(chunks: seq<string>, voice: string): (r: seq<Request>)
    ensures |r| == |chunks|
    ensures forall i :: 0 <= i < |r| ==> r[i] == Request(chunks[i], voice)
  {
    seq(|chunks|, i requires 0 <= i < |chunks| => Request(chunks[i], voice))
  }

  class GenerationQueue {
    var chunkQueue: seq<Request>
    var isProcessing: bool
    /** Messages posted to the page, oldest first. */
    var outbox: seq<WorkerMessage>
    /** The request whose synthesis is awaited: the local of the suspended call. */
    var inFlight: Option<Request>
    /** Every request ever queued, and every request taken off the queue, in order. */
    ghost var submitted: seq<Request>
    ghost var started: seq<Request>

    /** The queue is what was submitted but not yet started; at most one request is
        in flight, exactly while `isProcessing` holds, and it is the last started one;
        every started request except the in-flight one has been answered, in order. */
    ghost predicate Valid()
      reads this
    {
      && submitted == started + chunkQueue
      && isProcessing == inFlight.Some?
      && (inFlight.Some? ==> |started| > 0 && inFlight.value == started[|started| - 1])
      && |Results(outbox)| == |started| - (if isProcessing then 1 else 0)
      && forall k :: 0 <= k < |Results(outbox)| ==> Answers(Results(outbox)[k], started[k])
    }

    /** The worker's start-up: it reports the device, then (once the model has loaded)
        that it is ready, with the model's voice table. */
    constructor (device: string)
      ensures Valid()
      ensures chunkQueue == [] && !isProcessing && submitted == []
      ensures outbox == [Device(device), Ready(Voices.VOICES, device)]
    {
      chunkQueue := [];
      isProcessing := false;
      inFlight := None;
      outbox := [Device(device), Ready(Voices.VOICES, device)];
      submitted := [];
      started := [];
    }

    /** processQueue up to its await: nothing happens while a synthesis is in flight or
        when the queue is empty; otherwise the head of the queue is taken and its
        synthesis starts. */
    method ProcessQueue()
      requires Valid()
      modifies this
      ensures Valid() && submitted == old(submitted) && outbox == old(outbox)
      ensures old(isProcessing) || old(chunkQueue) == [] ==> unchanged(this)
      ensures !old(isProcessing) && old(chunkQueue) != [] ==>
        && isProcessing && inFlight == Some(old(chunkQueue)[0])
        && chunkQueue == old(chunkQueue)[1..]
        && started == old(started) + [old(chunkQueue)[0]]
    {
      if isProcessing || |chunkQueue| == 0 {
        return;
      }
      isProcessing := true;
      var req := chunkQueue[0];
      chunkQueue := chunkQueue[1..];
      inFlight := Some(req);
      started := started + [req];
    }

    /** The try/catch around the await and the clearing of the flag: exactly one
        `stream` or `error` is posted for the settled request. */
    method PostReply(outcome: Synthesis)
      requires Valid() && isProcessing
      modifies this
      ensures Valid() && !isProcessing
      ensures outbox == old(outbox) + [Reply(old(inFlight).value, outcome)]
      ensures chunkQueue == old(chunkQueue) && started == old(started) && submitted == old(submitted)
    {
      var reply := Reply(inFlight.value, outcome);
      ghost var answered := Results(outbox);
      ResultsAppend(outbox, reply);
      outbox := outbox + [reply];
      inFlight := None;
      isProcessing := false;
      assert Results(outbox) == answered + [reply];
    }

    /** processQueue after its await: exactly one `stream` or `error` for the settled
        request; then either the next request starts (a failure does not stop the
        draining) or, the queue being empty, `complete` is posted. */
    method Settle(outcome: Synthesis)
      requires Valid() && isProcessing
      modifies this
      ensures Valid() && submitted == old(submitted)
      ensures outbox == old(outbox) + [Reply(old(inFlight).value, outcome)] +
                        (if old(chunkQueue) == [] then [Complete] else [])
      ensures old(chunkQueue) == [] ==>
        && !isProcessing && chunkQueue == [] && started == old(started)
        && |Results(outbox)| == |submitted|
      ensures old(chunkQueue) != [] ==>
        && isProcessing && inFlight == Some(old(chunkQueue)[0])
        && chunkQueue == old(chunkQueue)[1..]
        && started == old(started) + [old(chunkQueue)[0]]
    {
      PostReply(outcome);
      if |chunkQueue| > 0 {
        ProcessQueue();
      } else {
        ResultsAppend(outbox, Complete);
        outbox := outbox + [Complete];
      }
    }

    /** The `message` listener: the text is split into chunks of at most 600
        characters by the (opaque) segmenter, every chunk is queued in order with the
        message's voice, and processQueue runs once. While a synthesis is in flight
        this only grows the queue. */
    method OnMessage(msg: GenerateMessage, split: (string, nat) -> seq<string>)
      requires Valid()
      modifies this
      ensures Valid() && outbox == old(outbox)
      ensures submitted == old(submitted) + Tagged(split(msg.text, MAX_CHUNK_LENGTH), msg.voice)
      ensures old(isProcessing) ==>
        && isProcessing && inFlight == old(inFlight) && started == old(started)
        && chunkQueue == old(chunkQueue) + Tagged(split(msg.text, MAX_CHUNK_LENGTH), msg.voice)
      ensures !old(isProcessing) && old(chunkQueue) + Tagged(split(msg.text, MAX_CHUNK_LENGTH), msg.voice) != [] ==>
        var all := old(chunkQueue) + Tagged(split(msg.text, MAX_CHUNK_LENGTH), msg.voice);
        && isProcessing && inFlight == Some(all[0]) && chunkQueue == all[1..]
        && started == old(started) + [all[0]]
    {
      var chunks := split(msg.text, MAX_CHUNK_LENGTH);
      ghost var tagged := Tagged(chunks, msg.voice);
      for i := 0 to |chunks|
        invariant chunkQueue == old(chunkQueue) + tagged[..i]
        invariant submitted == old(submitted) + tagged[..i]
        invariant started == old(started) && outbox == old(outbox)
        invariant isProcessing == old(isProcessing) && inFlight == old(inFlight)
        invariant Valid()
      {
        assert tagged[..i + 1] == tagged[..i] + [Request(chunks[i], msg.voice)];
        chunkQueue := chunkQueue + [Request(chunks[i], msg.voice)];
        submitted := submitted + [Request(chunks[i], msg.voice)];
      }
      assert tagged[..|chunks|] == tagged;
      ProcessQueue();
    }
  }

  /** Once the worker is idle with an empty queue, there has been exactly one
      per-chunk message for every queued chunk, the k-th answering the k-th chunk. */
  lemma DrainedAccounting(q: GenerationQueue)
    requires q.Valid() && !q.isProcessing && q.chunkQueue == []
    ensures |Results(q.outbox)| == |q.submitted|
    ensures forall k :: 0 <= k < |q.submitted| ==> Answers(Results(q.outbox)[k], q.submitted[k])
  {
    assert q.submitted == q.started;
  }

  /** Three chunks of which the second fails to synthesize: the first and third are
      streamed in order around one error, then `complete` follows. */
  method ThreeChunksSecondFails(device: string, text: string, voice: string,
                                split: (string, nat) -> seq<string>,
                                a1: seq<Float32>, a3: seq<Float32>, failure: string)
    requires |split(text, MAX_CHUNK_LENGTH)| == 3
  {
    var chunks := split(text, MAX_CHUNK_LENGTH);
    var q := new GenerationQueue(device);
    q.OnMessage(GenerateMessage(text, voice), split);
    assert q.inFlight == Some(Request(chunks[0], voice));
    q.Settle(Synthesized(a1));
    q.Settle(Failed(failure));
    q.Settle(Synthesized(a3));
    assert q.outbox == [Device(device), Ready(Voices.VOICES, device), Stream(a1, chunks[0]), Error(failure),
                        Stream(a3, chunks[2]), Complete];
    assert !q.isProcessing;
  }
}
