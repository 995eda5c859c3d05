/** The page's audio player: a FIFO of decoded buffers played one after another.
    `playAudioQueue` is an async loop that suspends at two awaits, the resumption of
    a suspended audio context and the `ended` event of the playing source; each
    suspension is a `Frame`, and what wakes it up is an event method. Because `stop`
    clears `isPlaying` without waking a suspended run, a later `queueAudio` can start
    a second run beside it, so the player keeps a sequence of frames. */
module Player {
  import opened Base

  const SAMPLE_RATE: nat := 24000

  /** `createBuffer(numberOfChannels, length, sampleRate)` with its channel data. */
  datatype AudioBuffer = AudioBuffer(numberOfChannels: nat, sampleRate: nat, channelData: seq<Float32>)

  datatype ContextState = Running | Suspended | Closed

  /** A buffer source node; `id` tells apart the nodes createBufferSource returned. */
  datatype Source = Source(id: nat, buffer: AudioBuffer)

  /** Where a suspended run of the play loop waits, with the source it holds. */
  datatype Frame = AwaitingResume(source: Source) | AwaitingEnd(source: Source)

  /** The buffer queueAudio builds from a message's samples: mono, 24000 Hz, holding
      exactly those samples. */
  function MonoBuffer(samples: seq<Float32>): (b: AudioBuffer)
    ensures b.numberOfChannels == 1 && b.sampleRate == SAMPLE_RATE
    ensures |b.channelData| == |samples| && b.channelData == samples
  {
    AudioBuffer(1, SAMPLE_RATE, samples)
  }

  function Remove<T>(s: seq<T>, k: nat): (r: seq<T>)
    requires k < |s|
    ensures |r| == |s| - 1
  {
    s[..k] + s[k + 1..]
  }

  class AudioPlayer {
    var contextState: ContextState
    var audioQueue: seq<AudioBuffer>
    var isPlaying: bool
    var currentSource: Option<Source>
    /** The suspended runs of playAudioQueue. */
    var loops: seq<Frame>
    /** How many sources createBufferSource has returned. */
    var sourcesCreated: nat
    /** The sources asked to start, and those stopped by `stop`, in order. */
    var started: seq<Source>
    var stopped: seq<Source>
    /** How many times the audio context's close() was called. */
    ghost var closeCalls: nat

    /** Whenever the flag is set, some run of the loop is alive. */
    ghost predicate Valid()
      reads this
    {
      isPlaying ==> |loops| > 0
    }

    /** One run of the loop exactly while `isPlaying` holds, so at most one source
        is ever playing. Every operation but `stop` preserves it. */
    ghost predicate Clean()
      reads this
    {
      |loops| == (if isPlaying then 1 else 0)
    }

    /** A new AudioContext starts running or, under an autoplay policy, suspended. */
    constructor (initial: ContextState)
      requires initial != Closed
      ensures Valid() && Clean()
      ensures contextState == initial && audioQueue == [] && !isPlaying
      ensures currentSource == None && loops == [] && sourcesCreated == 0
      ensures started == [] && stopped == [] && closeCalls == 0
    {
      contextState := initial;
      audioQueue := [];
      isPlaying := false;
      currentSource := None;
      loops := [];
      sourcesCreated := 0;
      started := [];
      stopped := [];
      closeCalls := 0;
    }

    /** One turn of the loop up to its first await: a new source takes the head of the
        queue and becomes `currentSource`; it is started at once unless the context is
        suspended, in which case the run first waits for the context to resume. */
    method TakeHead() returns (frame: Frame)
      requires audioQueue != []
      modifies this
      ensures var source := Source(old(sourcesCreated), old(audioQueue)[0]);
        && currentSource == Some(source)
        && frame == (if contextState == Suspended then AwaitingResume(source) else AwaitingEnd(source))
        && started == old(started) + (if contextState == Suspended then [] else [source])
      ensures audioQueue == old(audioQueue)[1..] && sourcesCreated == old(sourcesCreated) + 1
      ensures loops == old(loops) && isPlaying == old(isPlaying) && contextState == old(contextState)
      ensures stopped == old(stopped) && closeCalls == old(closeCalls)
    {
      var source := Source(sourcesCreated, audioQueue[0]);
      sourcesCreated := sourcesCreated + 1;
      currentSource := Some(source);
      audioQueue := audioQueue[1..];
      if contextState == Suspended {
        frame := AwaitingResume(source);
      } else {
        started := started + [source];
        frame := AwaitingEnd(source);
      }
    }

    /** playAudioQueue: returns at once while playing or with nothing queued;
        otherwise sets the flag and runs the loop up to its first await. */
    method PlayAudioQueue()
      requires Valid()
      modifies this
      ensures Valid()
      ensures old(Clean()) ==> Clean()
      ensures old(isPlaying) || old(audioQueue) == [] ==> unchanged(this)
      ensures !old(isPlaying) && old(audioQueue) != [] ==>
        var source := Source(old(sourcesCreated), old(audioQueue)[0]);
        && isPlaying && currentSource == Some(source)
        && audioQueue == old(audioQueue)[1..]
        && loops == old(loops) +
             [if contextState == Suspended then AwaitingResume(source) else AwaitingEnd(source)]
        && started == old(started) + (if contextState == Suspended then [] else [source])
      ensures sourcesCreated == old(sourcesCreated) + (if !old(isPlaying) && old(audioQueue) != [] then 1 else 0)
      ensures contextState == old(contextState) && stopped == old(stopped) && closeCalls == old(closeCalls)
    {
      if isPlaying || |audioQueue| == 0 {
        return;
      }
      isPlaying := true;
      var frame := TakeHead();
      loops := loops + [frame];
    }

    /** queueAudio: a mono 24000 Hz buffer of the samples joins the tail of the queue,
        then playAudioQueue runs. `createBuffer` refuses a buffer of length 0 with a
        NotSupportedError, so empty samples throw before anything is queued: the
        player is left exactly as it was. */
    method QueueAudio(samples: seq<Float32>)
      requires Valid()
      modifies this
      ensures Valid()
      ensures old(Clean()) ==> Clean()
      ensures |samples| == 0 ==> unchanged(this)
      ensures |samples| > 0 ==>
        var queued := old(audioQueue) + [MonoBuffer(samples)];
        if old(isPlaying) then
          && audioQueue == queued
          && isPlaying && currentSource == old(currentSource) && loops == old(loops)
          && started == old(started)
        else
          var source := Source(old(sourcesCreated), queued[0]);
          && isPlaying && currentSource == Some(source)
          && audioQueue == queued[1..]
          && loops == old(loops) +
               [if contextState == Suspended then AwaitingResume(source) else AwaitingEnd(source)]
          && started == old(started) + (if contextState == Suspended then [] else [source])
      ensures sourcesCreated == old(sourcesCreated) + (if old(isPlaying) || |samples| == 0 then 0 else 1)
      ensures contextState == old(contextState) && stopped == old(stopped) && closeCalls == old(closeCalls)
    {
      if |samples| == 0 {
        return;
      }
      audioQueue := audioQueue + [MonoBuffer(samples)];
      PlayAudioQueue();
    }

    /** The awaited `resume()` of run `k` resolved: the context runs and the run's
        source is started; the run now waits for its `ended` event. A closed context
        rejects resume() instead, which is `AwaitRejected`. */
    method ResumeResolved(k: nat)
      requires Valid() && k < |loops| && loops[k].AwaitingResume?
      requires contextState != Closed
      modifies this
      ensures Valid()
      ensures old(Clean()) ==> Clean()
      ensures contextState == Running
      ensures loops == old(loops)[k := AwaitingEnd(old(loops)[k].source)]
      ensures started == old(started) + [old(loops)[k].source]
      ensures audioQueue == old(audioQueue) && isPlaying == old(isPlaying)
      ensures currentSource == old(currentSource) && sourcesCreated == old(sourcesCreated)
      ensures stopped == old(stopped) && closeCalls == old(closeCalls)
    {
      var source := loops[k].source;
      contextState := Running;
      started := started + [source];
      loops := loops[k := AwaitingEnd(source)];
    }

    /** The `ended` event of run `k`'s source: `onended` clears `currentSource`; the
        next buffer is only now taken from the head of the queue, or, the queue being
        empty, the run leaves the loop and its `finally` clears the flag. */
    method SourceEnded(k: nat)
      requires Valid() && k < |loops| && loops[k].AwaitingEnd?
      modifies this
      ensures Valid()
      ensures old(Clean()) ==> Clean()
      ensures old(audioQueue) != [] ==>
        var source := Source(old(sourcesCreated), old(audioQueue)[0]);
        && currentSource == Some(source)
        && audioQueue == old(audioQueue)[1..]
        && loops == old(loops)[k := if contextState == Suspended then AwaitingResume(source) else AwaitingEnd(source)]
        && started == old(started) + (if contextState == Suspended then [] else [source])
        && isPlaying == old(isPlaying)
      ensures old(audioQueue) == [] ==>
        && currentSource == None && audioQueue == [] && started == old(started)
        && loops == Remove(old(loops), k) && !isPlaying
      ensures sourcesCreated == old(sourcesCreated) + (if old(audioQueue) != [] then 1 else 0)
      ensures contextState == old(contextState) && stopped == old(stopped) && closeCalls == old(closeCalls)
    {
      currentSource := None;
      if |audioQueue| > 0 {
        var frame := TakeHead();
        loops := loops[k := frame];
      } else {
        loops := Remove(loops, k);
        isPlaying := false;
      }
    }

    /** The promise awaited by run `k` rejected (resume() failed, or start() threw
        inside the promise): the error is logged, the run leaves the loop and its
        `finally` clears the flag. `currentSource` is left as it was. */
    method AwaitRejected(k: nat)
      requires Valid() && k < |loops|
      modifies this
      ensures Valid()
      ensures old(Clean()) ==> Clean()
      ensures loops == Remove(old(loops), k) && !isPlaying
      ensures audioQueue == old(audioQueue) && currentSource == old(currentSource)
      ensures contextState == old(contextState) && started == old(started)
      ensures sourcesCreated == old(sourcesCreated) && stopped == old(stopped) && closeCalls == old(closeCalls)
    {
      loops := Remove(loops, k);
      isPlaying := false;
    }

    /** stop: the current source, if any, is stopped and forgotten, unless its
        stop() throws, which a source node does when it was never started (an
        InvalidStateError, caught and logged); then it stays current. The queue is
        emptied and the flag cleared either way. Suspended runs are not woken. */
    method Stop()
      requires Valid()
      modifies this
      ensures Valid()
      ensures audioQueue == [] && !isPlaying
      ensures var throws := old(currentSource).Some? && old(currentSource).value !in old(started);
        && currentSource == (if throws then old(currentSource) else None)
        && stopped == old(stopped) +
             (if old(currentSource).Some? && !throws then [old(currentSource).value] else [])
      ensures old(loops) == [] ==> Clean()
      ensures loops == old(loops) && contextState == old(contextState) && started == old(started)
      ensures sourcesCreated == old(sourcesCreated) && closeCalls == old(closeCalls)
    {
      if currentSource.Some? {
        if currentSource.value in started {
          stopped := stopped + [currentSource.value];
          currentSource := None;
        }
      }
      audioQueue := [];
      isPlaying := false;
    }

    /** close: the context is closed unless it already is, so repeated calls close it
        once. */
    method Close()
      requires Valid()
      modifies this
      ensures Valid()
      ensures old(Clean()) ==> Clean()
      ensures contextState == Closed
      ensures closeCalls == old(closeCalls) + (if old(contextState) == Closed then 0 else 1)
      ensures old(contextState) == Closed ==> unchanged(this)
      ensures audioQueue == old(audioQueue) && isPlaying == old(isPlaying) && loops == old(loops)
      ensures currentSource == old(currentSource) && started == old(started) && stopped == old(stopped)
      ensures sourcesCreated == old(sourcesCreated)
    {
      if contextState != Closed {
        contextState := Closed;
        closeCalls := closeCalls + 1;
      }
    }
  }

  /** Two buffers queued on an idle, running player play strictly one after the
      other: the second is started only when the first has ended, and the player is
      idle again after the second ends. */
  method TwoBuffersInOrder(a: seq<Float32>, b: seq<Float32>)
    requires |a| > 0 && |b| > 0
  {
    var p := new AudioPlayer(Running);
    p.QueueAudio(a);
    p.QueueAudio(b);
    assert p.started == [Source(0, MonoBuffer(a))];
    assert p.loops == [AwaitingEnd(Source(0, MonoBuffer(a)))];
    p.SourceEnded(0);
    assert p.started == [Source(0, MonoBuffer(a)), Source(1, MonoBuffer(b))];
    p.SourceEnded(0);
    assert !p.isPlaying && p.loops == [] && p.currentSource == None;
  }

  /** stop() while the context is still resuming does not silence the stopped
      buffer: the source was never started, so its stop() throws and it stays
      current, and when resume() resolves the suspended run starts it. The buffer
      is heard although stop() has returned and the queue is empty. */
  method StopWhileResuming(a: seq<Float32>) returns (heard: seq<Source>, queued: seq<AudioBuffer>)
    requires |a| > 0
    ensures heard == [Source(0, MonoBuffer(a))] && queued == []
  {
    var p := new AudioPlayer(Suspended);
    p.QueueAudio(a);
    assert p.loops == [AwaitingResume(Source(0, MonoBuffer(a)))] && p.started == [];
    p.Stop();
    assert !p.isPlaying && p.currentSource == Some(Source(0, MonoBuffer(a)));
    p.ResumeResolved(0);
    heard, queued := p.started, p.audioQueue;
  }
}
