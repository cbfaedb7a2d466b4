/** The live voice call of App.tsx: the session and audio-context refs, the
    voice flag, and the playback scheduler that strings returned audio chunks
    together (nextStartTimeRef and the audioSourcesRef set). Times are seconds
    on the output context's clock. The session, the Web Audio nodes and the
    microphone are foreign; their outcomes are parameters. */
module Playback {
  import opened Wrappers

  /** One buffer source node: where it was started, how long it plays, and
      whether stop() has been called on it. */
  class Source {
    const start: real
    const duration: real
    var stopped: bool

    constructor (start: real, duration: real)
      ensures this.start == start && this.duration == duration && !stopped
    {
      this.start := start;
      this.duration := duration;
      stopped := false;
    }

    method Stop()
      modifies this
      ensures stopped
    {
      stopped := true;
    }
  }

  /** An audio-context ref: never created, open, or closed (the ref keeps
      pointing at a closed context). */
  datatype Context = Unopened | Open | Closed

  function Closing(c: Context): (r: Context)
    ensures r != Open
    ensures c == Unopened <==> r == Unopened
  {
    if c == Unopened then Unopened else Closed
  }

  /** An inline audio payload and the duration of the buffer it decodes to. */
  datatype AudioChunk = AudioChunk(data: string, duration: real)

  function Max(a: real, b: real): (r: real)
    ensures r >= a && r >= b && (r == a || r == b)
  {
    if a >= b then a else b
  }

  class LiveCall {
    var voiceActive: bool
    var sessionOpen: bool
    var input: Context
    var output: Context
    var nextStart: real
    var sources: set<Source>

    /** Every active source is still playing and ends no later than the next
        free slot, so a chunk started at that slot overlaps none of them. */
    ghost predicate Valid()
      reads this, sources
    {
      0.0 <= nextStart
      && forall s :: s in sources ==> !s.stopped && 0.0 <= s.duration && s.start + s.duration <= nextStart
    }

    constructor ()
      ensures Valid()
      ensures !voiceActive && !sessionOpen && input == Unopened && output == Unopened
      ensures nextStart == 0.0 && sources == {}
    {
      voiceActive, sessionOpen := false, false;
      input, output := Unopened, Unopened;
      nextStart, sources := 0.0, {};
    }

    /** startVoiceCall. Without a key nothing changes. Otherwise both contexts
        are opened before the microphone and the session are requested;
        `connected` is whether both of those succeeded. On failure the voice
        flag drops again, while the new contexts stay open and the session ref
        keeps its previous value. */
    method Start(apiKey: string, connected: bool)
      requires Valid()
      modifies this
      ensures Valid()
      ensures apiKey == "" ==> (voiceActive == old(voiceActive) && sessionOpen == old(sessionOpen)
                                && input == old(input) && output == old(output))
      ensures apiKey != "" ==> (input == Open && output == Open && voiceActive == connected
                                && sessionOpen == (connected || old(sessionOpen)))
      ensures nextStart == old(nextStart) && sources == old(sources)
    {
      if apiKey == "" {
        return;
      }
      voiceActive := true;
      input, output := Open, Open;
      if connected {
        sessionOpen := true;
      } else {
        voiceActive := false;
      }
    }

    /** stopVoiceCall: whatever the prior state, the session is gone, both
        contexts are closed and the call is inactive. The scheduler is left as
        it is. */
    method Stop()
      requires Valid()
      modifies this
      ensures Valid()
      ensures !sessionOpen && !voiceActive
      ensures input == Closing(old(input)) && output == Closing(old(output))
      ensures nextStart == old(nextStart) && sources == old(sources)
    {
      if sessionOpen {
        sessionOpen := false;
      }
      input := Closing(input);
      output := Closing(output);
      voiceActive := false;
    }

    /** Starts a decoded chunk at the later of the next free slot and the
        clock, moves the slot past it and records the source as active. */
    method Schedule(duration: real, now: real) returns (src: Source)
      requires Valid() && 0.0 <= duration && 0.0 <= now
      modifies this
      ensures Valid() && fresh(src)
      ensures src.start == Max(old(nextStart), now) && src.duration == duration && !src.stopped
      ensures src.start >= now
      ensures forall s :: s in old(sources) ==> s.start + s.duration <= src.start
      ensures nextStart == src.start + duration
      ensures sources == old(sources) + {src}
      ensures voiceActive == old(voiceActive) && sessionOpen == old(sessionOpen)
      ensures input == old(input) && output == old(output)
    {
      nextStart := Max(nextStart, now);
      src := new Source(nextStart, duration);
      nextStart := nextStart + duration;
      sources := sources + {src};
    }

    /** The source's 'ended' event: only that source leaves the active set. */
    method Ended(src: Source)
      requires Valid()
      modifies this
      ensures Valid()
      ensures sources == old(sources) - {src}
      ensures nextStart == old(nextStart)
      ensures voiceActive == old(voiceActive) && sessionOpen == old(sessionOpen)
      ensures input == old(input) && output == old(output)
    {
      sources := sources - {src};
    }

    /** Barge-in: every active source is stopped, the set emptied and the
        slot clock reset to zero. */
    method Interrupt()
      requires Valid()
      modifies this, sources
      ensures Valid()
      ensures forall s :: s in old(sources) ==> s.stopped
      ensures sources == {} && nextStart == 0.0
      ensures voiceActive == old(voiceActive) && sessionOpen == old(sessionOpen)
      ensures input == old(input) && output == old(output)
    {
      var pending := sources;
      while pending != {}
        invariant pending <= sources
        invariant unchanged(this)
        invariant forall s :: s in sources - pending ==> s.stopped
        decreases pending
      {
        var s :| s in pending;
        s.Stop();
        pending := pending - {s};
      }
      sources := {};
      nextStart := 0.0;
    }

    /** The audio half of one server message, handled in the source's order:
        a non-empty inline payload is scheduled when an output context exists,
        then an interruption flag is honoured, which also stops the chunk just
        scheduled. */
    method OnMessage(chunk: Option<AudioChunk>, interrupted: bool, now: real) returns (scheduled: Option<Source>)
      requires Valid() && 0.0 <= now
      requires chunk.Some? ==> 0.0 <= chunk.value.duration
      modifies this, sources
      ensures Valid()
      ensures scheduled.Some? <==> chunk.Some? && chunk.value.data != "" && output != Unopened
      ensures scheduled.Some? ==> (fresh(scheduled.value)
        && scheduled.value.start == Max(old(nextStart), now)
        && scheduled.value.duration == chunk.value.duration)
      ensures interrupted ==> sources == {} && nextStart == 0.0
      ensures interrupted ==> forall s :: s in old(sources) ==> s.stopped
      ensures interrupted && scheduled.Some? ==> scheduled.value.stopped
      ensures !interrupted && scheduled.Some? ==> (sources == old(sources) + {scheduled.value}
        && nextStart == scheduled.value.start + chunk.value.duration)
      ensures !interrupted && scheduled.None? ==> sources == old(sources) && nextStart == old(nextStart)
      ensures voiceActive == old(voiceActive) && sessionOpen == old(sessionOpen)
      ensures input == old(input) && output == old(output)
    {
      scheduled := None;
      if chunk.Some? && chunk.value.data != "" && output != Unopened {
        var src := Schedule(chunk.value.duration, now);
        scheduled := Some(src);
      }
      if interrupted {
        Interrupt();
      }
    }
  }

  /** Two chunks with no interruption in between: the second never overlaps
      the first, and when the clock has not yet passed the first's end it
      starts exactly where the first ends. */
  method BackToBack(call: LiveCall, d1: real, d2: real, now1: real, now2: real)
    returns (first: Source, second: Source)
    requires call.Valid() && 0.0 <= d1 && 0.0 <= d2 && 0.0 <= now1 <= now2
    modifies call
    ensures call.Valid()
    ensures second.start >= first.start + d1
    ensures now2 <= first.start + d1 ==> second.start == first.start + d1
  {
    first := call.Schedule(d1, now1);
    second := call.Schedule(d2, now2);
  }

  /** Hanging up twice leaves the same state as hanging up once. */
  method StopTwice(call: LiveCall)
    requires call.Valid()
    modifies call
    ensures call.Valid()
    ensures !call.sessionOpen && !call.voiceActive
    ensures call.input == Closing(old(call.input)) && call.output == Closing(old(call.output))
    ensures call.nextStart == old(call.nextStart) && call.sources == old(call.sources)
  {
    call.Stop();
    call.Stop();
  }
}
