/**
 * The recorder control of the recording screen (RecordingSession.jsx) as a
 * state record with one pure step per event. The browser's media objects are
 * reduced to whether the component's refs to them are set, and every call the
 * component makes on them is emitted as an effect, in call order.
 */
module Recorder {
  import opened Wrappers
  import opened Clock

  newtype byte = x: int | 0 <= x < 256

  /** The data of one `dataavailable` event; its `size` is the number of bytes. */
  datatype Chunk = Chunk(bytes: seq<byte>)

  /** The `Blob` handed to `onComplete`. */
  datatype Blob = Blob(bytes: seq<byte>, mimeType: string)

  const AudioType: string := "audio/webm"

  /** The component's state hooks and refs. */
  datatype Recorder = Recorder(
    hasRecorder: bool,    // mediaRecorderRef.current is set
    isRecording: bool,
    isPaused: bool,
    duration: nat,        // whole seconds counted by the interval timer
    chunks: seq<Chunk>,   // audioChunksRef.current
    hasTimer: bool,       // timerRef.current: set by the first interval, never reset to null
    hasStream: bool,      // streamRef.current
    hasContext: bool,     // audioContextRef.current
    onStop: Option<nat>)  // the `onstop` handler installed by handleStop, with the duration it captured

  /** The state right after mounting, before the microphone request resolves. */
  const Initial: Recorder := Recorder(false, false, false, 0, [], false, false, false, None)

  /** How far `startRecording` got before something threw. */
  datatype StartFailure =
    | MicrophoneDenied      // getUserMedia rejected: nothing held
    | ContextFailed         // the AudioContext constructor threw: the stream is held
    | AnalyserFailed        // creating or wiring the analyser threw: stream and context held
    | RecorderCreateFailed  // the MediaRecorder constructor threw: stream and context held
    | RecorderStartFailed   // mediaRecorder.start() threw: the recorder ref is set as well

  datatype Event =
    | StartOk                         // startRecording ran to completion
    | StartFail(failure: StartFailure)
    | Tick                            // one firing of the one-second interval
    | PauseToggle                     // the pause button
    | DataAvailable(data: Chunk)      // the recorder's ondataavailable
    | Stop                            // the stop button
    | StopComplete                    // the recorder's onstop
    | CancelClick                     // the cancel button
    | Unmount                         // the mount effect's teardown

  datatype Effect =
    | ClearTimer | StopTracks | CloseContext        // what cleanup() releases
    | StartRecorder | PauseRecorder | ResumeRecorder | StopRecorder
    | AlertMicrophone                               // alert('Could not access microphone…')
    | NotifyCancel                                  // onCancel()
    | Complete(blob: Blob, seconds: nat)            // onComplete(audioBlob, duration)

  datatype Transition = Transition(next: Recorder, effects: seq<Effect>)

  /** The interval timer runs exactly while recording and not paused. */
  predicate Ticking(s: Recorder) {
    s.isRecording && !s.isPaused
  }

  predicate IsRelease(e: Effect) {
    e.ClearTimer? || e.StopTracks? || e.CloseContext?
  }

  /**
   * The timer effect re-runs whenever `isRecording` or `isPaused` changes and
   * sets a fresh interval when the recorder is ticking.
   */
  function Settle(s: Recorder): Recorder {
    s.(hasTimer := s.hasTimer || Ticking(s))
  }

  /** `cleanup()`: release each resource whose ref is set. The refs are left set. */
  function Cleanup(s: Recorder): (r: seq<Effect>)
    ensures forall e :: e in r ==> IsRelease(e)
    ensures (ClearTimer in r <==> s.hasTimer) && (StopTracks in r <==> s.hasStream)
    ensures CloseContext in r <==> s.hasContext
    ensures |r| == (if s.hasTimer then 1 else 0) + (if s.hasStream then 1 else 0) + (if s.hasContext then 1 else 0)
  {
    (if s.hasTimer then [ClearTimer] else [])
    + (if s.hasStream then [StopTracks] else [])
    + (if s.hasContext then [CloseContext] else [])
  }

  /** The bytes of the chunks, in order. */
  function Concat(chunks: seq<Chunk>): seq<byte> {
    if chunks == [] then [] else Concat(chunks[..|chunks| - 1]) + chunks[|chunks| - 1].bytes
  }

  // ---------------------------------------------------------------------------
  // one function per event
  // ---------------------------------------------------------------------------

  function OnStartOk(s: Recorder): (t: Transition)
    ensures t.next.isRecording && t.next.hasRecorder && t.next.hasStream && t.next.hasContext
    ensures t.next.isPaused == s.isPaused && t.next.duration == s.duration && t.next.chunks == s.chunks
    ensures t.effects == [StartRecorder]
  {
    Transition(Settle(s.(hasRecorder := true, isRecording := true, hasStream := true, hasContext := true)),
               [StartRecorder])
  }

  /**
   * A failed start alerts and calls `onCancel`; it never sets `isRecording`
   * and releases nothing, so every resource acquired before the throw stays
   * held.
   */
  function OnStartFail(s: Recorder, f: StartFailure): (t: Transition)
    ensures t.next.isRecording == s.isRecording && t.next.duration == s.duration
    ensures t.effects == [AlertMicrophone, NotifyCancel]
    ensures f == MicrophoneDenied ==> t.next == s
    ensures f != MicrophoneDenied ==> t.next.hasStream
    ensures f == ContextFailed ==> t.next == s.(hasStream := true)
    ensures f == AnalyserFailed || f == RecorderCreateFailed ==> t.next == s.(hasStream := true, hasContext := true)
    ensures f == RecorderStartFailed ==> t.next == s.(hasStream := true, hasContext := true, hasRecorder := true)
  {
    var stream := s.hasStream || f != MicrophoneDenied;
    var context := s.hasContext || f == AnalyserFailed || f == RecorderCreateFailed || f == RecorderStartFailed;
    var recorder := s.hasRecorder || f == RecorderStartFailed;
    Transition(s.(hasStream := stream, hasContext := context, hasRecorder := recorder),
               [AlertMicrophone, NotifyCancel])
  }

  /** A timer firing adds one second while ticking and changes nothing otherwise. */
  function OnTick(s: Recorder): (t: Transition)
    ensures t.next.duration == s.duration + (if Ticking(s) then 1 else 0)
    ensures t.next == s.(duration := t.next.duration)
    ensures t.effects == []
  {
    if Ticking(s) then Transition(s.(duration := s.duration + 1), []) else Transition(s, [])
  }

  /** `handlePause`: flips `isPaused` only when a recorder exists and `isRecording` holds. */
  function OnPauseToggle(s: Recorder): (t: Transition)
    ensures s.hasRecorder && s.isRecording ==> t.next.isPaused == !s.isPaused
    ensures !(s.hasRecorder && s.isRecording) ==> t == Transition(s, [])
    ensures t.next.duration == s.duration && t.next.chunks == s.chunks && t.next.isRecording == s.isRecording
    ensures s.hasRecorder && s.isRecording ==> t.effects == [if s.isPaused then ResumeRecorder else PauseRecorder]
  {
    if s.hasRecorder && s.isRecording then
      Transition(Settle(s.(isPaused := !s.isPaused)), [if s.isPaused then ResumeRecorder else PauseRecorder])
    else Transition(s, [])
  }

  /** `ondataavailable`: a non-empty chunk goes to the end of the list, an empty one is dropped. */
  function OnDataAvailable(s: Recorder, c: Chunk): (t: Transition)
    ensures |c.bytes| > 0 ==> t.next.chunks == s.chunks + [c]
    ensures |c.bytes| == 0 ==> t.next == s
    ensures t.next == s.(chunks := t.next.chunks) && t.effects == []
  {
    if |c.bytes| > 0 then Transition(s.(chunks := s.chunks + [c]), []) else Transition(s, [])
  }

  /** `handleStop`: stop the recorder, clear `isRecording`, and arm `onstop` with the current duration. */
  function OnStop(s: Recorder): (t: Transition)
    ensures s.hasRecorder ==> !t.next.isRecording && t.next.onStop == Some(s.duration)
    ensures s.hasRecorder ==> |t.effects| >= 1 && t.effects[0] == StopRecorder
    ensures !s.hasRecorder ==> t == Transition(s, [])
    ensures t.next.duration == s.duration && t.next.chunks == s.chunks
  {
    if s.hasRecorder then
      Transition(s.(isRecording := false, onStop := Some(s.duration)),
                 [StopRecorder] + (if s.hasTimer then [ClearTimer] else []))
    else Transition(s, [])
  }

  /**
   * The recorder's `onstop`: build the blob from the chunks, run `cleanup`,
   * then call `onComplete` with the duration captured at stop.
   */
  function OnStopComplete(s: Recorder): (t: Transition)
    ensures t.next == s
    ensures s.onStop.None? ==> t.effects == []
    ensures s.onStop.Some? ==>
              && |t.effects| >= 1
              && t.effects[|t.effects| - 1] == Complete(Blob(Concat(s.chunks), AudioType), s.onStop.value)
              && forall i :: 0 <= i < |t.effects| - 1 ==> IsRelease(t.effects[i])
  {
    match s.onStop
    case None => Transition(s, [])
    case Some(d) => Transition(s, Cleanup(s) + [Complete(Blob(Concat(s.chunks), AudioType), d)])
  }

  /**
   * One event of the component. Only a completed start sets `isRecording`
   * and only the stop button clears it, only a firing of the interval while ticking moves the duration, the cancel
   * button only calls `onCancel`, unmounting only runs `cleanup`, and only a
   * non-empty chunk changes the chunk list, at its end.
   */
  function Step(s: Recorder, e: Event): (t: Transition)
    ensures t.next.isRecording && !s.isRecording ==> e.StartOk?
    ensures !t.next.isRecording && s.isRecording ==> e.Stop? && s.hasRecorder
    ensures t.next.duration != s.duration ==> e.Tick? && Ticking(s) && t.next.duration == s.duration + 1
    ensures t.next.chunks == s.chunks + (if e.DataAvailable? && |e.data.bytes| > 0 then [e.data] else [])
    ensures e.CancelClick? ==> t.next == s && t.effects == [NotifyCancel]
    ensures e.Unmount? ==> t.next == s && t.effects == Cleanup(s)
  {
    match e
    case StartOk => OnStartOk(s)
    case StartFail(f) => OnStartFail(s, f)
    case Tick => OnTick(s)
    case PauseToggle => OnPauseToggle(s)
    case DataAvailable(c) => OnDataAvailable(s, c)
    case Stop => OnStop(s)
    case StopComplete => OnStopComplete(s)
    case CancelClick => Transition(s, [NotifyCancel])
    case Unmount => Transition(s, Cleanup(s))
  }

  /** A run of events from state `s`: the final state and every effect, in order. */
  function Run(s: Recorder, evs: seq<Event>): Transition
    decreases |evs|
  {
    if evs == [] then Transition(s, [])
    else
      var t := Step(s, evs[0]);
      var rest := Run(t.next, evs[1..]);
      Transition(rest.next, t.effects + rest.effects)
  }

  /** `formatTime`: `m:ss` of the elapsed seconds. */
  function FormatTime(seconds: nat): (r: string)
    ensures ParseClock(r) == Some((seconds / 60, seconds % 60))
  {
    ClockRoundTrip(seconds);
    FormatClock(seconds)
  }

  // ---------------------------------------------------------------------------
  // properties of runs
  // ---------------------------------------------------------------------------

  /** The non-empty chunks delivered by a run, in delivery order. */
  function Delivered(evs: seq<Event>): seq<Chunk> {
    if evs == [] then []
    else
      var rest := Delivered(evs[1..]);
      if evs[0].DataAvailable? && |evs[0].data.bytes| > 0 then [evs[0].data] + rest else rest
  }

  /** Whatever else happens, chunks are only ever appended, in the order they arrive. */
  lemma {:induction false} ChunksInArrivalOrder(s: Recorder, evs: seq<Event>)
    ensures Run(s, evs).next.chunks == s.chunks + Delivered(evs)
    decreases |evs|
  {
    if evs != [] {
      var t := Step(s, evs[0]);
      ChunksInArrivalOrder(t.next, evs[1..]);
      assert Run(s, evs).next == Run(t.next, evs[1..]).next;
    }
  }

  /** The blob's bytes are the concatenation of the chunks appended one after another. */
  lemma {:induction false} ConcatAppend(chunks: seq<Chunk>, more: seq<Chunk>)
    ensures Concat(chunks + more) == Concat(chunks) + Concat(more)
    decreases |more|
  {
    if more != [] {
      var all := chunks + more;
      var init := more[..|more| - 1];
      var last := more[|more| - 1].bytes;
      assert all[..|all| - 1] == chunks + init;
      assert all[|all| - 1].bytes == last;
      ConcatAppend(chunks, init);
      calc {
        Concat(all);
        Concat(chunks + init) + last;
        Concat(chunks) + Concat(init) + last;
        Concat(chunks) + (Concat(init) + last);
        Concat(chunks) + Concat(more);
      }
    } else {
      assert chunks + more == chunks;
    }
  }

  predicate TimerEvent(e: Event) {
    e.Tick? || e.PauseToggle?
  }

  /**
   * The ticks of a run of timer events that fire while not paused, starting
   * with the given pause flag: an independent account of what should count.
   */
  function UnpausedTicks(evs: seq<Event>, paused: bool): nat
    requires forall i :: 0 <= i < |evs| ==> TimerEvent(evs[i])
  {
    if evs == [] then 0
    else if evs[0].PauseToggle? then UnpausedTicks(evs[1..], !paused)
    else (if paused then 0 else 1) + UnpausedTicks(evs[1..], paused)
  }

  /**
   * Pausing and resuming are duration-neutral: while recording, a run of
   * timer events adds exactly the ticks that fire while not paused.
   */
  lemma {:induction false} DurationCountsUnpausedTicks(s: Recorder, evs: seq<Event>)
    requires s.hasRecorder && s.isRecording
    requires forall i :: 0 <= i < |evs| ==> TimerEvent(evs[i])
    ensures Run(s, evs).next.duration == s.duration + UnpausedTicks(evs, s.isPaused)
    ensures Run(s, evs).next.isRecording && Run(s, evs).next.hasRecorder
    decreases |evs|
  {
    if evs != [] {
      var t := Step(s, evs[0]);
      DurationCountsUnpausedTicks(t.next, evs[1..]);
    }
  }

  /** The number of pause toggles in a run. */
  function Toggles(evs: seq<Event>): nat {
    if evs == [] then 0 else (if evs[0].PauseToggle? then 1 else 0) + Toggles(evs[1..])
  }

  /** While recording, a run of timer events leaves `isPaused` flipped once per toggle. */
  lemma {:induction false} PausedAfterToggles(s: Recorder, evs: seq<Event>)
    requires s.hasRecorder && s.isRecording
    requires forall i :: 0 <= i < |evs| ==> TimerEvent(evs[i])
    ensures Run(s, evs).next.isPaused == (if Toggles(evs) % 2 == 0 then s.isPaused else !s.isPaused)
    decreases |evs|
  {
    if evs != [] {
      PausedAfterToggles(Step(s, evs[0]).next, evs[1..]);
    }
  }

  /** Two pause toggles restore the state; at most the timer ref has become set. */
  lemma ToggleTwiceRestores(s: Recorder)
    ensures var t := Step(s, PauseToggle).next;
            Step(t, PauseToggle).next.(hasTimer := s.hasTimer) == s
  {
  }

  /**
   * Once `isRecording` is false, and as long as the recorder is not started
   * again, ticks never count and pause toggles do nothing.
   */
  lemma {:induction false} StoppedStaysFrozen(s: Recorder, evs: seq<Event>)
    requires !s.isRecording
    requires forall i :: 0 <= i < |evs| ==> !evs[i].StartOk?
    ensures var u := Run(s, evs).next;
            !u.isRecording && u.duration == s.duration && u.isPaused == s.isPaused
    decreases |evs|
  {
    if evs != [] {
      var t := Step(s, evs[0]);
      StoppedStaysFrozen(t.next, evs[1..]);
    }
  }

  /**
   * After `handleStop` (which leaves `isRecording` false and arms `onstop` with
   * the duration at that moment, see `OnStop`), whatever events arrive before
   * `onstop` short of a new start or stop, the duration stays frozen and
   * `onstop` releases the held resources first, then hands `onComplete` the
   * in-order bytes of all chunks and the duration as of stop.
   */
  lemma StopThenComplete(t: Recorder, evs: seq<Event>)
    requires !t.isRecording && t.onStop == Some(t.duration)
    requires forall i :: 0 <= i < |evs| ==> !evs[i].StartOk? && !evs[i].Stop?
    ensures var u := Run(t, evs).next;
            var fx := Step(u, StopComplete).effects;
            && u.duration == t.duration
            && fx == Cleanup(u) + [Complete(Blob(Concat(t.chunks + Delivered(evs)), AudioType), t.duration)]
  {
    StoppedStaysFrozen(t, evs);
    ChunksInArrivalOrder(t, evs);
    OnStopKeepsHandler(t, evs);
  }

  /** Events other than a new start or stop leave the installed `onstop` handler alone. */
  lemma {:induction false} OnStopKeepsHandler(s: Recorder, evs: seq<Event>)
    requires forall i :: 0 <= i < |evs| ==> !evs[i].StartOk? && !evs[i].Stop?
    ensures Run(s, evs).next.onStop == s.onStop
    decreases |evs|
  {
    if evs != [] {
      OnStopKeepsHandler(Step(s, evs[0]).next, evs[1..]);
    }
  }

  /**
   * `cleanup` does not reset its refs, so the unmount teardown after a
   * completed stop closes the audio context a second time.
   */
  lemma TeardownReleasesTwice(s: Recorder)
    requires s.onStop.Some? && s.hasContext
    ensures var first := Step(s, StopComplete);
            var second := Step(first.next, Unmount);
            CloseContext in first.effects && CloseContext in second.effects
  {
  }

  /** A run with the step taken as a parameter, so that facts about runs need not look inside `Step`. */
  function RunWith(step: (Recorder, Event) -> Transition, s: Recorder, evs: seq<Event>): Transition
    decreases |evs|
  {
    if evs == [] then Transition(s, [])
    else
      var t := step(s, evs[0]);
      var rest := RunWith(step, t.next, evs[1..]);
      Transition(rest.next, t.effects + rest.effects)
  }

  /** `Run` is the run with the handlers' step. */
  lemma {:induction false} RunIsRunWith(s: Recorder, evs: seq<Event>)
    ensures Run(s, evs) == RunWith(Step, s, evs)
    decreases |evs|
  {
    if evs != [] {
      RunIsRunWith(Step(s, evs[0]).next, evs[1..]);
    }
  }

  /** For any step, a run split in two is the second part run from where the first part ends. */
  lemma {:induction false} RunWithAppend(step: (Recorder, Event) -> Transition, s: Recorder, a: seq<Event>, b: seq<Event>)
    ensures var first := RunWith(step, s, a);
            var second := RunWith(step, first.next, b);
            RunWith(step, s, a + b) == Transition(second.next, first.effects + second.effects)
    decreases |a|
  {
    if a == [] {
      assert a + b == b;
    } else {
      var t := step(s, a[0]);
      assert (a + b)[0] == a[0];
      assert (a + b)[1..] == a[1..] + b;
      RunWithAppend(step, t.next, a[1..], b);
      var mid := RunWith(step, t.next, a[1..]);
      var second := RunWith(step, mid.next, b);
      assert t.effects + (mid.effects + second.effects) == (t.effects + mid.effects) + second.effects;
    }
  }

  /** A run split in two is the second part run from where the first part ends. */
  lemma RunAppend(s: Recorder, a: seq<Event>, b: seq<Event>)
    ensures var first := Run(s, a);
            var second := Run(first.next, b);
            Run(s, a + b) == Transition(second.next, first.effects + second.effects)
  {
    RunIsRunWith(s, a);
    RunIsRunWith(s, a + b);
    RunIsRunWith(Run(s, a).next, b);
    RunWithAppend(Step, s, a, b);
  }

  /** A run of ticks alone counts every tick while running and none while paused. */
  lemma {:induction false} OnlyTicks(a: seq<Event>, paused: bool)
    requires forall i :: 0 <= i < |a| ==> a[i] == Tick
    ensures UnpausedTicks(a, paused) == (if paused then 0 else |a|) && Toggles(a) == 0
    decreases |a|
  {
    if a != [] {
      OnlyTicks(a[1..], paused);
    }
  }

  /** Counting over two runs in a row: the second part is counted from the pause state the first leaves. */
  lemma {:induction false} CountsAppend(a: seq<Event>, b: seq<Event>, paused: bool)
    requires forall i :: 0 <= i < |a| ==> TimerEvent(a[i])
    requires forall i :: 0 <= i < |b| ==> TimerEvent(b[i])
    ensures forall i :: 0 <= i < |a + b| ==> TimerEvent((a + b)[i])
    ensures UnpausedTicks(a + b, paused) ==
              UnpausedTicks(a, paused) + UnpausedTicks(b, if Toggles(a) % 2 == 0 then paused else !paused)
    ensures Toggles(a + b) == Toggles(a) + Toggles(b)
    decreases |a|
  {
    if a == [] {
      assert a + b == b;
    } else {
      assert (a + b)[0] == a[0] && (a + b)[1..] == a[1..] + b;
      CountsAppend(a[1..], b, if a[0].PauseToggle? then !paused else paused);
    }
  }

  /**
   * Interval firings while paused add nothing: firings, a pause, firings, a
   * resume, firings add exactly the firings before the pause and after the
   * resume, and the recording is ticking again at the end. Since every pause
   * change restarts the interval, a partial second before a pause or a
   * resume is never counted; the model counts firings, not elapsed time.
   */
  lemma PauseResumeNeutral(s: Recorder, a: seq<Event>, b: seq<Event>, c: seq<Event>)
    requires s.hasRecorder && Ticking(s)
    requires forall i :: 0 <= i < |a| ==> a[i] == Tick
    requires forall i :: 0 <= i < |b| ==> b[i] == Tick
    requires forall i :: 0 <= i < |c| ==> c[i] == Tick
    ensures var evs := a + [PauseToggle] + b + [PauseToggle] + c;
            var t := Run(s, evs).next;
            t.duration == s.duration + |a| + |c| && Ticking(t)
  {
    var p: seq<Event> := [PauseToggle];
    var evs := a + p + b + p + c;
    assert (forall i :: 0 <= i < |evs| ==> TimerEvent(evs[i]))
           && UnpausedTicks(evs, false) == |a| + |c| && Toggles(evs) == 2 by {
      assert UnpausedTicks(p, false) == 0 && UnpausedTicks(p, true) == 0 && Toggles(p) == 1 by {
        assert p[1..] == [];
      }
      OnlyTicks(a, false);
      OnlyTicks(b, true);
      OnlyTicks(c, false);
      CountsAppend(a, p, false);
      CountsAppend(a + p, b, false);
      CountsAppend(a + p + b, p, false);
      CountsAppend(a + p + b + p, c, false);
    }
    DurationCountsUnpausedTicks(s, evs);
    PausedAfterToggles(s, evs);
  }
}
