/** `SpeechManager`: the turn-taking state of one call. Final recogniser
    fragments are accumulated into one utterance; a single debounce timer,
    restarted by every fragment, hands the utterance on once the caller has
    been quiet for `WaitTime` milliseconds. The timer is the field
    `timerDeadline` (`None` when no timer is pending, so at most one is) and
    its firing is the explicit step `Tick`; clock readings are parameters.

    Each method of the class is specified by a step function on the value
    `TurnState` that says what the new state is and what was emitted; the
    turn-taking properties are lemmas about those step functions. */
module Speech {
  import opened Wrappers
  import opened JsText

  /** `state.transcript.waitTime`. */
  const WaitTime: int := 3000

  /** What the manager emits to its listeners. */
  datatype SpeechEvent = ProcessingTranscript(text: string) | TtsStarted | TtsStopped

  /** The fields of `this.state` that the manager updates. */
  datatype TurnState = TurnState(
    streamSid: Option<string>,
    isStreamStarted: bool,
    accumulated: string,
    timerDeadline: Option<int>,
    lastTranscriptTime: Option<int>,
    isSpeaking: bool,
    lastResponseTime: int)

  /** A new state and the events emitted on the way, in order. */
  datatype Step = Step(next: TurnState, emitted: seq<SpeechEvent>)

  /** The utterance has no whitespace at its ends, and a non-empty one has a
      time stamp and a pending timer that will hand it on. */
  predicate ValidState(st: TurnState)
  {
    && IsTrimmed(st.accumulated)
    && (st.accumulated != "" ==> st.timerDeadline.Some? && st.lastTranscriptTime.Some?)
  }

  function InitialState(now: int): (st: TurnState)
    ensures ValidState(st)
  {
    TurnState(None, false, "", None, None, false, now)
  }

  /** The update `accumulateTranscript` performs on the accumulated text. */
  function Accumulate(acc: string, t: string): (r: string)
    ensures |r| == |acc| + |t| + (if acc == "" then 0 else 1)
    ensures r[..|acc|] == acc && r[|r| - |t|..] == t
    ensures acc != "" ==> r[|acc|] == ' '
  {
    if acc != "" then acc + " " + t else t
  }

  /** Reference definition: fragments joined by single spaces. */
  function Join(fs: seq<string>): string
  {
    if fs == [] then ""
    else if |fs| == 1 then fs[0]
    else Join(fs[..|fs| - 1]) + " " + fs[|fs| - 1]
  }

  /** What `handleTranscript` lets into the utterance: non-empty, trimmed texts. */
  predicate Fragments(fs: seq<string>)
  {
    forall i :: 0 <= i < |fs| ==> fs[i] != "" && IsTrimmed(fs[i])
  }

  lemma JoinEmpty(fs: seq<string>)
    requires Fragments(fs)
    ensures Join(fs) == "" <==> fs == []
  {
    if |fs| >= 2 {
      var j := Join(fs);
      assert j[|j| - 1 - |fs[|fs| - 1]|] == ' ';
    }
  }

  /** Accumulating one more fragment is joining it to the fragments so far. */
  lemma JoinStep(fs: seq<string>, f: string)
    requires Fragments(fs)
    ensures Join(fs + [f]) == Accumulate(Join(fs), f)
  {
    JoinEmpty(fs);
    if fs != [] {
      assert (fs + [f])[..|fs|] == fs;
    }
  }

  /** A joined utterance has no whitespace at its ends. */
  lemma {:induction false} JoinTrimmed(fs: seq<string>)
    requires Fragments(fs)
    ensures IsTrimmed(Join(fs))
  {
    if |fs| >= 2 {
      var init := fs[..|fs| - 1];
      JoinTrimmed(init);
      JoinEmpty(init);
      var j := Join(fs);
      assert j[0] == Join(init)[0];
      assert j[|j| - 1] == fs[|fs| - 1][|fs[|fs| - 1]| - 1];
    }
  }

  /** Accumulating a trimmed non-empty fragment onto a trimmed utterance
      gives a trimmed non-empty utterance. */
  lemma AccumulateTrimmed(acc: string, t: string)
    requires IsTrimmed(t) && t != ""
    ensures Accumulate(acc, t) != ""
    ensures IsTrimmed(acc) ==> IsTrimmed(Accumulate(acc, t))
  {
    if acc != "" && IsTrimmed(acc) {
      var r := acc + " " + t;
      assert r[0] == acc[0] && r[|r| - 1] == t[|t| - 1];
    }
  }

  // ---------------------------------------------------------------------
  // Step functions, one per method

  /** `setStreamSid`. */
  function SetStreamSidStep(st: TurnState, sid: Option<string>): (r: TurnState)
    ensures ValidState(st) ==> ValidState(r)
    ensures r.isStreamStarted && r.streamSid == sid
  {
    st.(streamSid := sid, isStreamStarted := true)
  }

  /** `resetTranscriptTimer`: the pending timer, if any, is replaced by one
      due `WaitTime` from now. */
  function ResetTimerStep(st: TurnState, now: int): (r: TurnState)
    ensures r.timerDeadline == Some(now + WaitTime)
    ensures r.(timerDeadline := st.timerDeadline) == st
  {
    st.(timerDeadline := Some(now + WaitTime))
  }

  /** `accumulateTranscript`. */
  function AccumulateStep(st: TurnState, t: string, now: int): (r: TurnState)
    ensures ValidState(st) && IsTrimmed(t) && t != "" ==> ValidState(r)
    ensures r.accumulated == Accumulate(st.accumulated, t)
    ensures r.lastTranscriptTime == Some(now) && r.timerDeadline == Some(now + WaitTime)
    ensures r.(accumulated := st.accumulated, lastTranscriptTime := st.lastTranscriptTime,
               timerDeadline := st.timerDeadline) == st
  {
    assert ValidState(st) && IsTrimmed(t) && t != "" ==> IsTrimmed(Accumulate(st.accumulated, t)) by {
      if IsTrimmed(t) && t != "" { AccumulateTrimmed(st.accumulated, t); }
    }
    ResetTimerStep(st.(accumulated := Accumulate(st.accumulated, t), lastTranscriptTime := Some(now)), now)
  }

  /** `stopTTS`. */
  function StopTtsStep(st: TurnState): (r: Step)
    ensures ValidState(st) ==> ValidState(r.next)
    ensures !r.next.isSpeaking
    ensures r.emitted == (if st.isSpeaking then [TtsStopped] else [])
    ensures r.next.(isSpeaking := st.isSpeaking) == st
  {
    if st.isSpeaking then Step(st.(isSpeaking := false), [TtsStopped]) else Step(st, [])
  }

  /** `startTTS`. */
  function StartTtsStep(st: TurnState, now: int): (r: Step)
    ensures ValidState(st) ==> ValidState(r.next)
    ensures r.next.isSpeaking && r.emitted == [TtsStarted]
    ensures r.next.(isSpeaking := st.isSpeaking, lastResponseTime := st.lastResponseTime) == st
  {
    Step(st.(isSpeaking := true, lastResponseTime := now), [TtsStarted])
  }

  /** `handleTranscript`. */
  function TranscriptStep(st: TurnState, transcript: string, isPartial: bool, now: int): (r: Step)
    ensures ValidState(st) ==> ValidState(r.next)
    ensures r.emitted == (if !isPartial && Trim(transcript) != "" && st.isSpeaking then [TtsStopped] else [])
  {
    if isPartial then Step(ResetTimerStep(st, now), [])
    else
      var t := Trim(transcript);
      if t == "" then Step(st, [])
      else
        var stop := if st.isSpeaking then StopTtsStep(st) else Step(st, []);
        AccumulateTrimmed(st.accumulated, t);
        Step(AccumulateStep(stop.next, t, now), stop.emitted)
  }

  /** `processAccumulatedTranscript`. */
  function ProcessStep(st: TurnState): (r: Step)
    ensures ValidState(st) ==> ValidState(r.next)
  {
    var t := Trim(st.accumulated);
    if t == "" then Step(st, [])
    else Step(st.(accumulated := "", timerDeadline := None, lastTranscriptTime := None), [ProcessingTranscript(t)])
  }

  /** The clock reaches `now`: a pending timer that is due fires, and is no
      longer pending, and runs `processAccumulatedTranscript`. */
  function TickStep(st: TurnState, now: int): (r: Step)
    ensures ValidState(st) ==> ValidState(r.next)
  {
    if st.timerDeadline.Some? && now >= st.timerDeadline.value then ProcessStep(st.(timerDeadline := None))
    else Step(st, [])
  }

  /** `cleanup`. */
  function CleanupStep(st: TurnState): (r: TurnState)
    ensures ValidState(r)
    ensures r.timerDeadline == None && r.accumulated == "" && !r.isSpeaking
    ensures !r.isStreamStarted && r.streamSid == None
    ensures r.lastTranscriptTime == st.lastTranscriptTime && r.lastResponseTime == st.lastResponseTime
  {
    st.(timerDeadline := None, accumulated := "", isSpeaking := false, isStreamStarted := false, streamSid := None)
  }

  // ---------------------------------------------------------------------
  // Properties of single steps

  /** A partial fragment only restarts the debounce timer. */
  lemma PartialOnlyRestartsTimer(st: TurnState, transcript: string, now: int)
    ensures var r := TranscriptStep(st, transcript, true, now);
      && r.emitted == []
      && r.next.accumulated == st.accumulated && r.next.isSpeaking == st.isSpeaking
      && r.next.lastTranscriptTime == st.lastTranscriptTime
      && r.next.timerDeadline == Some(now + WaitTime)
  {
  }

  /** A final fragment that trims to nothing changes nothing at all. */
  lemma BlankFinalIgnored(st: TurnState, transcript: string, now: int)
    requires AllWhitespace(transcript)
    ensures TranscriptStep(st, transcript, false, now) == Step(st, [])
  {
    TrimEmpty(transcript);
  }

  /** A final fragment with text is appended, separated by one space from
      earlier text; it stops speech first when the agent is speaking
      (barge-in), and restarts the timer. */
  lemma FinalFragmentAppends(st: TurnState, transcript: string, now: int)
    requires !AllWhitespace(transcript)
    ensures var r := TranscriptStep(st, transcript, false, now);
      var t := Trim(transcript);
      && t != ""
      && r.next.accumulated == (if st.accumulated == "" then t else st.accumulated + " " + t)
      && !r.next.isSpeaking
      && r.emitted == (if st.isSpeaking then [TtsStopped] else [])
      && r.next.lastTranscriptTime == Some(now) && r.next.timerDeadline == Some(now + WaitTime)
      && r.next.streamSid == st.streamSid && r.next.isStreamStarted == st.isStreamStarted
  {
    TrimEmpty(transcript);
  }

  /** A timer that fires with a non-empty utterance emits it once, trimmed,
      and clears the utterance, the timer and the time stamp. */
  lemma FireEmitsUtterance(st: TurnState, now: int)
    requires ValidState(st) && st.accumulated != ""
    requires now >= st.timerDeadline.value
    ensures TickStep(st, now) ==
      Step(st.(accumulated := "", timerDeadline := None, lastTranscriptTime := None),
           [ProcessingTranscript(st.accumulated)])
  {
  }

  /** A timer that fires with nothing accumulated (after partials only)
      emits nothing, and only stops being pending. */
  lemma FireWithNothingIsQuiet(st: TurnState, now: int)
    requires st.accumulated == ""
    ensures TickStep(st, now).emitted == []
    ensures TickStep(st, now).next.(timerDeadline := st.timerDeadline) == st
  {
    TrimEmpty(st.accumulated);
  }

  /** `stopTTS` is idempotent. */
  lemma StopTtsIdempotent(st: TurnState)
    ensures var once := StopTtsStep(st);
      StopTtsStep(once.next) == Step(once.next, [])
  {
  }

  /** `cleanup` is idempotent and emits nothing: it leaves the same state
      however often it runs. */
  lemma CleanupIdempotent(st: TurnState)
    ensures CleanupStep(CleanupStep(st)) == CleanupStep(st)
    ensures !CleanupStep(st).isStreamStarted && CleanupStep(st).streamSid == None
  {
  }

  /** Only `setStreamSid` starts the stream and only `cleanup` stops it. */
  lemma StreamingChangesOnlyAtStartAndCleanup(st: TurnState, transcript: string, isPartial: bool, now: int)
    ensures TranscriptStep(st, transcript, isPartial, now).next.isStreamStarted == st.isStreamStarted
    ensures TickStep(st, now).next.isStreamStarted == st.isStreamStarted
    ensures StartTtsStep(st, now).next.isStreamStarted == st.isStreamStarted
    ensures StopTtsStep(st).next.isStreamStarted == st.isStreamStarted
  {
  }

  // ---------------------------------------------------------------------
  // Runs of fragments: the debounce turns a burst into one utterance

  /** A recogniser fragment as `handleTranscript` receives it, with the time
      it arrives. */
  datatype Fragment = Fragment(text: string, isPartial: bool, at: int)

  /** The fragments `handleTranscript` runs on, one after another. */
  function Run(st: TurnState, inputs: seq<Fragment>): (r: Step)
    ensures ValidState(st) ==> ValidState(r.next)
  {
    if inputs == [] then Step(st, [])
    else
      var before := Run(st, inputs[..|inputs| - 1]);
      var f := inputs[|inputs| - 1];
      var last := TranscriptStep(before.next, f.text, f.isPartial, f.at);
      Step(last.next, before.emitted + last.emitted)
  }

  /** The trimmed texts of the final fragments that are not blank, in order. */
  function FinalTexts(inputs: seq<Fragment>): (fs: seq<string>)
    ensures Fragments(fs)
  {
    if inputs == [] then []
    else
      FinalTexts(inputs[..|inputs| - 1]) + NewFinal(inputs[|inputs| - 1])
  }

  /** When the last fragment that restarted the timer arrived. */
  function LastRestart(inputs: seq<Fragment>): Option<int>
  {
    if inputs == [] then None
    else
      var f := inputs[|inputs| - 1];
      if Restarts(f) then Some(f.at) else LastRestart(inputs[..|inputs| - 1])
  }

  /** Whether a fragment restarts the timer: a partial does, and so does a
      final with text; a blank final changes nothing. */
  predicate Restarts(f: Fragment)
  {
    f.isPartial || Trim(f.text) != ""
  }

  /** The non-blank final text of one fragment, as a list of zero or one. */
  function NewFinal(f: Fragment): (fs: seq<string>)
    ensures Fragments(fs) && |fs| <= 1
  {
    var t := Trim(f.text);
    if !f.isPartial && t != "" then [t] else []
  }

  /** Kept as lemmas so that `RunAccumulates` sees only the instances it
      needs. */
  lemma AppendAssociative(a: seq<string>, b: seq<string>, c: seq<string>)
    ensures a + (b + c) == (a + b) + c
  {
  }

  lemma FragmentsAppend(a: seq<string>, b: seq<string>)
    requires Fragments(a) && Fragments(b)
    ensures Fragments(a + b)
  {
  }

  /** One fragment extends the utterance by its non-blank final text. */
  lemma FragmentAccumulates(st: TurnState, fs: seq<string>, f: Fragment)
    requires ValidState(st) && Fragments(fs) && st.accumulated == Join(fs)
    ensures TranscriptStep(st, f.text, f.isPartial, f.at).next.accumulated == Join(fs + NewFinal(f))
  {
    var t := Trim(f.text);
    if !f.isPartial && t != "" {
      TrimEmpty(f.text);
      FinalFragmentAppends(st, f.text, f.at);
      JoinStep(fs, t);
    } else {
      assert fs + NewFinal(f) == fs;
    }
  }

  /** Running fragments keeps the state valid and makes the utterance the
      earlier fragments and the new non-blank finals joined by single
      spaces. */
  lemma {:induction false} RunAccumulates(st: TurnState, prev: seq<string>, inputs: seq<Fragment>)
    requires ValidState(st) && Fragments(prev) && st.accumulated == Join(prev)
    ensures ValidState(Run(st, inputs).next)
    ensures Run(st, inputs).next.accumulated == Join(prev + FinalTexts(inputs))
  {
    if inputs != [] {
      var init := inputs[..|inputs| - 1];
      var f := inputs[|inputs| - 1];
      RunAccumulates(st, prev, init);
      var fs := prev + FinalTexts(init);
      FragmentsAppend(prev, FinalTexts(init));
      var before := Run(st, init).next;
      FragmentAccumulates(before, fs, f);
      assert Run(st, inputs).next == TranscriptStep(before, f.text, f.isPartial, f.at).next;
      assert FinalTexts(inputs) == FinalTexts(init) + NewFinal(f);
      AppendAssociative(prev, FinalTexts(init), NewFinal(f));
      assert prev + FinalTexts(inputs) == fs + NewFinal(f);
    } else {
      assert prev + FinalTexts(inputs) == prev;
    }
  }

  /** After a run the timer is due `WaitTime` after the last fragment that
      restarted it, or is as before when none did. */
  lemma {:induction false} RunTimer(st: TurnState, inputs: seq<Fragment>)
    ensures Run(st, inputs).next.timerDeadline ==
      (if LastRestart(inputs).Some? then Some(LastRestart(inputs).value + WaitTime) else st.timerDeadline)
  {
    if inputs != [] {
      RunTimer(st, inputs[..|inputs| - 1]);
    }
  }

  /** A run stops speech exactly when it was playing and a non-blank final
      came in, emitting exactly one `ttsStopped`, and never touches the
      stream fields. */
  lemma {:induction false} RunBargeIn(st: TurnState, inputs: seq<Fragment>)
    ensures var r := Run(st, inputs);
      && r.next.isSpeaking == (st.isSpeaking && FinalTexts(inputs) == [])
      && r.emitted == (if st.isSpeaking && FinalTexts(inputs) != [] then [TtsStopped] else [])
      && r.next.streamSid == st.streamSid && r.next.isStreamStarted == st.isStreamStarted
  {
    if inputs != [] {
      var init := inputs[..|inputs| - 1];
      var f := inputs[|inputs| - 1];
      RunBargeIn(st, init);
      var before := Run(st, init);
      FragmentSpeech(before.next, f);
      assert FinalTexts(inputs) == FinalTexts(init) + NewFinal(f);
    }
  }

  /** One fragment stops speech exactly when it is a non-blank final. */
  lemma FragmentSpeech(st: TurnState, f: Fragment)
    ensures var r := TranscriptStep(st, f.text, f.isPartial, f.at);
      && r.next.isSpeaking == (st.isSpeaking && NewFinal(f) == [])
      && r.emitted == (if st.isSpeaking && NewFinal(f) != [] then [TtsStopped] else [])
      && r.next.streamSid == st.streamSid && r.next.isStreamStarted == st.isStreamStarted
  {
    if !f.isPartial && Trim(f.text) != "" {
      TrimEmpty(f.text);
      FinalFragmentAppends(st, f.text, f.at);
    }
  }

  // ---------------------------------------------------------------------
  // Fragments in time: the clock reaches each fragment's arrival first

  /** Fragments as they happen in time: before a fragment is handled the
      clock reaches its arrival time, so a timer that is due by then fires
      first. */
  function Listen(st: TurnState, inputs: seq<Fragment>): (r: Step)
    ensures ValidState(st) ==> ValidState(r.next)
  {
    if inputs == [] then Step(st, [])
    else
      var before := Listen(st, inputs[..|inputs| - 1]);
      var f := inputs[|inputs| - 1];
      var tick := TickStep(before.next, f.at);
      var last := TranscriptStep(tick.next, f.text, f.isPartial, f.at);
      Step(last.next, before.emitted + tick.emitted + last.emitted)
  }

  /** Each fragment arrives less than `WaitTime` after the last earlier
      fragment that restarted the timer: the caller never pauses long enough
      for the timer to fire. */
  predicate Spaced(inputs: seq<Fragment>)
  {
    forall i :: 0 < i < |inputs| && LastRestart(inputs[..i]).Some? ==>
      inputs[i].at < LastRestart(inputs[..i]).value + WaitTime
  }

  /** No utterance is among the events. */
  predicate NoUtterance(es: seq<SpeechEvent>)
  {
    forall i :: 0 <= i < |es| ==> !es[i].ProcessingTranscript?
  }

  /** During a burst without pauses the timer never hands anything on: the
      utterance grows by the non-blank finals and the timer stays due
      `WaitTime` after the last fragment that restarted it. */
  lemma {:induction false} ListenAccumulates(st: TurnState, inputs: seq<Fragment>)
    requires ValidState(st) && st.accumulated == "" && Spaced(inputs)
    ensures Accumulating(st, inputs)
  {
    if inputs != [] {
      SpacedPrefix(inputs);
      ListenAccumulates(st, inputs[..|inputs| - 1]);
      ListenStep(st, inputs);
    }
  }

  /** The state of a burst so far: the utterance holds its non-blank finals
      and no utterance has been emitted, and once there is text the timer is
      due `WaitTime` after the last fragment that restarted it. */
  predicate Accumulating(st: TurnState, inputs: seq<Fragment>)
  {
    var r := Listen(st, inputs);
    && r.next.accumulated == Join(FinalTexts(inputs))
    && NoUtterance(r.emitted)
    && (FinalTexts(inputs) != [] ==>
          LastRestart(inputs).Some? && r.next.timerDeadline == Some(LastRestart(inputs).value + WaitTime))
  }

  /** The inductive step of `ListenAccumulates`: the last fragment of a
      burst, arriving before the timer is due, keeps the utterance, the
      quiet and the timer as stated. */
  lemma ListenStep(st: TurnState, inputs: seq<Fragment>)
    requires ValidState(st) && inputs != [] && Accumulating(st, inputs[..|inputs| - 1])
    requires var init := inputs[..|inputs| - 1];
      LastRestart(init).Some? ==> inputs[|inputs| - 1].at < LastRestart(init).value + WaitTime
    ensures Accumulating(st, inputs)
  {
    var init := inputs[..|inputs| - 1];
    var f := inputs[|inputs| - 1];
    var before := Listen(st, init);
    if FinalTexts(init) != [] {
      LastRestartOfFinal(init);
    }
    QuietTickThenFragment(before.next, FinalTexts(init), f, LastRestart(init));
    var tick := TickStep(before.next, f.at);
    var last := TranscriptStep(tick.next, f.text, f.isPartial, f.at);
    assert Listen(st, inputs) == Step(last.next, before.emitted + tick.emitted + last.emitted);
    NoUtteranceAppend(before.emitted, last.emitted);
    BurstBookkeeping(inputs, last.next.timerDeadline);
  }

  /** How the texts and the last restart of a burst follow its last
      fragment, and so where the timer stands after it. */
  lemma BurstBookkeeping(inputs: seq<Fragment>, deadline: Option<int>)
    requires inputs != []
    requires var init := inputs[..|inputs| - 1];
      var f := inputs[|inputs| - 1];
      && (FinalTexts(init) != [] ==> LastRestart(init).Some?)
      && (Restarts(f) ==> deadline == Some(f.at + WaitTime))
      && (!Restarts(f) && FinalTexts(init) != [] ==>
            deadline == Some(LastRestart(init).value + WaitTime))
    ensures FinalTexts(inputs) == FinalTexts(inputs[..|inputs| - 1]) + NewFinal(inputs[|inputs| - 1])
    ensures FinalTexts(inputs) != [] ==>
      LastRestart(inputs).Some? && deadline == Some(LastRestart(inputs).value + WaitTime)
  {
    var init := inputs[..|inputs| - 1];
    var f := inputs[|inputs| - 1];
    assert FinalTexts(inputs) == FinalTexts(init) + NewFinal(f);
    if Restarts(f) {
      assert LastRestart(inputs) == Some(f.at);
    } else {
      assert LastRestart(inputs) == LastRestart(init);
      assert NewFinal(f) == [];
    }
  }

  /** A burst without pauses stays one without its last fragment, and that
      fragment arrives before the timer is due. */
  lemma SpacedPrefix(inputs: seq<Fragment>)
    requires inputs != [] && Spaced(inputs)
    ensures Spaced(inputs[..|inputs| - 1])
    ensures var init := inputs[..|inputs| - 1];
      LastRestart(init).Some? ==> inputs[|inputs| - 1].at < LastRestart(init).value + WaitTime
  {
    var init := inputs[..|inputs| - 1];
    forall i | 0 < i < |init| && LastRestart(init[..i]).Some?
      ensures init[i].at < LastRestart(init[..i]).value + WaitTime
    {
      assert init[..i] == inputs[..i];
    }
    if LastRestart(init).Some? {
      assert inputs[..|init|] == init;
    }
  }

  lemma NoUtteranceAppend(a: seq<SpeechEvent>, b: seq<SpeechEvent>)
    requires NoUtterance(a) && NoUtterance(b)
    ensures NoUtterance(a + b) && NoUtterance(a + [] + b)
  {
    assert a + [] + b == a + b;
    forall i | 0 <= i < |a + b| ensures !(a + b)[i].ProcessingTranscript? {
      if i >= |a| { assert (a + b)[i] == b[i - |a|]; }
    }
  }

  /** One step of a burst: the clock reaches the fragment's arrival before
      the timer is due, so nothing fires, and then the fragment is handled. */
  lemma QuietTickThenFragment(b: TurnState, fs: seq<string>, f: Fragment, lr: Option<int>)
    requires ValidState(b) && Fragments(fs) && b.accumulated == Join(fs)
    requires fs != [] ==> lr.Some? && b.timerDeadline == Some(lr.value + WaitTime) && f.at < lr.value + WaitTime
    ensures var tick := TickStep(b, f.at);
      var last := TranscriptStep(tick.next, f.text, f.isPartial, f.at);
      && tick.emitted == []
      && NoUtterance(last.emitted)
      && last.next.accumulated == Join(fs + NewFinal(f))
      && (Restarts(f) ==> last.next.timerDeadline == Some(f.at + WaitTime))
      && (!Restarts(f) && fs != [] ==> last.next.timerDeadline == Some(lr.value + WaitTime))
  {
    QuietTick(b, fs, f.at, lr);
    var c := TickStep(b, f.at).next;
    FragmentAccumulates(c, fs, f);
    FragmentTimer(c, f);
  }

  /** Before the pending timer is due, or with nothing accumulated, a tick
      emits nothing and leaves the utterance as it was. */
  lemma QuietTick(b: TurnState, fs: seq<string>, at: int, lr: Option<int>)
    requires ValidState(b) && Fragments(fs) && b.accumulated == Join(fs)
    requires fs != [] ==> lr.Some? && b.timerDeadline == Some(lr.value + WaitTime) && at < lr.value + WaitTime
    ensures TickStep(b, at).emitted == []
    ensures ValidState(TickStep(b, at).next) && TickStep(b, at).next.accumulated == b.accumulated
    ensures fs != [] ==> TickStep(b, at).next.timerDeadline == b.timerDeadline
  {
    if fs == [] {
      FireWithNothingIsQuiet(b, at);
    }
  }

  /** The timer after one fragment: restarted unless it is a blank final,
      which changes nothing; no fragment emits an utterance. */
  lemma FragmentTimer(c: TurnState, f: Fragment)
    ensures var last := TranscriptStep(c, f.text, f.isPartial, f.at);
      && NoUtterance(last.emitted)
      && (Restarts(f) ==> last.next.timerDeadline == Some(f.at + WaitTime))
      && (!Restarts(f) ==> last.next.timerDeadline == c.timerDeadline)
  {
    if f.isPartial {
      PartialOnlyRestartsTimer(c, f.text, f.at);
    } else if Trim(f.text) != "" {
      TrimEmpty(f.text);
      FinalFragmentAppends(c, f.text, f.at);
    }
  }

  /** The debounce, end to end: a burst of fragments that holds at least one
      non-blank final, with no pause of `WaitTime` between them and starting
      with nothing accumulated, emits no utterance while it lasts. Afterwards
      the timer does not fire before `WaitTime` has passed since the last
      fragment that restarted it; once it has, exactly one
      `processingTranscript` is emitted, carrying the non-blank finals joined
      by single spaces, and nothing is left over. */
  lemma BurstYieldsOneUtterance(st: TurnState, inputs: seq<Fragment>, now: int)
    requires ValidState(st) && st.accumulated == "" && Spaced(inputs)
    requires FinalTexts(inputs) != []
    ensures LastRestart(inputs).Some?
    ensures NoUtterance(Listen(st, inputs).emitted)
    ensures var r := Listen(st, inputs).next;
      && (now < LastRestart(inputs).value + WaitTime ==> TickStep(r, now) == Step(r, []))
      && (now >= LastRestart(inputs).value + WaitTime ==>
            TickStep(r, now).emitted == [ProcessingTranscript(Join(FinalTexts(inputs)))]
            && TickStep(r, now).next.accumulated == "")
  {
    ListenAccumulates(st, inputs);
    JoinEmpty(FinalTexts(inputs));
    JoinTrimmed(FinalTexts(inputs));
  }

  lemma {:induction false} LastRestartOfFinal(inputs: seq<Fragment>)
    requires FinalTexts(inputs) != []
    ensures LastRestart(inputs).Some?
  {
    var f := inputs[|inputs| - 1];
    if !Restarts(f) {
      LastRestartOfFinal(inputs[..|inputs| - 1]);
    }
  }

  // ---------------------------------------------------------------------
  // The class

  class SpeechManager {
    var streamSid: Option<string>
    var isStreamStarted: bool
    /** `state.transcript.accumulated`. */
    var accumulated: string
    /** When the pending debounce timer fires; `None` when none is pending. */
    var timerDeadline: Option<int>
    var lastTranscriptTime: Option<int>
    /** `state.tts.isSpeaking`. */
    var isSpeaking: bool
    var lastResponseTime: int
    /** Everything emitted so far, in order. */
    ghost var events: seq<SpeechEvent>

    function State(): TurnState
      reads this
    {
      TurnState(streamSid, isStreamStarted, accumulated, timerDeadline, lastTranscriptTime, isSpeaking, lastResponseTime)
    }

    ghost predicate Valid()
      reads this
    {
      ValidState(State())
    }

    constructor(now: int)
      ensures Valid() && State() == InitialState(now) && events == []
    {
      streamSid := None;
      isStreamStarted := false;
      accumulated := "";
      timerDeadline := None;
      lastTranscriptTime := None;
      isSpeaking := false;
      lastResponseTime := now;
      events := [];
    }

    /** `isStreaming`: whether a stream has started and not been cleaned up. */
    function IsStreaming(): (r: bool)
      reads this
      ensures r == State().isStreamStarted
    {
      isStreamStarted
    }

    /** `isSpeaking`: whether a reply is being voiced. */
    function IsSpeaking(): (r: bool)
      reads this
      ensures r == State().isSpeaking
    {
      isSpeaking
    }

    method SetStreamSid(sid: Option<string>)
      requires Valid()
      modifies this`streamSid, this`isStreamStarted
      ensures Valid()
      ensures State() == SetStreamSidStep(old(State()), sid)
    {
      streamSid := sid;
      isStreamStarted := true;
    }

    method ResetTranscriptTimer(now: int)
      modifies this`timerDeadline
      ensures State() == ResetTimerStep(old(State()), now)
    {
      timerDeadline := Some(now + WaitTime);
    }

    /** Called only with a trimmed, non-empty fragment. */
    method AccumulateTranscript(t: string, now: int)
      requires Valid()
      requires t != "" && IsTrimmed(t)
      modifies this`accumulated, this`lastTranscriptTime, this`timerDeadline
      ensures Valid()
      ensures State() == AccumulateStep(old(State()), t, now)
    {
      AccumulateTrimmed(accumulated, t);
      if accumulated != "" {
        accumulated := accumulated + " " + t;
      } else {
        accumulated := t;
      }
      lastTranscriptTime := Some(now);
      ResetTranscriptTimer(now);
    }

    method HandleTranscript(transcript: string, isPartial: bool, now: int) returns (emitted: seq<SpeechEvent>)
      requires Valid()
      modifies this`accumulated, this`lastTranscriptTime, this`timerDeadline, this`isSpeaking, this`events
      ensures Valid()
      ensures Step(State(), emitted) == TranscriptStep(old(State()), transcript, isPartial, now)
      ensures events == old(events) + emitted
    {
      emitted := [];
      if isPartial {
        ResetTranscriptTimer(now);
        return;
      }
      var trimmedTranscript := Trim(transcript);
      if trimmedTranscript == "" {
        return;
      }
      if isSpeaking {
        emitted := StopTts();
      }
      AccumulateTranscript(trimmedTranscript, now);
    }

    method ProcessAccumulatedTranscript() returns (emitted: seq<SpeechEvent>)
      modifies this`accumulated, this`lastTranscriptTime, this`timerDeadline, this`events
      ensures Step(State(), emitted) == ProcessStep(old(State()))
      ensures events == old(events) + emitted
    {
      var transcript := Trim(accumulated);
      if transcript == "" {
        return [];
      }
      emitted := [ProcessingTranscript(transcript)];
      events := events + emitted;
      accumulated := "";
      timerDeadline := None;
      lastTranscriptTime := None;
    }

    method Tick(now: int) returns (emitted: seq<SpeechEvent>)
      requires Valid()
      modifies this`accumulated, this`lastTranscriptTime, this`timerDeadline, this`events
      ensures Valid()
      ensures Step(State(), emitted) == TickStep(old(State()), now)
      ensures events == old(events) + emitted
    {
      emitted := [];
      if timerDeadline.Some? && now >= timerDeadline.value {
        timerDeadline := None;
        assert Trim(accumulated) == accumulated;
        emitted := ProcessAccumulatedTranscript();
      }
    }

    method StartTts(now: int)
      requires Valid()
      modifies this`isSpeaking, this`lastResponseTime, this`events
      ensures Valid()
      ensures State() == StartTtsStep(old(State()), now).next
      ensures events == old(events) + [TtsStarted]
    {
      isSpeaking := true;
      lastResponseTime := now;
      events := events + [TtsStarted];
    }

    method StopTts() returns (emitted: seq<SpeechEvent>)
      requires Valid()
      modifies this`isSpeaking, this`events
      ensures Valid()
      ensures Step(State(), emitted) == StopTtsStep(old(State()))
      ensures events == old(events) + emitted
    {
      emitted := [];
      if isSpeaking {
        isSpeaking := false;
        emitted := [TtsStopped];
        events := events + emitted;
      }
    }

    method Cleanup()
      modifies this`timerDeadline, this`accumulated, this`isSpeaking, this`isStreamStarted, this`streamSid
      ensures Valid()
      ensures State() == CleanupStep(old(State()))
    {
      timerDeadline := None;
      accumulated := "";
      isSpeaking := false;
      isStreamStarted := false;
      streamSid := None;
    }
  }
}
