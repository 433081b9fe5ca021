/** The state kept by connectToLiveSession for one realtime interview session:
    the playback clock and the set of playing sources (the playback scheduler),
    the two transcript accumulators (the transcript assembler), and what the
    session hands to the outside world: callbacks, scheduled and stopped
    sources, sent audio frames and released resources. */
module Live {
  import opened Common
  import Pcm

  /** Audio-clock time, in ticks. */
  type Tick = nat

  /** A playback source, numbered in the order the sources were created. */
  type SourceId = nat

  /** The parts of one server message the handler looks at. `audio` is the inline
      data of the first part of the model turn; a transcription is present when the
      message carries one, with its text. */
  datatype ServerMessage = ServerMessage(
    audio: Option<string>,
    inputTranscription: Option<string>,
    outputTranscription: Option<string>,
    turnComplete: bool,
    interrupted: bool)

  /** The outcome of decoding an inline audio chunk: a playable buffer of some
      duration, or a payload the decoder rejects. */
  datatype Decoded = Decoded(duration: Tick) | Malformed

  /** The callbacks the session invokes, in the order it invokes them. */
  datatype LiveEvent =
    | Opened
    | UserTranscript(text: string)
    | ModelTranscript(text: string)
    | TurnCompleted(turn: InterviewTurn)
    | Errored
    | Closed

  /** One `source.start(when)` call: the clock reading when the chunk arrived, the
      time the source was told to start, and the buffer's duration. */
  datatype Playback = Playback(requestedAt: Tick, start: Tick, duration: Tick)

  /** What `close` releases. */
  datatype Resource = MicrophoneTracks | InputContext | OutputContext | Transport

  function End(p: Playback): Tick
  {
    p.start + p.duration
  }

  function Max(a: int, b: int): (m: int)
    ensures m >= a && m >= b && (m == a || m == b)
  {
    if a >= b then a else b
  }

  /** The text appended for an optional transcription fragment. */
  function Fragment(t: Option<string>): string
  {
    if t.Some? then t.value else ""
  }

  /** The turns handed to onTurnComplete, in order. */
  function Turns(events: seq<LiveEvent>): (r: seq<InterviewTurn>)
    ensures |r| <= |events|
  {
    if events == [] then []
    else
      var last := events[|events| - 1];
      Turns(events[..|events| - 1]) + (if last.TurnCompleted? then [last.turn] else [])
  }

  /** The turns of a log extended by more events are the old turns followed by
      the turns of the new events. */
  lemma {:induction false} TurnsAppend(a: seq<LiveEvent>, b: seq<LiveEvent>)
    ensures Turns(a + b) == Turns(a) + Turns(b)
  {
    if b == [] {
      assert a + b == a;
    } else {
      var b' := b[..|b| - 1];
      assert (a + b)[..|a + b| - 1] == a + b';
      TurnsAppend(a, b');
    }
  }

  /** One more event adds a turn exactly when it is a completed turn. */
  lemma TurnsSnoc(a: seq<LiveEvent>, e: LiveEvent)
    ensures !e.TurnCompleted? ==> Turns(a + [e]) == Turns(a)
    ensures e.TurnCompleted? ==> Turns(a + [e]) == Turns(a) + [e.turn]
  {
    assert (a + [e])[..|a|] == a;
  }

  /** Everything the candidate said in the given turns, in order. */
  function UserText(turns: seq<InterviewTurn>): string
  {
    if turns == [] then "" else UserText(turns[..|turns| - 1]) + turns[|turns| - 1].user
  }

  /** Everything the interviewer said in the given turns, in order. */
  function ModelText(turns: seq<InterviewTurn>): string
  {
    if turns == [] then "" else ModelText(turns[..|turns| - 1]) + turns[|turns| - 1].model
  }

  lemma UserTextSnoc(turns: seq<InterviewTurn>, t: InterviewTurn)
    ensures UserText(turns + [t]) == UserText(turns) + t.user
  {
    assert (turns + [t])[..|turns|] == turns;
  }

  lemma ModelTextSnoc(turns: seq<InterviewTurn>, t: InterviewTurn)
    ensures ModelText(turns + [t]) == ModelText(turns) + t.model
  {
    assert (turns + [t])[..|turns|] == turns;
  }

  /** The handler schedules audio only for a non-empty inline payload. */
  predicate HasAudio(msg: ServerMessage)
  {
    msg.audio.Some? && msg.audio.value != ""
  }

  /** A rejected audio payload makes the handler throw before the transcripts. */
  predicate Aborts(msg: ServerMessage, decoded: Decoded)
  {
    HasAudio(msg) && decoded.Malformed?
  }

  /** The user accumulator once the message's fragment is appended. */
  function InputTotal(input: string, msg: ServerMessage): string
  {
    input + Fragment(msg.inputTranscription)
  }

  /** The model accumulator once the message's fragment is appended. */
  function OutputTotal(output: string, msg: ServerMessage): string
  {
    output + Fragment(msg.outputTranscription)
  }

  /** The callbacks one (not aborted) message triggers, given the accumulators it
      found: each running total after its fragment, then the completed turn, which
      already includes this message's fragments. */
  function MessageEvents(input: string, output: string, msg: ServerMessage): seq<LiveEvent>
  {
    (if msg.inputTranscription.Some? then [UserTranscript(InputTotal(input, msg))] else []) +
    (if msg.outputTranscription.Some? then [ModelTranscript(OutputTotal(output, msg))] else []) +
    (if msg.turnComplete then [TurnCompleted(InterviewTurn(InputTotal(input, msg), OutputTotal(output, msg)))] else [])
  }

  /** Events that complete no turn add no turn. */
  lemma {:induction false} TurnsNoTurn(events: seq<LiveEvent>, more: seq<LiveEvent>)
    requires forall i :: 0 <= i < |more| ==> !more[i].TurnCompleted?
    ensures Turns(events + more) == Turns(events)
  {
    if more != [] {
      var init := more[..|more| - 1];
      assert (events + more)[..|events + more| - 1] == events + init;
      TurnsNoTurn(events, init);
    } else {
      assert events + more == events;
    }
  }

  /** The only turn a message reports is the one it completes. */
  lemma MessageTurns(events: seq<LiveEvent>, input: string, output: string, msg: ServerMessage)
    ensures msg.turnComplete ==>
              Turns(events + MessageEvents(input, output, msg)) ==
              Turns(events) + [InterviewTurn(InputTotal(input, msg), OutputTotal(output, msg))]
    ensures !msg.turnComplete ==> Turns(events + MessageEvents(input, output, msg)) == Turns(events)
  {
    var a := if msg.inputTranscription.Some? then [UserTranscript(InputTotal(input, msg))] else [];
    var b := if msg.outputTranscription.Some? then [ModelTranscript(OutputTotal(output, msg))] else [];
    var turn := InterviewTurn(InputTotal(input, msg), OutputTotal(output, msg));
    TurnsNoTurn(events, a + b);
    if msg.turnComplete {
      assert events + MessageEvents(input, output, msg) == (events + (a + b)) + [TurnCompleted(turn)];
      TurnsSnoc(events + (a + b), TurnCompleted(turn));
    } else {
      assert events + MessageEvents(input, output, msg) == events + (a + b);
    }
  }

  /** Transcript accounting: the text heard so far is the text of the turns
      reported so far followed by the open accumulators. */
  predicate Accounts(turns: seq<InterviewTurn>, input: string, output: string, userHeard: string, modelHeard: string)
  {
    userHeard == UserText(turns) + input && modelHeard == ModelText(turns) + output
  }

  /** Appending one fragment to each accumulator keeps the accounting, and so does
      closing the turn: no fragment is lost or reported twice. */
  lemma AccountsStep(turns: seq<InterviewTurn>, input: string, output: string, userHeard: string, modelHeard: string,
                     userFragment: string, modelFragment: string)
    requires Accounts(turns, input, output, userHeard, modelHeard)
    ensures Accounts(turns, input + userFragment, output + modelFragment,
                     userHeard + userFragment, modelHeard + modelFragment)
    ensures Accounts(turns + [InterviewTurn(input + userFragment, output + modelFragment)], "", "",
                     userHeard + userFragment, modelHeard + modelFragment)
  {
    var turn := InterviewTurn(input + userFragment, output + modelFragment);
    UserTextSnoc(turns, turn);
    ModelTextSnoc(turns, turn);
    assert userHeard + userFragment == UserText(turns) + (input + userFragment);
    assert modelHeard + modelFragment == ModelText(turns) + (output + modelFragment);
    assert UserText(turns + [turn]) + "" == UserText(turns + [turn]);
    assert ModelText(turns + [turn]) + "" == ModelText(turns + [turn]);
  }

  /** The scheduler's observable state: the start time for the next chunk, the
      playing sources, and every source created and stopped so far. */
  datatype Playout = Playout(nextStartTime: Tick, sources: set<SourceId>, started: seq<Playback>, stopped: seq<SourceId>)

  /** The audio step of onmessage: the start time is brought up to the clock;
      a playable buffer then becomes a new source at that time, the start time
      advances by its duration and the source joins the playing set, while a
      rejected payload changes nothing more. */
  predicate ScheduledAs(a: Playout, clock: Tick, decoded: Decoded, b: Playout)
  {
    var start := Max(a.nextStartTime, clock);
    && b.stopped == a.stopped
    && (decoded.Malformed? ==> b.nextStartTime == start && b.sources == a.sources && b.started == a.started)
    && (decoded.Decoded? ==>
          && b.started == a.started + [Playback(clock, start, decoded.duration)]
          && b.nextStartTime == start + decoded.duration
          && b.sources == a.sources + {|a.started|})
  }

  /** The interruption step: every playing source is stopped, exactly once, the
      playing set ends empty and the start time goes back to 0. */
  predicate InterruptedAs(a: Playout, b: Playout)
  {
    && b.sources == {} && b.nextStartTime == 0 && b.started == a.started
    && |a.stopped| <= |b.stopped| && b.stopped[..|a.stopped|] == a.stopped
    && multiset(b.stopped[|a.stopped|..]) == multiset(a.sources)
  }

  /** What one whole server message does to the scheduler: a rejected payload
      only brings the start time forward; otherwise a non-empty payload adds one
      source at the later of the clock and the old start time, and an
      interruption then stops every source playing, including that one. */
  predicate Handled(a: Playout, msg: ServerMessage, clock: Tick, decoded: Decoded, b: Playout)
  {
    var added := if HasAudio(msg) && decoded.Decoded?
                 then [Playback(clock, Max(a.nextStartTime, clock), decoded.duration)] else [];
    var playing := a.sources + (if added != [] then {|a.started|} else {});
    && b.started == a.started + added
    && (if Aborts(msg, decoded) then
          b.nextStartTime == Max(a.nextStartTime, clock) && b.sources == a.sources && b.stopped == a.stopped
        else if msg.interrupted then
          && b.sources == {} && b.nextStartTime == 0
          && |a.stopped| <= |b.stopped| && b.stopped[..|a.stopped|] == a.stopped
          && multiset(b.stopped[|a.stopped|..]) == multiset(playing)
        else
          && b.stopped == a.stopped && b.sources == playing
          && b.nextStartTime == (if added != [] then End(added[0]) else a.nextStartTime))
  }

  /** The handler's steps, the audio step when there is audio and the
      interruption step when the message asks for it and was not rejected, add up
      to what the message does. */
  lemma HandledInSteps(a: Playout, b: Playout, c: Playout, msg: ServerMessage, clock: Tick, decoded: Decoded)
    requires if HasAudio(msg) then ScheduledAs(a, clock, decoded, b) else b == a
    requires if !Aborts(msg, decoded) && msg.interrupted then InterruptedAs(b, c) else c == b
    ensures Handled(a, msg, clock, decoded, c)
  {
    if HasAudio(msg) && decoded.Decoded? {
      assert b.sources == a.sources + {|a.started|};
    }
  }

  /** A scheduled chunk never starts before the clock reading it arrived at, nor
      before the previous chunk ends when that one ended by the old start time;
      when the clock has not caught up it starts exactly where the previous chunk
      ends, and the start time afterwards is the new chunk's end. */
  lemma ScheduledBackToBack(a: Playout, clock: Tick, duration: Tick, b: Playout)
    requires ScheduledAs(a, clock, Decoded(duration), b)
    ensures |b.started| == |a.started| + 1
    ensures var p := b.started[|a.started|];
      && clock <= p.start && a.nextStartTime <= p.start
      && (clock <= a.nextStartTime ==> p.start == a.nextStartTime)
      && (clock > a.nextStartTime ==> p.start == clock)
      && b.nextStartTime == End(p)
      && (a.started != [] && End(a.started[|a.started| - 1]) <= a.nextStartTime ==>
            End(b.started[|a.started| - 1]) <= p.start)
  {
    assert b.started[|a.started|] == Playback(clock, Max(a.nextStartTime, clock), duration);
    if a.started != [] {
      assert b.started[|a.started| - 1] == a.started[|a.started| - 1];
    }
  }

  /** After an interruption the next chunk starts exactly at the clock reading it
      arrives at, and it is the only source playing. */
  lemma InterruptThenSchedule(a: Playout, b: Playout, clock: Tick, duration: Tick, c: Playout)
    requires InterruptedAs(a, b) && ScheduledAs(b, clock, Decoded(duration), c)
    ensures |c.started| == |a.started| + 1
    ensures c.started[|a.started|].start == clock
    ensures c.sources == {|a.started|}
    ensures c.nextStartTime == clock + duration
  {
    assert c.started[|b.started|] == Playback(clock, clock, duration);
  }

  /** The playback scheduler: nextStartTime and the `sources` set of
      connectToLiveSession, with the sources it created and stopped. */
  class Scheduler {
    var nextStartTime: Tick
    var sources: set<SourceId>
    /** Every source created so far; source i is started[i]. */
    var started: seq<Playback>
    /** Every `source.stop()` call so far. */
    var stopped: seq<SourceId>
    /** Index in `started` of the first source scheduled since the last interruption. */
    ghost var epoch: nat

    ghost predicate Valid()
      reads this
    {
      && epoch <= |started|
      // only created sources play, and a stopped source never plays again
      && (forall s :: s in sources ==> s < |started|)
      && (forall i :: 0 <= i < |stopped| ==> stopped[i] < |started| && stopped[i] !in sources)
      // no source is scheduled before the clock reading at which its chunk arrived
      && (forall i :: 0 <= i < |started| ==> started[i].requestedAt <= started[i].start)
      // sources scheduled since the last interruption never overlap
      && (forall i :: epoch <= i < |started| - 1 ==> End(started[i]) <= started[i + 1].start)
      && (epoch < |started| ==> End(started[|started| - 1]) <= nextStartTime)
    }

    function Snapshot(): Playout
      reads this
    {
      Playout(nextStartTime, sources, started, stopped)
    }

    constructor ()
      ensures Valid()
      ensures nextStartTime == 0 && sources == {} && started == [] && stopped == []
    {
      nextStartTime := 0;
      sources := {};
      started := [];
      stopped := [];
      epoch := 0;
    }

    /** The audio step of onmessage: the start time is brought up to the clock, the
        buffer is decoded and, if that succeeds, a new source starts at that time,
        the clock advances by its duration and the source joins the playing set.
        A rejected payload throws, so `ok` is false and the handler stops there. */
    method Schedule(clock: Tick, decoded: Decoded) returns (ok: bool)
      requires Valid()
      modifies this
      ensures Valid()
      ensures ok == decoded.Decoded?
      ensures ScheduledAs(old(Snapshot()), clock, decoded, Snapshot())
      ensures ok ==> |old(started)| !in old(sources)
    {
      nextStartTime := Max(nextStartTime, clock);
      if decoded.Malformed? {
        return false;
      }
      var source: SourceId := |started|;
      started := started + [Playback(clock, nextStartTime, decoded.duration)];
      nextStartTime := nextStartTime + decoded.duration;
      sources := sources + {source};
      ok := true;
    }

    /** The `ended` listener of one source: it leaves the playing set, and removing
        a source that is no longer there changes nothing. */
    method OnSourceEnded(source: SourceId)
      requires Valid() && source < |started|
      modifies this
      ensures Valid()
      ensures sources == old(sources) - {source}
      ensures source !in old(sources) ==> sources == old(sources)
      ensures nextStartTime == old(nextStartTime) && started == old(started) && stopped == old(stopped)
    {
      sources := sources - {source};
    }

    /** Interrupted: every playing source is stopped, exactly once, the playing set
        ends empty and the playback clock goes back to 0. */
    method Interrupt()
      requires Valid()
      modifies this
      ensures Valid()
      ensures InterruptedAs(old(Snapshot()), Snapshot())
    {
      var playing: set<SourceId>, stops: seq<SourceId> := sources, stopped;
      while playing != {}
        invariant |old(stopped)| <= |stops| && stops[..|old(stopped)|] == old(stopped)
        invariant multiset(stops[|old(stopped)|..]) + multiset(playing) == multiset(old(sources))
        invariant playing <= old(sources)
        invariant forall i :: 0 <= i < |stops| ==> stops[i] < |started|
        decreases |playing|
      {
        var source :| source in playing;
        ghost var done := stops[|old(stopped)|..];
        stops := stops + [source];
        playing := playing - {source};
        assert stops[|old(stopped)|..] == done + [source];
        assert multiset(old(sources)) == multiset(done) + multiset{source} + multiset(playing);
      }
      stopped, sources, nextStartTime, epoch := stops, {}, 0, |started|;
    }
  }

  /** The transcript assembler: the two accumulators of connectToLiveSession, and
      the callbacks the session has invoked. */
  class Assembler {
    var currentInputTranscription: string
    var currentOutputTranscription: string
    /** Callbacks invoked so far. */
    var events: seq<LiveEvent>
    /** Every user transcription fragment received so far, concatenated. */
    ghost var userHeard: string
    /** Every model transcription fragment received so far, concatenated. */
    ghost var modelHeard: string

    ghost predicate Valid()
      reads this
    {
      // no fragment is lost or repeated: what was heard is the emitted turns
      // followed by the open accumulators
      Accounts(Turns(events), currentInputTranscription, currentOutputTranscription, userHeard, modelHeard)
    }

    constructor ()
      ensures Valid()
      ensures currentInputTranscription == "" && currentOutputTranscription == "" && events == []
    {
      currentInputTranscription := "";
      currentOutputTranscription := "";
      events := [];
      userHeard := "";
      modelHeard := "";
    }

    /** A callback that carries no transcript (open, error, close) is passed on. */
    method Forward(e: LiveEvent)
      requires Valid() && (e.Opened? || e.Errored? || e.Closed?)
      modifies this
      ensures Valid()
      ensures events == old(events) + [e] && Turns(events) == Turns(old(events))
      ensures currentInputTranscription == old(currentInputTranscription)
      ensures currentOutputTranscription == old(currentOutputTranscription)
    {
      events := events + [e];
      TurnsSnoc(old(events), e);
    }

    /** The transcript steps of onmessage: the user fragment is appended and its
        running total reported, then the same for the model fragment, then on turn
        completion one turn made of both totals is reported and both accumulators
        start over, so a completed turn includes the fragments carried by the same
        message. */
    method Apply(msg: ServerMessage)
      requires Valid()
      modifies this
      ensures Valid()
      ensures events == old(events) +
        MessageEvents(old(currentInputTranscription), old(currentOutputTranscription), msg)
      ensures msg.turnComplete ==>
                Turns(events) == Turns(old(events)) +
                [InterviewTurn(InputTotal(old(currentInputTranscription), msg), OutputTotal(old(currentOutputTranscription), msg))]
      ensures !msg.turnComplete ==> Turns(events) == Turns(old(events))
      ensures currentInputTranscription ==
        (if msg.turnComplete then "" else InputTotal(old(currentInputTranscription), msg))
      ensures currentOutputTranscription ==
        (if msg.turnComplete then "" else OutputTotal(old(currentOutputTranscription), msg))
    {
      MessageTurns(events, currentInputTranscription, currentOutputTranscription, msg);
      AccountsStep(Turns(events), currentInputTranscription, currentOutputTranscription, userHeard, modelHeard,
                   Fragment(msg.inputTranscription), Fragment(msg.outputTranscription));
      events := events + MessageEvents(currentInputTranscription, currentOutputTranscription, msg);
      userHeard, modelHeard := userHeard + Fragment(msg.inputTranscription),
                               modelHeard + Fragment(msg.outputTranscription);
      if msg.turnComplete {
        currentInputTranscription, currentOutputTranscription := "", "";
      } else {
        currentInputTranscription, currentOutputTranscription :=
          InputTotal(currentInputTranscription, msg), OutputTotal(currentOutputTranscription, msg);
      }
    }
  }

  /** The state kept by connectToLiveSession for one session. */
  class LiveSession {
    /** The binary-to-text encoding of the audio utilities, left uninterpreted. */
    const encode: seq<Byte> -> string
    const scheduler: Scheduler
    const assembler: Assembler

    /** Every frame handed to sendRealtimeInput so far. */
    var sent: seq<Pcm.Blob>
    /** Every resource `close` released so far. */
    var released: seq<Resource>
    /** Whether the microphone processor is delivering frames. */
    var capturing: bool

    ghost predicate Valid()
      reads this, scheduler, assembler
    {
      scheduler as object != assembler && scheduler.Valid() && assembler.Valid()
    }

    /** The state connectToLiveSession sets up before connecting. */
    constructor (encode: seq<Byte> -> string)
      ensures Valid() && fresh(scheduler) && fresh(assembler)
      ensures this.encode == encode
      ensures scheduler.nextStartTime == 0 && scheduler.sources == {}
      ensures scheduler.started == [] && scheduler.stopped == []
      ensures assembler.currentInputTranscription == "" && assembler.currentOutputTranscription == ""
      ensures assembler.events == [] && sent == [] && released == [] && !capturing
    {
      this.encode := encode;
      scheduler := new Scheduler();
      assembler := new Assembler();
      sent := [];
      released := [];
      capturing := false;
    }

    /** onopen: the controller is told, and microphone capture starts. */
    method OnOpen()
      requires Valid()
      modifies this, assembler
      ensures Valid()
      ensures assembler.events == old(assembler.events) + [Opened] && capturing
      ensures assembler.currentInputTranscription == old(assembler.currentInputTranscription)
      ensures assembler.currentOutputTranscription == old(assembler.currentOutputTranscription)
      ensures sent == old(sent) && released == old(released)
    {
      assembler.Forward(Opened);
      capturing := true;
    }

    /** onaudioprocess: one captured frame is framed and sent, after every frame
        captured before it. */
    method OnAudioProcess(data: array<real>)
      requires Valid() && capturing
      modifies this
      ensures Valid()
      ensures sent == old(sent) + [Pcm.Blob(encode(Pcm.ByteView(Pcm.Quantise(data[..]))), Pcm.MimeType)]
      ensures released == old(released) && capturing
    {
      var blob := Pcm.CreateBlob(data, encode);
      sent := sent + [blob];
    }

    /** onmessage for one server message, processed as a whole: audio, then the
        user fragment, then the model fragment, then turn completion, then
        interruption. A rejected audio payload ends the handler once the clock has
        been brought forward. */
    method OnMessage(msg: ServerMessage, clock: Tick, decoded: Decoded)
      requires Valid()
      modifies scheduler, assembler
      ensures Valid()
      ensures Handled(old(scheduler.Snapshot()), msg, clock, decoded, scheduler.Snapshot())
      ensures Aborts(msg, decoded) ==> unchanged(assembler)
      ensures !Aborts(msg, decoded) ==>
        && assembler.events == old(assembler.events) +
             MessageEvents(old(assembler.currentInputTranscription), old(assembler.currentOutputTranscription), msg)
        && assembler.currentInputTranscription ==
             (if msg.turnComplete then "" else InputTotal(old(assembler.currentInputTranscription), msg))
        && assembler.currentOutputTranscription ==
             (if msg.turnComplete then "" else OutputTotal(old(assembler.currentOutputTranscription), msg))
    {
      ghost var before := scheduler.Snapshot();
      if HasAudio(msg) {
        var ok := scheduler.Schedule(clock, decoded);
        if !ok {
          HandledInSteps(before, scheduler.Snapshot(), scheduler.Snapshot(), msg, clock, decoded);
          return;
        }
      }
      ghost var scheduled := scheduler.Snapshot();
      assembler.Apply(msg);
      if msg.interrupted {
        scheduler.Interrupt();
      }
      HandledInSteps(before, scheduled, scheduler.Snapshot(), msg, clock, decoded);
    }

    /** The `ended` listener of one of this session's sources. */
    method OnSourceEnded(source: SourceId)
      requires Valid() && source < |scheduler.started|
      modifies scheduler
      ensures Valid()
      ensures scheduler.sources == old(scheduler.sources) - {source}
      ensures scheduler.nextStartTime == old(scheduler.nextStartTime)
      ensures scheduler.started == old(scheduler.started) && scheduler.stopped == old(scheduler.stopped)
    {
      scheduler.OnSourceEnded(source);
    }

    /** onerror: forwarded to the controller. */
    method OnError()
      requires Valid()
      modifies assembler
      ensures Valid()
      ensures assembler.events == old(assembler.events) + [Errored]
      ensures assembler.currentInputTranscription == old(assembler.currentInputTranscription)
      ensures assembler.currentOutputTranscription == old(assembler.currentOutputTranscription)
    {
      assembler.Forward(Errored);
    }

    /** onclose: forwarded to the controller. */
    method OnClose()
      requires Valid()
      modifies assembler
      ensures Valid()
      ensures assembler.events == old(assembler.events) + [Closed]
      ensures assembler.currentInputTranscription == old(assembler.currentInputTranscription)
      ensures assembler.currentOutputTranscription == old(assembler.currentOutputTranscription)
    {
      assembler.Forward(Closed);
    }

    /** The session handle's close: the microphone tracks are stopped, both audio
        contexts and the transport are closed, in that order. It has no guard of
        its own: every call releases all four again. */
    method Close()
      requires Valid()
      modifies this
      ensures Valid()
      ensures released == old(released) + [MicrophoneTracks, InputContext, OutputContext, Transport]
      ensures !capturing && sent == old(sent)
    {
      released := released + [MicrophoneTracks, InputContext, OutputContext, Transport];
      capturing := false;
    }
  }

  /** A message that only carries transcription fragments and flags. */
  function TextMessage(input: Option<string>, output: Option<string>, turnComplete: bool): ServerMessage
  {
    ServerMessage(None, input, output, turnComplete, false)
  }

  /** Two user fragments and one model fragment in separate messages, then turn
      complete: the one turn reported is both user fragments with the model
      fragment, and both accumulators are empty again. */
  method TurnFramingScenario(user1: string, user2: string, model: string)
    returns (turns: seq<InterviewTurn>, userAfter: string, modelAfter: string)
    ensures turns == [InterviewTurn(user1 + user2, model)]
    ensures userAfter == "" && modelAfter == ""
  {
    var assembler := new Assembler();
    var m1, m2, m3 := TextMessage(Some(user1), Some(model), false), TextMessage(Some(user2), None, false),
                      TextMessage(None, None, true);
    assert InputTotal("", m1) == user1 && OutputTotal("", m1) == model;
    assembler.Apply(m1);
    assert InputTotal(user1, m2) == user1 + user2 && OutputTotal(model, m2) == model;
    assembler.Apply(m2);
    assert InputTotal(user1 + user2, m3) == user1 + user2 && OutputTotal(model, m3) == model;
    assembler.Apply(m3);
    turns := Turns(assembler.events);
    userAfter := assembler.currentInputTranscription;
    modelAfter := assembler.currentOutputTranscription;
  }

  /** Two chunks delivered while the clock has not caught up play back to back; a
      chunk after an interruption starts at the clock reading, not at the stale
      offset, and is the only one playing. */
  method PlaybackScenario() returns (first: Tick, second: Tick, afterInterrupt: Tick, playing: set<SourceId>)
    ensures first == 10 && second == 15
    ensures afterInterrupt == 12
    ensures playing == {2}
  {
    var scheduler := new Scheduler();
    var ok := scheduler.Schedule(10, Decoded(5));
    first := scheduler.started[0].start;
    ok := scheduler.Schedule(11, Decoded(5));
    second := scheduler.started[1].start;
    scheduler.Interrupt();
    ok := scheduler.Schedule(12, Decoded(5));
    afterInterrupt := scheduler.started[2].start;
    playing := scheduler.sources;
  }
}
