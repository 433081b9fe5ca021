/** The mock-interview controller: the component state behind the interview
    page, driven by the start and stop buttons, the live-session callbacks, the
    clear-history button and the feedback flow, with the interview history kept
    in local storage. Each handler is one atomic step; a handler that awaits a
    remote call is split at the await, with the call's outcome as a parameter. */
module Interview {
  import opened Common
  import Prompts
  import Json

  /** A session handle returned by connectToLiveSession, numbered in the order
      the handles were returned. */
  type SessionId = nat

  const HistoryKey: string := "interviewHistory"

  const StartFailedMessage: string :=
    "Could not access microphone or start session. Please check permissions and try again."
  const GreetingFailedMessage: string := "Could not play greeting audio. Please check your connection."
  const SessionErrorMessage: string := "An error occurred during the session. Please try again."
  const FeedbackFailedMessage: string :=
    "Sorry, I couldn't generate feedback at this time. Please try again later."

  /** getInitialHistory: the parsed stored history when the key holds a non-empty
      value that parses, and the empty history otherwise (absent key, empty value,
      or a value that makes JSON.parse throw, which `parse` reports as None). */
  function InitialHistory(storage: map<string, string>, parse: string -> Option<seq<InterviewTurn>>)
    : (h: seq<InterviewTurn>)
    ensures h != [] ==> HistoryKey in storage && storage[HistoryKey] != "" && parse(storage[HistoryKey]) == Some(h)
    ensures HistoryKey in storage && storage[HistoryKey] != "" && parse(storage[HistoryKey]).Some? ==>
      h == parse(storage[HistoryKey]).value
  {
    if HistoryKey in storage && storage[HistoryKey] != "" then
      match parse(storage[HistoryKey])
      case Some(turns) => turns
      case None => []
    else []
  }

  /** A history the persistence effect wrote is the history the next page load
      starts with, provided JSON.parse reads back what JSON.stringify writes. */
  lemma ReloadRestoresHistory(storage: map<string, string>, history: seq<InterviewTurn>,
                              parse: string -> Option<seq<InterviewTurn>>)
    requires parse(Json.Stringify(history)) == Some(history)
    ensures InitialHistory(storage[HistoryKey := Json.Stringify(history)], parse) == history
  {
  }

  /** The interview history state together with the local key-value store it
      is persisted in. Every change of the history is followed by the persistence
      effect, which writes its serialisation under the history key. */
  class HistoryStore {
    var history: seq<InterviewTurn>
    var storage: map<string, string>

    ghost predicate Valid()
      reads this
    {
      HistoryKey in storage && storage[HistoryKey] == Json.Stringify(history)
    }

    /** The first render: the history from getInitialHistory, then the
        persistence effect writes it back. */
    constructor (storage: map<string, string>, parse: string -> Option<seq<InterviewTurn>>)
      ensures Valid()
      ensures history == InitialHistory(storage, parse)
      ensures this.storage == storage[HistoryKey := Json.Stringify(history)]
    {
      var initial := InitialHistory(storage, parse);
      history := initial;
      this.storage := storage[HistoryKey := Json.Stringify(initial)];
    }

    /** The turn goes at the end of the history, earlier turns unchanged, and the
        new history is stored. */
    method Append(turn: InterviewTurn)
      requires Valid()
      modifies this
      ensures Valid()
      ensures history == old(history) + [turn]
      ensures storage == old(storage)[HistoryKey := Json.Stringify(history)]
    {
      history := history + [turn];
      storage := storage[HistoryKey := Json.Stringify(history)];
    }

    /** The history is emptied, and the empty history is stored. */
    method Reset()
      requires Valid()
      modifies this
      ensures Valid()
      ensures history == [] && storage == old(storage)[HistoryKey := "[]"]
    {
      history := [];
      storage := storage[HistoryKey := Json.Stringify(history)];
    }

    /** The stored key is removed and the history emptied; emptying the history
        runs the persistence effect, which writes the empty history back. */
    method Clear()
      requires Valid()
      modifies this
      ensures Valid()
      ensures history == [] && storage == (old(storage) - {HistoryKey})[HistoryKey := "[]"]
    {
      storage := storage - {HistoryKey};
      history := [];
      storage := storage[HistoryKey := Json.Stringify(history)];
    }
  }

  /** The component's other useState values. A handler's setters are applied
      together when it returns, so each handler step replaces this record once. */
  datatype PageState = PageState(
    isSessionActive: bool, isConnecting: bool, isGreetingLoading: bool,
    error: Option<string>, userTranscript: string, modelTranscript: string,
    // the feedback flow
    showFeedbackPrompt: bool, isFeedbackLoading: bool, feedback: Option<string>, showFeedbackModal: bool)

  /** The first render's state. */
  const InitialState: PageState := PageState(false, false, false, None, "", "", false, false, None, false)

  /** No handle appears twice in a log of close() calls. */
  predicate NoneClosedTwice(closed: seq<SessionId>)
  {
    forall i, j :: 0 <= i < j < |closed| ==> closed[i] != closed[j]
  }

  /** Every handle in the log is one of the first `returned` handles. */
  predicate AllReturned(closed: seq<SessionId>, returned: nat)
  {
    forall i :: 0 <= i < |closed| ==> closed[i] < returned
  }

  /** What the controller knows of session handles: sessionRef.current, every
      `close()` called on a handle in order, and how many handles
      connectToLiveSession has returned. */
  datatype Sessions = Sessions(current: Option<SessionId>, closed: seq<SessionId>, returned: nat)

  /** No handle is closed twice, only returned handles are closed, and while the
      page is mounted the handle in the ref is a returned one that is still open. */
  predicate SessionsValid(s: Sessions, mounted: bool)
  {
    && NoneClosedTwice(s.closed)
    && AllReturned(s.closed, s.returned)
    && (s.current.Some? ==> s.current.value < s.returned && (mounted ==> s.current.value !in s.closed))
  }

  class InterviewController {
    /** JSON.parse on a stored history (None when it throws). */
    const parse: string -> Option<seq<InterviewTurn>>

    /** The history and the local key-value store. */
    const store: HistoryStore
    var state: PageState
    var sessions: Sessions
    var mounted: bool

    ghost predicate Valid()
      reads this, store
    {
      && store.Valid()
      && !(state.isSessionActive && state.isConnecting)
      && SessionsValid(sessions, mounted)
    }

    /** The first render: the history from getInitialHistory, everything else at
        its initial value, then the persistence effect writes the history back. */
    constructor (storage: map<string, string>, parse: string -> Option<seq<InterviewTurn>>)
      ensures Valid() && mounted && fresh(store)
      ensures this.parse == parse
      ensures store.history == InitialHistory(storage, parse)
      ensures store.storage == storage[HistoryKey := Json.Stringify(store.history)]
      ensures state == InitialState
      ensures sessions == Sessions(None, [], 0)
    {
      this.parse := parse;
      store := new HistoryStore(storage, parse);
      state := InitialState;
      sessions := Sessions(None, [], 0);
      mounted := true;
    }

    /** startSession, up to the connect call: a new interview starts from an empty
        history, no error, no live transcripts and no feedback. The start button is
        only rendered while no session is active and is disabled while connecting. */
    method StartSession()
      requires Valid() && mounted
      requires !state.isSessionActive && !state.isConnecting
      modifies this, store
      ensures Valid() && mounted
      ensures state == old(state).(isConnecting := true, error := None,
                                   userTranscript := "", modelTranscript := "",
                                   showFeedbackPrompt := false, feedback := None, showFeedbackModal := false)
      ensures store.history == [] && store.storage == old(store.storage)[HistoryKey := "[]"]
      ensures sessions == old(sessions)
    {
      state := state.(isConnecting := true, error := None,
                      userTranscript := "", modelTranscript := "",
                      showFeedbackPrompt := false, feedback := None, showFeedbackModal := false);
      store.Reset();
    }

    /** connectToLiveSession resolved: its handle goes into the ref, replacing
        whatever handle was there. */
    method ConnectSucceeded() returns (session: SessionId)
      requires Valid() && mounted
      modifies this
      ensures Valid() && mounted
      ensures session == old(sessions).returned
      ensures sessions == old(sessions).(current := Some(session), returned := session + 1)
      ensures state == old(state)
    {
      session := sessions.returned;
      sessions := sessions.(current := Some(session), returned := session + 1);
    }

    /** connectToLiveSession threw (no microphone, or the connection failed). */
    method ConnectFailed()
      requires Valid() && mounted
      modifies this
      ensures Valid() && mounted
      ensures state == old(state).(error := Some(StartFailedMessage), isConnecting := false)
      ensures sessions == old(sessions)
    {
      state := state.(error := Some(StartFailedMessage), isConnecting := false);
    }

    /** onOpen, up to the greeting call: the session is active and no longer
        connecting, and the greeting starts loading. */
    method OnOpen()
      requires Valid() && mounted
      modifies this
      ensures Valid() && mounted
      ensures state == old(state).(isSessionActive := true, isConnecting := false, isGreetingLoading := true)
      ensures sessions == old(sessions)
    {
      state := state.(isSessionActive := true, isConnecting := false, isGreetingLoading := true);
    }

    /** The greeting call of onOpen settled: a failure is reported; either way the
        greeting is no longer loading. */
    method GreetingFinished(played: bool)
      requires Valid() && mounted
      modifies this
      ensures Valid() && mounted
      ensures state == old(state).(isGreetingLoading := false,
                                   error := if played then old(state).error else Some(GreetingFailedMessage))
      ensures sessions == old(sessions)
    {
      if !played {
        state := state.(error := Some(GreetingFailedMessage));
      }
      state := state.(isGreetingLoading := false);
    }

    /** onClose: the session is no longer active; the handle stays in the ref. */
    method OnClose()
      requires Valid() && mounted
      modifies this
      ensures Valid() && mounted
      ensures state == old(state).(isSessionActive := false)
      ensures sessions == old(sessions)
    {
      state := state.(isSessionActive := false);
    }

    /** onError: the error is shown and the session is neither active nor
        connecting; the handle stays in the ref and is not closed. */
    method OnError()
      requires Valid() && mounted
      modifies this
      ensures Valid() && mounted
      ensures state == old(state).(error := Some(SessionErrorMessage), isSessionActive := false, isConnecting := false)
      ensures sessions == old(sessions)
    {
      state := state.(error := Some(SessionErrorMessage), isSessionActive := false, isConnecting := false);
    }

    /** onUserTranscript: the live user transcript shows the running total. */
    method OnUserTranscript(text: string)
      requires Valid() && mounted
      modifies this
      ensures Valid() && mounted
      ensures state == old(state).(userTranscript := text)
      ensures sessions == old(sessions)
    {
      state := state.(userTranscript := text);
    }

    /** onModelTranscript: the live interviewer transcript shows the running total. */
    method OnModelTranscript(text: string)
      requires Valid() && mounted
      modifies this
      ensures Valid() && mounted
      ensures state == old(state).(modelTranscript := text)
      ensures sessions == old(sessions)
    {
      state := state.(modelTranscript := text);
    }

    /** onTurnComplete: the turn goes at the end of the history, earlier turns
        unchanged, the live transcripts are cleared and the history is stored. */
    method OnTurnComplete(turn: InterviewTurn)
      requires Valid() && mounted
      modifies this, store
      ensures Valid() && mounted
      ensures state == old(state).(userTranscript := "", modelTranscript := "")
      ensures store.history == old(store.history) + [turn]
      ensures store.storage == old(store.storage)[HistoryKey := Json.Stringify(store.history)]
      ensures sessions == old(sessions)
    {
      store.Append(turn);
      state := state.(userTranscript := "", modelTranscript := "");
    }

    /** stopSession, behind the end button that is only rendered while a session
        is active: the handle in the ref, if any, is closed and the ref emptied, so
        the unmount does not close it again; the live transcripts are cleared, and
        the feedback prompt is raised when there is a history and otherwise left as
        it was. */
    method StopSession()
      requires Valid() && mounted
      requires state.isSessionActive
      modifies this
      ensures Valid() && mounted
      ensures sessions == old(sessions).(current := None, closed := old(sessions).closed +
                                         (if old(sessions).current.Some? then [old(sessions).current.value] else []))
      ensures state == old(state).(isSessionActive := false, userTranscript := "", modelTranscript := "",
                                   showFeedbackPrompt := |store.history| > 0 || old(state).showFeedbackPrompt)
    {
      if sessions.current.Some? {
        sessions := sessions.(closed := sessions.closed + [sessions.current.value]);
      }
      sessions := sessions.(current := None);
      state := state.(isSessionActive := false, userTranscript := "", modelTranscript := "");
      if |store.history| > 0 {
        state := state.(showFeedbackPrompt := true);
      }
    }

    /** clearHistory, behind the button shown when there is a history and no
        active session: the stored key is removed and the history emptied, the
        prompt hidden and the feedback dropped. Emptying the history triggers the
        persistence effect, which writes the empty history back under the key. */
    method ClearHistory()
      requires Valid() && mounted
      requires |store.history| > 0 && !state.isSessionActive
      modifies this, store
      ensures Valid() && mounted
      ensures state == old(state).(showFeedbackPrompt := false, feedback := None)
      ensures store.history == [] && store.storage == (old(store.storage) - {HistoryKey})[HistoryKey := "[]"]
      ensures sessions == old(sessions)
    {
      store.Clear();
      state := state.(showFeedbackPrompt := false, feedback := None);
    }

    /** handleGenerateFeedback, up to the remote call: the prompt is hidden, the
        error cleared and loading shown; the result is the transcript of the
        current history that the feedback request embeds. Its button is only
        rendered while no session is active, the prompt is up and nothing is loading. */
    method BeginFeedback() returns (transcript: string)
      requires Valid() && mounted
      requires !state.isSessionActive && state.showFeedbackPrompt && !state.isFeedbackLoading
      modifies this
      ensures Valid() && mounted
      ensures transcript == Prompts.FeedbackTranscript(store.history)
      ensures state == old(state).(showFeedbackPrompt := false, isFeedbackLoading := true, error := None)
      ensures sessions == old(sessions)
    {
      state := state.(showFeedbackPrompt := false, isFeedbackLoading := true, error := None);
      transcript := Prompts.FeedbackTranscript(store.history);
    }

    /** The feedback call settled: on success the feedback is kept and the modal
        shown, on failure the error is shown; loading ends in both cases. */
    method FinishFeedback(generated: Option<string>)
      requires Valid() && mounted
      requires state.isFeedbackLoading
      modifies this
      ensures Valid() && mounted
      ensures generated.Some? ==>
        state == old(state).(feedback := generated, showFeedbackModal := true, isFeedbackLoading := false)
      ensures generated.None? ==>
        state == old(state).(error := Some(FeedbackFailedMessage), isFeedbackLoading := false)
      ensures sessions == old(sessions)
    {
      if generated.Some? {
        state := state.(feedback := generated, showFeedbackModal := true);
      } else {
        state := state.(error := Some(FeedbackFailedMessage));
      }
      state := state.(isFeedbackLoading := false);
    }

    /** The "No, Thanks" button, rendered with the feedback prompt: the prompt is hidden. */
    method DismissFeedbackPrompt()
      requires Valid() && mounted
      requires !state.isSessionActive && state.showFeedbackPrompt && !state.isFeedbackLoading
      modifies this
      ensures Valid() && mounted
      ensures state == old(state).(showFeedbackPrompt := false)
      ensures sessions == old(sessions)
    {
      state := state.(showFeedbackPrompt := false);
    }

    /** Closing the feedback modal, which is rendered while it is to be shown and
        the feedback is not empty: the modal is hidden and the feedback kept. */
    method CloseFeedbackModal()
      requires Valid() && mounted
      requires state.showFeedbackModal && state.feedback.Some? && state.feedback.value != ""
      modifies this
      ensures Valid() && mounted
      ensures state == old(state).(showFeedbackModal := false)
      ensures sessions == old(sessions)
    {
      state := state.(showFeedbackModal := false);
    }

    /** The unmount effect: the handle in the ref, if any, is closed. */
    method Unmount()
      requires Valid() && mounted
      modifies this
      ensures Valid() && !mounted
      ensures sessions == old(sessions).(closed := old(sessions).closed +
                                         (if sessions.current.Some? then [sessions.current.value] else []))
      ensures state == old(state)
    {
      if sessions.current.Some? {
        sessions := sessions.(closed := sessions.closed + [sessions.current.value]);
      }
      mounted := false;
    }
  }

  /** Start, open, connect, end the interview, leave the page: the session handle
      is closed exactly once. */
  method StopThenUnmountScenario() returns (closes: seq<SessionId>)
    ensures closes == [0]
  {
    var page := new InterviewController(map[], (s: string) => None);
    page.StartSession();
    page.OnOpen();
    var session := page.ConnectSucceeded();
    assert page.state.isSessionActive && page.sessions == Sessions(Some(0), [], 1);
    page.StopSession();
    assert page.sessions == Sessions(None, [0], 1);
    page.Unmount();
    closes := page.sessions.closed;
  }

  /** A session error hides the end button without closing the handle; a new
      interview then replaces it in the ref, so the first handle (and the
      microphone and audio contexts behind it) is never closed. */
  method ErrorThenRestartScenario() returns (closes: seq<SessionId>, returned: nat)
    ensures returned == 2 && closes == [1]
  {
    var page := new InterviewController(map[], (s: string) => None);
    page.StartSession();
    page.OnOpen();
    var first := page.ConnectSucceeded();
    assert page.sessions == Sessions(Some(0), [], 1);
    page.OnError();
    assert !page.state.isSessionActive && !page.state.isConnecting;
    page.StartSession();
    page.OnOpen();
    var second := page.ConnectSucceeded();
    assert page.sessions == Sessions(Some(1), [], 2);
    page.StopSession();
    assert page.sessions == Sessions(None, [1], 2);
    page.Unmount();
    closes := page.sessions.closed;
    returned := page.sessions.returned;
  }

  /** Two completed turns are stored in order, ending the interview raises the
      feedback prompt, and the feedback request gets both turns' transcript, the
      first turn's before the second's. */
  method FeedbackScenario(first: InterviewTurn, second: InterviewTurn)
    returns (stored: string, prompted: bool, transcript: string)
    ensures stored == Json.Stringify([first, second])
    ensures prompted
    ensures transcript == Prompts.TurnText(first) + "\n\n" + Prompts.TurnText(second)
  {
    var page := new InterviewController(map[], (s: string) => None);
    page.StartSession();
    page.OnOpen();
    var session := page.ConnectSucceeded();
    assert page.state.isSessionActive && page.store.history == [];
    page.OnTurnComplete(first);
    assert page.store.history == [first];
    page.OnTurnComplete(second);
    assert page.store.history == [first, second];
    assert page.state.isSessionActive;
    page.StopSession();
    prompted := page.state.showFeedbackPrompt;
    stored := page.store.storage[HistoryKey];
    assert prompted && stored == Json.Stringify([first, second]);
    transcript := page.BeginFeedback();
    assert [first, second] == [first] + [second];
    Prompts.FeedbackTranscriptSnoc([first], second);
  }

  /** A stored history that does not parse gives an empty history, not an error,
      and the persistence effect then overwrites it with the empty array. */
  method CorruptHistoryScenario() returns (history: seq<InterviewTurn>, stored: string)
    ensures history == [] && stored == "[]"
  {
    var page := new InterviewController(map[HistoryKey := "{not json"], (s: string) => None);
    history := page.store.history;
    stored := page.store.storage[HistoryKey];
  }
}
