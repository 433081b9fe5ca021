/** The pure string parts of the remote requests built by the service layer: the
    timetable prompt and the rendering of an interview history as a transcript
    for the feedback request. */
module Prompts {
  import opened Common
  import opened Text

  /** The opening sentence of every timetable prompt. */
  function TimetableIntro(subjects: string, hoursPerDay: int): string
  {
    "Create a 7-day study timetable. The user wants to study the following subjects: " + subjects +
    ". They can study for " + IntToDecimal(hoursPerDay) + " hours per day."
  }

  /** The sentence naming the subjects to focus on, as the user typed them. */
  function FocusClause(focusSubjects: string): string
  {
    " Please give special focus and more time to these subjects: " + focusSubjects + "."
  }

  const TimetableOutro: string :=
    " Create a balanced schedule with specific topics for each subject. Ensure the schedule is practical and includes breaks."

  /** `focusSubjects && focusSubjects.trim()`: present, and not blank once trimmed. */
  predicate HasFocus(focusSubjects: Option<string>)
  {
    focusSubjects.Some? && Trim(focusSubjects.value) != ""
  }

  /** r is a, then m, then b: the three pieces can be cut back out of r. */
  predicate SplitsAs(r: string, a: string, m: string, b: string)
  {
    |r| == |a| + |m| + |b| && r[..|a|] == a && r[|r| - |b|..] == b && r[|a|..|r| - |b|] == m
  }

  lemma ThreeParts(a: string, m: string, b: string)
    ensures SplitsAs(a + m + b, a, m, b)
  {
    var r := a + m + b;
    assert r[..|a|] == a;
    assert r[|r| - |b|..] == b;
    assert r[|a|..|r| - |b|] == m;
  }

  /** The prompt generateTimetable sends: the subjects-and-hours sentence, then the
      focus sentence only when there is something to focus on, then the
      balanced-schedule sentence. */
  function TimetablePrompt(subjects: string, hoursPerDay: int, focusSubjects: Option<string>): string
  {
    WithFocus(TimetableIntro(subjects, hoursPerDay), focusSubjects, TimetableOutro)
  }

  /** intro, then the focus sentence when there is a focus, then outro. */
  function WithFocus(intro: string, focusSubjects: Option<string>, outro: string): string
  {
    intro + (if HasFocus(focusSubjects) then FocusClause(focusSubjects.value) else "") + outro
  }

  /** The three sentences can be cut back out of the prompt: it starts with the
      subjects-and-hours sentence, ends with the balanced-schedule sentence, and
      what lies between is the focus sentence when there is a focus and nothing
      otherwise. */
  lemma TimetablePromptParts(subjects: string, hoursPerDay: int, focusSubjects: Option<string>)
    ensures SplitsAs(TimetablePrompt(subjects, hoursPerDay, focusSubjects), TimetableIntro(subjects, hoursPerDay),
                     if HasFocus(focusSubjects) then FocusClause(focusSubjects.value) else "",
                     TimetableOutro)
  {
    ThreeParts(TimetableIntro(subjects, hoursPerDay),
               if HasFocus(focusSubjects) then FocusClause(focusSubjects.value) else "",
               TimetableOutro);
  }

  /** A focus text made only of white space and line terminators is treated as
      no focus at all. */
  lemma BlankFocusIsIgnored(subjects: string, hoursPerDay: int, focusSubjects: string)
    requires AllTrimmable(focusSubjects)
    ensures TimetablePrompt(subjects, hoursPerDay, Some(focusSubjects)) == TimetablePrompt(subjects, hoursPerDay, None)
  {
    TrimEmptyIff(focusSubjects);
  }

  /** The focus sentence is added exactly when the focus text has a character that
      trim keeps, and then the prompt grows by exactly that sentence. */
  lemma FocusClauseIffNotBlank(subjects: string, hoursPerDay: int, focusSubjects: string)
    ensures var withFocus, without := TimetablePrompt(subjects, hoursPerDay, Some(focusSubjects)),
                                      TimetablePrompt(subjects, hoursPerDay, None);
      (|withFocus| > |without| <==> !AllTrimmable(focusSubjects)) &&
      (!AllTrimmable(focusSubjects) ==> |withFocus| == |without| + |FocusClause(focusSubjects)|)
  {
    TrimEmptyIff(focusSubjects);
    WithFocusLength(TimetableIntro(subjects, hoursPerDay), focusSubjects, TimetableOutro);
  }

  /** The focus sentence is never empty, and the prompt's length is the sum of
      its sentences'. */
  lemma WithFocusLength(intro: string, focusSubjects: string, outro: string)
    ensures |WithFocus(intro, None, outro)| == |intro| + |outro|
    ensures |WithFocus(intro, Some(focusSubjects), outro)| ==
      |intro| + |outro| + (if HasFocus(Some(focusSubjects)) then |FocusClause(focusSubjects)| else 0)
    ensures |FocusClause(focusSubjects)| > 0
  {
  }

  /** How one turn appears in the feedback transcript: the interviewer's words,
      then the candidate's. */
  function TurnText(turn: InterviewTurn): string
  {
    "Interviewer: " + turn.model + "\nCandidate: " + turn.user
  }

  /** Every turn of the history rendered, in order. */
  function TurnTexts(turns: seq<InterviewTurn>): seq<string>
  {
    seq(|turns|, i requires 0 <= i < |turns| => TurnText(turns[i]))
  }

  /** The transcript generateInterviewFeedback embeds in its prompt: every turn
      rendered, in history order, separated by a blank line. */
  function FeedbackTranscript(turns: seq<InterviewTurn>): (r: string)
    ensures turns == [] ==> r == ""
    ensures |turns| == 1 ==> r == TurnText(turns[0])
  {
    Join(TurnTexts(turns), "\n\n")
  }

  /** A turn added at the end of the history appears at the end of the transcript,
      after a blank line; what came before is unchanged. */
  lemma FeedbackTranscriptSnoc(turns: seq<InterviewTurn>, turn: InterviewTurn)
    requires turns != []
    ensures FeedbackTranscript(turns + [turn]) == FeedbackTranscript(turns) + "\n\n" + TurnText(turn)
  {
    var all := TurnTexts(turns + [turn]);
    assert all[..|all| - 1] == TurnTexts(turns);
  }

  /** The transcript starts with the first turn of the history. */
  lemma FeedbackTranscriptCons(turn: InterviewTurn, turns: seq<InterviewTurn>)
    requires turns != []
    ensures FeedbackTranscript([turn] + turns) == TurnText(turn) + "\n\n" + FeedbackTranscript(turns)
  {
    assert TurnTexts([turn] + turns) == [TurnText(turn)] + TurnTexts(turns);
    JoinCons(TurnText(turn), TurnTexts(turns), "\n\n");
  }

  /** The transcript of two histories in a row is their transcripts joined by one
      blank line. */
  lemma FeedbackTranscriptAppend(a: seq<InterviewTurn>, b: seq<InterviewTurn>)
    requires a != [] && b != []
    ensures FeedbackTranscript(a + b) == FeedbackTranscript(a) + "\n\n" + FeedbackTranscript(b)
  {
    assert TurnTexts(a + b) == TurnTexts(a) + TurnTexts(b);
    JoinAppend(TurnTexts(a), TurnTexts(b), "\n\n");
  }
}
