/** The chat of temp_app/src/app/patient/new-triage/page.tsx: a first
    assessment of the selected symptoms and typed text, a follow-up question
    when the local risk is high, and the message list the page shows. */
module TriageChat {
  import opened Options
  import opened Text

  /** The three stages of the chat. */
  datatype Step = Symptoms | Details | Result

  datatype Role = User | System

  /** An assessment as the page shows it on a card. */
  datatype Assessment = Assessment(risk: string, summary: string)

  /** What a message shows: typed text, a translated line (by its key), an
      assessment card, or the closing line with the dashboard button. */
  datatype Content = Said(text: string) | Translated(key: string) | Card(data: Assessment, alert: bool) | Finished

  datatype Message = Message(role: Role, content: Content)

  /** What getAIAssessmentAction resolves to, or that it threw. */
  datatype AIReply = Threw | Answered(result: Assessment, error: Option<string>)

  const Welcome := Message(System, Translated("welcome"))
  const ErrorMessage := Message(System, Translated("error"))
  const SymptomsLabel := "Symptoms: "
  const DetailsLabel := ". Details: "
  const Separator := ", "

  /** The text the first assessment sends: the selected symptoms, followed
      by the typed text when it is not blank, or the typed text alone when
      nothing is selected. */
  function SymptomsText(selected: seq<string>, input: string): string {
    if |selected| > 0 then
      SymptomsLabel + Join(selected, Separator) + (if !IsBlank(input) then DetailsLabel + input else "")
    else input
  }

  /** Whether handleInitialAssessment returns at once. */
  predicate NothingToAssess(selected: seq<string>, input: string) {
    |selected| == 0 && IsBlank(input)
  }

  /** The text of the first message from the user, or "" when there is none. */
  function FirstUserText(ms: seq<Message>): string {
    if ms == [] then ""
    else if ms[0].role == User then (if ms[0].content.Said? then ms[0].content.text else "")
    else FirstUserText(ms[1..])
  }

  /** An AI reply that ends in the catch block: a throw, or a non-empty
      `error`. */
  predicate AIFailed(r: AIReply) {
    r.Threw? || (r.error.Some? && r.error.value != "")
  }

  /** The messages the first assessment appends after the user's: the
      error line when the call throws; a high risk gets an alert card and
      the follow-up question; any other risk a card and the closing line. */
  function InitialReplies(reply: Option<Assessment>): seq<Message> {
    if reply.None? then [ErrorMessage]
    else if reply.value.risk == "high" then
      [Message(System, Card(reply.value, true)), Message(System, Translated("highRisk"))]
    else [Message(System, Card(reply.value, false)), Message(System, Finished)]
  }

  /** The step after the first assessment. */
  function InitialStep(step: Step, reply: Option<Assessment>): Step {
    if reply.None? then step else if reply.value.risk == "high" then Details else Result
  }

  /** The messages the follow-up appends after the user's. */
  function AdvancedReplies(reply: AIReply): seq<Message> {
    if AIFailed(reply) then [ErrorMessage]
    else [Message(System, Card(reply.result, false)), Message(System, Finished)]
  }

  /** The step after the follow-up. */
  function AdvancedStep(step: Step, reply: AIReply): Step {
    if AIFailed(reply) then step else Result
  }

  /** Every message from the user is typed text that is not blank. */
  ghost predicate UsersTyped(ms: seq<Message>) {
    forall i :: 0 <= i < |ms| && ms[i].role == User ==> ms[i].content.Said? && !IsBlank(ms[i].content.text)
  }

  /** The chat opens with the welcome line and its user messages are typed. */
  ghost predicate WellFormed(ms: seq<Message>) {
    |ms| >= 1 && ms[0] == Welcome && UsersTyped(ms)
  }

  /** Replies come from the system. */
  lemma RepliesBySystem(replies: seq<Message>)
    requires forall i :: 0 <= i < |replies| ==> replies[i].role == System
    ensures UsersTyped(replies)
  {
  }

  /** Appending typed user messages and system messages keeps a list well
      formed. */
  lemma AppendWellFormed(ms: seq<Message>, more: seq<Message>)
    requires WellFormed(ms) && UsersTyped(more)
    ensures WellFormed(ms + more)
  {
    forall i | 0 <= i < |ms + more| && (ms + more)[i].role == User
      ensures (ms + more)[i].content.Said? && !IsBlank((ms + more)[i].content.text)
    {
      if i >= |ms| {
        assert (ms + more)[i] == more[i - |ms|];
      }
    }
  }

  class Chat {
    var messages: seq<Message>
    var selectedSymptoms: seq<string>
    var additionalInput: string
    var step: Step

    /** The chat's message list is well formed. */
    ghost predicate Valid()
      reads this
    {
      WellFormed(messages)
    }

    constructor()
      ensures Valid()
      ensures messages == [Welcome] && selectedSymptoms == [] && additionalInput == "" && step == Symptoms
    {
      messages := [Welcome];
      selectedSymptoms := [];
      additionalInput := "";
      step := Symptoms;
    }

    /** handleInitialAssessment, with getLiveAssessment as `live` (None when
        it throws). */
    method HandleInitialAssessment(live: string -> Option<Assessment>)
      requires Valid()
      modifies this
      ensures Valid()
      ensures selectedSymptoms == old(selectedSymptoms)
      ensures NothingToAssess(old(selectedSymptoms), old(additionalInput)) ==>
        messages == old(messages) && additionalInput == old(additionalInput) && step == old(step)
      ensures !NothingToAssess(old(selectedSymptoms), old(additionalInput)) ==>
        var text := SymptomsText(old(selectedSymptoms), old(additionalInput));
        && additionalInput == ""
        && messages == old(messages) + [Message(User, Said(text))] + InitialReplies(live(text))
        && step == InitialStep(old(step), live(text))
    {
      var selected, input := selectedSymptoms, additionalInput;
      if NothingToAssess(selected, input) {
        return;
      }
      var text := SymptomsText(selected, input);
      var asked := [Message(User, Said(text))];
      AskedWellFormed(messages, selected, input);
      messages := messages + asked;
      additionalInput := "";
      var reply := live(text);
      var replies;
      if reply.None? {
        replies := [ErrorMessage];
      } else if reply.value.risk == "high" {
        step := Details;
        replies := [Message(System, Card(reply.value, true)), Message(System, Translated("highRisk"))];
      } else {
        step := Result;
        replies := [Message(System, Card(reply.value, false)), Message(System, Finished)];
      }
      RepliesBySystem(replies);
      AppendWellFormed(messages, replies);
      messages := messages + replies;
    }

    /** handleAdvancedAssessment, with getAIAssessmentAction as `ai`, asked
        with the first user text of the list as it was before the call and
        the typed details. */
    method HandleAdvancedAssessment(ai: (string, string) -> AIReply)
      requires Valid()
      modifies this
      ensures Valid()
      ensures selectedSymptoms == old(selectedSymptoms)
      ensures IsBlank(old(additionalInput)) ==>
        messages == old(messages) && additionalInput == old(additionalInput) && step == old(step)
      ensures !IsBlank(old(additionalInput)) ==>
        var reply := ai(FirstUserText(old(messages)), old(additionalInput));
        && additionalInput == ""
        && messages == old(messages) + [Message(User, Said(old(additionalInput)))] + AdvancedReplies(reply)
        && step == AdvancedStep(old(step), reply)
    {
      if IsBlank(additionalInput) {
        return;
      }
      var details := additionalInput;
      additionalInput := "";
      var originalSymptoms := FirstUserText(messages);
      var asked := [Message(User, Said(details))];
      AppendWellFormed(messages, asked);
      messages := messages + asked;
      var reply := ai(originalSymptoms, details);
      var replies;
      if AIFailed(reply) {
        replies := [ErrorMessage];
      } else {
        step := Result;
        replies := [Message(System, Card(reply.result, false)), Message(System, Finished)];
      }
      RepliesBySystem(replies);
      AppendWellFormed(messages, replies);
      messages := messages + replies;
    }
  }

  // ------------------------------------------------------------ properties

  /** The text sent by the first assessment: with symptoms selected it
      starts with the label and the comma-joined list and ends with the
      typed text exactly when that is not blank; otherwise it is the typed
      text itself. */
  lemma SymptomsTextSpec(selected: seq<string>, input: string)
    ensures |selected| > 0 ==>
      && StartsWith(SymptomsText(selected, input), SymptomsLabel + Join(selected, Separator))
      && (!IsBlank(input) ==> EndsWith(SymptomsText(selected, input), DetailsLabel + input))
      && (IsBlank(input) ==> SymptomsText(selected, input) == SymptomsLabel + Join(selected, Separator))
    ensures |selected| == 0 ==> SymptomsText(selected, input) == input
  {
    if |selected| > 0 {
      var head := SymptomsLabel + Join(selected, Separator);
      var tail := if !IsBlank(input) then DetailsLabel + input else "";
      assert SymptomsText(selected, input) == head + tail;
      assert (head + tail)[..|head|] == head;
      assert (head + tail)[|head + tail| - |tail|..] == tail;
    }
  }

  /** The first assessment's outcome: a throw appends only the error line
      and keeps the step; a reply appends its card, marked as an alert
      exactly when the risk is "high"; the chat moves to the details step
      exactly for a "high" reply (or stays there on a throw), and every
      reply line comes from the system. */
  lemma InitialOutcome(step: Step, reply: Option<Assessment>)
    ensures reply.None? ==> InitialReplies(reply) == [ErrorMessage] && InitialStep(step, reply) == step
    ensures reply.Some? ==>
      |InitialReplies(reply)| == 2
      && InitialReplies(reply)[0] == Message(System, Card(reply.value, reply.value.risk == "high"))
    ensures InitialStep(step, reply) == Details <==>
      (reply.Some? && reply.value.risk == "high") || (reply.None? && step == Details)
    ensures reply.Some? && reply.value.risk != "high" ==> InitialStep(step, reply) == Result
    ensures forall m :: m in InitialReplies(reply) ==> m.role == System
  {
  }

  /** The follow-up's outcome: a failure appends only the error line and
      keeps the step; a success appends the result card and the closing
      line and ends the chat in the result step. */
  lemma AdvancedOutcome(step: Step, reply: AIReply)
    ensures AIFailed(reply) ==> AdvancedReplies(reply) == [ErrorMessage] && AdvancedStep(step, reply) == step
    ensures !AIFailed(reply) ==>
      AdvancedReplies(reply) == [Message(System, Card(reply.result, false)), Message(System, Finished)]
      && AdvancedStep(step, reply) == Result
    ensures reply.Answered? && (reply.error.None? || reply.error == Some("")) ==> !AIFailed(reply)
    ensures forall m :: m in AdvancedReplies(reply) ==> m.role == System
  {
  }

  /** Whenever the first assessment goes ahead, the text it sends is not
      blank. */
  lemma SubmittedNotBlank(selected: seq<string>, input: string)
    requires !NothingToAssess(selected, input)
    ensures !IsBlank(SymptomsText(selected, input))
  {
    var text := SymptomsText(selected, input);
    if |selected| > 0 {
      BlankIffAllSpace(text);
      assert text[0] == SymptomsLabel[0];
    }
  }

  /** The first assessment's user message keeps the chat well formed. */
  lemma AskedWellFormed(ms: seq<Message>, selected: seq<string>, input: string)
    requires WellFormed(ms) && !NothingToAssess(selected, input)
    ensures WellFormed(ms + [Message(User, Said(SymptomsText(selected, input)))])
  {
    SubmittedNotBlank(selected, input);
    AppendWellFormed(ms, [Message(User, Said(SymptomsText(selected, input)))]);
  }

  /** Messages appended after the first user message do not change which
      one it is. */
  lemma {:induction false} FirstUserKept(ms: seq<Message>, more: seq<Message>)
    requires exists i :: 0 <= i < |ms| && ms[i].role == User
    ensures FirstUserText(ms + more) == FirstUserText(ms)
  {
    if ms[0].role != User {
      assert (ms + more)[1..] == ms[1..] + more;
      var i :| 0 <= i < |ms| && ms[i].role == User;
      assert ms[1..][i - 1].role == User;
      FirstUserKept(ms[1..], more);
    }
  }

  /** In a chat with only system messages so far, the first user message
      is the one just appended. */
  lemma {:induction false} FirstUserAppended(ms: seq<Message>, text: string)
    requires forall i :: 0 <= i < |ms| ==> ms[i].role == System
    ensures FirstUserText(ms + [Message(User, Said(text))]) == text
  {
    if ms != [] {
      assert (ms + [Message(User, Said(text))])[1..] == ms[1..] + [Message(User, Said(text))];
      FirstUserAppended(ms[1..], text);
    }
  }

  /** The follow-up question asks about the symptoms text of the first
      assessment: after a fresh chat's first assessment, whatever was
      appended since, the first user text is that symptoms text. */
  lemma FollowUpAsksAboutFirstText(selected: seq<string>, input: string, replies: seq<Message>)
    ensures FirstUserText([Welcome] + [Message(User, Said(SymptomsText(selected, input)))] + replies)
      == SymptomsText(selected, input)
  {
    var asked := [Welcome] + [Message(User, Said(SymptomsText(selected, input)))];
    FirstUserAppended([Welcome], SymptomsText(selected, input));
    assert asked[1].role == User;
    FirstUserKept(asked, replies);
  }
}
