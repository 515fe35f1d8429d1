/**
 * The scenario controller of App.tsx (`ScenarioRunner`): the transcript of
 * one running scenario, the input field, the in-flight flag, the completion
 * flag and the latest feedback. The awaited call to the feedback engine is
 * the function parameter `oracle`, given the trimmed action and the
 * feedback-free history; each submission runs as one sequential step.
 */
module Runner {
  import opened Types
  import opened Strings
  import opened Competence
  import Gemini

  /** The session ends once a submission succeeds while the transcript is longer than this. */
  const CompletionThreshold := 8

  /** What the awaited `processInteraction` call delivers: a feedback value, or a thrown error. */
  datatype Reply = Replied(feedback: CompleteInteractionFeedback) | Failed

  /** `history.map(h => ({ role: h.role, content: h.content }))`: the transcript without feedback. */
  function ChatHistory(history: seq<Turn>): (r: seq<ChatMessage>)
    ensures |r| == |history|
    ensures forall i | 0 <= i < |history| :: r[i].role == history[i].role && r[i].content == history[i].content
  {
    seq(|history|, i requires 0 <= i < |history| => ChatMessage(history[i].role, history[i].content))
  }

  /**
   * The history handed to the engine for a longer transcript is that of the
   * shorter one followed by the messages of the added turns.
   */
  lemma ChatHistoryAppend(h: seq<Turn>, t: seq<Turn>)
    ensures ChatHistory(h + t) == ChatHistory(h) + ChatHistory(t)
  {
    var l, r := ChatHistory(h + t), ChatHistory(h) + ChatHistory(t);
    forall i | 0 <= i < |l| ensures l[i] == r[i] {
      if i >= |h| {
        assert (h + t)[i] == t[i - |h|];
      }
    }
  }

  /**
   * The request of the round after a reply replays the earlier messages of
   * the previous request unchanged, but not the action as that request sent
   * it: the transcript stores the bare action, so the replay holds it
   * without the "User Action: " prefix, followed by the reply text.
   */
  lemma NextRequestReplaysBareAction(h: seq<Turn>, a: string, f: CompleteInteractionFeedback, a': string)
    ensures var prev := Gemini.BuildContents(ChatHistory(h), a);
      var next := Gemini.BuildContents(ChatHistory(h + [Turn(User, a, None), Turn(Model, f.aiResponse, Some(f))]), a');
      && |next| == |prev| + 2
      && next[..|h|] == prev[..|h|]
      && prev[|h|] == Gemini.Content("user", [Gemini.Part(Gemini.ActionPrefix + a)])
      && next[|h|] == Gemini.Content("user", [Gemini.Part(a)])
      && next[|h| + 1] == Gemini.Content("model", [Gemini.Part(f.aiResponse)])
      && next[|h|] != prev[|h|]
  {
    var t := [Turn(User, a, None), Turn(Model, f.aiResponse, Some(f))];
    var ch := ChatHistory(h + t);
    ChatHistoryAppend(h, t);
    var next := Gemini.BuildContents(ch, a');
    var prev := Gemini.BuildContents(ChatHistory(h), a);
    forall i | 0 <= i < |h| ensures next[i] == prev[i] {
      assert next[i] == next[..|ch|][i];
      assert prev[i] == prev[..|h|][i];
      assert ch[i] == ChatHistory(h)[i];
    }
    assert next[|h|] == next[..|ch|][|h|];
    assert next[|h| + 1] == next[..|ch|][|h| + 1];
    assert |Gemini.ActionPrefix + a| > |a|;
  }

  /** A user turn: a non-empty action with no whitespace at either end, no feedback. */
  ghost predicate UserTurn(t: Turn)
  {
    t.role == User && t.feedback == None && t.content != [] && Trimmed(t.content)
  }

  /** A counterpart turn: the reply text of the feedback it carries. */
  ghost predicate ModelTurn(t: Turn)
  {
    t.role == Model && t.feedback.Some? && t.content == t.feedback.value.aiResponse
  }

  /** The turn at position `i` of a transcript: user turns at odd positions, counterpart turns at even ones. */
  ghost predicate PlacedTurn(t: Turn, i: int)
  {
    if i % 2 == 1 then UserTurn(t) else ModelTurn(t)
  }

  /**
   * A started transcript: the opening narrative as a counterpart turn, then
   * user and counterpart turns alternating, so its length is odd.
   */
  ghost predicate Transcript(h: seq<Turn>, opening: string)
  {
    && |h| % 2 == 1
    && h[0] == Turn(Model, opening, None)
    && forall i | 1 <= i < |h| :: PlacedTurn(h[i], i)
  }

  /**
   * Appending a user turn and a counterpart turn to a transcript of at most
   * ten turns keeps it a transcript of at most eleven, and it then exceeds
   * ten turns exactly when it exceeded the threshold before.
   */
  lemma TranscriptAppend(h: seq<Turn>, opening: string, u: Turn, m: Turn)
    requires Transcript(h, opening) && |h| <= CompletionThreshold + 2
    requires UserTurn(u) && ModelTurn(m)
    ensures Transcript(h + [u, m], opening)
    ensures |h + [u, m]| <= CompletionThreshold + 3
    ensures |h + [u, m]| > CompletionThreshold + 2 <==> |h| > CompletionThreshold
  {
    var h' := h + [u, m];
    assert PlacedTurn(u, |h|) && PlacedTurn(m, |h| + 1);
    forall i | 1 <= i < |h'|
      ensures PlacedTurn(h'[i], i)
    {
      if i < |h| {
        assert h'[i] == h[i];
      }
    }
  }

  class ScenarioRunner {
    const template: Option<ScenarioTemplate>   // the template lookup; None when the id is unknown
    const cultureFound: bool                    // whether the culture lookup succeeded
    const cultureId: string
    const app: AppState                         // owner of `onUpdateCompetence`

    var history: seq<Turn>
    var userAction: string
    var isProcessing: bool
    var sessionCompleted: bool
    var lastFeedback: Option<CompleteInteractionFeedback>

    /** Both lookups succeeded, so the runner renders and accepts input. */
    predicate Ready()
    {
      template.Some? && cultureFound
    }

    ghost predicate Valid()
      reads this
    {
      && (!Ready() ==> history == [] && lastFeedback == None && !sessionCompleted)
      && (Ready() ==>
            && Transcript(history, template.value.initialSituation)
            && |history| <= CompletionThreshold + 3
            && (sessionCompleted <==> |history| > CompletionThreshold + 2)
            && lastFeedback == history[|history| - 1].feedback)
      && (sessionCompleted ==> userAction == [])
    }

    /**
     * The initial state, followed by the mount effect: when both lookups
     * succeed the transcript is seeded with the opening narrative.
     */
    constructor (template: Option<ScenarioTemplate>, cultureFound: bool, cultureId: string, app: AppState)
      ensures Valid()
      ensures this.template == template && this.cultureFound == cultureFound
      ensures this.cultureId == cultureId && this.app == app
      ensures history == if Ready() then [Turn(Model, template.value.initialSituation, None)] else []
      ensures userAction == [] && !isProcessing && !sessionCompleted && lastFeedback == None
    {
      this.template := template;
      this.cultureFound := cultureFound;
      this.cultureId := cultureId;
      this.app := app;
      userAction := [];
      isProcessing := false;
      sessionCompleted := false;
      lastFeedback := None;
      history := [];
      if template.Some? && cultureFound {
        history := [Turn(Model, template.value.initialSituation, None)];
      }
    }

    /**
     * The text area's `onChange`; the area is disabled while processing or
     * once completed. When a lookup failed no text area is rendered; typing
     * is still allowed here, and `HandleSubmit` rejects what was typed.
     */
    method Type(text: string)
      requires Valid()
      modifies this`userAction
      ensures Valid()
      ensures userAction == if isProcessing || sessionCompleted then old(userAction) else text
    {
      if !isProcessing && !sessionCompleted {
        userAction := text;
      }
    }

    /** The guard of `handleSubmit`: blank input, a call in flight, or a failed lookup. */
    predicate SubmitRejected()
      reads this
    {
      Trim(userAction) == [] || isProcessing || !Ready()
    }

    /** The send button is enabled: the guard passes and the session is not completed. */
    predicate SendEnabled()
      reads this
    {
      !SubmitRejected() && !sessionCompleted
    }

    /**
     * The effect of a submission that passed the guard: the input is cleared
     * and the in-flight flag is down again; on a reply, exactly two turns are
     * appended, the feedback is recorded, the impact is applied once to the
     * user's scores, and completion is decided on the length before the
     * append; on a failure nothing else changes.
     */
    twostate predicate Submitted(oracle: (string, seq<ChatMessage>) -> Reply)
      reads this, app
    {
      Answered(Trim(old(userAction)), oracle)
    }

    /** `Submitted` for the trimmed action `action`. */
    twostate predicate Answered(action: string, oracle: (string, seq<ChatMessage>) -> Reply)
      reads this, app
    {
      && userAction == []
      && !isProcessing
      && match oracle(action, ChatHistory(old(history)))
         case Failed =>
           && history == old(history)
           && lastFeedback == old(lastFeedback)
           && sessionCompleted == old(sessionCompleted)
           && app.currentUser == old(app.currentUser)
         case Replied(f) =>
           && history == old(history) + [Turn(User, action, None), Turn(Model, f.aiResponse, Some(f))]
           && lastFeedback == Some(f)
           && sessionCompleted == (old(sessionCompleted) || |old(history)| > CompletionThreshold)
           && app.currentUser == (if old(app.currentUser).Some?
                                  then Some(Updated(old(app.currentUser).value, cultureId, f.competenceImpact))
                                  else None)
    }

    /**
     * What follows a successful call: the two turns are appended, the
     * feedback is recorded, the impact is applied, and completion is decided
     * on the length the closure captured before the append.
     */
    method ApplyReply(actionText: string, f: CompleteInteractionFeedback)
      requires Valid() && Ready() && !sessionCompleted && userAction == []
      requires actionText != [] && Trimmed(actionText)
      modifies this`history, this`lastFeedback, this`sessionCompleted, app
      ensures Valid()
      ensures history == old(history) + [Turn(User, actionText, None), Turn(Model, f.aiResponse, Some(f))]
      ensures lastFeedback == Some(f)
      ensures sessionCompleted == (|old(history)| > CompletionThreshold)
      ensures app.currentUser == if old(app.currentUser).Some?
                                 then Some(Updated(old(app.currentUser).value, cultureId, f.competenceImpact))
                                 else None
    {
      var captured := |history|;
      var appended := [Turn(User, actionText, None), Turn(Model, f.aiResponse, Some(f))];
      TranscriptAppend(history, template.value.initialSituation, appended[0], appended[1]);
      history := history + appended;
      lastFeedback := Some(f);
      app.UpdateCompetence(f.competenceImpact, cultureId);
      if captured > CompletionThreshold {
        sessionCompleted := true;
      }
    }

    /**
     * The body of `handleSubmit` past its guard: the input is cleared, the
     * in-flight flag is raised, the engine is awaited with the trimmed action,
     * a reply is applied, and the flag is lowered in the `finally` block.
     */
    method Process(actionText: string, oracle: (string, seq<ChatMessage>) -> Reply)
      requires Valid() && Ready() && !sessionCompleted && !isProcessing
      requires actionText != [] && Trimmed(actionText)
      modifies this, app
      ensures Valid()
      ensures Answered(actionText, oracle)
    {
      userAction := [];
      isProcessing := true;
      var result := oracle(actionText, ChatHistory(history));
      if result.Replied? {
        ApplyReply(actionText, result.feedback);
      }
      isProcessing := false;
    }

    /** `handleSubmit`; note that it does not itself look at `sessionCompleted`. */
    method HandleSubmit(oracle: (string, seq<ChatMessage>) -> Reply)
      requires Valid()
      modifies this, app
      ensures Valid()
      ensures old(sessionCompleted) ==> sessionCompleted
      ensures old(SubmitRejected()) ==> unchanged(this) && unchanged(app)
      ensures !old(SubmitRejected()) ==> Submitted(oracle)
    {
      var actionText := Trim(userAction);
      if actionText == [] || isProcessing || !Ready() {
        return;
      }
      Process(actionText, oracle);
    }

    /** Submitting the form through the send button, which is disabled unless `SendEnabled()`. */
    method Send(oracle: (string, seq<ChatMessage>) -> Reply)
      requires Valid()
      modifies this, app
      ensures Valid()
      ensures old(sessionCompleted) ==> sessionCompleted
      ensures !old(SendEnabled()) ==> unchanged(this) && unchanged(app)
      ensures old(SendEnabled()) ==> Submitted(oracle)
    {
      if SendEnabled() {
        HandleSubmit(oracle);
      }
    }

    /** The user types `text` into the text area and presses the send button. */
    method Enter(text: string, oracle: (string, seq<ChatMessage>) -> Reply)
      requires Valid()
      modifies this, app
      ensures Valid()
      ensures old(isProcessing || sessionCompleted) ==> unchanged(this) && unchanged(app)
      ensures !old(isProcessing || sessionCompleted) && Ready() && Trim(text) != [] ==> Answered(Trim(text), oracle)
      ensures !old(isProcessing || sessionCompleted) && !(Ready() && Trim(text) != []) ==>
        && userAction == text
        && unchanged(this`history, this`isProcessing, this`sessionCompleted, this`lastFeedback)
        && unchanged(app)
    {
      Type(text);
      Send(oracle);
    }
  }

  /**
   * One round of a session whose submissions are all answered: the user
   * enters a non-blank action, the two turns of the round are appended to
   * the transcript, and the session completes exactly when it had more than
   * eight turns before.
   */
  method AnsweredRound(runner: ScenarioRunner, action: string, oracle: (string, seq<ChatMessage>) -> Reply)
    requires runner.Valid() && runner.Ready() && !runner.sessionCompleted && !runner.isProcessing
    requires Trim(action) != []
    requires forall a, h :: oracle(a, h).Replied?
    modifies runner, runner.app
    ensures runner.Valid() && !runner.isProcessing
    ensures runner.Answered(Trim(action), oracle)
    ensures |runner.history| == old(|runner.history|) + 2
    ensures runner.sessionCompleted <==> old(|runner.history|) > CompletionThreshold
  {
    assert oracle(Trim(action), ChatHistory(runner.history)).Replied?;
    runner.Enter(action, oracle);
  }

  /**
   * A session whose every submission is answered: the fifth accepted
   * submission completes it with eleven turns. The input is then empty and
   * the send button disabled, so by `Enter` further input changes nothing.
   */
  method CompleteSession(
    template: ScenarioTemplate, cultureId: string, app: AppState, action: string,
    oracle: (string, seq<ChatMessage>) -> Reply)
    returns (runner: ScenarioRunner)
    requires Trim(action) != []
    requires forall a, h :: oracle(a, h).Replied?
    modifies app
    ensures fresh(runner) && runner.Valid()
    ensures runner.sessionCompleted && |runner.history| == 11
    ensures runner.history[0] == Turn(Model, template.initialSituation, None)
    ensures runner.userAction == [] && !runner.SendEnabled()
  {
    runner := new ScenarioRunner(Some(template), true, cultureId, app);
    var k := 0;
    while k < 5
      invariant 0 <= k <= 5
      invariant fresh(runner) && runner.Valid() && runner.app == app && runner.Ready()
      invariant runner.template == Some(template)
      invariant |runner.history| == 2 * k + 1
      invariant runner.sessionCompleted <==> k == 5
      invariant !runner.isProcessing
    {
      AnsweredRound(runner, action, oracle);
      k := k + 1;
    }
  }
}
