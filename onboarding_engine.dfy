/**
 * The onboarding conversation engine: a cursor over the scripted steps, the
 * free-text input mode, and the reply that is waiting for its simulated delay.
 *
 * The transitions are first given as functions over a `Chat` value; the class
 * `OnboardingPage` keeps the steps in an array that its handlers update in
 * place, and each handler is proved to perform exactly the corresponding
 * transition. Every delayed part of a handler (the body of its timer) is a
 * separate operation, run later, that finishes the reply recorded in `pending`.
 */
module OnboardingEngine {
  import opened Common
  import opened OnboardingScript
  import opened UserContext

  datatype InputMode = NoInput | CustomGoalInput

  /** What a running timer has captured: the action or goal, the step, the placeholder id. */
  datatype Pending =
    | Idle
    | AwaitingReply(action: string, step: nat, loadingId: string)
    | AwaitingGoalReply(goal: string, step: nat, loadingId: string)

  datatype Chat = Chat(steps: seq<Step>, current: nat, inputMode: InputMode, pending: Pending)

  /** What a reply asks of the collaborators: a stats update and a navigation. */
  datatype Effect = Effect(markComplete: bool, stats: Option<UserDelta>, navigateTo: Option<string>)

  const NoEffect := Effect(false, None, None)
  const DashboardRoute := "/dashboard"

  predicate WellFormed(c: Chat) {
    && 0 < |c.steps|
    && c.current < |c.steps|
    && (!c.pending.Idle? ==> c.pending.step < |c.steps|)
  }

  function Initial(): (c: Chat)
    ensures WellFormed(c)
  {
    Chat(Script, 0, NoInput, Idle)
  }

  // ---------------------------------------------------------------------
  // Messages the engine creates (`stamp` stands for `Date.now()`)
  // ---------------------------------------------------------------------

  function LoadingId(stamp: string): string { "loading-" + stamp }

  function LoadingMessage(stamp: string): Message {
    Message(LoadingId(stamp), "", Assistant, [], true)
  }

  function UserReply(text: string, stamp: string): Message {
    Message("user-" + stamp, text, UserSender, [], false)
  }

  function UserGoal(goal: string, stamp: string): Message {
    Message("user-goal-" + stamp, goal, UserSender, [], false)
  }

  function SavedResponse(stamp: string): (m: Message)
    ensures IsContinuePrompt(m)
  {
    Message("response-" + stamp, "That's great! I've saved your preference.", Assistant,
      [ReplyOption("continue", "Continue", NextStepAction)], false)
  }

  function BankSuccessMessage(stamp: string): (m: Message)
    ensures IsContinuePrompt(m)
  {
    Message("bank-success-" + stamp,
      "Great! Your bank account has been successfully connected. Now you can track your finances in real-time.",
      Assistant, [ReplyOption("bank-success-next", "Continue", NextStepAction)], false)
  }

  /** `messages.filter(msg => msg.id !== id)`. */
  function WithoutId(msgs: seq<Message>, id: string): seq<Message> {
    Filter(msgs, (m: Message) => m.id != id)
  }

  predicate HasId(msgs: seq<Message>, id: string) {
    exists i :: 0 <= i < |msgs| && msgs[i].id == id
  }

  /** The reply a resolved option produces, if any. */
  function Response(action: string, stamp: string): (r: Option<Message>)
    ensures r.Some? ==> IsContinuePrompt(r.value)
    ensures r.Some? <==> action in {ShowInfoAction, SaveGoalAction, SaveSpendingAction,
                                    SaveMotivationAction, SkipBankAction}
  {
    if action == ShowInfoAction then Some(InfoResponse(stamp))
    else if action == SaveGoalAction || action == SaveSpendingAction || action == SaveMotivationAction
    then Some(SavedResponse(stamp))
    else if action == SkipBankAction then Some(BankSkipResponse(stamp))
    else None
  }

  /** The stats update that completing onboarding requests for `u`. */
  function RewardDelta(u: User): UserDelta {
    NoChange.(xp := Some(u.xp + 100), coins := Some(u.coins + 50),
              achievements := Some(u.achievements + ["onboarding_complete"]))
  }

  // ---------------------------------------------------------------------
  // Transitions
  // ---------------------------------------------------------------------

  function SetMessages(c: Chat, s: nat, msgs: seq<Message>): (r: Chat)
    requires s < |c.steps|
    ensures |r.steps| == |c.steps|
  {
    c.(steps := c.steps[s := c.steps[s].(messages := msgs)])
  }

  /** `handleNextStep`. */
  function Next(c: Chat): (r: Chat)
    requires WellFormed(c)
    ensures WellFormed(r) && |r.steps| == |c.steps| && r.pending == c.pending
  {
    if c.current < |c.steps| - 1 then
      c.(steps := c.steps[c.current := c.steps[c.current].(completed := true)],
         current := c.current + 1,
         inputMode := NoInput)
    else c
  }

  /** `handlePrevStep`. */
  function Prev(c: Chat): (r: Chat)
    requires WellFormed(c)
    ensures WellFormed(r) && r.steps == c.steps && r.pending == c.pending
  {
    if c.current > 0 then c.(current := c.current - 1, inputMode := NoInput) else c
  }

  /** The Next button's `disabled` condition, negated. */
  predicate NextEnabled(c: Chat)
    requires WellFormed(c)
  {
    c.current != |c.steps| - 1 && c.inputMode == NoInput && c.steps[c.current].component.None?
  }

  /** The Previous button's `disabled` condition, negated. */
  predicate PrevEnabled(c: Chat) {
    c.current != 0 && c.inputMode == NoInput
  }

  /** The immediate part of `handleOptionClick`: echo the option, add a placeholder. */
  function Click(c: Chat, action: string, value: string, stamp: string): (r: Chat)
    requires WellFormed(c)
    ensures WellFormed(r) && |r.steps| == |c.steps|
  {
    var s := c.current;
    var echo := if value != "" then [UserReply(value, stamp)] else [];
    SetMessages(c, s, c.steps[s].messages + echo + [LoadingMessage(stamp)])
      .(pending := AwaitingReply(action, s, LoadingId(stamp)))
  }

  /**
   * The delayed part of `handleOptionClick`, with the completion call fixed
   * (see `ResolveReplyAsWritten`): run the action, then drop the placeholder and
   * append the response, except that CUSTOM_GOAL keeps the placeholder.
   * COMPLETE_ONBOARDING asks the user context to mark onboarding complete
   * (`markComplete`), rewards the user and navigates to the dashboard.
   */
  function ResolveReply(c: Chat, stamp: string, user: Option<User>): (r: (Chat, Effect))
    requires WellFormed(c) && c.pending.AwaitingReply? && c.pending.step == c.current
    ensures WellFormed(r.0) && r.0.pending == Idle && |r.0.steps| == |c.steps|
  {
    var a := c.pending.action;
    var s := c.pending.step;
    var without := WithoutId(c.steps[s].messages, c.pending.loadingId);
    var acted :=
      if a == CustomGoalAction then c.(inputMode := CustomGoalInput)
      else if a == ShowBankAction then c.(steps := c.steps[s := c.steps[s].(component := Some(BankLinking))])
      else if a == NextStepAction then Next(c)
      else c;
    var response := Response(a, stamp);
    var replied :=
      if response.Some? then SetMessages(acted, s, without + [response.value])
      else if a != CustomGoalAction then SetMessages(acted, s, without)
      else acted;
    var effect :=
      if a == CompleteAction
      then Effect(true, if user.Some? then Some(RewardDelta(user.value)) else None, Some(DashboardRoute))
      else NoEffect;
    (replied.(pending := Idle), effect)
  }

  /**
   * The delayed part as the source runs it: `completeOnboarding` is not
   * provided by the user context, so calling it throws and the rest of the
   * timer callback (stats update, navigation, placeholder removal) never runs.
   */
  function ResolveReplyAsWritten(c: Chat, stamp: string, user: Option<User>): (r: (Chat, Effect))
    requires WellFormed(c) && c.pending.AwaitingReply? && c.pending.step == c.current
    ensures WellFormed(r.0) && r.0.pending == Idle
  {
    if c.pending.action == CompleteAction then (c.(pending := Idle), NoEffect)
    else ResolveReply(c, stamp, user)
  }

  /** The immediate part of `handleCustomGoalSubmit`. */
  function SubmitGoal(c: Chat, goal: string, stamp: string): (r: Chat)
    requires WellFormed(c)
    ensures WellFormed(r) && |r.steps| == |c.steps|
  {
    var s := c.current;
    SetMessages(c, s, c.steps[s].messages + [UserGoal(goal, stamp), LoadingMessage(stamp)])
      .(inputMode := NoInput, pending := AwaitingGoalReply(goal, s, LoadingId(stamp)))
  }

  /** The delayed part of `handleCustomGoalSubmit`. */
  function ResolveGoal(c: Chat, stamp: string): (r: Chat)
    requires WellFormed(c) && c.pending.AwaitingGoalReply? && c.pending.step == c.current
    ensures WellFormed(r) && r.pending == Idle && |r.steps| == |c.steps|
  {
    var s := c.pending.step;
    SetMessages(c, s, WithoutId(c.steps[s].messages, c.pending.loadingId)
                        + [CustomGoalResponse(c.pending.goal, stamp)])
      .(pending := Idle)
  }

  /** `handleBankLinkComplete`. */
  function BankLinked(c: Chat, stamp: string): (r: Chat)
    requires WellFormed(c)
    ensures WellFormed(r) && |r.steps| == |c.steps|
  {
    var s := c.current;
    c.(steps := c.steps[s := c.steps[s].(messages := c.steps[s].messages + [BankSuccessMessage(stamp)],
                                         component := None)])
  }

  // ---------------------------------------------------------------------
  // Properties of the transitions
  // ---------------------------------------------------------------------

  /**
   * Next marks the current step completed, moves to the following one and
   * leaves input mode; no message changes. At the last step it does nothing.
   */
  lemma NextAdvances(c: Chat)
    requires WellFormed(c)
    ensures c.current == |c.steps| - 1 ==> Next(c) == c
    ensures c.current < |c.steps| - 1 ==>
      && Next(c).current == c.current + 1
      && Next(c).inputMode == NoInput
      && Next(c).steps[c.current].completed
      && forall i :: 0 <= i < |c.steps| ==>
           && Next(c).steps[i].messages == c.steps[i].messages
           && Next(c).steps[i].component == c.steps[i].component
           && (i != c.current ==> Next(c).steps[i] == c.steps[i])
  {
  }

  /** Going back after going forward returns to the same step and keeps the completion mark. */
  lemma PrevUndoesNext(c: Chat)
    requires WellFormed(c) && c.current < |c.steps| - 1
    ensures Prev(Next(c)).current == c.current
    ensures Prev(Next(c)).inputMode == NoInput
    ensures Prev(Next(c)).steps[c.current].completed
    ensures Prev(Next(c)).steps == Next(c).steps
  {
  }

  /** An enabled Next button always moves forward. */
  lemma EnabledNextAdvances(c: Chat)
    requires WellFormed(c) && NextEnabled(c)
    ensures Next(c).current == c.current + 1
  {
  }

  /** Removing a fresh placeholder that was appended last restores the earlier messages. */
  lemma {:induction false} DropFreshPlaceholder(msgs: seq<Message>, extra: seq<Message>, stamp: string)
    requires !HasId(msgs, LoadingId(stamp))
    requires forall i :: 0 <= i < |extra| ==> extra[i].id != LoadingId(stamp)
    ensures WithoutId(msgs + extra + [LoadingMessage(stamp)], LoadingId(stamp)) == msgs + extra
  {
    var p := (m: Message) => m.id != LoadingId(stamp);
    FilterAppend(msgs + extra, [LoadingMessage(stamp)], p);
    FilterAll(msgs + extra, p);
  }

  lemma UserReplyIsNotPlaceholder(value: string, stamp: string)
    ensures UserReply(value, stamp).id != LoadingId(stamp)
    ensures UserGoal(value, stamp).id != LoadingId(stamp)
  {
    DistinctPrefixes("user-", "loading-", stamp, stamp);
    DistinctPrefixes("user-goal-", "loading-", stamp, stamp);
  }

  /** The messages an option click leaves on its step once its reply has resolved. */
  function ReplyOutcome(before: seq<Message>, action: string, value: string, s1: string, s2: string)
    : seq<Message>
  {
    var echo := if value != "" then [UserReply(value, s1)] else [];
    var response := Response(action, s2);
    before + echo +
      (if response.Some? then [response.value]
       else if action == CustomGoalAction then [LoadingMessage(s1)]
       else [])
  }

  /**
   * A click followed by its resolution: the step gains the echoed option and
   * exactly one response (SHOW_INFO, SAVE_*, SKIP_BANK), or the placeholder is
   * kept (CUSTOM_GOAL), or nothing remains of the placeholder (all other
   * actions). No other step's messages change, and only COMPLETE_ONBOARDING
   * signals completion and asks for a stats update and a navigation.
   */
  lemma {:induction false} ClickThenResolve(c: Chat, action: string, value: string, s1: string, s2: string,
                                           user: Option<User>)
    requires WellFormed(c) && c.pending == Idle
    requires !HasId(c.steps[c.current].messages, LoadingId(s1))
    ensures var r := ResolveReply(Click(c, action, value, s1), s2, user);
      && r.0.pending == Idle
      && r.0.steps[c.current].messages == ReplyOutcome(c.steps[c.current].messages, action, value, s1, s2)
      && (forall i :: 0 <= i < |c.steps| && i != c.current ==> r.0.steps[i].messages == c.steps[i].messages)
      && (action == CustomGoalAction ==> r.0.inputMode == CustomGoalInput)
      && (action != CustomGoalAction && action != NextStepAction ==> r.0.inputMode == c.inputMode)
      && (action == ShowBankAction ==> r.0.steps[c.current].component == Some(BankLinking))
      && (action == NextStepAction ==> r.0.current == Next(c).current
                                       && r.0.steps[c.current].completed == Next(c).steps[c.current].completed)
      && (action != NextStepAction ==> r.0.current == c.current)
      && (action == CompleteAction ==>
            r.1 == Effect(true, if user.Some? then Some(RewardDelta(user.value)) else None, Some(DashboardRoute)))
      && (action != CompleteAction ==> r.1 == NoEffect)
  {
    ClickResolveMessages(c, action, value, s1, s2, user);
    ClickResolveState(c, action, value, s1, s2, user);
  }

  /** The message part of `ClickThenResolve`. */
  lemma ClickResolveMessages(c: Chat, action: string, value: string, s1: string, s2: string, user: Option<User>)
    requires WellFormed(c) && c.pending == Idle
    requires !HasId(c.steps[c.current].messages, LoadingId(s1))
    ensures var r := ResolveReply(Click(c, action, value, s1), s2, user);
      && r.0.steps[c.current].messages == ReplyOutcome(c.steps[c.current].messages, action, value, s1, s2)
      && (forall i :: 0 <= i < |c.steps| && i != c.current ==> r.0.steps[i].messages == c.steps[i].messages)
  {
    var s := c.current;
    var echo := if value != "" then [UserReply(value, s1)] else [];
    var k := Click(c, action, value, s1);
    assert k.steps[s].messages == c.steps[s].messages + echo + [LoadingMessage(s1)];
    UserReplyIsNotPlaceholder(value, s1);
    DropFreshPlaceholder(c.steps[s].messages, echo, s1);
    assert WithoutId(k.steps[s].messages, LoadingId(s1)) == c.steps[s].messages + echo;
  }

  /** The cursor, mode, component and effect part of `ClickThenResolve`. */
  lemma ClickResolveState(c: Chat, action: string, value: string, s1: string, s2: string, user: Option<User>)
    requires WellFormed(c) && c.pending == Idle
    ensures var r := ResolveReply(Click(c, action, value, s1), s2, user);
      && r.0.pending == Idle
      && (action == CustomGoalAction ==> r.0.inputMode == CustomGoalInput)
      && (action != CustomGoalAction && action != NextStepAction ==> r.0.inputMode == c.inputMode)
      && (action == ShowBankAction ==> r.0.steps[c.current].component == Some(BankLinking))
      && (action == NextStepAction ==> r.0.current == Next(c).current
                                       && r.0.steps[c.current].completed == Next(c).steps[c.current].completed)
      && (action != NextStepAction ==> r.0.current == c.current)
      && (action == CompleteAction ==>
            r.1 == Effect(true, if user.Some? then Some(RewardDelta(user.value)) else None, Some(DashboardRoute)))
      && (action != CompleteAction ==> r.1 == NoEffect)
  {
  }

  /**
   * Submitting a free-text goal and resolving it: the step gains the goal as a
   * user message and a reply that quotes it and continues to the next step;
   * the placeholder is gone and input mode is off.
   */
  lemma {:induction false} SubmitThenResolve(c: Chat, goal: string, s1: string, s2: string)
    requires WellFormed(c) && c.pending == Idle
    requires !HasId(c.steps[c.current].messages, LoadingId(s1))
    ensures var r := ResolveGoal(SubmitGoal(c, goal, s1), s2);
      && r.current == c.current && r.inputMode == NoInput && r.pending == Idle
      && r.steps[c.current].messages
           == c.steps[c.current].messages + [UserGoal(goal, s1), CustomGoalResponse(goal, s2)]
      && Contains(r.steps[c.current].messages[|c.steps[c.current].messages| + 1].text, goal)
      && IsContinuePrompt(r.steps[c.current].messages[|c.steps[c.current].messages| + 1])
  {
    var s := c.current;
    var before := c.steps[s].messages;
    var submitted := SubmitGoal(c, goal, s1);
    assert submitted.steps[s].messages == before + [UserGoal(goal, s1)] + [LoadingMessage(s1)];
    UserReplyIsNotPlaceholder(goal, s1);
    DropFreshPlaceholder(before, [UserGoal(goal, s1)], s1);
    var r := ResolveGoal(submitted, s2);
    var reply := CustomGoalResponse(goal, s2);
    assert r.steps[s].messages == before + [UserGoal(goal, s1)] + [reply];
    assert r.steps[s].messages[|before| + 1] == reply;
  }

  /** Finishing bank linking lifts the only Next blocker a step declares. */
  lemma BankLinkedUnblocksNext(c: Chat, stamp: string)
    requires WellFormed(c)
    ensures BankLinked(c, stamp).steps[c.current].component.None?
    ensures NextEnabled(BankLinked(c, stamp)) <==> c.current != |c.steps| - 1 && c.inputMode == NoInput
    ensures IsContinuePrompt(BankLinked(c, stamp).steps[c.current].messages[|c.steps[c.current].messages|])
  {
  }

  /**
   * As the source runs it, resolving COMPLETE_ONBOARDING leaves the
   * placeholder on screen and neither marks onboarding complete, rewards the
   * user nor navigates; the corrected resolution removes it, asks the user
   * context to mark onboarding complete, requests +100 XP, +50 coins and the
   * `onboarding_complete` achievement, and goes to the dashboard.
   */
  lemma {:induction false} CompletionDiscrepancy(c: Chat, value: string, s1: string, s2: string, u: User)
    requires WellFormed(c) && c.pending == Idle
    requires !HasId(c.steps[c.current].messages, LoadingId(s1))
    ensures var clicked := Click(c, CompleteAction, value, s1);
      var asWritten := ResolveReplyAsWritten(clicked, s2, Some(u));
      var fixed := ResolveReply(clicked, s2, Some(u));
      && HasId(asWritten.0.steps[c.current].messages, LoadingId(s1))
      && asWritten.1 == NoEffect
      && !asWritten.1.markComplete
      && !HasId(fixed.0.steps[c.current].messages, LoadingId(s1))
      && fixed.1.markComplete
      && fixed.1.navigateTo == Some(DashboardRoute)
      && fixed.1.stats.Some?
      && Merge(u, fixed.1.stats.value).xp == u.xp + 100
      && Merge(u, fixed.1.stats.value).coins == u.coins + 50
      && Merge(u, fixed.1.stats.value).achievements == u.achievements + ["onboarding_complete"]
      && Merge(u, fixed.1.stats.value).level == u.level
  {
    var s := c.current;
    var clicked := Click(c, CompleteAction, value, s1);
    var msgs := clicked.steps[s].messages;
    assert msgs[|msgs| - 1] == LoadingMessage(s1);
    ClickThenResolve(c, CompleteAction, value, s1, s2, Some(u));
    var fixed := ResolveReply(clicked, s2, Some(u));
    assert fixed.0.steps[s].messages == c.steps[s].messages + (if value != "" then [UserReply(value, s1)] else []);
    UserReplyIsNotPlaceholder(value, s1);
  }

  /** The walk-through of the first step: "Yes, let's get started!" advances to personal-info. */
  lemma WelcomeScenario(s1: string, s2: string, user: Option<User>)
    ensures var r := ResolveReply(Click(Initial(), NextStepAction, "Yes, let's get started!", s1), s2, user);
      r.0.current == 1 && r.0.steps[1].id == "personal-info" && r.0.steps[0].completed
  {
  }

  // ---------------------------------------------------------------------
  // The page
  // ---------------------------------------------------------------------

  class OnboardingPage {
    const steps: array<Step>
    var current: nat
    var inputMode: InputMode
    var pending: Pending

    function State(): Chat
      reads this, steps
    {
      Chat(steps[..], current, inputMode, pending)
    }

    constructor ()
      ensures State() == Initial()
    {
      steps := new Step[|Script|](i requires 0 <= i < |Script| => Script[i]);
      current := 0;
      inputMode := NoInput;
      pending := Idle;
      new;
      assert steps[..] == Script;
    }

    method NextStep()
      requires WellFormed(State())
      modifies this, steps
      ensures State() == Next(old(State()))
    {
      if current < steps.Length - 1 {
        steps[current] := steps[current].(completed := true);
        current := current + 1;
        inputMode := NoInput;
      }
    }

    method PrevStep()
      requires WellFormed(State())
      modifies this
      ensures State() == Prev(old(State()))
    {
      if current > 0 {
        current := current - 1;
        inputMode := NoInput;
      }
    }

    method OptionClick(action: string, value: string, stamp: string)
      requires WellFormed(State()) && pending == Idle
      modifies this, steps
      ensures State() == Click(old(State()), action, value, stamp)
    {
      var echo := if value != "" then [UserReply(value, stamp)] else [];
      steps[current] := steps[current].(messages := steps[current].messages + echo + [LoadingMessage(stamp)]);
      pending := AwaitingReply(action, current, LoadingId(stamp));
    }

    /**
     * The option's timer fires; returns whether the user context is asked to
     * mark onboarding complete and where the page navigates, if anywhere.
     */
    method ResolveOptionReply(stamp: string, store: UserStore) returns (markComplete: bool, navigateTo: Option<string>)
      requires WellFormed(State()) && pending.AwaitingReply? && pending.step == current
      modifies this, steps, store
      ensures var r := ResolveReply(old(State()), stamp, old(store.user));
        && State() == r.0
        && markComplete == r.1.markComplete
        && navigateTo == r.1.navigateTo
        && store.user == (if r.1.stats.Some? then ApplyStats(old(store.user), r.1.stats.value)
                          else old(store.user))
      ensures store.isLoading == old(store.isLoading)
    {
      var action, s, loadingId := pending.action, pending.step, pending.loadingId;
      var without := WithoutId(steps[s].messages, loadingId);
      var response: Option<Message> := None;
      markComplete, navigateTo := false, None;
      if action == ShowInfoAction {
        response := Some(InfoResponse(stamp));
      } else if action == CustomGoalAction {
        inputMode := CustomGoalInput;
      } else if action == SaveGoalAction || action == SaveSpendingAction || action == SaveMotivationAction {
        response := Some(SavedResponse(stamp));
      } else if action == ShowBankAction {
        steps[s] := steps[s].(component := Some(BankLinking));
      } else if action == SkipBankAction {
        response := Some(BankSkipResponse(stamp));
      } else if action == CompleteAction {
        markComplete := true;
        if store.user.Some? {
          store.UpdateUserStats(RewardDelta(store.user.value));
        }
        navigateTo := Some(DashboardRoute);
      } else if action == NextStepAction {
        NextStep();
      }
      if response.Some? {
        steps[s] := steps[s].(messages := without + [response.value]);
      } else if action != CustomGoalAction {
        steps[s] := steps[s].(messages := without);
      }
      pending := Idle;
    }

    method CustomGoalSubmit(goal: string, stamp: string)
      requires WellFormed(State()) && pending == Idle
      modifies this, steps
      ensures State() == SubmitGoal(old(State()), goal, stamp)
    {
      inputMode := NoInput;
      steps[current] := steps[current].(messages := steps[current].messages
                                          + [UserGoal(goal, stamp), LoadingMessage(stamp)]);
      pending := AwaitingGoalReply(goal, current, LoadingId(stamp));
    }

    /** The free-text goal's timer fires. */
    method ResolveGoalReply(stamp: string)
      requires WellFormed(State()) && pending.AwaitingGoalReply? && pending.step == current
      modifies this, steps
      ensures State() == ResolveGoal(old(State()), stamp)
    {
      var s := pending.step;
      var without := WithoutId(steps[s].messages, pending.loadingId);
      steps[s] := steps[s].(messages := without + [CustomGoalResponse(pending.goal, stamp)]);
      pending := Idle;
    }

    method BankLinkComplete(stamp: string)
      requires WellFormed(State())
      modifies steps
      ensures State() == BankLinked(old(State()), stamp)
    {
      steps[current] := steps[current].(messages := steps[current].messages + [BankSuccessMessage(stamp)],
                                        component := None);
    }
  }
}
