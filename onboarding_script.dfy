/**
 * The onboarding conversation script: six fixed steps, each opening with one
 * assistant message and its reply options, and the three canned assistant
 * responses the engine generates.
 */
module OnboardingScript {
  import opened Common

  datatype Sender = Assistant | UserSender

  /** A reply button; `action` names the command the engine runs when it is clicked. */
  datatype ReplyOption = ReplyOption(id: string, text: string, action: string)

  /** A chat message; user messages carry no options (the source leaves `options` out). */
  datatype Message = Message(
    id: string,
    text: string,
    sender: Sender,
    options: seq<ReplyOption>,
    loading: bool)

  datatype Step = Step(
    id: string,
    title: string,
    description: string,
    messages: seq<Message>,
    completed: bool,
    component: Option<string>)

  // The action names the engine understands.
  const NextStepAction := "NEXT_STEP"
  const ShowInfoAction := "SHOW_INFO"
  const CustomGoalAction := "CUSTOM_GOAL"
  const SaveGoalAction := "SAVE_GOAL"
  const SaveSpendingAction := "SAVE_SPENDING"
  const SaveMotivationAction := "SAVE_MOTIVATION"
  const ShowBankAction := "SHOW_BANK_COMPONENT"
  const SkipBankAction := "SKIP_BANK"
  const CompleteAction := "COMPLETE_ONBOARDING"

  /** The tag of the embedded bank-linking sub-flow. */
  const BankLinking := "BankLinking"

  predicate KnownAction(a: string) {
    a in {NextStepAction, ShowInfoAction, CustomGoalAction, SaveGoalAction, SaveSpendingAction,
          SaveMotivationAction, ShowBankAction, SkipBankAction, CompleteAction}
  }

  function Opening(id: string, text: string, options: seq<ReplyOption>): Message {
    Message(id, text, Assistant, options, false)
  }

  const Script: seq<Step> := [
    Step("welcome", "Welcome", "Get to know Finance Hero",
      [Opening("welcome-1",
        "Hi there! I'm your personal Finance Hero assistant. I'm here to help you set up your account and get you started on your financial journey. Ready to begin?",
        [ReplyOption("welcome-yes", "Yes, let's get started!", NextStepAction),
         ReplyOption("welcome-tell-more", "Tell me more about Finance Hero first", ShowInfoAction)])],
      false, None),
    Step("personal-info", "Personal Info", "Basic information",
      [Opening("personal-1",
        "Great! Let's start with some basic information. What's your financial goal for using Finance Hero?",
        [ReplyOption("goal-save", "Save money", SaveGoalAction),
         ReplyOption("goal-budget", "Budget better", SaveGoalAction),
         ReplyOption("goal-debt", "Pay off debt", SaveGoalAction),
         ReplyOption("goal-invest", "Learn to invest", SaveGoalAction),
         ReplyOption("goal-other", "Something else", CustomGoalAction)])],
      false, None),
    Step("financial-habits", "Financial Habits", "Your spending patterns",
      [Opening("habits-1",
        "Thanks for sharing your goal! Now, I'd like to understand your current financial habits. How would you describe your spending?",
        [ReplyOption("spending-careful", "I'm very careful with money", SaveSpendingAction),
         ReplyOption("spending-balanced", "I balance saving and spending", SaveSpendingAction),
         ReplyOption("spending-impulse", "I make impulse purchases often", SaveSpendingAction),
         ReplyOption("spending-unsure", "I'm not sure where my money goes", SaveSpendingAction)])],
      false, None),
    Step("connect-bank", "Connect Bank", "Link your accounts",
      [Opening("bank-1",
        "To help you track your finances, we'll need to connect to your bank accounts. This is secure and we use read-only access - we can't move your money.",
        [ReplyOption("bank-yes", "Let's connect my accounts", ShowBankAction),
         ReplyOption("bank-later", "I'll do this later", SkipBankAction)])],
      false, Some(BankLinking)),
    Step("gamification", "Gamification", "Set up your game",
      [Opening("game-1",
        "Finance Hero makes money management fun! You'll earn coins, level up, and unlock achievements as you improve your finances. What motivates you most?",
        [ReplyOption("motivation-achievements", "Completing achievements", SaveMotivationAction),
         ReplyOption("motivation-streaks", "Maintaining streaks", SaveMotivationAction),
         ReplyOption("motivation-rewards", "Earning rewards", SaveMotivationAction),
         ReplyOption("motivation-competition", "Competing with others", SaveMotivationAction)])],
      false, None),
    Step("all-set", "All Set", "Ready to go",
      [Opening("done-1",
        "Awesome! Your account is all set up. You're ready to start your financial journey with Finance Hero. I've personalized the experience based on your preferences.",
        [ReplyOption("done-dashboard", "Go to Dashboard", CompleteAction)])],
      false, None)
  ]

  /** An assistant reply whose only option continues to the next step. */
  predicate IsContinuePrompt(m: Message) {
    m.sender == Assistant && !m.loading && |m.options| == 1 && m.options[0].action == NextStepAction
  }

  const InfoText := "Finance Hero is a gamified personal finance app that helps you build better money habits. You'll track expenses, create budgets, and set financial goals - all while earning coins, leveling up, and unlocking achievements. It's like turning your financial journey into an RPG!"

  /** `generateInfoResponse`; `stamp` stands for the `Date.now()` in its id. */
  function InfoResponse(stamp: string): (m: Message)
    ensures IsContinuePrompt(m)
  {
    Message("info-" + stamp, InfoText, Assistant,
      [ReplyOption("info-continue", "Got it, let's continue", NextStepAction)],
      false)
  }

  /** `generateCustomGoalResponse`: the reply quotes the user's goal verbatim. */
  function CustomGoalResponse(goal: string, stamp: string): (m: Message)
    ensures IsContinuePrompt(m)
    ensures Contains(m.text, goal)
  {
    var prefix := "Thanks for sharing! \"";
    var suffix := "\" is a great financial goal. I'll help you work toward it.";
    ContainsMiddle(prefix, goal, suffix);
    Message("custom-goal-" + stamp, prefix + goal + suffix, Assistant,
      [ReplyOption("custom-goal-next", "Continue", NextStepAction)],
      false)
  }

  /** `generateBankSkipResponse`. */
  function BankSkipResponse(stamp: string): (m: Message)
    ensures IsContinuePrompt(m)
  {
    Message("bank-skip-" + stamp,
      "No problem! You can always connect your bank accounts later from the 'Connect Bank' section in the sidebar.",
      Assistant,
      [ReplyOption("bank-skip-next", "Continue", NextStepAction)],
      false)
  }

  /** The script has six not-yet-completed steps, in this order. */
  lemma ScriptSteps()
    ensures |Script| == 6
    ensures Script[0].id == "welcome" && Script[1].id == "personal-info"
    ensures Script[2].id == "financial-habits" && Script[3].id == "connect-bank"
    ensures Script[4].id == "gamification" && Script[5].id == "all-set"
    ensures forall i :: 0 <= i < |Script| ==> !Script[i].completed
  {
  }

  /** Only the connect-bank step embeds a sub-flow, and it is the bank-linking one. */
  lemma ScriptComponents()
    ensures forall i :: 0 <= i < |Script| ==> (Script[i].component.Some? <==> i == 3)
    ensures Script[3].component == Some(BankLinking)
  {
  }

  /**
   * Every step opens with exactly one assistant message that offers at least
   * one option, and every option names an action the engine knows.
   */
  lemma ScriptOpenings()
    ensures forall i :: 0 <= i < |Script| ==>
      |Script[i].messages| == 1 &&
      Script[i].messages[0].sender == Assistant &&
      !Script[i].messages[0].loading &&
      |Script[i].messages[0].options| >= 1 &&
      forall k :: 0 <= k < |Script[i].messages[0].options| ==>
        KnownAction(Script[i].messages[0].options[k].action)
  {
  }

  /** Completing onboarding is offered only as the sole option of the last step. */
  lemma CompleteOnlyAtEnd()
    ensures |Script[5].messages[0].options| == 1
    ensures Script[5].messages[0].options[0].action == CompleteAction
    ensures forall i, k :: 0 <= i < |Script| && 0 <= k < |Script[i].messages[0].options| ==>
      (Script[i].messages[0].options[k].action == CompleteAction <==> i == 5 && k == 0)
  {
  }
}
