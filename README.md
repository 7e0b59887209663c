# Finance Hero, modelled in Dafny

Finance Hero is a gamified personal-finance web app. A user signs up or logs
in, walks through a scripted onboarding chat, and then manages budgets,
transactions, savings goals, quests and achievements while earning XP, coins
and levels. This project models the app's logic in Dafny:

- the session store, which holds the signed-in user, the loading flag, and the set, merge-update and logout operations;
- the router, with its splash screen, public pages, guarded pages, onboarding route and not-found page;
- the signup and login forms;
- the onboarding conversation: its six-step script and the engine that runs it;
- the utility modules for profile levels, quests, achievements, goals and budgets;
- the state each page keeps: transaction filters, budgets, goals, quests and achievement statistics.

The model follows the source's own form:
- **Pure utilities become functions with lemmas.** These are the rank order of recommended quests, rarity multipliers, goal progress and status colours, budget percentages and rewards.
- **Stateful components become classes.** Each handler is a method whose `ensures` ties the new state to a specification function of the old one. The classes are:
  - `UserStore`;
  - `OnboardingPage`, whose steps sit in an array updated in place;
  - `FilterPanel`, `BudgetsPage`, `GoalsPage` and `QuestsPage`;
  - `SignupForm` and `LoginForm`.

The timers are modelled as follows:
- Each timer of the onboarding page, the simulated fetches and the form submissions is split into two operations: the immediate part and the later callback.
- What the callback has captured is kept explicitly: in the `Pending` state of the onboarding engine, and in the name and email the signup and login forms record on submit. The one exception is the user record that onboarding completion reads, listed under "## Left out".

Other environment inputs become parameters:
- clock readings become `stamp`/`now` parameters;
- `Math.random()` becomes a real `r` in [0, 1);
- `parseFloat` of a form field becomes a `parsed` argument.

Numbers are exact reals or integers.

One place where the code, not the description of the app, is followed:
- A "Something else" reply (`CUSTOM_GOAL`) leaves its loading placeholder in the chat. The code skips removing it for that action (src/pages/Onboarding.tsx:136-143), and the model does the same.

## Model

| member | source | states |
|---|---|---|
| UserContext.ApplyStats | src/context/UserContext.tsx:63-68 | an update without a signed-in user leaves no user; with one, it keeps one |
| UserContext.MergeNoChange | src/context/UserContext.tsx:63-68 | merging the empty partial user changes nothing |
| UserContext.MergeIdempotent | src/context/UserContext.tsx:63-68 | applying the same partial update twice equals applying it once |
| UserContext.MergeSequence | src/context/UserContext.tsx:63-68 | two successive updates equal one update with the combined delta, where the later one wins |
| UserContext.MergeAssigns | src/context/UserContext.tsx:63-68 | a present field is assigned, not added: the result's xp and coins are the delta's, whatever the user held |
| UserContext.Merge | src/context/UserContext.tsx:65 | no contract of its own: the spread `{ ...user, ...stats }`, each field of the delta that is present replacing the user's; its properties are the four lemmas above |
| UserContext.UserStore.constructor | src/context/UserContext.tsx:52-53 | the store starts with no user and loading |
| UserContext.UserStore.FinishLoading | src/context/UserContext.tsx:55-61 | the fetch timer loads the demo user, whose onboarding is complete, and ends loading |
| UserContext.UserStore.SetUser | src/context/UserContext.tsx:76 | the user cell becomes the given value; loading is untouched |
| UserContext.UserStore.UpdateUserStats | src/context/UserContext.tsx:63-68 | the new user is the old one merged with the delta, and stays absent when there was none |
| UserContext.UserStore.Logout | src/context/UserContext.tsx:70-73 | the user is cleared |
| AppRoutes.Resolve | src/App.tsx:41-69 | the splash screen shows while the timer runs or the session loads; redirects go only to /login or /dashboard |
| AppRoutes.SectionAt | src/App.tsx:55-62 | no contract of its own: the page of the main layout a path names, or none; used by `Resolve` and `RedirectsSettle` |
| AppRoutes.Protected | src/App.tsx:53-62 | no contract of its own: the paths under the guarded layout route (the index and its eight children); `Guard` states what they resolve to |
| AppRoutes.Guard | src/App.tsx:49-62 | signed out, a guarded path redirects to /login; signed in, it renders its section; login and signup render only when signed out; the layout renders only when signed in |
| AppRoutes.OnboardingOnlyWhenDue | src/App.tsx:66 | the onboarding page renders if and only if the path is /onboarding and a signed-in user has not completed onboarding |
| AppRoutes.UnknownIsNotFound | src/App.tsx:69 | every path no route names renders the not-found page |
| AppRoutes.RedirectsSettle | src/App.tsx:49-69 | redirects never loop: within two hops every path renders; signed out it ends on login, signup or not-found; signed in, never on login or signup |
| AppRoutes.Settle | src/App.tsx:47-70 | no contract of its own: follows at most `hops` redirects; `RedirectsSettle` states that two suffice |
| SignupPage.Validate | src/pages/Signup.tsx:23-36 | the form is accepted if and only if all four fields are filled, the passwords match and are at least 8 characters; each message is reported exactly in its own case, in the source's order |
| SignupPage.NewUserStartsOnboarding | src/pages/Signup.tsx:46-64 | the new account has the entered name and email, 50 coins and no achievements; the onboarding route renders for it; its level bar is empty with 100 XP to go; its badge is Rookie |
| SignupPage.NewUser | src/pages/Signup.tsx:46-61 | no contract of its own: the record built on signup; `NewUserStartsOnboarding` states its level, XP, coins, achievements and route |
| SignupPage.SignupForm.constructor | src/pages/Signup.tsx:9-15 | all fields and the error are empty, and nothing is loading |
| SignupPage.SignupForm.Edit | src/pages/Signup.tsx:112-187 | one field takes the typed value; the others, the error, loading and the captured request values are unchanged |
| SignupPage.SignupForm.Submit | src/pages/Signup.tsx:20-39 | the request starts if and only if not loading and the form is valid; it then clears the error, starts loading, and captures the entered name and email for the request. A rejected form shows the first failed check. A submit while loading (the button is disabled, line 217) does nothing |
| SignupPage.SignupForm.Complete | src/pages/Signup.tsx:46-69 | called only while a request is loading. The user built from the name and email captured at submit is signed in, whatever the fields hold now; the page goes to /onboarding and loading ends |
| LoginPage.Validate | src/pages/Login.tsx:21-24 | sign-in proceeds if and only if email and password are both non-empty; otherwise the message is "Please fill in all fields" |
| LoginPage.SignedInLandsOnDashboard | src/pages/Login.tsx:34-52 | the signed-in profile is the demo user with only the email replaced; the dashboard renders for it, and the onboarding route redirects to the dashboard |
| LoginPage.SignedInUser | src/pages/Login.tsx:34-49 | no contract of its own: the demo profile with the entered email; `SignedInLandsOnDashboard` states its fields and route |
| LoginPage.LoginForm.constructor | src/pages/Login.tsx:9-13 | empty fields and error, not loading |
| LoginPage.LoginForm.Edit | src/pages/Login.tsx:100-125 | one field takes the typed value; nothing else changes, including the captured request email |
| LoginPage.LoginForm.Submit | src/pages/Login.tsx:18-27 | the request starts if and only if not loading and both fields are filled, and captures the entered email; otherwise the fill-in message is shown; a submit while loading does nothing |
| LoginPage.LoginForm.Complete | src/pages/Login.tsx:34-57 | called only while a request is loading. The demo user with the email captured at submit is signed in, the page goes to /dashboard, and loading ends |
| OnboardingScript.InfoResponse | src/utils/onboardingUtils.ts:135-144 | the info reply offers exactly one option, which continues to the next step |
| OnboardingScript.CustomGoalResponse | src/utils/onboardingUtils.ts:146-155 | the reply quotes the user's goal verbatim and offers only "continue" |
| OnboardingScript.BankSkipResponse | src/utils/onboardingUtils.ts:157-166 | the skip reply offers only "continue" |
| OnboardingScript.ScriptSteps | src/utils/onboardingUtils.ts:23-133 | the script has six uncompleted steps, welcome through all-set, in order |
| OnboardingScript.ScriptComponents | src/utils/onboardingUtils.ts:80-85 | only the connect-bank step embeds a sub-flow, and it is the bank-linking one |
| OnboardingScript.ScriptOpenings | src/utils/onboardingUtils.ts:23-133 | each step opens with one non-loading assistant message with at least one option, and every option names an action the engine handles |
| OnboardingScript.CompleteOnlyAtEnd | src/utils/onboardingUtils.ts:117-132 | completing onboarding is offered only as the sole option of the last step |
| OnboardingEngine.Initial | src/pages/Onboarding.tsx:17-19 | the chat starts well formed: at step 0 of the script, with no input mode and no reply pending |
| OnboardingEngine.SavedResponse | src/pages/Onboarding.tsx:94-104 | the preference-saved reply only continues to the next step |
| OnboardingEngine.BankSuccessMessage | src/pages/Onboarding.tsx:194-199 | the bank-success message only continues to the next step |
| OnboardingEngine.Response | src/pages/Onboarding.tsx:85-133 | a reply is generated if and only if the action is SHOW_INFO, a SAVE_* action or SKIP_BANK, and it always continues to the next step |
| OnboardingEngine.SetMessages | src/pages/Onboarding.tsx:71-72 | replacing one step's messages keeps the number of steps |
| OnboardingEngine.Next | src/pages/Onboarding.tsx:31-39 | next keeps the chat well formed, the number of steps and the pending reply |
| OnboardingEngine.Prev | src/pages/Onboarding.tsx:41-46 | previous keeps the chat well formed and the steps unchanged |
| OnboardingEngine.Click | src/pages/Onboarding.tsx:48-73 | the immediate part of an option click keeps the chat well formed and the number of steps |
| OnboardingEngine.ResolveReply | src/pages/Onboarding.tsx:76-145 | the timer callback leaves the chat well formed with nothing pending; only COMPLETE_ONBOARDING yields the request to mark onboarding complete (`completeOnboarding()`), a stats request (+100 XP, +50 coins, onboarding_complete) and a navigation to /dashboard |
| OnboardingEngine.ResolveReplyAsWritten | src/pages/Onboarding.tsx:114-115 | as the code runs it, the COMPLETE_ONBOARDING callback stops at the missing `completeOnboarding` call: nothing pending, no effect |
| OnboardingEngine.RewardDelta | src/pages/Onboarding.tsx:118-122 | no contract of its own: the stats update requested on completion (xp + 100, coins + 50, `onboarding_complete` appended); `CompletionDiscrepancy` states its effect |
| OnboardingEngine.WithoutId | src/pages/Onboarding.tsx:78-80 | no contract of its own: the messages without the placeholder id; `DropFreshPlaceholder` states that it removes exactly the fresh placeholder |
| OnboardingEngine.SubmitGoal | src/pages/Onboarding.tsx:148-174 | the immediate part of a free-text goal keeps the chat well formed |
| OnboardingEngine.ResolveGoal | src/pages/Onboarding.tsx:176-187 | the goal's callback leaves the chat well formed with nothing pending |
| OnboardingEngine.BankLinked | src/pages/Onboarding.tsx:190-204 | bank-link completion keeps the chat well formed |
| OnboardingEngine.NextEnabled | src/pages/Onboarding.tsx:277 | no contract of its own: the Next button's enabled condition; `EnabledNextAdvances` and `BankLinkedUnblocksNext` state what it guarantees |
| OnboardingEngine.PrevEnabled | src/pages/Onboarding.tsx:265 | no contract of its own: the Back button's enabled condition |
| OnboardingEngine.NextAdvances | src/pages/Onboarding.tsx:31-39 | at the last step next does nothing; otherwise it marks the step completed, moves one forward, leaves input mode, and changes no message |
| OnboardingEngine.PrevUndoesNext | src/pages/Onboarding.tsx:31-46 | previous after next returns to the same step, which stays completed |
| OnboardingEngine.EnabledNextAdvances | src/pages/Onboarding.tsx:277 | an enabled Next button always moves one step forward |
| OnboardingEngine.DropFreshPlaceholder | src/pages/Onboarding.tsx:80-82 | removing a fresh placeholder by id restores exactly the messages before it |
| OnboardingEngine.UserReplyIsNotPlaceholder | src/pages/Onboarding.tsx:55-63 | an echoed user message never carries the placeholder's id |
| OnboardingEngine.ClickThenResolve | src/pages/Onboarding.tsx:48-145 | a click and its callback leave the step with one of three outcomes: the echo plus exactly one reply; the kept placeholder, for CUSTOM_GOAL; or no placeholder. Other steps are untouched, and only COMPLETE_ONBOARDING signals completion, rewards and navigates |
| OnboardingEngine.SubmitThenResolve | src/pages/Onboarding.tsx:148-188 | a goal and its callback leave the goal as a user message followed by a reply quoting it; the placeholder is gone and input mode is off |
| OnboardingEngine.BankLinkedUnblocksNext | src/pages/Onboarding.tsx:190-204 | linking clears the step's component, appends a continue prompt, and enables Next unless at the last step or in input mode |
| OnboardingEngine.CompletionDiscrepancy | src/pages/Onboarding.tsx:114-124 | as written, completing leaves the placeholder, marks nothing complete, rewards nothing and does not navigate; the corrected callback removes the placeholder, signals `completeOnboarding()`, rewards and navigates |
| OnboardingEngine.WelcomeScenario | src/pages/Onboarding.tsx:48-145 | "Yes, let's get started!" on the welcome step moves to personal-info |
| OnboardingEngine.OnboardingPage.constructor | src/pages/Onboarding.tsx:17-19 | the page's state is the initial chat |
| OnboardingEngine.OnboardingPage.NextStep | src/pages/Onboarding.tsx:31-39 | the array and cursor perform exactly `Next` |
| OnboardingEngine.OnboardingPage.PrevStep | src/pages/Onboarding.tsx:41-46 | the state changes exactly as `Prev` |
| OnboardingEngine.OnboardingPage.OptionClick | src/pages/Onboarding.tsx:48-73 | the in-place update performs exactly `Click` |
| OnboardingEngine.OnboardingPage.ResolveOptionReply | src/pages/Onboarding.tsx:76-145 | the state and the store's user change exactly as `ResolveReply` says, the store's loading flag is unchanged, the returned completion signal is its `markComplete` (true only for COMPLETE_ONBOARDING), and the returned route is its navigation |
| OnboardingEngine.OnboardingPage.CustomGoalSubmit | src/pages/Onboarding.tsx:148-174 | performs exactly `SubmitGoal` |
| OnboardingEngine.OnboardingPage.ResolveGoalReply | src/pages/Onboarding.tsx:176-187 | performs exactly `ResolveGoal` |
| OnboardingEngine.OnboardingPage.BankLinkComplete | src/pages/Onboarding.tsx:190-204 | performs exactly `BankLinked` |
| ProfileUtils.LevelProgress | src/utils/profileUtils.ts:39-46 | progress is a whole percentage in [0, 100]: 0 at or below the band's start, 100 at or past its end |
| ProfileUtils.NextLevelXP | src/utils/profileUtils.ts:33-36 | no contract of its own: `100 * level`; `BandIsHundred` states the band width |
| ProfileUtils.RemainingXP | src/utils/profileUtils.ts:49-56 | remaining XP is never negative, is 0 once the level's end is reached, and equals the distance to it otherwise |
| ProfileUtils.BandIsHundred | src/utils/profileUtils.ts:33-36 | every level band is 100 XP wide |
| ProfileUtils.ProgressPlusRemaining | src/utils/profileUtils.ts:39-56 | for whole XP inside the band, progress and remaining XP add up to 100 |
| ProfileUtils.Tier | src/utils/profileUtils.ts:59-71 | helper for `BadgeTiers`: the position of a badge in the five-tier chain, always one of the five |
| ProfileUtils.BadgeTiers | src/utils/profileUtils.ts:59-71 | the badge's name is its tier's; a higher level never has a lower tier; each tier holds exactly its level band: Rookie below 5, Explorer 5-9, Pro 10-19, Expert 20-29, Master 30 or more |
| ProfileUtils.LevelBadge | src/utils/profileUtils.ts:59-71 | no contract of its own: the badge chain; `BadgeTiers` states its tiers, bounds and monotonicity |
| QuestUtils.QuestProgress | src/utils/questUtils.ts:112-119 | progress is in [0, 100]. A quest without steps is 100 if and only if completed. Otherwise it is 0 with no step done and 100 with all done, and in general it is the done share of the steps rounded to the nearest whole percent: (r - 0.5) * steps <= 100 * done < (r + 0.5) * steps |
| QuestUtils.CompletedSteps | src/utils/questUtils.ts:117 | no contract of its own: the number of completed steps; `QuestProgress` states the result built from it |
| QuestUtils.IsQuestAvailable | src/utils/questUtils.ts:122-145 | available if and only if not locked, already unlocked and not yet expired at `now` |
| QuestUtils.TargetDifficulty | src/utils/questUtils.ts:155-163 | no contract of its own: the target difficulty by level; `TargetDifficultyBands` states the four bands |
| QuestUtils.Compare | src/utils/questUtils.ts:166-190 | no contract of its own: the comparator; `CompareIsKeyOrder` states that its sign is the rank-key order |
| QuestUtils.TargetDifficultyBands | src/utils/questUtils.ts:155-162 | level below 10 gives easy; 10-19 medium; 20-29 hard; 30 and above expert |
| QuestUtils.CompareIsKeyOrder | src/utils/questUtils.ts:166-192 | the comparator is negative exactly when the first quest's key ranks ahead, and positive exactly when the second's does |
| QuestUtils.KeyOrder | src/utils/questUtils.ts:166-192 | the rank order is a strict weak order |
| QuestUtils.Insert | src/utils/questUtils.ts:165-192 | inserting keeps the list sorted and adds exactly the one quest |
| QuestUtils.InsertKeepsTies | src/utils/questUtils.ts:165-190 | inserting a quest puts it first among the quests tied with it and keeps the order of the others: the stability step of the sort |
| QuestUtils.SortByRank | src/utils/questUtils.ts:165-190 | the sort returns a sorted permutation of its input, and it is stable: within every class of quests with equal rank key the input order is kept |
| QuestUtils.EligibleQuests | src/utils/questUtils.ts:149-152 | the pool holds exactly the quests of the input that are available and not completed, in input order (a subsequence) |
| QuestUtils.RecommendedQuests | src/utils/questUtils.ts:148-193 | at most three quests, all eligible and from the input, in rank order |
| QuestUtils.NoExcludedOutranks | src/utils/questUtils.ts:148-193 | exactly min(3, pool size) quests are recommended; no eligible quest left out ranks strictly ahead of one kept |
| AchievementUtils.Multiplier | src/utils/achievementUtils.ts:65-91 | every rarity multiplier is positive |
| AchievementUtils.Progress | src/utils/achievementUtils.ts:94-104 | unlocked gives 100. With a threshold and an amount, the clamped share lies in [0, 100]: 100 once reached, 0 at or below nothing, and strictly in between the share rounded to the nearest whole percent: (r - 0.5) * required <= 100 * current < (r + 0.5) * required. Otherwise the result is the stored progress or 0 |
| AchievementUtils.AchievementReward | src/utils/achievementUtils.ts:107-113 | coins and XP keep their ratio (coins × baseXp = xp × baseCoins), and common rarity leaves them as they are; `RewardTable` states the factor per rarity |
| AchievementUtils.RewardTable | src/utils/achievementUtils.ts:65-113 | common, uncommon, rare, epic and legendary multiply both the base coins and the base XP by 1, 2, 3, 5 and 10 |
| AchievementUtils.RewardGrowsWithRarity | src/utils/achievementUtils.ts:65-113 | multipliers grow strictly with rarity, so a non-negative reward never shrinks with it |
| AchievementUtils.CheckUnlock | src/utils/achievementUtils.ts:116-133 | unlocked or threshold-free achievements are untouched; otherwise the amount becomes the larger of the old and the new one, the achievement unlocks exactly when that reaches the threshold, its unlock time is `now` when it unlocks and absent otherwise, and no other field changes |
| AchievementUtils.CheckUnlockIdempotent | src/utils/achievementUtils.ts:116-133 | recording the same value again changes nothing, even at a later time |
| AchievementUtils.CheckUnlockTwice | src/utils/achievementUtils.ts:116-133 | two values in turn unlock exactly when the larger alone would; an unlock by the first value is kept unchanged by the second |
| AchievementUtils.RandomIndex | src/utils/achievementUtils.ts:171-172 | the random pick is a valid index |
| AchievementUtils.Recommend | src/utils/achievementUtils.ts:136-173 | there is no recommendation if and only if all are unlocked; any pick is a locked member of the list |
| AchievementUtils.RecommendNearest | src/utils/achievementUtils.ts:144-155 | the pick is then near completion, no near-complete locked achievement has higher progress, and none before it has as much |
| AchievementUtils.RecommendRelevant | src/utils/achievementUtils.ts:157-168 | with none near completion, the top activity has the highest count, and the first locked achievement relevant to it (by category or mention) is picked when one exists |
| AchievementsPage.FiltersPartition | src/pages/Achievements.tsx:274-280 | every filter shows a subsequence; the unlocked and locked views hold exactly the unlocked and locked achievements and split the list |
| AchievementsPage.FilterAchievements | src/pages/Achievements.tsx:274-280 | no contract of its own: the filter chain; `FiltersPartition` states its subsequence and partition properties |
| AchievementsPage.UnlockedCount | src/pages/Achievements.tsx:222 | no contract of its own: the unlocked count; `FiltersPartition` and `UnlockedPercentage` state its relation to the total |
| AchievementsPage.UnlockedPercentage | src/pages/Achievements.tsx:222-224 | the percentage is a whole number in [0, 100], 100 when all are unlocked and 0 when none are, and it is `Math.round(unlocked / total * 100)`: `(r - 1/2) * total <= 100 * unlocked < (r + 1/2) * total` |
| AchievementsPage.RarityCountsAddUp | src/pages/Achievements.tsx:226-231 | the five rarity counts add up to the total |
| AchievementsPage.RarityCount | src/pages/Achievements.tsx:226-231 | no contract of its own: the count of one rarity; `RarityCountsAddUp` states the sum |
| AchievementsPage.RarityUnlocked | src/pages/Achievements.tsx:226-231 | no contract of its own: the unlocked count of one rarity; `RarityUnlockedAddUp` and `RarityUnlockedWithin` state its bounds and sum |
| AchievementsPage.RarityUnlockedAddUp | src/pages/Achievements.tsx:222-231 | the five unlocked counts add up to the unlocked count |
| AchievementsPage.RarityUnlockedWithin | src/pages/Achievements.tsx:228-229 | no rarity has more unlocked achievements than achievements |
| GoalUtils.GoalProgress | src/utils/goalUtils.ts:104-108 | progress is in [0, 100]; 0 for a target of 0 or less; 100 once reached; proportional in between |
| GoalUtils.EstimatedMonths | src/utils/goalUtils.ts:111-131 | "reached" if and only if current ≥ target; no estimate if and only if short with no monthly saving; otherwise the least number of months (at least 1) whose contributions cover what is left |
| GoalUtils.MonthsBounds | src/utils/goalUtils.ts:124-128 | the rounded-up month count is the least number of contributions that cover what is left |
| GoalUtils.GoalStatusColor | src/utils/goalUtils.ts:134-179 | success once reached; error if and only if short and overdue, or under 30 days with progress below 75; warning if and only if short, under 60 days with progress below 50, and not an error; in every other short case the colour of the progress band (success at 75, primary at 50, info at 25, secondary below) |
| GoalUtils.StatusByProgress | src/utils/goalUtils.ts:165-178 | far from the deadline the colour follows the progress bands, and more progress never gives a lower band |
| GoalUtils.HighProgressNotError | src/utils/goalUtils.ts:134-179 | before the deadline, 75% or more is shown as success |
| GoalUtils.SuggestedGoals | src/utils/goalUtils.ts:182-241 | the appends build exactly the list: emergency fund if there is none, debt freedom if in debt, travel and tech if under 30, and always retirement last; its length follows; retirement has high priority if and only if over 40 |
| GoalUtils.SuggestionsCoverProfile | src/utils/goalUtils.ts:182-241 | the emergency fund is suggested if and only if there is none, debt freedom if and only if in debt, travel if and only if under 30, and retirement always; no two suggestions share a category |
| GoalUtils.Suggestions | src/utils/goalUtils.ts:182-241 | no contract of its own: the suggestion list as one expression; `SuggestedGoals` is proved equal to it and `SuggestionsCoverProfile` states its contents |
| GoalsPage.CardFullIffCompleted | src/pages/Goals.tsx:73-74 | with a positive target, a card shows 100% if and only if it is completed |
| GoalsPage.IsCompleted | src/pages/Goals.tsx:74 | no contract of its own: current ≥ target; `CardFullIffCompleted` and `ActivePlusCompleted` state its consequences |
| GoalsPage.CardProgress | src/pages/Goals.tsx:73 | no contract of its own: the card's `calculateGoalProgress`; `CardFullIffCompleted` states when it is 100 |
| GoalsPage.TotalRemaining | src/pages/Goals.tsx:245 | remaining plus saved equals the target total |
| GoalsPage.TotalSaved | src/pages/Goals.tsx:154 | no contract of its own: the sum of current amounts; `RemoveGoalSelects` and `AllCompletedCoverTarget` state its behaviour |
| GoalsPage.TotalTarget | src/pages/Goals.tsx:155 | no contract of its own: the sum of target amounts; `RemoveGoalSelects` and `AllCompletedCoverTarget` state its behaviour |
| GoalsPage.OverallProgress | src/pages/Goals.tsx:154-156 | the overall progress is in [0, 100], and 0 without a positive target total |
| GoalsPage.ActivePlusCompleted | src/pages/Goals.tsx:249 | active and completed goals split the list; no active goal if and only if all are completed |
| GoalsPage.ActiveCount | src/pages/Goals.tsx:249 | no contract of its own: the number of goals short of their target; `ActivePlusCompleted` states that it is zero exactly when all are completed |
| GoalsPage.AllCompletedCoverTarget | src/pages/Goals.tsx:154-155 | when every goal is completed, the saved total reaches the target total |
| GoalsPage.NoActiveMeansFull | src/pages/Goals.tsx:154-156 | with no active goal and a positive target total, overall progress is 100% |
| GoalsPage.RemoveGoalSelects | src/pages/Goals.tsx:163-165 | delete keeps, in order, exactly the goals with another id; the totals lose exactly the removed goals' amounts |
| GoalsPage.RemoveGoal | src/pages/Goals.tsx:163-165 | no contract of its own: the filter by id; `RemoveGoalSelects` states what remains |
| GoalsPage.GoalsPage.constructor | src/pages/Goals.tsx:151 | the page starts with the sample goals |
| GoalsPage.GoalsPage.DeleteGoal | src/pages/Goals.tsx:163-165 | the goals become the list without that id |
| BudgetUtils.Percentage | src/utils/budgetUtils.ts:41-44 | 0 for an amount of 0 or less; otherwise proportional, at least 100 once overspent, and in [0, 100] within budget |
| BudgetUtils.StatusColorOf | src/utils/budgetUtils.ts:47-52 | no contract of its own: the status colour thresholds; `StatusColorAndText` states how they agree with the text |
| BudgetUtils.StatusText | src/utils/budgetUtils.ts:55-61 | no contract of its own: the status text thresholds; `StatusColorAndText` states how they agree with the colour |
| BudgetUtils.StatusColorAndText | src/utils/budgetUtils.ts:47-61 | colour severity never decreases with the percentage; each colour matches its status text |
| BudgetUtils.Remaining | src/utils/budgetUtils.ts:64-66 | no contract of its own: amount − spent; `RemainingMatchesPercentage` relates it to the percentage |
| BudgetUtils.RemainingMatchesPercentage | src/utils/budgetUtils.ts:41-66 | something remains if and only if under 100%; a deficit if and only if over 100%; nothing left if and only if the colour is error |
| BudgetUtils.TransactionsForBudgetSelects | src/utils/budgetUtils.ts:69-76 | exactly the category's expenses, in their original order |
| BudgetUtils.TransactionsForBudget | src/utils/budgetUtils.ts:69-76 | no contract of its own: the expense filter by category; `TransactionsForBudgetSelects` states what it keeps |
| BudgetUtils.CategorySpending | src/utils/budgetUtils.ts:79-86 | no contract of its own: the sum of that sublist; `CategorySpendingAppend` and `CategorySpendingIgnores` state its behaviour |
| BudgetUtils.CategorySpendingAppend | src/utils/budgetUtils.ts:79-86 | spending over two batches is the sum over each |
| BudgetUtils.CategorySpendingIgnores | src/utils/budgetUtils.ts:79-86 | income and other categories do not count |
| BudgetUtils.CreateBudget | src/utils/budgetUtils.ts:89-102 | a new budget has nothing spent, no transactions, and the given colour or "primary" |
| BudgetUtils.UpdateBudgetWithTransactions | src/utils/budgetUtils.ts:105-117 | only spent and the transaction count change, to the category's spending and count |
| BudgetUtils.UpdateIdempotent | src/utils/budgetUtils.ts:105-117 | recomputing from the same transactions changes nothing more |
| BudgetUtils.BudgetRewards | src/utils/budgetUtils.ts:120-127 | the reward is 0, 10, 25 or 50; 50 for an amount of 0 or less; each reward if and only if its band of the spent percentage: 50 at or below 80, 25 above 80 up to 95, 10 above 95 up to 100, 0 above 100 |
| BudgetUtils.RewardsNonIncreasing | src/utils/budgetUtils.ts:120-127 | spending more of the same budget never earns more |
| BudgetUtils.SuggestBudget | src/utils/budgetUtils.ts:129-146 | with no matching expenses the suggestion is 0, whatever the month count; `SuggestCoversAverage` pins the other case |
| BudgetUtils.SuggestCoversAverage | src/utils/budgetUtils.ts:130-146 | the suggestion is the least whole amount at or above the monthly average plus 10% |
| BudgetUtils.SuggestBudgetDefault | src/utils/budgetUtils.ts:129-146 | `suggestBudget` with the default three months: 0 without matching expenses, otherwise the least whole amount covering a third of the category's spending plus 10% |
| BudgetsPage.CardStatusColor | src/pages/Budgets.tsx:78-87 | an own colour is the budget's or "primary"; with a zero amount, error if and only if something is spent (the infinite percentage) |
| BudgetsPage.CardAgreesWithStatus | src/pages/Budgets.tsx:78-87 | with a positive amount the card's error and warning agree with the status colour, and error means nothing remains |
| BudgetsPage.SubmitBudgetForm | src/pages/Budgets.tsx:176-190 | nothing is saved if and only if the name or amount is empty; an edit keeps a non-zero id and takes the fresh id for an id of 0 (`budget?.id || Date.now()`), and keeps spent, count and colour; a new budget gets the fresh id and starts empty |
| BudgetsPage.ColorOrDefault | src/pages/Budgets.tsx:188 | no contract of its own: `color || 'primary'`; `SubmitBudgetForm` states the defaults |
| BudgetsPage.ReplaceById | src/pages/Budgets.tsx:290 | replacing keeps the list's length |
| BudgetsPage.RemoveByIdSelects | src/pages/Budgets.tsx:283-285 | delete keeps, in order, exactly the budgets with another id |
| BudgetsPage.RemoveById | src/pages/Budgets.tsx:283-285 | no contract of its own: the filter by id; `RemoveByIdSelects` states what remains |
| BudgetsPage.ReplaceByIdChangesOnlyThatId | src/pages/Budgets.tsx:287-291 | save-while-editing replaces the entries with the saved id and no other |
| BudgetsPage.TotalsFollowList | src/pages/Budgets.tsx:269-270 | appending adds the budget's amounts to the totals; deleting takes away exactly the removed ones |
| BudgetsPage.TotalBudget | src/pages/Budgets.tsx:269 | no contract of its own: the sum of amounts; `TotalsFollowList` states how it follows the list |
| BudgetsPage.TotalSpent | src/pages/Budgets.tsx:270 | no contract of its own: the sum of spent amounts; `TotalsFollowList` states how it follows the list |
| BudgetsPage.TotalPercentage | src/pages/Budgets.tsx:271 | no contract of its own: spent over budgeted, times 100, for a non-zero total |
| BudgetsPage.BudgetsPage.constructor | src/pages/Budgets.tsx:264-266 | the page starts with the given budgets and the form closed |
| BudgetsPage.BudgetsPage.OpenForm | src/pages/Budgets.tsx:273-276 | the form opens for a new budget |
| BudgetsPage.BudgetsPage.EditBudget | src/pages/Budgets.tsx:278-281 | the form opens on the given budget |
| BudgetsPage.BudgetsPage.DeleteBudget | src/pages/Budgets.tsx:283-285 | the budgets become the list without that id |
| BudgetsPage.BudgetsPage.SaveBudget | src/pages/Budgets.tsx:287-298 | while editing it replaces by id, otherwise it appends; the form closes |
| TransactionsPage.FilterTransactionsSelects | src/pages/Transactions.tsx:288-314 | shown is the subsequence of transactions matching the search term (description or merchant, case-insensitive), the date bounds, and the chosen categories and types |
| TransactionsPage.Keep | src/pages/Transactions.tsx:288-314 | no contract of its own: the filter predicate; `FilterTransactionsSelects` states each condition it imposes |
| TransactionsPage.FilterTransactions | src/pages/Transactions.tsx:288-314 | no contract of its own: the filtered list; `FilterTransactionsSelects` and `NoFiltersKeepsAll` state its properties |
| TransactionsPage.NoFiltersKeepsAll | src/pages/Transactions.tsx:288-314 | with no term and no filters everything is shown |
| TransactionsPage.TotalsPartition | src/pages/Transactions.tsx:317-325 | income and expense totals add up to the sum of the shown amounts, and the balance is their signed sum |
| TransactionsPage.SignedSum | src/pages/Transactions.tsx:317-325 | the signed sum is income minus expense |
| TransactionsPage.IncomeTotal | src/pages/Transactions.tsx:317-319 | no contract of its own: the income sum; `TotalsPartition` and `SignedSum` state its properties |
| TransactionsPage.ExpenseTotal | src/pages/Transactions.tsx:321-323 | no contract of its own: the expense sum; `TotalsPartition` and `SignedSum` state its properties |
| TransactionsPage.Balance | src/pages/Transactions.tsx:325 | no contract of its own: income − expense; `SignedSum` states that it is the signed sum |
| TransactionsPage.Toggled | src/pages/Transactions.tsx:143-157 | toggling flips the value's membership and keeps every other value's |
| TransactionsPage.ToggleTwice | src/pages/Transactions.tsx:143-157 | toggling twice restores the selection's members, and the exact list when the value was absent |
| TransactionsPage.FilterPanel.constructor | src/pages/Transactions.tsx:139-141 | no dates, categories or types selected |
| TransactionsPage.FilterPanel.SetStart | src/pages/Transactions.tsx:190 | sets the start date only |
| TransactionsPage.FilterPanel.SetEnd | src/pages/Transactions.tsx:202 | sets the end date only |
| TransactionsPage.FilterPanel.ToggleCategory | src/pages/Transactions.tsx:143-149 | the categories become the toggled list; nothing else changes |
| TransactionsPage.FilterPanel.ToggleType | src/pages/Transactions.tsx:151-157 | the types become the toggled list; nothing else changes |
| TransactionsPage.FilterPanel.Apply | src/pages/Transactions.tsx:159-166 | hands over exactly the panel's current selection |
| QuestsPage.FilterQuests | src/pages/Quests.tsx:230-232 | "all" shows every quest |
| QuestsPage.FilterQuestsSelects | src/pages/Quests.tsx:230-232 | any other filter keeps, in order, exactly the quests whose category or status it names |
| QuestsPage.ButtonsFollowStatus | src/pages/Quests.tsx:126-162 | an action button appears if and only if the quest is neither locked nor completed; claim appears if and only if it is in progress; the bar shows with claim and never with start |
| QuestsPage.ButtonFor | src/pages/Quests.tsx:126-162 | no contract of its own: the button by status; `ButtonsFollowStatus` states the mapping |
| QuestsPage.ShowsProgressBar | src/pages/Quests.tsx:190 | no contract of its own: whether the bar shows; `ButtonsFollowStatus` states when |
| QuestsPage.MarkStarted | src/pages/Quests.tsx:234-240 | starting keeps the list's length |
| QuestsPage.MarkClaimed | src/pages/Quests.tsx:242-248 | claiming keeps the list's length |
| QuestsPage.StartAndClaimOnlyThatId | src/pages/Quests.tsx:234-248 | start and claim change only the quests with that id, and only their status and completion time |
| QuestsPage.StartThenClaim | src/pages/Quests.tsx:234-248 | start then claim leaves the quest completed at the claim time, showing the completed label, no longer eligible, and at full progress when it has no steps |
| QuestsPage.QuestsPage.constructor | src/pages/Quests.tsx:226-228 | the page starts with the given quests and the "all" filter |
| QuestsPage.QuestsPage.SetFilter | src/pages/Quests.tsx:228 | only the filter changes |
| QuestsPage.QuestsPage.StartQuest | src/pages/Quests.tsx:234-240 | the quests become the started list |
| QuestsPage.QuestsPage.ClaimReward | src/pages/Quests.tsx:242-248 | the quests become the claimed list |

## Left out

- Rendering, animation, icons, colours and text layout of every page are not modelled. Components the logic does not depend on are outside the model: the header, sidebar, mobile navigation, progress bar, splash screen and error boundary. So are the dashboard, profile and connect-bank pages.
- The Plaid bank-linking flow is not part of this model. Only its completion callback in the onboarding page is modelled.
- Timers, `await` and React's batching are not modelled as such. Each delayed callback is a separate operation the caller runs later. The values it closed over are kept in the onboarding engine's `Pending` state and in the forms' `sentName`/`sentEmail` fields.
- OnboardingEngine.OnboardingPage.OptionClick: this handler and `CustomGoalSubmit` require that no earlier reply is still pending. The source lets a second click start a second timer; overlapping timers are not modelled.
- OnboardingEngine.ResolveReply: this callback and `ResolveGoal` require the user to still be on the step where the click happened. In the source, moving to another step while a reply is pending lets the timer write into the step objects it captured, through shared references; that aliasing is not modelled.
- OnboardingEngine.ResolveReply: the corrected `completeOnboarding()` call is an external request, `markComplete` in the effect and an out-parameter of `ResolveOptionReply`. The user context does not define the function (src/context/UserContext.tsx:21-27, 76), so what it would do to the stored user is not part of this model and the store's `onboardingComplete` flag is left as it was.
- OnboardingEngine.OnboardingPage.ResolveOptionReply reads `store.user` when the completion callback runs. The source's timer uses the `user` of the render in which the option was clicked (src/pages/Onboarding.tsx:116-121). The two differ only if the user record changes while that reply is pending.
- The browser's constraint validation is not modelled. The `required` attributes on the signup fields and terms checkbox (src/pages/Signup.tsx:115, 135, 155, 190, 201) and on the login fields (src/pages/Login.tsx:103, 128), and the `type="email"` inputs (src/pages/Signup.tsx:130, src/pages/Login.tsx:98), can stop a submit before the handler runs. In the model every submit reaches the handler's own checks, and the terms checkbox is not modelled.
- Clock readings (`Date.now()`, `new Date()`) are `stamp`/`now` parameters. `Math.random()` is a real `r` in [0, 1). `parseFloat` of the amount field is the `parsed` argument.
- Numbers are exact: IEEE floating point, rounding error and `toLocaleString` formatting are not modelled. NaN and Infinity appear only where the model names them, as in the zero-amount budget card.
- AchievementsPage.UnlockedPercentage requires at least one achievement. For an empty list the source computes `Math.round(NaN)`.
- BudgetsPage.TotalPercentage requires a non-zero budget total. The source computes NaN or Infinity otherwise.
- BudgetUtils.SuggestBudget requires a non-zero month count when some expense matches. There the source divides by zero; with no matching expense it returns 0 before dividing, and so does the model for any month count.
- Calendar arithmetic (`setMonth`, date parsing, days until a deadline) is not modelled. `GoalUtils.EstimatedMonths` counts months; the status colour takes the day count as an argument; transaction dates are day numbers.
- `toLowerCase` folds ASCII letters only, and string length counts characters rather than UTF-16 code units.
- Route matching compares paths exactly. React Router's case-insensitive matching and trailing-slash handling are not modelled.
- The goals page's edit and contribute buttons are not modelled: the source only logs to the console (src/pages/Goals.tsx:158-161, 167-170).
- The achievements page keeps a list it never updates. Only its filter and statistics are modelled.
- The in-place sort of the activity list inside the achievement recommendation is modelled as picking the first maximum. The caller's list is not reordered in the model.
- The onboarding script is a module-level array the page mutates through shared references. Its changes surviving a remount of the page are not modelled.
- Logging, `console` output and the `catch` branches of the forms are not modelled. The simulated requests never fail, so the error messages of those branches are never shown.

## Findings

| source | as written | input that shows it | evidently intended | confidence | as-written member | corrected member |
|---|---|---|---|---|---|---|
| src/pages/Onboarding.tsx:114-124 | The COMPLETE_ONBOARDING branch first calls `completeOnboarding()`. That is destructured from the user context (line 16), which never provides it (src/context/UserContext.tsx:76). The call throws, so the stats update, the navigation and the placeholder removal never happen. | Click "Go to Dashboard" on the all-set step, then run its timer. | Call `completeOnboarding()` on a context that provides it (the user is marked as having completed onboarding), reward the user with +100 XP, +50 coins and the `onboarding_complete` achievement, remove the placeholder, and navigate to /dashboard. | not executed | OnboardingEngine.ResolveReplyAsWritten, OnboardingEngine.CompletionDiscrepancy | OnboardingEngine.ResolveReply |
