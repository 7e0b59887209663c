/**
 * The quests page: the category-or-status filter, the action each card
 * offers for its status, and starting a quest or claiming its reward, which
 * update the quest with the given id in the page's list.
 */
module QuestsPage {
  import opened Common
  import opened QuestUtils

  function CategoryName(c: Category): string {
    match c
    case Saving => "saving"
    case Spending => "spending"
    case Budgeting => "budgeting"
    case Investing => "investing"
    case Income => "income"
    case Learning => "learning"
    case Daily => "daily"
  }

  function StatusName(s: Status): string {
    match s
    case Available => "available"
    case InProgress => "in_progress"
    case Completed => "completed"
    case Expired => "expired"
    case Locked => "locked"
  }

  function MatchesFilter(f: string): Quest -> bool {
    (q: Quest) => CategoryName(q.category) == f || StatusName(q.status) == f
  }

  /** `filteredQuests`. */
  function FilterQuests(quests: seq<Quest>, f: string): (r: seq<Quest>)
    ensures f == "all" ==> r == quests
  {
    if f == "all" then quests else Filter(quests, MatchesFilter(f))
  }

  /** Any other filter keeps, in order, exactly the quests whose category or status it names. */
  lemma FilterQuestsSelects(quests: seq<Quest>, f: string)
    requires f != "all"
    ensures var r := FilterQuests(quests, f);
      && IsSubsequence(r, quests)
      && forall q :: q in r <==> q in quests && (CategoryName(q.category) == f || StatusName(q.status) == f)
  {
    FilterMembers(quests, MatchesFilter(f));
    FilterIsSubsequence(quests, MatchesFilter(f));
  }

  datatype CardAction = DisabledLocked | CompletedLabel | ClaimButton | StartButton

  /** `renderButton`. */
  function ButtonFor(s: Status): CardAction {
    if s == Locked then DisabledLocked
    else if s == Completed then CompletedLabel
    else if s == InProgress then ClaimButton
    else StartButton
  }

  /** The progress bar is shown for quests under way or done. */
  function ShowsProgressBar(s: Status): bool {
    s == InProgress || s == Completed
  }

  /**
   * A card can be acted on exactly when the quest is neither locked nor done:
   * in progress it offers the claim, otherwise (also when expired) the start.
   */
  lemma ButtonsFollowStatus(s: Status)
    ensures ButtonFor(s) in {ClaimButton, StartButton} <==> s != Locked && s != Completed
    ensures ButtonFor(s) == ClaimButton <==> s == InProgress
    ensures ButtonFor(s) == ClaimButton ==> ShowsProgressBar(s)
    ensures ButtonFor(s) == StartButton ==> !ShowsProgressBar(s)
  {
  }

  /** `handleStartQuest`. */
  function MarkStarted(quests: seq<Quest>, id: string): (r: seq<Quest>)
    ensures |r| == |quests|
  {
    seq(|quests|, i requires 0 <= i < |quests| =>
      if quests[i].id == id then quests[i].(status := InProgress) else quests[i])
  }

  /** `handleClaimReward`, with `now` the completion instant. */
  function MarkClaimed(quests: seq<Quest>, id: string, now: int): (r: seq<Quest>)
    ensures |r| == |quests|
  {
    seq(|quests|, i requires 0 <= i < |quests| =>
      if quests[i].id == id then quests[i].(status := Completed, completedAt := Some(now)) else quests[i])
  }

  /**
   * Start and claim touch only the quests with the given id, and of those only
   * the status (and, for a claim, the completion instant).
   */
  lemma StartAndClaimOnlyThatId(quests: seq<Quest>, id: string, now: int)
    ensures forall i :: 0 <= i < |quests| && quests[i].id != id ==>
      MarkStarted(quests, id)[i] == quests[i] && MarkClaimed(quests, id, now)[i] == quests[i]
    ensures forall i :: 0 <= i < |quests| && quests[i].id == id ==>
      && MarkStarted(quests, id)[i].(status := quests[i].status) == quests[i]
      && MarkStarted(quests, id)[i].status == InProgress
      && MarkClaimed(quests, id, now)[i].(status := quests[i].status, completedAt := quests[i].completedAt)
         == quests[i]
      && MarkClaimed(quests, id, now)[i].status == Completed
      && MarkClaimed(quests, id, now)[i].completedAt == Some(now)
  {
  }

  /**
   * Starting and then claiming a quest leaves it completed at the claim time
   * and no longer recommendable; a quest without steps then reports full
   * progress.
   */
  lemma StartThenClaim(quests: seq<Quest>, i: nat, now: int, later: int)
    requires i < |quests|
    ensures var q := MarkClaimed(MarkStarted(quests, quests[i].id), quests[i].id, now)[i];
      && q.status == Completed
      && q.completedAt == Some(now)
      && ButtonFor(q.status) == CompletedLabel
      && !Eligible(q, later)
      && (q.steps == [] ==> QuestProgress(q) == 100)
  {
  }

  class QuestsPage {
    var quests: seq<Quest>
    var activeFilter: string

    constructor (initial: seq<Quest>)
      ensures quests == initial && activeFilter == "all"
    {
      quests := initial;
      activeFilter := "all";
    }

    method SetFilter(f: string)
      modifies this
      ensures activeFilter == f && quests == old(quests)
    {
      activeFilter := f;
    }

    method StartQuest(id: string)
      modifies this
      ensures quests == MarkStarted(old(quests), id) && activeFilter == old(activeFilter)
    {
      quests := MarkStarted(quests, id);
    }

    method ClaimReward(id: string, now: int)
      modifies this
      ensures quests == MarkClaimed(old(quests), id, now) && activeFilter == old(activeFilter)
    {
      quests := MarkClaimed(quests, id, now);
    }
  }
}
