/**
 * The session store: a nullable user record, a loading flag, and the
 * operations the provider exposes (set, merge-update, logout) plus the
 * completion of the initial simulated load.
 */
module UserContext {
  import opened Common

  datatype Theme = Light | Dark

  datatype Preferences = Preferences(theme: Theme, notifications: bool)

  datatype User = User(
    id: string,
    name: string,
    email: string,
    avatar: string,
    level: int,
    xp: int,
    coins: int,
    streak: int,
    onboardingComplete: bool,
    achievements: seq<string>,
    preferences: Preferences)

  /** `Partial<User>`: a field is present exactly when it is `Some`. */
  datatype UserDelta = UserDelta(
    id: Option<string>,
    name: Option<string>,
    email: Option<string>,
    avatar: Option<string>,
    level: Option<int>,
    xp: Option<int>,
    coins: Option<int>,
    streak: Option<int>,
    onboardingComplete: Option<bool>,
    achievements: Option<seq<string>>,
    preferences: Option<Preferences>)

  /** The empty delta `{}`. */
  const NoChange := UserDelta(None, None, None, None, None, None, None, None, None, None, None)

  /** The record the provider loads after its simulated delay. */
  const MockUser := User(
    "user-123", "Alex Johnson", "alex@example.com", "https://i.pravatar.cc/150?img=37",
    3, 350, 270, 5, true, ["first_login", "first_budget", "week_streak"],
    Preferences(Light, true))

  /** `{ ...user, ...stats }`: every field present in `d` replaces the user's. */
  function Merge(u: User, d: UserDelta): User {
    User(
      d.id.GetOr(u.id),
      d.name.GetOr(u.name),
      d.email.GetOr(u.email),
      d.avatar.GetOr(u.avatar),
      d.level.GetOr(u.level),
      d.xp.GetOr(u.xp),
      d.coins.GetOr(u.coins),
      d.streak.GetOr(u.streak),
      d.onboardingComplete.GetOr(u.onboardingComplete),
      d.achievements.GetOr(u.achievements),
      d.preferences.GetOr(u.preferences))
  }

  /** `{ ...d1, ...d2 }`: the later delta wins where both have a field. */
  function Combine(d1: UserDelta, d2: UserDelta): UserDelta {
    UserDelta(
      if d2.id.Some? then d2.id else d1.id,
      if d2.name.Some? then d2.name else d1.name,
      if d2.email.Some? then d2.email else d1.email,
      if d2.avatar.Some? then d2.avatar else d1.avatar,
      if d2.level.Some? then d2.level else d1.level,
      if d2.xp.Some? then d2.xp else d1.xp,
      if d2.coins.Some? then d2.coins else d1.coins,
      if d2.streak.Some? then d2.streak else d1.streak,
      if d2.onboardingComplete.Some? then d2.onboardingComplete else d1.onboardingComplete,
      if d2.achievements.Some? then d2.achievements else d1.achievements,
      if d2.preferences.Some? then d2.preferences else d1.preferences)
  }

  /** What `updateUserStats` leaves in the `user` cell. */
  function ApplyStats(u: Option<User>, d: UserDelta): (r: Option<User>)
    ensures r.None? <==> u.None?
  {
    if u.Some? then Some(Merge(u.value, d)) else None
  }

  /** The empty delta changes nothing. */
  lemma MergeNoChange(u: User)
    ensures Merge(u, NoChange) == u
  {
  }

  /** Applying the same delta twice is the same as applying it once. */
  lemma MergeIdempotent(u: User, d: UserDelta)
    ensures Merge(Merge(u, d), d) == Merge(u, d)
  {
  }

  /** Two successive updates are one update with the combined delta. */
  lemma MergeSequence(u: User, d1: UserDelta, d2: UserDelta)
    ensures Merge(Merge(u, d1), d2) == Merge(u, Combine(d1, d2))
  {
  }

  /**
   * The merge assigns rather than adds: a present numeric field ends up equal
   * to the delta's value whatever the user held before.
   */
  lemma MergeAssigns(u1: User, u2: User, d: UserDelta)
    requires d.xp.Some? && d.coins.Some?
    ensures Merge(u1, d).xp == Merge(u2, d).xp == d.xp.value
    ensures Merge(u1, d).coins == Merge(u2, d).coins == d.coins.value
  {
  }

  class UserStore {
    var user: Option<User>
    var isLoading: bool

    /** The provider's initial state, before the simulated fetch completes. */
    constructor ()
      ensures user == None && isLoading
    {
      user := None;
      isLoading := true;
    }

    /** The fetch timer fires: the mock user is loaded and loading ends. */
    method FinishLoading()
      modifies this
      ensures user == Some(MockUser) && user.value.onboardingComplete
      ensures !isLoading
    {
      user := Some(MockUser);
      isLoading := false;
    }

    method SetUser(u: Option<User>)
      modifies this
      ensures user == u
      ensures isLoading == old(isLoading)
    {
      user := u;
    }

    /** Merges the delta into the current user; without a user it does nothing. */
    method UpdateUserStats(stats: UserDelta)
      modifies this
      ensures old(user).None? ==> user == old(user)
      ensures user == ApplyStats(old(user), stats)
      ensures isLoading == old(isLoading)
    {
      if user.Some? {
        user := Some(Merge(user.value, stats));
      }
    }

    method Logout()
      modifies this
      ensures user == None
      ensures isLoading == old(isLoading)
    {
      user := None;
    }
  }
}
