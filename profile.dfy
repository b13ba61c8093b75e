/** `lib/profile.ts`: the plan-access predicate and the creation of a trial
    profile on a user's first visit. The profiles table is a map from user id
    to row; the select's failure and the insert's fate are parameters, and
    dates are millisecond timestamps. */
module Profile {
  import opened Wrappers
  import opened FakeLoader

  const TRIAL_PLAN: string := "trial"
  const TRIAL_DAYS: int := 30

  datatype ProfileRow = ProfileRow(
    id: string,
    email: Option<string>,
    full_name: Option<string>,
    avatar_url: Option<string>,
    plan: string,
    plan_expires_at: Option<int>,
    plan_notes: Option<string>,
    is_active: bool,
    created_at: Option<int>,
    updated_at: Option<int>)

  /** The signed-in user; an empty id is the source's falsy `user.id`. */
  datatype User = User(id: string, email: Option<string>)

  /** `hasActivePlan(profile)` at time `now`: a present, active profile whose
      expiry, if any, lies strictly after `now`. */
  predicate HasActivePlan(profile: Option<ProfileRow>, now: int) {
    match profile
    case None => false
    case Some(p) =>
      if !p.is_active then false
      else if p.plan_expires_at.None? then true
      else p.plan_expires_at.value > now
  }

  /** Access only ever runs out: a plan active at `now` was active at every
      earlier time, and an inactive one stays inactive. */
  lemma ActivePlanEarlier(profile: Option<ProfileRow>, earlier: int, now: int)
    requires earlier <= now
    ensures HasActivePlan(profile, now) ==> HasActivePlan(profile, earlier)
    ensures !HasActivePlan(profile, earlier) ==> !HasActivePlan(profile, now)
  {
  }

  /** A plan without expiry never runs out; one with an expiry has run out
      from that instant on. */
  lemma ExpiryDecides(p: ProfileRow, now: int)
    requires p.is_active
    ensures p.plan_expires_at.None? ==> HasActivePlan(Some(p), now)
    ensures p.plan_expires_at.Some? ==>
      (HasActivePlan(Some(p), now) <==> now < p.plan_expires_at.value)
  {
  }

  /** What the lookup hands back for an existing row: it selects `id, email,
      plan, plan_expires_at, is_active`, so the other five columns are absent
      from the returned object. */
  function Selected(row: ProfileRow): (r: ProfileRow)
    ensures r.id == row.id && r.email == row.email && r.plan == row.plan
    ensures r.plan_expires_at == row.plan_expires_at && r.is_active == row.is_active
    ensures r.full_name.None? && r.avatar_url.None? && r.plan_notes.None?
    ensures r.created_at.None? && r.updated_at.None?
  {
    ProfileRow(row.id, row.email, None, None, row.plan, row.plan_expires_at, None, row.is_active, None, None)
  }

  /** The selected columns are the ones `hasActivePlan` reads, so the narrowed
      record grants access exactly when the stored row does. */
  lemma SelectedKeepsPlan(row: ProfileRow, now: int)
    ensures HasActivePlan(Some(Selected(row)), now) == HasActivePlan(Some(row), now)
  {
  }

  /** The record returned for a user seen for the first time. */
  function Trial(user: User, now: int): (r: ProfileRow)
    ensures r.id == user.id && r.email == user.email && r.plan == TRIAL_PLAN
    ensures r.plan_expires_at == Some(now + TRIAL_DAYS * DAY_MS)
  {
    ProfileRow(user.id, user.email, None, None, TRIAL_PLAN,
      Some(now + TRIAL_DAYS * DAY_MS), None, true, Some(now), Some(now))
  }

  /** A fresh trial grants access for thirty days and not a moment longer. */
  lemma TrialLasts(user: User, now: int, t: int)
    requires now <= t
    ensures HasActivePlan(Some(Trial(user, now)), t) <==> t < now + TRIAL_DAYS * DAY_MS
  {
  }

  /** The `profiles` table, keyed by user id. */
  class ProfileTable {
    var rows: map<string, ProfileRow>

    constructor (init: map<string, ProfileRow>)
      ensures rows == init
    {
      rows := init;
    }

    /** `ensureProfile(user)`. `selectError` is the error of the lookup, if
        it fails; `inserted` says whether the store accepts the insert,
        whose outcome the source does not inspect. */
    method EnsureProfile(user: User, now: int, selectError: Option<string>, inserted: bool)
      returns (r: Result<Option<ProfileRow>>)
      modifies this
      ensures user.id == "" ==> r == Success(None) && rows == old(rows)
      ensures user.id != "" && selectError.Some? ==>
        r == Failure(selectError.value) && rows == old(rows)
      ensures user.id != "" && selectError.None? && user.id in old(rows) ==>
        r == Success(Some(Selected(old(rows)[user.id]))) && rows == old(rows)
      ensures user.id != "" && selectError.None? && user.id !in old(rows) ==>
        && r == Success(Some(Trial(user, now)))
        && rows == (if inserted then old(rows)[user.id := Trial(user, now)] else old(rows))
    {
      if user.id == "" {
        return Success(None);
      }
      if selectError.Some? {
        return Failure(selectError.value);
      }
      if user.id !in rows {
        var created := Trial(user, now);
        if inserted {
          rows := rows[user.id := created];
        }
        return Success(Some(created));
      }
      r := Success(Some(Selected(rows[user.id])));
    }
  }

  /** On a first visit the user gets a profile back with a plan active right
      now, and when the insert succeeds the stored row grants it too. */
  method FirstVisit(table: ProfileTable, user: User, now: int, inserted: bool)
    returns (p: Option<ProfileRow>)
    requires user.id != "" && user.id !in table.rows
    modifies table
    ensures HasActivePlan(p, now)
    ensures inserted ==> user.id in table.rows && HasActivePlan(Some(table.rows[user.id]), now)
  {
    var r := table.EnsureProfile(user, now, None, inserted);
    p := r.value;
  }
}
