/**
 * The karma store the processor is given: karma totals keyed by (team, user)
 * and daily usage keyed by (team, user, date), where an absent row reads as 0
 * and an update adds to the row and returns the new value. Any call may fail;
 * `down` names the calls that fail, and a failed call changes nothing.
 * `ranking` is the ordered list from which `Top(team, n)` answers with the
 * first n rows; the query behind it is not part of this model.
 */
module KarmaStore {
  import opened Results

  /** The day a usage row belongs to. */
  type Date = int

  datatype UserKey = UserKey(team: string, user: string)
  datatype DayKey = DayKey(team: string, user: string, date: Date)

  /** The store calls, used to say which one failed. */
  datatype StoreOp = GetKarmaOp | UpdateKarmaOp | GetDailyOp | UpdateDailyOp | TopOp

  /** One row of the `Top` answer. */
  datatype UserKarma = UserKarma(user: string, karma: int)

  /** Everything the store holds, as a value. */
  datatype StoreState = StoreState(
    karma: map<UserKey, int>,
    daily: map<DayKey, int>,
    down: set<StoreOp>,
    ranking: seq<UserKarma>)

  /** A user's karma: 0 when the user has no row. */
  function KarmaOf(s: StoreState, team: string, user: string): int {
    var key := UserKey(team, user);
    if key in s.karma then s.karma[key] else 0
  }

  /** A user's usage on a day: 0 when there is no row. */
  function UsageOf(s: StoreState, team: string, user: string, date: Date): int {
    var key := DayKey(team, user, date);
    if key in s.daily then s.daily[key] else 0
  }

  /** The upsert `karma = karma + delta` on one key. */
  function AddKarma(s: StoreState, team: string, user: string, delta: int): (s': StoreState)
    ensures KarmaOf(s', team, user) == KarmaOf(s, team, user) + delta
    ensures forall t, u :: (t, u) != (team, user) ==> KarmaOf(s', t, u) == KarmaOf(s, t, u)
    ensures s'.daily == s.daily && s'.down == s.down && s'.ranking == s.ranking
  {
    s.(karma := s.karma[UserKey(team, user) := KarmaOf(s, team, user) + delta])
  }

  /** The upsert `usage = usage + n` on one key. */
  function AddUsage(s: StoreState, team: string, user: string, date: Date, n: int): (s': StoreState)
    ensures UsageOf(s', team, user, date) == UsageOf(s, team, user, date) + n
    ensures forall t, u, d :: (t, u, d) != (team, user, date) ==> UsageOf(s', t, u, d) == UsageOf(s, t, u, d)
    ensures s'.karma == s.karma && s'.down == s.down && s'.ranking == s.ranking
  {
    s.(daily := s.daily[DayKey(team, user, date) := UsageOf(s, team, user, date) + n])
  }

  /** Adding and then taking away the same amount leaves the totals as they were. */
  lemma AddKarmaInverse(s: StoreState, team: string, user: string, delta: int)
    ensures forall t, u :: KarmaOf(AddKarma(AddKarma(s, team, user, delta), team, user, -delta), t, u) == KarmaOf(s, t, u)
  {
  }

  /** Updates of different tables commute. */
  lemma AddKarmaAddUsageCommute(s: StoreState, team: string, user: string, delta: int,
                                team': string, user': string, date: Date, n: int)
    ensures AddUsage(AddKarma(s, team, user, delta), team', user', date, n)
         == AddKarma(AddUsage(s, team', user', date, n), team, user, delta)
  {
  }

  /** The first n rows of a ranking (all of it when it is shorter). */
  function FirstRows(ranking: seq<UserKarma>, n: int): (rows: seq<UserKarma>)
    ensures rows <= ranking
    ensures n >= 0 ==> |rows| == if n < |ranking| then n else |ranking|
  {
    if 0 <= n < |ranking| then ranking[..n] else ranking
  }

  /** The store as an object whose calls read and update its tables in place. */
  class Store {
    var karma: map<UserKey, int>
    var daily: map<DayKey, int>
    var down: set<StoreOp>
    var ranking: seq<UserKarma>

    constructor (karma: map<UserKey, int>, daily: map<DayKey, int>, down: set<StoreOp>, ranking: seq<UserKarma>)
      ensures State() == StoreState(karma, daily, down, ranking)
    {
      this.karma := karma;
      this.daily := daily;
      this.down := down;
      this.ranking := ranking;
    }

    function State(): StoreState
      reads this
    {
      StoreState(karma, daily, down, ranking)
    }

    /** `GetKarma(team, user)`. */
    method GetKarma(team: string, user: string) returns (r: Result<int, StoreOp>)
      ensures GetKarmaOp in down ==> r == Err(GetKarmaOp)
      ensures GetKarmaOp !in down ==> r == Ok(KarmaOf(State(), team, user))
    {
      if GetKarmaOp in down {
        return Err(GetKarmaOp);
      }
      var key := UserKey(team, user);
      r := Ok(if key in karma then karma[key] else 0);
    }

    /** `UpdateKarma(team, user, delta)`: adds delta and answers the new total. */
    method UpdateKarma(team: string, user: string, delta: int) returns (r: Result<int, StoreOp>)
      modifies this
      ensures UpdateKarmaOp in old(down) ==> r == Err(UpdateKarmaOp) && State() == old(State())
      ensures UpdateKarmaOp !in old(down) ==>
        State() == AddKarma(old(State()), team, user, delta) && r == Ok(KarmaOf(State(), team, user))
    {
      if UpdateKarmaOp in down {
        return Err(UpdateKarmaOp);
      }
      var key := UserKey(team, user);
      var total := (if key in karma then karma[key] else 0) + delta;
      karma := karma[key := total];
      r := Ok(total);
    }

    /** `GetDaily(team, user, date)`. */
    method GetDaily(team: string, user: string, date: Date) returns (r: Result<int, StoreOp>)
      ensures GetDailyOp in down ==> r == Err(GetDailyOp)
      ensures GetDailyOp !in down ==> r == Ok(UsageOf(State(), team, user, date))
    {
      if GetDailyOp in down {
        return Err(GetDailyOp);
      }
      var key := DayKey(team, user, date);
      r := Ok(if key in daily then daily[key] else 0);
    }

    /** `UpdateDaily(team, user, date, n)`: adds n and answers the new usage. */
    method UpdateDaily(team: string, user: string, date: Date, n: int) returns (r: Result<int, StoreOp>)
      modifies this
      ensures UpdateDailyOp in old(down) ==> r == Err(UpdateDailyOp) && State() == old(State())
      ensures UpdateDailyOp !in old(down) ==>
        State() == AddUsage(old(State()), team, user, date, n) && r == Ok(UsageOf(State(), team, user, date))
    {
      if UpdateDailyOp in down {
        return Err(UpdateDailyOp);
      }
      var key := DayKey(team, user, date);
      var total := (if key in daily then daily[key] else 0) + n;
      daily := daily[key := total];
      r := Ok(total);
    }

    /** `Top(team, n)`: the first n rows of the ranking the store holds. */
    method Top(team: string, n: int) returns (r: Result<seq<UserKarma>, StoreOp>)
      ensures TopOp in down ==> r == Err(TopOp)
      ensures TopOp !in down ==> r == Ok(FirstRows(ranking, n))
    {
      if TopOp in down {
        return Err(TopOp);
      }
      if 0 <= n < |ranking| {
        r := Ok(ranking[..n]);
      } else {
        r := Ok(ranking);
      }
    }
  }
}
