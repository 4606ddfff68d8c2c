/**
 * The planner document (the Planner schema) and the partial-update rule of
 * `POST /api/planner`.
 */
module Planners {
  import opened Wrappers
  import opened Tokens

  /** A JSON value from a request body; the server stores planner entries
      without looking inside them. */
  datatype Json =
    | JNull
    | JBool(b: bool)
    | JNumber(n: int)
    | JString(s: string)
    | JArray(items: seq<Json>)
    | JObject(fields: map<string, Json>)

  /** `{ type: Map, of: Object }`: entry key to stored entry. */
  type Mapping = map<string, Json>

  datatype Planner = Planner(
    userId: UserId,
    dailyData: Mapping,
    weeklyData: Mapping,
    heroImage: Option<string>,
    lastUpdated: Time)

  /** `new Planner({ userId })` at time `now`: the schema defaults. */
  function NewPlanner(uid: UserId, now: Time): (p: Planner)
  {
    Planner(uid, map[], map[], None, now)
  }

  /** One field of an update body, keeping JavaScript's `undefined` (the
      key is absent) apart from an explicit `null`. */
  datatype Field<T> = Absent | Null | Value(value: T)

  /** The fields `POST /api/planner` destructures from its body. */
  datatype Update = Update(dailyData: Field<Mapping>, weeklyData: Field<Mapping>, heroImage: Field<string>)

  /** The planner after the update, or None when the update throws. Each
      field that is undefined is kept; a present mapping replaces the old one
      wholesale; `heroImage: null` clears the image; `lastUpdated` becomes
      `now`. A `null` mapping makes `Object.entries` throw a TypeError, so
      there is no new planner at all. */
  function ApplyUpdate(p: Planner, u: Update, now: Time): (r: Option<Planner>)
    ensures r.None? <==> u.dailyData.Null? || u.weeklyData.Null?
    ensures r.Some? ==> r.value.userId == p.userId && r.value.lastUpdated == now
    ensures r.Some? && u.dailyData.Absent? ==> r.value.dailyData == p.dailyData
    ensures r.Some? && u.dailyData.Value? ==> r.value.dailyData == u.dailyData.value
    ensures r.Some? && u.weeklyData.Absent? ==> r.value.weeklyData == p.weeklyData
    ensures r.Some? && u.weeklyData.Value? ==> r.value.weeklyData == u.weeklyData.value
    ensures r.Some? && u.heroImage.Absent? ==> r.value.heroImage == p.heroImage
    ensures r.Some? && u.heroImage.Null? ==> r.value.heroImage == None
    ensures r.Some? && u.heroImage.Value? ==> r.value.heroImage == Some(u.heroImage.value)
  {
    if u.dailyData.Null? || u.weeklyData.Null? then None
    else
      var daily := if u.dailyData.Value? then u.dailyData.value else p.dailyData;
      var weekly := if u.weeklyData.Value? then u.weeklyData.value else p.weeklyData;
      var hero := match u.heroImage
        case Absent => p.heroImage
        case Null => None
        case Value(s) => Some(s);
      Some(Planner(p.userId, daily, weekly, hero, now))
  }

  /** The update a second update makes of a first: the later value of each
      field wins where it is defined. */
  function Then(first: Update, second: Update): Update
  {
    Update(
      if second.dailyData.Absent? then first.dailyData else second.dailyData,
      if second.weeklyData.Absent? then first.weeklyData else second.weeklyData,
      if second.heroImage.Absent? then first.heroImage else second.heroImage)
  }

  /** Two successful updates in a row have the effect of their combination:
      nothing of the first survives in a field the second defines (no merge of
      earlier mapping keys), and fields the second leaves undefined keep what
      the first wrote. */
  lemma UpdatesCompose(p: Planner, first: Update, second: Update, t1: Time, t2: Time)
    requires ApplyUpdate(p, first, t1).Some?
    ensures ApplyUpdate(ApplyUpdate(p, first, t1).value, second, t2) == ApplyUpdate(p, Then(first, second), t2)
  {
  }

  /** Repeating an update changes nothing but the timestamp. */
  lemma UpdateIdempotent(p: Planner, u: Update, t1: Time, t2: Time)
    requires ApplyUpdate(p, u, t1).Some?
    ensures ApplyUpdate(ApplyUpdate(p, u, t1).value, u, t2) == ApplyUpdate(p, u, t2)
  {
    UpdatesCompose(p, u, u, t1, t2);
    assert Then(u, u) == u;
  }

  /** An update that defines nothing only refreshes `lastUpdated`. */
  lemma EmptyUpdateTouchesOnlyTimestamp(p: Planner, now: Time)
    ensures ApplyUpdate(p, Update(Absent, Absent, Absent), now) == Some(p.(lastUpdated := now))
  {
  }
}
