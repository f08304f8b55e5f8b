/**
 * The business layer: it validates and fills in defaults before an ad is
 * stored, and rewrites a query's condition map before it is handed to the
 * data-access layer, converting the returned end times afterwards.
 *
 * The data-access layer is a parameter (a function from what it is handed to
 * what it returns); each operation also returns what it handed over, or
 * `None` when it did not call the data-access layer at all. The timestamp
 * conversions of Go's time library are opaque partial functions.
 */
module Usecase {
  import opened Domain
  import Repository

  /** The "any value" sentinel of each targeting dimension key. */
  const AnyValue: map<string, string> := map["gender" := "A", "country" := "AY", "platform" := "any"]

  const DefaultAgeStart := 1
  const DefaultAgeEnd := 100
  const DefaultLimit := "5"

  const EmptyFieldsMessage := "title, startAt, and endAt " + "should not be empty"
  const NoOffsetMessage := "condition should have " + "offset provided"

  // ---------------------------------------------------------------------
  // Defaults of a new ad (usecase/ad.go:42-52, 76-81)
  // ---------------------------------------------------------------------

  /** `changeAgeIfZero`: an age of 0 (not provided) becomes the default. */
  function ChangeAgeIfZero(age: int, defaultAge: int): (r: int)
    ensures r == defaultAge <==> age == 0 || age == defaultAge
    ensures age != 0 ==> r == age
    ensures defaultAge != 0 ==> r != 0
  {
    if age == 0 then defaultAge else age
  }

  /** `changeSliceIfEmpty`: an empty list becomes the one sentinel value. */
  function ChangeSliceIfEmpty(values: seq<string>, anyValue: string): (r: seq<string>)
    ensures |r| > 0
    ensures |values| == 0 ==> r == [anyValue]
    ensures |values| > 0 ==> r == values
  {
    if |values| == 0 then values + [anyValue] else values
  }

  /** Defaulting a second time changes nothing. */
  lemma ChangeIdempotent(age: int, defaultAge: int, values: seq<string>, anyValue: string)
    ensures ChangeAgeIfZero(ChangeAgeIfZero(age, defaultAge), defaultAge) == ChangeAgeIfZero(age, defaultAge)
    ensures ChangeSliceIfEmpty(ChangeSliceIfEmpty(values, anyValue), anyValue) == ChangeSliceIfEmpty(values, anyValue)
  {
  }

  /** The targeting condition with every default filled in. */
  function WithDefaults(c: Condition): Condition {
    Condition(
      ChangeAgeIfZero(c.ageStart, DefaultAgeStart),
      ChangeAgeIfZero(c.ageEnd, DefaultAgeEnd),
      ChangeSliceIfEmpty(c.gender, AnyValue["gender"]),
      ChangeSliceIfEmpty(c.country, AnyValue["country"]),
      ChangeSliceIfEmpty(c.platform, AnyValue["platform"]))
  }

  /** A condition with both ages set and every dimension non-empty. */
  predicate Complete(c: Condition) {
    c.ageStart != 0 && c.ageEnd != 0 && |c.gender| > 0 && |c.country| > 0 && |c.platform| > 0
  }

  /**
   * Defaulting completes any condition, keeps every value that was provided,
   * and leaves a complete condition as it is.
   */
  lemma WithDefaultsCompletes(c: Condition)
    ensures Complete(WithDefaults(c))
    ensures c.ageStart != 0 ==> WithDefaults(c).ageStart == c.ageStart
    ensures c.ageEnd != 0 ==> WithDefaults(c).ageEnd == c.ageEnd
    ensures |c.gender| > 0 ==> WithDefaults(c).gender == c.gender
    ensures |c.country| > 0 ==> WithDefaults(c).country == c.country
    ensures |c.platform| > 0 ==> WithDefaults(c).platform == c.platform
    ensures Complete(c) <==> WithDefaults(c) == c
  {
  }

  /** What a missing condition becomes: ages 1 and 100, every dimension "any". */
  lemma EmptyConditionDefaults()
    ensures WithDefaults(EmptyCondition) == Condition(1, 100, ["A"], ["AY"], ["any"])
  {
  }

  // ---------------------------------------------------------------------
  // Create (usecase/ad.go:54-85)
  // ---------------------------------------------------------------------

  /** A missing title, start time or end time. */
  predicate MissingField(ad: Ad) {
    ad.title == "" || ad.startAt == "" || ad.endAt == ""
  }

  /**
   * `Create`. A missing field is an error and leaves the ad as it was. A
   * missing condition becomes an empty one first; then the start and end
   * times are converted to Taipei time (a failure returns the ad updated so
   * far); then the defaults are filled in, and the ad goes to the data-access
   * layer, whose error is returned unchanged.
   */
  method Create(ad: Ad, toTaipei: string -> Option<string>, repo: Ad -> Option<Error>)
    returns (updated: Ad, repoCall: Option<Ad>, err: Option<Error>)
    ensures MissingField(ad) ==>
      updated == ad && repoCall == None && err == Some(ValidationError(EmptyFieldsMessage))
    ensures !MissingField(ad) ==>
      && updated.title == ad.title
      && updated.condition.Some?
    ensures !MissingField(ad) && toTaipei(ad.startAt).None? ==>
      && updated == ad.(condition := Some(if ad.condition.Some? then ad.condition.value else EmptyCondition))
      && repoCall == None && err == Some(TimeParseError)
    ensures !MissingField(ad) && toTaipei(ad.startAt).Some? && toTaipei(ad.endAt).None? ==>
      && updated.startAt == toTaipei(ad.startAt).value && updated.endAt == ad.endAt
      && updated.condition == Some(if ad.condition.Some? then ad.condition.value else EmptyCondition)
      && repoCall == None && err == Some(TimeParseError)
    ensures !MissingField(ad) && toTaipei(ad.startAt).Some? && toTaipei(ad.endAt).Some? ==>
      && updated.startAt == toTaipei(ad.startAt).value
      && updated.endAt == toTaipei(ad.endAt).value
      && updated.condition == Some(WithDefaults(if ad.condition.Some? then ad.condition.value else EmptyCondition))
      && repoCall == Some(updated) && err == repo(updated)
    ensures repoCall.Some? ==> Complete(repoCall.value.condition.value)
  {
    updated := ad;
    repoCall := None;
    if updated.title == "" || updated.startAt == "" || updated.endAt == "" {
      return updated, None, Some(ValidationError(EmptyFieldsMessage));
    }

    if updated.condition.None? {
      updated := updated.(condition := Some(EmptyCondition));
    }

    var startAt := toTaipei(updated.startAt);
    if startAt.None? {
      return updated, None, Some(TimeParseError);
    }
    updated := updated.(startAt := startAt.value);

    var endAt := toTaipei(updated.endAt);
    if endAt.None? {
      return updated, None, Some(TimeParseError);
    }
    updated := updated.(endAt := endAt.value);

    var c := updated.condition.value;
    c := c.(ageStart := ChangeAgeIfZero(c.ageStart, DefaultAgeStart));
    c := c.(ageEnd := ChangeAgeIfZero(c.ageEnd, DefaultAgeEnd));
    c := c.(gender := ChangeSliceIfEmpty(c.gender, AnyValue["gender"]));
    c := c.(country := ChangeSliceIfEmpty(c.country, AnyValue["country"]));
    c := c.(platform := ChangeSliceIfEmpty(c.platform, AnyValue["platform"]));
    updated := updated.(condition := Some(c));

    WithDefaultsCompletes(if ad.condition.Some? then ad.condition.value else EmptyCondition);
    repoCall := Some(updated);
    err := repo(updated);
  }

  // ---------------------------------------------------------------------
  // GetByCondition (usecase/ad.go:87-124)
  // ---------------------------------------------------------------------

  /** A missing `limit` becomes `["5"]`. */
  function WithDefaultLimit(condition: map<string, seq<string>>): map<string, seq<string>> {
    if "limit" in condition then condition else condition["limit" := [DefaultLimit]]
  }

  /** Each present key of the sentinel table gets its sentinel appended; other keys stay. */
  function WithAnyValues(condition: map<string, seq<string>>, table: map<string, string>): map<string, seq<string>> {
    map k | k in condition :: if k in table then condition[k] + [table[k]] else condition[k]
  }

  /** The map the data-access layer is handed. */
  function Prepared(condition: map<string, seq<string>>): map<string, seq<string>> {
    WithAnyValues(WithDefaultLimit(condition), AnyValue)
  }

  /** `order` lists each sentinel key exactly once, as a Go map range does. */
  predicate Enumerates(order: seq<string>, keys: set<string>) {
    && (forall k :: k in keys ==> k in order)
    && (forall i :: 0 <= i < |order| ==> order[i] in keys)
    && (forall i, j :: 0 <= i < j < |order| ==> order[i] != order[j])
  }

  /** One turn of the sentinel loop: append `key`'s sentinel when `key` is present. */
  function AppendAnyValue(condition: map<string, seq<string>>, table: map<string, string>, key: string)
    : map<string, seq<string>>
    requires key in table
  {
    if key in condition then condition[key := condition[key] + [table[key]]] else condition
  }

  /** The sentinel loop run over `keys`, in that order. */
  function AppendEach(condition: map<string, seq<string>>, table: map<string, string>, keys: seq<string>)
    : map<string, seq<string>>
    requires forall i :: 0 <= i < |keys| ==> keys[i] in table
  {
    if keys == [] then condition
    else AppendEach(AppendAnyValue(condition, table, keys[0]), table, keys[1..])
  }

  /**
   * Run over distinct keys, the loop appends to each present key exactly one
   * sentinel when the key is among them, whatever their order.
   */
  lemma {:induction false} AppendEachAppendsOnce(condition: map<string, seq<string>>, table: map<string, string>, keys: seq<string>)
    requires forall i :: 0 <= i < |keys| ==> keys[i] in table
    requires forall i, j :: 0 <= i < j < |keys| ==> keys[i] != keys[j]
    ensures AppendEach(condition, table, keys)
      == map k | k in condition :: if k in keys then condition[k] + [table[k]] else condition[k]
  {
    if keys != [] {
      var next := AppendAnyValue(condition, table, keys[0]);
      AppendEachAppendsOnce(next, table, keys[1..]);
      assert keys[0] !in keys[1..];
      forall k | k in condition
        ensures k in keys <==> k == keys[0] || k in keys[1..]
      {
        assert keys == [keys[0]] + keys[1..];
      }
    }
  }

  /**
   * The sentinel loop of `GetByCondition`. It visits the keys of the sentinel
   * table in `order`, any enumeration of them, and the result is the same for
   * every order.
   */
  method AppendAnyValues(condition: map<string, seq<string>>, table: map<string, string>, order: seq<string>)
    returns (rewritten: map<string, seq<string>>)
    requires Enumerates(order, table.Keys)
    ensures rewritten == WithAnyValues(condition, table)
  {
    rewritten := condition;
    for i := 0 to |order|
      invariant AppendEach(rewritten, table, order[i..]) == AppendEach(condition, table, order)
    {
      var key := order[i];
      var anyValue := table[key];
      assert order[i..][1..] == order[i + 1..];
      if key in rewritten {
        rewritten := rewritten[key := rewritten[key] + [anyValue]];
      }
    }
    assert order[|order|..] == [];
    AppendEachAppendsOnce(condition, table, order);
  }

  /**
   * The map handed over keeps `offset`; `limit` is kept when present and is
   * `["5"]` otherwise; each present dimension gets exactly one sentinel at
   * its end; absent dimensions stay absent; every other key is unchanged.
   */
  lemma PreparedShape(condition: map<string, seq<string>>)
    requires "offset" in condition
    ensures var r := Prepared(condition);
      && r.Keys == condition.Keys + {"limit"}
      && r["offset"] == condition["offset"]
      && r["limit"] == (if "limit" in condition then condition["limit"] else ["5"])
      && (forall k :: k in AnyValue ==> (k in r <==> k in condition))
      && (forall k :: k in AnyValue && k in condition ==> r[k] == condition[k] + [AnyValue[k]])
      && (forall k :: k in condition && k !in AnyValue ==> r[k] == condition[k])
  {
  }

  /**
   * When `offset`, a provided `limit` and a provided `age` are non-empty, the
   * map handed over is one the data-access query accepts: every dimension
   * present has at least its sentinel, so no `IN ()` list is empty.
   */
  lemma PreparedIsQueryable(condition: map<string, seq<string>>)
    requires "offset" in condition && |condition["offset"]| > 0
    requires "limit" in condition ==> |condition["limit"]| > 0
    requires "age" in condition ==> |condition["age"]| > 0
    ensures Repository.Queryable(Prepared(condition))
  {
  }

  /** The dimension case of usecase/ad_test.go. */
  lemma PreparedDimensionsExample()
    ensures var r := Prepared(map["offset" := ["0"], "gender" := ["M"], "country" := ["TW"], "platform" := ["web"]]);
      && r.Keys == {"offset", "limit", "gender", "country", "platform"}
      && r["offset"] == ["0"] && r["limit"] == ["5"]
      && r["gender"] == ["M", "A"] && r["country"] == ["TW", "AY"] && r["platform"] == ["web", "any"]
  {
    PreparedShape(map["offset" := ["0"], "gender" := ["M"], "country" := ["TW"], "platform" := ["web"]]);
  }

  /**
   * Every end time converted to UTC, or an error as soon as one does not
   * parse.
   */
  function EndAtsToUtc(ads: seq<Ad>, toUtc: string -> Option<string>): (r: Result<seq<Ad>>)
    ensures r.Ok? <==> forall i :: 0 <= i < |ads| ==> toUtc(ads[i].endAt).Some?
    ensures r.Err? ==> r.error == TimeParseError
    ensures r.Ok? ==> |r.value| == |ads|
    ensures r.Ok? ==>
      forall i :: 0 <= i < |ads| ==> r.value[i] == ads[i].(endAt := toUtc(ads[i].endAt).value)
  {
    if ads == [] then Ok([])
    else match toUtc(ads[0].endAt)
      case None => Err(TimeParseError)
      case Some(t) =>
        match EndAtsToUtc(ads[1..], toUtc)
        case Err(e) => Err(e)
        case Ok(rest) => Ok([ads[0].(endAt := t)] + rest)
  }

  /** The end-time loop of `GetByCondition`: rewrite each row's end time in place. */
  method ConvertEndAts(ads: seq<Ad>, toUtc: string -> Option<string>) returns (result: Result<seq<Ad>>)
    ensures result == EndAtsToUtc(ads, toUtc)
  {
    var rows := ads;
    for i := 0 to |rows|
      invariant |rows| == |ads|
      invariant forall j :: 0 <= j < i ==> toUtc(ads[j].endAt).Some?
      invariant forall j :: 0 <= j < |ads| ==>
        rows[j] == if j < i then ads[j].(endAt := toUtc(ads[j].endAt).value) else ads[j]
    {
      var endAt := toUtc(rows[i].endAt);
      if endAt.None? {
        assert rows[i] == ads[i];
        return Err(TimeParseError);
      }
      rows := rows[i := rows[i].(endAt := endAt.value)];
    }
    assert rows == EndAtsToUtc(ads, toUtc).value;
    result := Ok(rows);
  }

  /**
   * `GetByCondition`. Without `offset` it fails and hands nothing over.
   * Otherwise the map is rewritten (the caller's map is the rewritten one
   * afterwards), handed to the data-access layer, and the rows it returns
   * have their end times converted; any error ends the call with no rows.
   */
  method GetByCondition(
    condition: map<string, seq<string>>,
    order: seq<string>,
    repo: map<string, seq<string>> -> Result<seq<Ad>>,
    toUtc: string -> Option<string>)
    returns (rewritten: map<string, seq<string>>, repoCall: Option<map<string, seq<string>>>, result: Result<seq<Ad>>)
    requires Enumerates(order, AnyValue.Keys)
    ensures "offset" !in condition ==>
      rewritten == condition && repoCall == None && result == Err(ValidationError(NoOffsetMessage))
    ensures "offset" in condition ==>
      && rewritten == Prepared(condition)
      && repoCall == Some(rewritten)
      && result == match repo(rewritten)
                   case Err(e) => Err(e)
                   case Ok(ads) => EndAtsToUtc(ads, toUtc)
  {
    rewritten := condition;
    repoCall := None;
    if "offset" !in rewritten {
      return rewritten, None, Err(ValidationError(NoOffsetMessage));
    }

    if "limit" !in rewritten {
      rewritten := rewritten["limit" := [DefaultLimit]];
    }

    rewritten := AppendAnyValues(rewritten, AnyValue, order);

    repoCall := Some(rewritten);
    var fetched := repo(rewritten);
    match fetched
    case Err(e) =>
      result := Err(e);
    case Ok(ads) =>
      result := ConvertEndAts(ads, toUtc);
  }
}
