/**
 * Readings in the raw-SQL data layer: the record check, and the `co2_data`
 * table with its insert, time-window query and latest-reading query. The
 * database is a sequence of rows; `now` is a parameter; `failure` is the
 * error a connection or statement failure would report (None when the
 * database answers).
 */
module Co2Store {
  import opened Basics
  import opened DataErrors
  import opened Validation

  /** One reading; timestamps are integers on a common clock, temperature is compared only. */
  datatype Co2Data = Co2Data(id: int, createdAt: int, locationId: int, co2: int, temp: real, humidity: int)

  /** The keys ValidateCo2Data records, one per failed check. */
  function Co2ErrorKeys(d: Co2Data): (keys: set<string>)
    ensures "location_id" in keys <==> d.locationId <= 0
    ensures "co2" in keys <==> !(0 <= d.co2 < 5000)
    ensures "temp" in keys <==> !(-100.0 <= d.temp <= 100.0)
    ensures "humidity" in keys <==> !(0 <= d.humidity <= 100)
    ensures keys <= {"location_id", "co2", "temp", "humidity"}
  {
    (if d.locationId > 0 then {} else {"location_id"})
    + (if d.co2 >= 0 then {} else {"co2"})
    + (if d.co2 < 5000 then {} else {"co2"})
    + (if d.temp >= -100.0 then {} else {"temp"})
    + (if d.temp <= 100.0 then {} else {"temp"})
    + (if d.humidity >= 0 then {} else {"humidity"})
    + (if d.humidity <= 100 then {} else {"humidity"})
  }

  /** A reading passes validation exactly when every field is in its range. */
  lemma Co2DataValidIff(d: Co2Data)
    ensures Co2ErrorKeys(d) == {} <==>
      d.locationId > 0 && 0 <= d.co2 < 5000 && -100.0 <= d.temp <= 100.0 && 0 <= d.humidity <= 100
  {
    if Co2ErrorKeys(d) == {} {
      assert "co2" !in Co2ErrorKeys(d);
    }
  }

  /** The range ends: 5000 ppm is rejected; ±100 °C and 0 or 100 % are accepted. */
  lemma Co2DataBoundaries()
    ensures Co2ErrorKeys(Co2Data(0, 0, 1, 5000, 0.0, 50)) == {"co2"}
    ensures Co2ErrorKeys(Co2Data(0, 0, 1, 4999, 100.0, 100)) == {}
    ensures Co2ErrorKeys(Co2Data(0, 0, 1, 0, -100.0, 0)) == {}
  {
  }

  method ValidateCo2Data(v: Validator, co2Data: Co2Data)
    modifies v
    ensures forall k :: k in v.errors <==> k in old(v.errors) || k in Co2ErrorKeys(co2Data)
  {
    v.Check(co2Data.locationId > 0, "location_id", "must greater than zero");

    v.Check(co2Data.co2 >= 0, "co2", "must be greater than or equal to zero ppm");
    v.Check(co2Data.co2 < 5000, "co2", "must be less than 5000 ppm");

    v.Check(co2Data.temp >= -100.0, "temp", "must be greater than or equal to -100 degrees Celsius");
    v.Check(co2Data.temp <= 100.0, "temp", "must be less than or equal to 100 degrees Celsius");

    v.Check(co2Data.humidity >= 0, "humidity", "must be greater than or equal to zero percent");
    v.Check(co2Data.humidity <= 100, "humidity", "must be less than or equal to 100 percent");
  }

  predicate InWindow(d: Co2Data, locationId: int, since: int) {
    d.locationId == locationId && d.createdAt >= since
  }

  /** The rows the WHERE clause of GetByTimeFrame selects, in table order. */
  function Window(rows: seq<Co2Data>, locationId: int, since: int): (w: seq<Co2Data>)
    ensures forall x :: x in w <==> x in rows && InWindow(x, locationId, since)
  {
    if rows == [] then []
    else
      var last := rows[|rows| - 1];
      Window(rows[..|rows| - 1], locationId, since) + (if InWindow(last, locationId, since) then [last] else [])
  }

  /** Newest first: `ORDER BY created_at DESC`. */
  predicate SortedDesc(s: seq<Co2Data>) {
    forall i, j :: 0 <= i < j < |s| ==> s[i].createdAt >= s[j].createdAt
  }

  /** Places a row in front of the first row that is not newer. */
  function InsertDesc(s: seq<Co2Data>, x: Co2Data): (r: seq<Co2Data>)
    ensures multiset(r) == multiset(s) + multiset{x}
    ensures SortedDesc(s) ==> SortedDesc(r)
    ensures |r| == |s| + 1
    ensures r[0] == x || (s != [] && r[0] == s[0])
  {
    if s == [] || x.createdAt >= s[0].createdAt then [x] + s
    else
      assert s == [s[0]] + s[1..];
      [s[0]] + InsertDesc(s[1..], x)
  }

  lemma WindowStep(rows: seq<Co2Data>, i: int, locationId: int, since: int)
    requires 0 <= i < |rows|
    ensures multiset(Window(rows[..i + 1], locationId, since)) ==
      multiset(Window(rows[..i], locationId, since)) + (if InWindow(rows[i], locationId, since) then multiset{rows[i]} else multiset{})
  {
    assert rows[..i + 1][..i] == rows[..i];
  }

  lemma SameMembers<T>(a: seq<T>, b: seq<T>)
    requires multiset(a) == multiset(b)
    ensures forall x :: x in a <==> x in b
  {
    forall x
      ensures x in a <==> x in b
    {
      assert x in a <==> x in multiset(a);
      assert x in b <==> x in multiset(b);
    }
  }

  class Co2Model {
    var rows: seq<Co2Data>
    var nextId: int
    var failure: Option<string>

    constructor (failure: Option<string>)
      ensures rows == [] && nextId == 1 && this.failure == failure
    {
      rows := [];
      nextId := 1;
      this.failure := failure;
    }

    /** INSERT ... RETURNING id, created_at: the stored record, with the two fields the database fills in. */
    method Insert(co2Data: Co2Data, now: int) returns (res: Result<Co2Data, Error>)
      modifies this
      ensures failure == old(failure)
      ensures old(failure).Some? ==>
        res == Failure(Sql(Pq(old(failure).value))) && rows == old(rows) && nextId == old(nextId)
      ensures old(failure).None? ==>
        && res == Success(co2Data.(id := old(nextId), createdAt := now))
        && rows == old(rows) + [res.value]
        && nextId == old(nextId) + 1
    {
      if failure.Some? {
        return Failure(Sql(Pq(failure.value)));
      }
      var stored := co2Data.(id := nextId, createdAt := now);
      rows := rows + [stored];
      nextId := nextId + 1;
      return Success(stored);
    }

    /** The location's rows created at or after `now - timeFrame`, newest first; none is an empty result, not an error. */
    method GetByTimeFrame(id: int, timeFrame: int, now: int) returns (res: Result<seq<Co2Data>, Error>)
      ensures failure.Some? ==> res == Failure(Sql(Pq(failure.value)))
      ensures failure.None? ==> res.Success?
      ensures res.Success? ==>
        && SortedDesc(res.value)
        && multiset(res.value) == multiset(Window(rows, id, now - timeFrame))
        && forall x :: x in res.value <==> x in rows && x.locationId == id && x.createdAt >= now - timeFrame
    {
      if failure.Some? {
        return Failure(Sql(Pq(failure.value)));
      }
      var since := now - timeFrame;
      var co2Data: seq<Co2Data> := [];
      var i := 0;
      while i < |rows|
        invariant 0 <= i <= |rows|
        invariant SortedDesc(co2Data)
        invariant multiset(co2Data) == multiset(Window(rows[..i], id, since))
      {
        WindowStep(rows, i, id, since);
        var cd := rows[i];
        if cd.locationId == id && cd.createdAt >= since {
          co2Data := InsertDesc(co2Data, cd);
        }
        i := i + 1;
      }
      assert rows[..i] == rows;
      SameMembers(co2Data, Window(rows, id, since));
      return Success(co2Data);
    }

    /** The location's newest row; ErrRecordNotFound when it has none. */
    method GetLatest(id: int) returns (res: Result<Co2Data, Error>)
      ensures failure.Some? ==> res == Failure(Sql(Pq(failure.value)))
      ensures failure.None? && (forall x :: x in rows ==> x.locationId != id) ==> res == Failure(RecordNotFound)
      ensures failure.None? && (exists x :: x in rows && x.locationId == id) ==> res.Success?
      ensures res.Success? ==>
        && res.value in rows && res.value.locationId == id
        && forall x :: x in rows && x.locationId == id ==> x.createdAt <= res.value.createdAt
    {
      if failure.Some? {
        return Failure(Sql(Pq(failure.value)));
      }
      var latest: Option<Co2Data> := None;
      var i := 0;
      while i < |rows|
        invariant 0 <= i <= |rows|
        invariant latest.None? <==> forall k :: 0 <= k < i ==> rows[k].locationId != id
        invariant latest.Some? ==> latest.value in rows[..i] && latest.value.locationId == id
        invariant latest.Some? ==> forall k :: 0 <= k < i && rows[k].locationId == id ==> rows[k].createdAt <= latest.value.createdAt
      {
        if rows[i].locationId == id && (latest.None? || rows[i].createdAt > latest.value.createdAt) {
          latest := Some(rows[i]);
        }
        i := i + 1;
      }
      if latest.None? {
        return Failure(NoRowsToNotFound(NoRows));
      }
      return Success(latest.value);
    }
  }
}
