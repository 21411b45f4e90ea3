/**
 * Readings in the ORM-based data layer (db/db_calls): a table of
 * `models.Co2Data` rows, with the time-window query, the latest-reading
 * query and the batch insert. `now` is a parameter; `failure` is the error
 * the ORM would report for a broken connection (None when it answers).
 */
module Co2Calls {
  import opened Basics

  /** A reading as the ORM stores it: gorm.Model's id and timestamps (0 is the zero time), then CO2, temperature and location. */
  datatype GormCo2Data = GormCo2Data(id: int, createdAt: int, updatedAt: int, co2: int, temp: real, locationId: int)

  const EmptyBatchMessage := "Empty list of co2 data to insert"
  /** The message of the ORM's own ErrRecordNotFound. */
  const RecordNotFoundMessage := "record not found"

  predicate IsRecent(d: GormCo2Data, locationId: int, since: int) {
    d.locationId == locationId && d.createdAt > since
  }

  /** `WHERE location_id = ? AND created_at > ?`, in table order (the query has no ORDER BY). */
  function Recent(rows: seq<GormCo2Data>, locationId: int, since: int): (r: seq<GormCo2Data>)
    ensures forall x :: x in r <==> x in rows && IsRecent(x, locationId, since)
    ensures |r| <= |rows|
  {
    if rows == [] then []
    else
      var last := rows[|rows| - 1];
      Recent(rows[..|rows| - 1], locationId, since) + (if IsRecent(last, locationId, since) then [last] else [])
  }

  /** What the insert writes back into one element: its new id, and the current time for a zero timestamp. */
  function Filled(d: GormCo2Data, id: int, now: int): (r: GormCo2Data)
    ensures r.id == id && r.co2 == d.co2 && r.temp == d.temp && r.locationId == d.locationId
    ensures r.createdAt == (if d.createdAt == 0 then now else d.createdAt)
    ensures r.updatedAt == (if d.updatedAt == 0 then now else d.updatedAt)
  {
    d.(id := id,
       createdAt := if d.createdAt == 0 then now else d.createdAt,
       updatedAt := if d.updatedAt == 0 then now else d.updatedAt)
  }

  class Co2Table {
    var rows: seq<GormCo2Data>
    var nextId: int
    var failure: Option<string>

    constructor (failure: Option<string>)
      ensures rows == [] && nextId == 1 && this.failure == failure
    {
      rows := [];
      nextId := 1;
      this.failure := failure;
    }

    /** The location's rows strictly newer than `now - hours` (a duration in minutes), in table order. */
    method GetCo2DataByTimeFrame(locationId: int, hours: int, now: int)
      returns (co2Data: seq<GormCo2Data>, err: Option<string>)
      ensures err == failure
      ensures failure.Some? ==> co2Data == []
      ensures failure.None? ==> co2Data == Recent(rows, locationId, now - hours)
    {
      if failure.Some? {
        return [], failure;
      }
      var since := now - hours;
      co2Data := [];
      var i := 0;
      while i < |rows|
        invariant 0 <= i <= |rows|
        invariant co2Data == Recent(rows[..i], locationId, since)
      {
        assert rows[..i + 1][..i] == rows[..i];
        if rows[i].locationId == locationId && rows[i].createdAt > since {
          co2Data := co2Data + [rows[i]];
        }
        i := i + 1;
      }
      assert rows[..i] == rows;
      return co2Data, None;
    }

    /** `ORDER BY created_at desc ... First`: a newest row of the location (the first such in table order); the ORM's not-found error when it has none. */
    method GetLatestCo2Data(locationId: int) returns (res: Result<GormCo2Data, string>)
      ensures failure.Some? ==> res == Failure(failure.value)
      ensures failure.None? && (forall x :: x in rows ==> x.locationId != locationId) ==>
        res == Failure(RecordNotFoundMessage)
      ensures failure.None? && (exists x :: x in rows && x.locationId == locationId) ==> res.Success?
      ensures res.Success? ==>
        exists k :: 0 <= k < |rows| && rows[k] == res.value && rows[k].locationId == locationId
          && (forall j :: 0 <= j < |rows| && rows[j].locationId == locationId ==> rows[j].createdAt <= rows[k].createdAt)
          && (forall j :: 0 <= j < k && rows[j].locationId == locationId ==> rows[j].createdAt < rows[k].createdAt)
    {
      if failure.Some? {
        return Failure(failure.value);
      }
      var best := -1;
      var i := 0;
      while i < |rows|
        invariant 0 <= i <= |rows|
        invariant -1 <= best < i
        invariant best == -1 <==> forall j :: 0 <= j < i ==> rows[j].locationId != locationId
        invariant best >= 0 ==> rows[best].locationId == locationId
        invariant best >= 0 ==> forall j :: 0 <= j < i && rows[j].locationId == locationId ==> rows[j].createdAt <= rows[best].createdAt
        invariant best >= 0 ==> forall j :: 0 <= j < best && rows[j].locationId == locationId ==> rows[j].createdAt < rows[best].createdAt
      {
        if rows[i].locationId == locationId && (best == -1 || rows[i].createdAt > rows[best].createdAt) {
          best := i;
        }
        i := i + 1;
      }
      if best == -1 {
        return Failure(RecordNotFoundMessage);
      }
      return Success(rows[best]);
    }

    /**
     * CreateCo2Data: an empty batch is refused with a message and returned as
     * is; otherwise every element gets an id (and the current time for zero
     * timestamps) written back into the batch, and the whole batch is stored.
     */
    method CreateCo2Data(co2Data: array<GormCo2Data>, now: int)
      returns (out: array<GormCo2Data>, err: Option<string>)
      modifies this, co2Data
      ensures out == co2Data
      ensures failure == old(failure)
      ensures co2Data.Length == 0 ==>
        err == Some(EmptyBatchMessage) && rows == old(rows) && nextId == old(nextId)
      ensures co2Data.Length > 0 && old(failure).Some? ==>
        err == old(failure) && rows == old(rows) && nextId == old(nextId) && co2Data[..] == old(co2Data[..])
      ensures co2Data.Length > 0 && old(failure).None? ==>
        && err == None
        && (forall i :: 0 <= i < co2Data.Length ==> co2Data[i] == Filled(old(co2Data[i]), old(nextId) + i, now))
        && rows == old(rows) + co2Data[..]
        && nextId == old(nextId) + co2Data.Length
    {
      out := co2Data;
      if co2Data.Length == 0 {
        return out, Some(EmptyBatchMessage);
      }
      if failure.Some? {
        return out, failure;
      }
      var i := 0;
      while i < co2Data.Length
        invariant 0 <= i <= co2Data.Length
        invariant failure == old(failure)
        invariant nextId == old(nextId) + i
        invariant rows == old(rows) + co2Data[..i]
        invariant forall k :: 0 <= k < i ==> co2Data[k] == Filled(old(co2Data[k]), old(nextId) + k, now)
        invariant forall k :: i <= k < co2Data.Length ==> co2Data[k] == old(co2Data[k])
      {
        co2Data[i] := Filled(co2Data[i], nextId, now);
        rows := rows + [co2Data[i]];
        assert co2Data[..i + 1] == co2Data[..i] + [co2Data[i]];
        nextId := nextId + 1;
        i := i + 1;
      }
      assert co2Data[..i] == co2Data[..];
      return out, None;
    }
  }

  /** Creating n readings grows the table by exactly n and hands back n records; an empty batch is an error and changes nothing. */
  method CreateGrowsTableByBatchSize(table: Co2Table, batch: array<GormCo2Data>, now: int)
    returns (created: int, err: Option<string>)
    requires table.failure.None?
    modifies table, batch
    ensures batch.Length == 0 ==> err == Some(EmptyBatchMessage) && created == 0 && |table.rows| == |old(table.rows)|
    ensures batch.Length > 0 ==> err.None? && created == batch.Length && |table.rows| == |old(table.rows)| + batch.Length
  {
    var out;
    out, err := table.CreateCo2Data(batch, now);
    created := out.Length;
  }
}
