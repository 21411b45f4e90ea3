/**
 * Locations in the raw-SQL data layer: the name check and the `locations`
 * table with insert, list, get, update and delete. `now` is a parameter;
 * `failure` is the error a broken connection would report.
 */
module LocationStore {
  import opened Basics
  import opened DataErrors
  import opened Validation
  import opened Tables

  datatype Location = Location(id: int, createdAt: int, updatedAt: int, name: string)

  /** The keys ValidateLocationData records: "name" unless the name is longer than 3 and at most 500 bytes. */
  function LocationErrorKeys(location: Location): (keys: set<string>)
    ensures keys == {} <==> 3 < |location.name| <= 500
    ensures keys <= {"name"}
  {
    (if location.name != "" then {} else {"name"})
    + (if |location.name| > 3 then {} else {"name"})
    + (if |location.name| <= 500 then {} else {"name"})
  }

  function Name(length: nat): (name: string)
    ensures |name| == length
  {
    seq(length, _ => 'a')
  }

  /** A 3-byte name fails (the test is strict), 4 and 500 bytes pass, 501 fails. */
  lemma LocationNameBoundaries()
    ensures LocationErrorKeys(Location(0, 0, 0, Name(3))) == {"name"}
    ensures LocationErrorKeys(Location(0, 0, 0, Name(4))) == {}
    ensures LocationErrorKeys(Location(0, 0, 0, Name(500))) == {}
    ensures LocationErrorKeys(Location(0, 0, 0, Name(501))) == {"name"}
  {
  }

  method ValidateLocationData(v: Validator, location: Location)
    modifies v
    ensures forall k :: k in v.errors <==> k in old(v.errors) || k in LocationErrorKeys(location)
  {
    v.Check(location.name != "", "name", "must be provided");
    v.Check(|location.name| > 3, "name", "must be longer than 3 bytes");
    v.Check(|location.name| <= 500, "name", "must not be more than 500 bytes long");
  }

  function LocationId(location: Location): int {
    location.id
  }

  /** `UPDATE ... SET name = $2, updated_at = CURRENT_TIMESTAMP WHERE id = $1`. */
  function Renamed(rows: seq<Location>, id: int, name: string, now: int): (r: seq<Location>)
    ensures |r| == |rows|
    ensures forall k :: 0 <= k < |rows| ==>
      r[k] == if rows[k].id == id then rows[k].(name := name, updatedAt := now) else rows[k]
  {
    seq(|rows|, k requires 0 <= k < |rows| =>
      if rows[k].id == id then rows[k].(name := name, updatedAt := now) else rows[k])
  }

  class LocationModel {
    var rows: seq<Location>
    var nextId: int
    var failure: Option<string>

    /** Ids are assigned in increasing order, so table order is id order. */
    ghost predicate Valid()
      reads this
    {
      KeysAscending(rows, LocationId) && KeysBelow(rows, LocationId, nextId)
    }

    constructor (failure: Option<string>)
      ensures Valid() && rows == [] && nextId == 1 && this.failure == failure
    {
      rows := [];
      nextId := 1;
      this.failure := failure;
    }

    /** INSERT ... RETURNING id, created_at, updated_at. */
    method Insert(location: Location, now: int) returns (res: Result<Location, Error>)
      requires Valid()
      modifies this
      ensures Valid() && failure == old(failure)
      ensures old(failure).Some? ==>
        res == Failure(Sql(Pq(old(failure).value))) && rows == old(rows) && nextId == old(nextId)
      ensures old(failure).None? ==>
        && res == Success(location.(id := old(nextId), createdAt := now, updatedAt := now))
        && rows == old(rows) + [res.value]
        && nextId == old(nextId) + 1
    {
      if failure.Some? {
        return Failure(Sql(Pq(failure.value)));
      }
      var stored := location.(id := nextId, createdAt := now, updatedAt := now);
      rows := rows + [stored];
      nextId := nextId + 1;
      return Success(stored);
    }

    /** Every location, in ascending id order. */
    method GetAll() returns (res: Result<seq<Location>, Error>)
      requires Valid()
      ensures failure.Some? ==> res == Failure(Sql(Pq(failure.value)))
      ensures failure.None? ==> res == Success(rows)
      ensures res.Success? ==> KeysAscending(res.value, LocationId)
    {
      if failure.Some? {
        return Failure(Sql(Pq(failure.value)));
      }
      var locations: seq<Location> := [];
      var i := 0;
      while i < |rows|
        invariant 0 <= i <= |rows|
        invariant locations == rows[..i]
      {
        locations := locations + [rows[i]];
        i := i + 1;
      }
      assert rows[..i] == rows;
      return Success(locations);
    }

    /** The row with this id; ErrRecordNotFound when there is none. */
    method Get(id: int) returns (res: Result<Location, Error>)
      ensures failure.Some? ==> res == Failure(Sql(Pq(failure.value)))
      ensures failure.None? && !HasKey(rows, LocationId, id) ==> res == Failure(RecordNotFound)
      ensures failure.None? && HasKey(rows, LocationId, id) ==> res.Success?
      ensures res.Success? ==> res.value in rows && res.value.id == id
    {
      if failure.Some? {
        return Failure(Sql(Pq(failure.value)));
      }
      var i := 0;
      while i < |rows|
        invariant 0 <= i <= |rows|
        invariant forall k :: 0 <= k < i ==> rows[k].id != id
      {
        if rows[i].id == id {
          return Success(rows[i]);
        }
        i := i + 1;
      }
      return Failure(NoRowsToNotFound(NoRows));
    }

    /**
     * Writes the new name and the current time into the row with the
     * record's id, and hands back the record with the new updated_at. No such
     * row is the driver's no-rows error, returned unmapped.
     */
    method Update(location: Location, now: int) returns (res: Result<Location, Error>)
      requires Valid()
      modifies this
      ensures Valid() && failure == old(failure) && nextId == old(nextId)
      ensures old(failure).Some? ==> res == Failure(Sql(Pq(old(failure).value))) && rows == old(rows)
      ensures old(failure).None? && !HasKey(old(rows), LocationId, location.id) ==> res == Failure(Sql(NoRows)) && rows == old(rows)
      ensures old(failure).None? && HasKey(old(rows), LocationId, location.id) ==>
        res == Success(location.(updatedAt := now)) && rows == Renamed(old(rows), location.id, location.name, now)
    {
      if failure.Some? {
        return Failure(Sql(Pq(failure.value)));
      }
      if !HasKey(rows, LocationId, location.id) {
        return Failure(Sql(NoRows));
      }
      rows := Renamed(rows, location.id, location.name, now);
      return Success(location.(updatedAt := now));
    }

    /** Removes the row with this id; zero rows affected is ErrRecordNotFound. */
    method Delete(id: int) returns (err: Option<Error>)
      requires Valid()
      modifies this
      ensures Valid() && failure == old(failure) && nextId == old(nextId)
      ensures old(failure).Some? ==> err == Some(Sql(Pq(old(failure).value))) && rows == old(rows)
      ensures old(failure).None? && !HasKey(old(rows), LocationId, id) ==> err == Some(RecordNotFound) && rows == old(rows)
      ensures old(failure).None? && HasKey(old(rows), LocationId, id) ==> err == None && rows == WithoutKey(old(rows), LocationId, id)
    {
      if failure.Some? {
        return Some(Sql(Pq(failure.value)));
      }
      var remaining := WithoutKey(rows, LocationId, id);
      WithoutKeyLength(rows, LocationId, id);
      WithoutKeyAscending(rows, LocationId, id);
      var rowsAffected := |rows| - |remaining|;
      if rowsAffected == 0 {
        return Some(RecordNotFound);
      }
      rows := remaining;
      return None;
    }
  }
}
