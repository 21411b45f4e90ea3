/**
 * The location endpoints: list, create, rename and delete. The JSON body is a
 * parameter that is either the decoded input or readJSON's error message.
 */
module LocationHandlers {
  import opened Basics
  import opened DataErrors
  import opened Validation
  import opened Helpers
  import opened Responses
  import opened Tables
  import opened LocationStore

  /** listLocationsHandler: every location, in id order. */
  method ListLocationsHandler(store: LocationModel) returns (resp: Response<seq<Location>>)
    requires store.Valid()
    ensures store.failure.Some? ==> resp == ServerError(Sql(Pq(store.failure.value)))
    ensures store.failure.None? ==> resp == Json(StatusOK, store.rows)
    ensures resp.Json? ==> KeysAscending(resp.body, LocationId)
  {
    var locations := store.GetAll();
    if locations.Failure? {
      return ServerError(locations.error);
    }
    return Json(StatusOK, locations.value);
  }

  /** createLocationHandler: a location named as in the body, answered with 201 and the stored record. */
  method CreateLocationHandler(store: LocationModel, body: Result<string, string>, now: int)
    returns (resp: Response<Location>)
    requires store.Valid()
    modifies store
    ensures store.Valid() && store.failure == old(store.failure)
    ensures !resp.Json? ==> store.rows == old(store.rows)
    ensures body.Failure? ==> resp == BadRequest(body.error)
    ensures body.Success? && LocationErrorKeys(Location(0, 0, 0, body.value)) != {} ==>
      resp.FailedValidation? && resp.errors.Keys == {"name"}
    ensures body.Success? && LocationErrorKeys(Location(0, 0, 0, body.value)) == {} ==>
      && (old(store.failure).Some? ==> resp == ServerError(Sql(Pq(old(store.failure).value))))
      && (old(store.failure).None? ==>
            var stored := Location(old(store.nextId), now, now, body.value);
            resp == Json(StatusCreated, stored) && store.rows == old(store.rows) + [stored])
  {
    if body.Failure? {
      return BadRequest(body.error);
    }
    var location := Location(0, 0, 0, body.value);

    var v := new Validator();
    ValidateLocationData(v, location);
    if !v.Valid() {
      return FailedValidation(v.errors);
    }
    assert "name" !in v.errors;

    var inserted := store.Insert(location, now);
    if inserted.Failure? {
      return ServerError(inserted.error);
    }
    return Json(StatusCreated, inserted.value);
  }

  /**
   * updateLocationHandler: the body's name, when it has one, replaces the
   * stored name; the answer is 201 with the updated record.
   */
  method UpdateLocationHandler(store: LocationModel, idParam: string, body: Result<Option<string>, string>, now: int)
    returns (resp: Response<Location>)
    requires store.Valid()
    modifies store
    ensures store.Valid() && store.failure == old(store.failure) && store.nextId == old(store.nextId)
    ensures !resp.Json? ==> store.rows == old(store.rows)
    ensures ReadIdParam(idParam).Failure? ==> resp == NotFound
    ensures ReadIdParam(idParam).Success? ==>
      var id := ReadIdParam(idParam).value;
      && (old(store.failure).Some? ==> resp == ServerError(Sql(Pq(old(store.failure).value))))
      && (old(store.failure).None? && !HasKey(old(store.rows), LocationId, id) ==> resp == NotFound)
      && (old(store.failure).None? && HasKey(old(store.rows), LocationId, id) && body.Failure? ==>
            resp == BadRequest(body.error))
    ensures ReadIdParam(idParam).Success? && old(store.failure).None? && body.Success? &&
            HasKey(old(store.rows), LocationId, ReadIdParam(idParam).value) ==>
      exists stored :: stored in old(store.rows) && stored.id == ReadIdParam(idParam).value &&
        var name := if body.value.Some? then body.value.value else stored.name;
        && (LocationErrorKeys(stored.(name := name)) != {} ==>
              resp.FailedValidation? && resp.errors.Keys == {"name"})
        && (LocationErrorKeys(stored.(name := name)) == {} ==>
              && resp == Json(StatusCreated, stored.(name := name, updatedAt := now))
              && store.rows == Renamed(old(store.rows), stored.id, name, now))
  {
    var idResult := ReadIdParam(idParam);
    if idResult.Failure? {
      return NotFound;
    }
    var id := idResult.value;

    var got := store.Get(id);
    if got.Failure? {
      if got.error == RecordNotFound {
        return NotFound;
      }
      return ServerError(got.error);
    }
    var location := got.value;

    if body.Failure? {
      return BadRequest(body.error);
    }
    if body.value.Some? {
      location := location.(name := body.value.value);
    }

    var v := new Validator();
    ValidateLocationData(v, location);
    if !v.Valid() {
      return FailedValidation(v.errors);
    }
    assert "name" !in v.errors;

    var updated := store.Update(location, now);
    match updated
    case Failure(err) =>
      return ServerError(err);
    case Success(saved) =>
      return Json(StatusCreated, saved);
  }

  /** deleteLocationHandler: a malformed id or a missing row is 404, success is 204 with no body. */
  method DeleteLocationHandler(store: LocationModel, idParam: string) returns (resp: Response<()>)
    requires store.Valid()
    modifies store
    ensures store.Valid() && store.failure == old(store.failure) && store.nextId == old(store.nextId)
    ensures !resp.Json? ==> store.rows == old(store.rows)
    ensures ReadIdParam(idParam).Failure? ==> resp == NotFound
    ensures ReadIdParam(idParam).Success? ==>
      var id := ReadIdParam(idParam).value;
      && (old(store.failure).Some? ==> resp == ServerError(Sql(Pq(old(store.failure).value))))
      && (old(store.failure).None? && !HasKey(old(store.rows), LocationId, id) ==> resp == NotFound)
      && (old(store.failure).None? && HasKey(old(store.rows), LocationId, id) ==>
            resp == Json(StatusNoContent, ()) && store.rows == WithoutKey(old(store.rows), LocationId, id))
  {
    var idResult := ReadIdParam(idParam);
    if idResult.Failure? {
      return NotFound;
    }
    var err := store.Delete(idResult.value);
    if err.Some? {
      if err.value == RecordNotFound {
        return NotFound;
      }
      return ServerError(err.value);
    }
    return Json(StatusNoContent, ());
  }
}
