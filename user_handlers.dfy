/**
 * The user endpoints: look a user up by name or id, create one, patch one,
 * delete one. The JSON body is a parameter that is either the decoded input
 * or readJSON's error message; GetByID belongs to a part of the data layer
 * that is not part of this model and is the parameter `getById`.
 */
module UserHandlers {
  import opened Basics
  import opened DataErrors
  import opened Validation
  import opened Helpers
  import opened Responses
  import opened Tables
  import opened UserStore

  const MissingLookupMessage := "name or id parameter is missing"
  const AmbiguousLookupMessage := "only one of name or id parameter is allowed"
  const NameExistsMessage := "a user with this name already exists"

  /** The lookup the `name` and `id` query parameters ask for. */
  datatype Lookup = Missing | Ambiguous | ByName(name: string) | ById(id: int)

  /**
   * An id of 0 and an id that is not an integer both count as no id: readInt
   * falls back to 0 and its validation error is never looked at.
   */
  function RequestedLookup(qs: Query): (r: Lookup)
    ensures r == Missing <==> QueryGet(qs, "name") == "" && IntParam(qs, "id", 0) == 0
    ensures r == Ambiguous <==> QueryGet(qs, "name") != "" && IntParam(qs, "id", 0) != 0
    ensures r.ByName? <==> QueryGet(qs, "name") != "" && IntParam(qs, "id", 0) == 0
    ensures r.ByName? ==> r.name == QueryGet(qs, "name")
    ensures r.ById? ==> r.id == IntParam(qs, "id", 0) && r.id != 0
    ensures IntParamInvalid(qs, "id") ==> r == Missing || r.ByName?
  {
    var name := ReadString(qs, "name", "");
    var id := IntParam(qs, "id", 0);
    if name == "" && id == 0 then Missing
    else if name != "" && id != 0 then Ambiguous
    else if id != 0 then ById(id)
    else ByName(name)
  }

  /**
   * The lookup getUserHandler and updateUserHandler both begin with: the
   * user, or the response the handler ends with. Only readInt writes to the
   * validator, and a lookup by id leaves it as it was.
   */
  method FindUser(qs: Query, getById: int -> Result<User, Error>, v: Validator) returns (found: Result<User, Response<User>>)
    modifies v
    ensures RequestedLookup(qs) == Missing ==> found == Failure(BadRequest(MissingLookupMessage))
    ensures RequestedLookup(qs) == Ambiguous ==> found == Failure(BadRequest(AmbiguousLookupMessage))
    ensures RequestedLookup(qs).ByName? ==> found == Failure(ServerError(Sql(SyntaxError)))
    ensures RequestedLookup(qs).ById? ==>
      && v.errors == old(v.errors)
      && var byId := getById(RequestedLookup(qs).id);
      && (byId.Success? ==> found == Success(byId.value))
      && (byId == Failure(RecordNotFound) ==> found == Failure(NotFound))
      && (byId.Failure? && byId.error != RecordNotFound ==> found == Failure(ServerError(byId.error)))
  {
    var name := ReadString(qs, "name", "");
    var id := ReadInt(qs, "id", 0, v);

    if name == "" && id == 0 {
      return Failure(BadRequest(MissingLookupMessage));
    }
    if name != "" && id != 0 {
      return Failure(BadRequest(AmbiguousLookupMessage));
    }

    var user: Result<User, Error>;
    if id != 0 {
      user := getById(id);
    } else {
      user := GetByName(name);
    }

    match user
    case Success(u) =>
      return Success(u);
    case Failure(err) =>
      if err == RecordNotFound {
        return Failure(NotFound);
      }
      return Failure(ServerError(err));
  }

  /** getUserHandler. */
  method GetUserHandler(qs: Query, getById: int -> Result<User, Error>) returns (resp: Response<User>)
    ensures RequestedLookup(qs) == Missing ==> resp == BadRequest(MissingLookupMessage)
    ensures RequestedLookup(qs) == Ambiguous ==> resp == BadRequest(AmbiguousLookupMessage)
    ensures RequestedLookup(qs).ByName? ==> resp == ServerError(Sql(SyntaxError))
    ensures RequestedLookup(qs).ById? ==>
      var byId := getById(RequestedLookup(qs).id);
      && (byId.Success? ==> resp == Json(StatusOK, byId.value))
      && (byId == Failure(RecordNotFound) ==> resp == NotFound)
      && (byId.Failure? && byId.error != RecordNotFound ==> resp == ServerError(byId.error))
  {
    var v := new Validator();
    var found := FindUser(qs, getById, v);
    if found.Failure? {
      return found.error;
    }
    return Json(StatusOK, found.value);
  }

  /** The body of a create request. */
  datatype NewUser = NewUser(name: string, token: string, active: bool)

  /** createUserHandler. */
  method CreateUserHandler(store: UserModel, body: Result<NewUser, string>, now: int) returns (resp: Response<User>)
    requires store.Valid()
    modifies store
    ensures store.Valid() && store.failure == old(store.failure)
    ensures !resp.Json? ==> store.rows == old(store.rows)
    ensures body.Failure? ==> resp == BadRequest(body.error)
    ensures body.Success? && !(NameChecksPassAsWritten(body.value.name) && TokenChecksPass(body.value.token)) ==>
      && resp.FailedValidation?
      && forall k :: k in resp.errors <==>
           || (k == "name" && !NameChecksPassAsWritten(body.value.name))
           || (k == "token" && !TokenChecksPass(body.value.token))
    ensures body.Success? && NameChecksPassAsWritten(body.value.name) && TokenChecksPass(body.value.token) ==>
      && (old(store.failure).Some? ==> resp == ServerError(Sql(Pq(old(store.failure).value))))
      && (old(store.failure).None? && NameTaken(old(store.rows), body.value.name, old(store.nextId)) ==>
            resp == FailedValidation(map["name" := [NameExistsMessage]]))
      && (old(store.failure).None? && !NameTaken(old(store.rows), body.value.name, old(store.nextId)) ==>
            var stored := User(old(store.nextId), now, now, body.value.name, body.value.token, body.value.active);
            resp == Json(StatusCreated, stored) && store.rows == old(store.rows) + [stored])
  {
    if body.Failure? {
      return BadRequest(body.error);
    }
    var input := body.value;
    var user := User(0, 0, 0, input.name, input.token, input.active);

    var v := new Validator();
    ValidateUser(v, user);
    if !v.Valid() {
      return FailedValidation(v.errors);
    }
    assert "name" !in v.errors && "token" !in v.errors;

    var inserted := store.Insert(user, now);
    match inserted
    case Failure(err) =>
      if err == DuplicateName {
        v.AddError("name", NameExistsMessage);
        FirstError("name", NameExistsMessage);
        return FailedValidation(v.errors);
      }
      return ServerError(err);
    case Success(stored) =>
      return Json(StatusCreated, stored);
  }

  /** The body of a patch request: a field that is absent keeps the stored value. */
  datatype UserPatch = UserPatch(name: Option<string>, token: Option<string>, active: Option<bool>)

  /** The stored user with the fields the patch carries overwritten. */
  function Patched(user: User, patch: UserPatch): (r: User)
    ensures r.id == user.id && r.createdAt == user.createdAt && r.updatedAt == user.updatedAt
    ensures patch.name.None? ==> r.name == user.name
    ensures patch.token.None? ==> r.token == user.token
    ensures patch.active.None? ==> r.active == user.active
    ensures patch.name.Some? ==> r.name == patch.name.value
    ensures patch.token.Some? ==> r.token == patch.token.value
    ensures patch.active.Some? ==> r.active == patch.active.value
  {
    user.(name := if patch.name.Some? then patch.name.value else user.name,
          token := if patch.token.Some? then patch.token.value else user.token,
          active := if patch.active.Some? then patch.active.value else user.active)
  }

  /** An empty patch changes nothing, applying a patch twice is applying it once, and a later patch wins. */
  lemma PatchLaws(user: User, p: UserPatch, q: UserPatch)
    ensures Patched(user, UserPatch(None, None, None)) == user
    ensures Patched(Patched(user, p), p) == Patched(user, p)
    ensures Patched(Patched(user, p), q) == Patched(user, UserPatch(
      if q.name.Some? then q.name else p.name,
      if q.token.Some? then q.token else p.token,
      if q.active.Some? then q.active else p.active))
  {
  }

  /**
   * The second half of updateUserHandler: ValidateUser on the patched
   * record, then Update, with a taken name reported as a validation error.
   */
  method SaveUser(store: UserModel, v: Validator, user: User, now: int) returns (resp: Response<User>)
    requires store.Valid() && v.errors == map[]
    modifies store, v
    ensures store.Valid() && store.failure == old(store.failure) && store.nextId == old(store.nextId)
    ensures !resp.Json? ==> store.rows == old(store.rows)
    ensures !(NameChecksPassAsWritten(user.name) && TokenChecksPass(user.token)) ==>
      && resp.FailedValidation?
      && forall k :: k in resp.errors <==>
           || (k == "name" && !NameChecksPassAsWritten(user.name))
           || (k == "token" && !TokenChecksPass(user.token))
    ensures NameChecksPassAsWritten(user.name) && TokenChecksPass(user.token) ==>
      && (old(store.failure).Some? ==> resp == ServerError(Sql(Pq(old(store.failure).value))))
      && (old(store.failure).None? && !HasKey(old(store.rows), UserId, user.id) ==>
            resp == ServerError(EditConflict))
      && (old(store.failure).None? && HasKey(old(store.rows), UserId, user.id) &&
          NameTaken(old(store.rows), user.name, user.id) ==>
            resp == FailedValidation(map["name" := [NameExistsMessage]]))
      && (old(store.failure).None? && HasKey(old(store.rows), UserId, user.id) &&
          !NameTaken(old(store.rows), user.name, user.id) ==>
            resp == Json(StatusOK, user.(updatedAt := now)) &&
            store.rows == Updated(old(store.rows), user, now))
  {
    ValidateUser(v, user);
    if !v.Valid() {
      return FailedValidation(v.errors);
    }
    assert "name" !in v.errors && "token" !in v.errors;

    var updated := store.Update(user, now);
    match updated
    case Failure(err) =>
      if err == DuplicateName {
        v.AddError("name", NameExistsMessage);
        FirstError("name", NameExistsMessage);
        return FailedValidation(v.errors);
      }
      return ServerError(err);
    case Success(saved) =>
      return Json(StatusOK, saved);
  }

  /** updateUserHandler. */
  method UpdateUserHandler(store: UserModel, qs: Query, getById: int -> Result<User, Error>,
                           body: Result<UserPatch, string>, now: int) returns (resp: Response<User>)
    requires store.Valid()
    modifies store
    ensures store.Valid() && store.failure == old(store.failure) && store.nextId == old(store.nextId)
    ensures !resp.Json? ==> store.rows == old(store.rows)
    ensures RequestedLookup(qs) == Missing ==> resp == BadRequest(MissingLookupMessage)
    ensures RequestedLookup(qs) == Ambiguous ==> resp == BadRequest(AmbiguousLookupMessage)
    ensures RequestedLookup(qs).ByName? ==> resp == ServerError(Sql(SyntaxError))
    ensures RequestedLookup(qs).ById? ==>
      var byId := getById(RequestedLookup(qs).id);
      && (byId == Failure(RecordNotFound) ==> resp == NotFound)
      && (byId.Failure? && byId.error != RecordNotFound ==> resp == ServerError(byId.error))
      && (byId.Success? && body.Failure? ==> resp == BadRequest(body.error))
    ensures RequestedLookup(qs).ById? && getById(RequestedLookup(qs).id).Success? && body.Success? ==>
      var user := Patched(getById(RequestedLookup(qs).id).value, body.value);
      && (!(NameChecksPassAsWritten(user.name) && TokenChecksPass(user.token)) ==>
            && resp.FailedValidation?
            && forall k :: k in resp.errors <==>
                 || (k == "name" && !NameChecksPassAsWritten(user.name))
                 || (k == "token" && !TokenChecksPass(user.token)))
      && (NameChecksPassAsWritten(user.name) && TokenChecksPass(user.token) ==>
            && (old(store.failure).Some? ==> resp == ServerError(Sql(Pq(old(store.failure).value))))
            && (old(store.failure).None? && !HasKey(old(store.rows), UserId, user.id) ==>
                  resp == ServerError(EditConflict))
            && (old(store.failure).None? && HasKey(old(store.rows), UserId, user.id) &&
                NameTaken(old(store.rows), user.name, user.id) ==>
                  resp == FailedValidation(map["name" := [NameExistsMessage]]))
            && (old(store.failure).None? && HasKey(old(store.rows), UserId, user.id) &&
                !NameTaken(old(store.rows), user.name, user.id) ==>
                  resp == Json(StatusOK, user.(updatedAt := now)) &&
                  store.rows == Updated(old(store.rows), user, now)))
  {
    var v := new Validator();
    var found := FindUser(qs, getById, v);
    if found.Failure? {
      return found.error;
    }
    var user := found.value;

    if body.Failure? {
      return BadRequest(body.error);
    }
    var input := body.value;
    if input.name.Some? {
      user := user.(name := input.name.value);
    }
    if input.token.Some? {
      user := user.(token := input.token.value);
    }
    if input.active.Some? {
      user := user.(active := input.active.value);
    }
    assert user == Patched(found.value, input);

    // Only a lookup by id gets this far, and it leaves the validator empty.
    resp := SaveUser(store, v, user, now);
  }

  /** deleteUserHandler: a malformed id or a missing row is 404, success is 204 with no body. */
  method DeleteUserHandler(store: UserModel, idParam: string) returns (resp: Response<()>)
    requires store.Valid()
    modifies store
    ensures store.Valid() && store.failure == old(store.failure) && store.nextId == old(store.nextId)
    ensures !resp.Json? ==> store.rows == old(store.rows)
    ensures ReadIdParam(idParam).Failure? ==> resp == NotFound
    ensures ReadIdParam(idParam).Success? ==>
      var id := ReadIdParam(idParam).value;
      && (old(store.failure).Some? ==> resp == ServerError(Sql(Pq(old(store.failure).value))))
      && (old(store.failure).None? && !HasKey(old(store.rows), UserId, id) ==> resp == NotFound)
      && (old(store.failure).None? && HasKey(old(store.rows), UserId, id) ==>
            resp == Json(StatusNoContent, ()) && store.rows == WithoutKey(old(store.rows), UserId, id))
  {
    var idResult := ReadIdParam(idParam);
    if idResult.Failure? {
      return NotFound;
    }
    var err := store.Delete(idResult.value);
    if err.Some? {
      if err.value == RecordNotFound {
        return NotFound;
      }
      return ServerError(err.value);
    }
    return Json(StatusNoContent, ());
  }
}
