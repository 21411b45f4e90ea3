/**
 * Users in the raw-SQL data layer: the token strength scan, the record
 * checks, the driver-error mapping of insert and update, and the `users`
 * table (unique names, ascending ids). `now` is a parameter; `failure` is
 * the error a broken connection would report.
 */
module UserStore {
  import opened Basics
  import opened DataErrors
  import opened Validation
  import opened Tables

  datatype User = User(id: int, createdAt: int, updatedAt: int, name: string, token: string, active: bool)

  function UserId(user: User): int {
    user.id
  }

  /** The message a token without all four character classes is rejected with. */
  const WeakTokenMessage := "must contain at least one number, one uppercase letter, one lowercase letter, and one special character"

  /** The driver's message for a second user with the same name. */
  const DuplicateNameMessage := "pq: duplicate key value violates unique constraint \"users_name_key\""

  /** Insert's error mapping: the name constraint becomes ErrDuplicateName; anything else passes through. */
  function InsertError(e: SqlError): (r: Error)
    ensures r == DuplicateName <==> e == Pq(DuplicateNameMessage)
    ensures e != Pq(DuplicateNameMessage) ==> r == Sql(e)
  {
    if e.Pq? && e.message == DuplicateNameMessage then DuplicateName else Sql(e)
  }

  /** Update's error mapping: as Insert's, and no row becomes ErrEditConflict. */
  function UpdateError(e: SqlError): (r: Error)
    ensures r == DuplicateName <==> e == Pq(DuplicateNameMessage)
    ensures r == EditConflict <==> e == NoRows
    ensures e != Pq(DuplicateNameMessage) && e != NoRows ==> r == Sql(e)
  {
    if e.Pq? && e.message == DuplicateNameMessage then DuplicateName
    else if e == NoRows then EditConflict
    else Sql(e)
  }

  /** The two mappings agree except on no-rows, which only Update maps. */
  lemma ErrorMappingsCompared(e: SqlError)
    ensures e != NoRows ==> InsertError(e) == UpdateError(e)
    ensures InsertError(NoRows) == Sql(NoRows) && UpdateError(NoRows) == EditConflict
  {
  }

  /** GetByName's statement reads `WEHRE` for `WHERE`, so the database rejects it on every call. */
  function GetByName(name: string): (r: Result<User, Error>)
    ensures r.Failure? && r.error != RecordNotFound
  {
    Failure(Sql(SyntaxError))
  }

  // ---- verifyToken ----

  datatype CharClass = Number | Upper | Lower | Special | Other

  /** ASCII punctuation and symbols: every printable character that is not a letter, a digit or a space. */
  predicate IsPunctOrSymbol(c: char) {
    ('!' <= c <= '/') || (':' <= c <= '@') || ('[' <= c <= '`') || ('{' <= c <= '~')
  }

  /** The first class that matches, in the order of the `switch`. */
  function ClassOf(c: char): CharClass {
    if '0' <= c <= '9' then Number
    else if 'A' <= c <= 'Z' then Upper
    else if 'a' <= c <= 'z' then Lower
    else if IsPunctOrSymbol(c) then Special
    else Other
  }

  /** Some character of s falls in class k. */
  predicate Has(s: string, k: CharClass) {
    exists i :: 0 <= i < |s| && ClassOf(s[i]) == k
  }

  /** At least one number, one upper-case, one lower-case and one special character. */
  predicate StrongToken(s: string) {
    Has(s, Number) && Has(s, Upper) && Has(s, Lower) && Has(s, Special)
  }

  method VerifyToken(s: string) returns (ok: bool)
    ensures ok <==> StrongToken(s)
  {
    var hasNumber, hasUpperCase, hasLowercase, hasSpecial := false, false, false, false;
    var i := 0;
    while i < |s|
      invariant 0 <= i <= |s|
      invariant hasNumber <==> Has(s[..i], Number)
      invariant hasUpperCase <==> Has(s[..i], Upper)
      invariant hasLowercase <==> Has(s[..i], Lower)
      invariant hasSpecial <==> Has(s[..i], Special)
    {
      assert forall j :: 0 <= j < i ==> s[..i + 1][j] == s[..i][j];
      assert s[..i + 1][i] == s[i];
      var c := s[i];
      if '0' <= c <= '9' {
        hasNumber := true;
      } else if 'A' <= c <= 'Z' {
        hasUpperCase := true;
      } else if 'a' <= c <= 'z' {
        hasLowercase := true;
      } else if IsPunctOrSymbol(c) {
        hasSpecial := true;
      }
      i := i + 1;
    }
    assert s[..i] == s;
    ok := hasNumber && hasUpperCase && hasLowercase && hasSpecial;
  }

  /** A class present in either part is present in the concatenation. */
  lemma HasAppend(s: string, t: string, k: CharClass)
    ensures Has(s, k) || Has(t, k) ==> Has(s + t, k)
  {
    if Has(s, k) {
      var i :| 0 <= i < |s| && ClassOf(s[i]) == k;
      assert (s + t)[i] == s[i];
    } else if Has(t, k) {
      var i :| 0 <= i < |t| && ClassOf(t[i]) == k;
      assert (s + t)[|s| + i] == t[i];
    }
  }

  /** The empty token is weak, and appending characters never makes a strong token weak: flags are only ever set. */
  lemma StrongTokenMonotone(s: string, t: string)
    ensures !StrongToken("")
    ensures StrongToken(s) ==> StrongToken(s + t)
  {
    HasAppend(s, t, Number);
    HasAppend(s, t, Upper);
    HasAppend(s, t, Lower);
    HasAppend(s, t, Special);
  }

  /** Each character sets at most one flag: a digit never counts as special, whatever follows. */
  lemma OneFlagPerCharacter()
    ensures StrongToken("Aa1!")
    ensures !StrongToken("abcdefgh12345678ABCDEFGH")
  {
    assert ClassOf("Aa1!"[0]) == Upper && ClassOf("Aa1!"[1]) == Lower;
    assert ClassOf("Aa1!"[2]) == Number && ClassOf("Aa1!"[3]) == Special;
    var weak := "abcdefgh12345678ABCDEFGH";
    assert forall i :: 0 <= i < |weak| ==> ClassOf(weak[i]) != Special;
  }

  /** A letter or an ASCII digit: never a special character. */
  predicate IsAlphanumeric(c: char) {
    ('0' <= c <= '9') || ('A' <= c <= 'Z') || ('a' <= c <= 'z')
  }

  /** A token without a punctuation or symbol character is weak however long, letters and digits alone in particular. */
  lemma NoSpecialIsWeak(s: string)
    ensures !Has(s, Special) ==> !StrongToken(s)
    ensures (forall i :: 0 <= i < |s| ==> IsAlphanumeric(s[i])) ==> !StrongToken(s)
  {
    if forall i :: 0 <= i < |s| ==> IsAlphanumeric(s[i]) {
      forall i | 0 <= i < |s| ensures ClassOf(s[i]) != Special {
        assert IsAlphanumeric(s[i]);
      }
    }
  }

  // ---- ValidateUser ----

  /** The name checks as the code writes them: the second test is `< 3`, so only names of 1 or 2 bytes pass. */
  predicate NameChecksPassAsWritten(name: string) {
    name != "" && |name| < 3 && |name| <= 500
  }

  /** The intended name rule, as the messages state it: 3 to 500 bytes. */
  predicate NameChecksPass(name: string) {
    name != "" && |name| >= 3 && |name| <= 500
  }

  predicate TokenChecksPass(token: string) {
    token != "" && |token| >= 32 && |token| <= 72 && StrongToken(token)
  }

  /** As written, the name rule accepts exactly the 1- and 2-byte names: "abc" is rejected with "must be at least 3 bytes long". */
  lemma NameRuleAsWritten(name: string)
    ensures NameChecksPassAsWritten(name) <==> 1 <= |name| <= 2
    ensures !NameChecksPassAsWritten("abc") && NameChecksPassAsWritten("ab")
  {
  }

  /** Corrected, the name rule accepts exactly the names of 3 to 500 bytes and agrees with its messages. */
  lemma NameRuleCorrected(name: string)
    ensures NameChecksPass(name) <==> 3 <= |name| <= 500
    ensures NameChecksPass("abc") && !NameChecksPass("ab")
  {
  }

  /** The token checks of ValidateUser: 32 to 72 bytes, and strong. */
  method ValidateUserToken(v: Validator, token: string)
    modifies v
    ensures forall k :: k in v.errors <==> k in old(v.errors) || (k == "token" && !TokenChecksPass(token))
  {
    v.Check(token != "", "token", "must be provided");
    v.Check(|token| >= 32, "token", "must be at least 32 bytes long");
    v.Check(|token| <= 72, "token", "must not be more than 72 bytes long");
    assert forall k :: k in v.errors <==> k in old(v.errors) || (k == "token" && !(token != "" && 32 <= |token| <= 72));
    var strong := VerifyToken(token);
    v.Check(strong, "token", WeakTokenMessage);
  }

  /** ValidateUser as the code writes it: the second name test is `< 3`. */
  method ValidateUser(v: Validator, user: User)
    modifies v
    ensures forall k :: k in v.errors <==>
      || k in old(v.errors)
      || (k == "name" && !NameChecksPassAsWritten(user.name))
      || (k == "token" && !TokenChecksPass(user.token))
  {
    v.Check(user.name != "", "name", "must be provided");
    v.Check(|user.name| < 3, "name", "must be at least 3 bytes long");
    v.Check(|user.name| <= 500, "name", "must not be more than 500 bytes long");
    assert forall k :: k in v.errors <==> k in old(v.errors) || (k == "name" && !NameChecksPassAsWritten(user.name));
    ValidateUserToken(v, user.token);
  }

  /** ValidateUser with the second name test as its message means it: at least 3 bytes. */
  method ValidateUserCorrected(v: Validator, user: User)
    modifies v
    ensures forall k :: k in v.errors <==>
      || k in old(v.errors)
      || (k == "name" && !NameChecksPass(user.name))
      || (k == "token" && !TokenChecksPass(user.token))
  {
    v.Check(user.name != "", "name", "must be provided");
    v.Check(|user.name| >= 3, "name", "must be at least 3 bytes long");
    v.Check(|user.name| <= 500, "name", "must not be more than 500 bytes long");
    assert forall k :: k in v.errors <==> k in old(v.errors) || (k == "name" && !NameChecksPass(user.name));
    ValidateUserToken(v, user.token);
  }

  // ---- the users table ----

  predicate NameTaken(rows: seq<User>, name: string, except: int) {
    exists i :: 0 <= i < |rows| && rows[i].name == name && rows[i].id != except
  }

  predicate NamesUnique(rows: seq<User>) {
    forall i, j :: 0 <= i < j < |rows| ==> rows[i].name != rows[j].name
  }

  /** `UPDATE users SET name, token, active, updated_at WHERE id = $1`. */
  function Updated(rows: seq<User>, user: User, now: int): (r: seq<User>)
    ensures |r| == |rows|
    ensures forall k :: 0 <= k < |rows| ==>
      r[k] == if rows[k].id == user.id
              then rows[k].(name := user.name, token := user.token, active := user.active, updatedAt := now)
              else rows[k]
  {
    seq(|rows|, k requires 0 <= k < |rows| =>
      if rows[k].id == user.id
      then rows[k].(name := user.name, token := user.token, active := user.active, updatedAt := now)
      else rows[k])
  }

  class UserModel {
    var rows: seq<User>
    var nextId: int
    var failure: Option<string>

    ghost predicate Valid()
      reads this
    {
      KeysAscending(rows, UserId) && KeysBelow(rows, UserId, nextId) && NamesUnique(rows)
    }

    constructor (failure: Option<string>)
      ensures Valid() && rows == [] && nextId == 1 && this.failure == failure
    {
      rows := [];
      nextId := 1;
      this.failure := failure;
    }

    /** INSERT ... RETURNING id, created_at, updated_at; a taken name is ErrDuplicateName. */
    method Insert(user: User, now: int) returns (res: Result<User, Error>)
      requires Valid()
      modifies this
      ensures Valid() && failure == old(failure)
      ensures old(failure).Some? ==> res == Failure(Sql(Pq(old(failure).value))) && rows == old(rows) && nextId == old(nextId)
      ensures old(failure).None? && NameTaken(old(rows), user.name, old(nextId)) ==>
        res == Failure(DuplicateName) && rows == old(rows) && nextId == old(nextId)
      ensures old(failure).None? && !NameTaken(old(rows), user.name, old(nextId)) ==>
        && res == Success(user.(id := old(nextId), createdAt := now, updatedAt := now))
        && rows == old(rows) + [res.value]
        && nextId == old(nextId) + 1
    {
      if failure.Some? {
        return Failure(Sql(Pq(failure.value)));
      }
      if NameTaken(rows, user.name, nextId) {
        return Failure(InsertError(Pq(DuplicateNameMessage)));
      }
      var stored := user.(id := nextId, createdAt := now, updatedAt := now);
      rows := rows + [stored];
      nextId := nextId + 1;
      return Success(stored);
    }

    /**
     * Writes name, token, active and the current time into the row with the
     * record's id. No such row is ErrEditConflict; a name another row has is
     * ErrDuplicateName.
     */
    method Update(user: User, now: int) returns (res: Result<User, Error>)
      requires Valid()
      modifies this
      ensures Valid() && failure == old(failure) && nextId == old(nextId)
      ensures old(failure).Some? ==> res == Failure(Sql(Pq(old(failure).value))) && rows == old(rows)
      ensures old(failure).None? && !HasKey(old(rows), UserId, user.id) ==>
        res == Failure(EditConflict) && rows == old(rows)
      ensures old(failure).None? && HasKey(old(rows), UserId, user.id) && NameTaken(old(rows), user.name, user.id) ==>
        res == Failure(DuplicateName) && rows == old(rows)
      ensures old(failure).None? && HasKey(old(rows), UserId, user.id) && !NameTaken(old(rows), user.name, user.id) ==>
        res == Success(user.(updatedAt := now)) && rows == Updated(old(rows), user, now)
    {
      if failure.Some? {
        return Failure(Sql(Pq(failure.value)));
      }
      if !HasKey(rows, UserId, user.id) {
        return Failure(UpdateError(NoRows));
      }
      if NameTaken(rows, user.name, user.id) {
        return Failure(UpdateError(Pq(DuplicateNameMessage)));
      }
      UpdatedKeepsNamesUnique(rows, user, now);
      rows := Updated(rows, user, now);
      return Success(user.(updatedAt := now));
    }

    /** Removes the row with this id; zero rows affected is ErrRecordNotFound. */
    method Delete(id: int) returns (err: Option<Error>)
      requires Valid()
      modifies this
      ensures Valid() && failure == old(failure) && nextId == old(nextId)
      ensures old(failure).Some? ==> err == Some(Sql(Pq(old(failure).value))) && rows == old(rows)
      ensures old(failure).None? && !HasKey(old(rows), UserId, id) ==> err == Some(RecordNotFound) && rows == old(rows)
      ensures old(failure).None? && HasKey(old(rows), UserId, id) ==> err == None && rows == WithoutKey(old(rows), UserId, id)
    {
      if failure.Some? {
        return Some(Sql(Pq(failure.value)));
      }
      var remaining := WithoutKey(rows, UserId, id);
      WithoutKeyLength(rows, UserId, id);
      WithoutKeyAscending(rows, UserId, id);
      WithoutKeyKeepsNamesUnique(rows, id);
      var rowsAffected := |rows| - |remaining|;
      if rowsAffected == 0 {
        return Some(RecordNotFound);
      }
      rows := remaining;
      return None;
    }
  }

  lemma UpdatedKeepsNamesUnique(rows: seq<User>, user: User, now: int)
    requires KeysAscending(rows, UserId) && NamesUnique(rows)
    requires !NameTaken(rows, user.name, user.id)
    ensures KeysAscending(Updated(rows, user, now), UserId) && NamesUnique(Updated(rows, user, now))
  {
  }

  lemma {:induction false} WithoutKeyKeepsNamesUnique(rows: seq<User>, id: int)
    requires NamesUnique(rows)
    ensures NamesUnique(WithoutKey(rows, UserId, id))
  {
    if rows != [] {
      var init := rows[..|rows| - 1];
      var last := rows[|rows| - 1];
      WithoutKeyKeepsNamesUnique(init, id);
      var r := WithoutKey(init, UserId, id);
      forall x | x in r ensures x.name != last.name {
        var k :| 0 <= k < |init| && init[k] == x;
        assert rows[k] == x;
      }
    }
  }
}
