/**
 * The request validator the handlers and record checks share. Its package is
 * not part of this model; it is modelled as a map from a field key to the
 * messages recorded for it. Only the presence of a key is relied on: how
 * many messages a key keeps is the model's own choice (it appends).
 */
module Validation {

  /** The error map after one more message under key: the key is present, every other entry is kept. */
  function WithError(errors: map<string, seq<string>>, key: string, message: string): (r: map<string, seq<string>>)
    ensures r.Keys == errors.Keys + {key}
    ensures forall k :: k in errors && k != key ==> r[k] == errors[k]
    ensures r[key] == (if key in errors then errors[key] else []) + [message]
  {
    errors[key := (if key in errors then errors[key] else []) + [message]]
  }

  /** The first message recorded in an empty validator. */
  lemma FirstError(key: string, message: string)
    ensures WithError(map[], key, message) == map[key := [message]]
  {
    assert [] + [message] == [message];
  }

  class Validator {
    var errors: map<string, seq<string>>

    constructor ()
      ensures errors == map[]
    {
      errors := map[];
    }

    /** `v.Valid()`: no field has an error. */
    predicate Valid()
      reads this
      ensures Valid() <==> forall k :: k !in errors
    {
      errors == map[]
    }

    method AddError(key: string, message: string)
      modifies this
      ensures errors == WithError(old(errors), key, message)
    {
      errors := WithError(errors, key, message);
    }

    /** `v.Check(ok, key, message)`: records the message under key when ok is false. */
    method Check(ok: bool, key: string, message: string)
      modifies this
      ensures errors == if ok then old(errors) else WithError(old(errors), key, message)
      ensures forall k :: k in errors <==> k in old(errors) || (!ok && k == key)
    {
      if !ok {
        AddError(key, message);
      }
    }
  }
}
