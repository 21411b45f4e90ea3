/**
 * The build version string: the VCS settings the Go toolchain records in the
 * binary, folded into "<time>-<revision>" with "-dirty" for a modified tree.
 * Reading the build information is a parameter: None when the binary carries
 * none.
 */
module Vcs {
  import opened Basics

  datatype Setting = Setting(key: string, value: string)

  /** The value of the last setting with this key, or "" when there is none. */
  function LastValue(settings: seq<Setting>, key: string): string {
    if |settings| == 0 then ""
    else if settings[|settings| - 1].key == key then settings[|settings| - 1].value
    else LastValue(settings[..|settings| - 1], key)
  }

  /** Some `vcs.modified` setting has the value "true". */
  predicate AnyModified(settings: seq<Setting>) {
    exists i :: 0 <= i < |settings| && settings[i].key == "vcs.modified" && settings[i].value == "true"
  }

  /** Whether a key is one of the three the fold looks at. */
  predicate IsVcsKey(key: string) {
    key == "vcs.modified" || key == "vcs.revision" || key == "vcs.time"
  }

  /** Version: the fold over the settings, then the formatted string. */
  method Version(buildInfo: Option<seq<Setting>>) returns (s: string)
    ensures buildInfo.None? ==> s == "-"
    ensures buildInfo.Some? ==>
      var settings := buildInfo.value;
      s == LastValue(settings, "vcs.time") + "-" + LastValue(settings, "vcs.revision") +
           (if AnyModified(settings) then "-dirty" else "")
  {
    var modified := false;
    var revision := "";
    var time := "";

    if buildInfo.Some? {
      var settings := buildInfo.value;
      var i := 0;
      while i < |settings|
        invariant 0 <= i <= |settings|
        invariant modified <==> AnyModified(settings[..i])
        invariant revision == LastValue(settings[..i], "vcs.revision")
        invariant time == LastValue(settings[..i], "vcs.time")
      {
        var setting := settings[i];
        assert settings[..i + 1][..i] == settings[..i];
        if setting.key == "vcs.modified" {
          if setting.value == "true" {
            modified := true;
          }
        } else if setting.key == "vcs.revision" {
          revision := setting.value;
        } else if setting.key == "vcs.time" {
          time := setting.value;
        }
        i := i + 1;
      }
      assert settings[..i] == settings;
    }

    if modified {
      return time + "-" + revision + "-dirty";
    }
    return time + "-" + revision;
  }

  /**
   * LastValue is the value of the last occurrence: with no setting for the
   * key it is "", otherwise some setting with the key has that value and no
   * later setting has the key.
   */
  lemma {:induction false} LastOccurrenceWins(settings: seq<Setting>, key: string)
    ensures (forall i :: 0 <= i < |settings| ==> settings[i].key != key) ==> LastValue(settings, key) == ""
    ensures (exists i :: 0 <= i < |settings| && settings[i].key == key) ==>
      exists i :: 0 <= i < |settings| && settings[i].key == key && settings[i].value == LastValue(settings, key) &&
        forall j :: i < j < |settings| ==> settings[j].key != key
  {
    if |settings| > 0 {
      var init := settings[..|settings| - 1];
      LastOccurrenceWins(init, key);
      if settings[|settings| - 1].key != key {
        if exists i :: 0 <= i < |settings| && settings[i].key == key {
          var i :| 0 <= i < |settings| && settings[i].key == key;
          assert init[i].key == key;
          var k :| 0 <= k < |init| && init[k].key == key && init[k].value == LastValue(init, key) &&
            forall j :: k < j < |init| ==> init[j].key != key;
          assert settings[k] == init[k];
          assert forall j :: k < j < |settings| ==> settings[j].key != key by {
            forall j | k < j < |settings| ensures settings[j].key != key {
              if j < |init| {
                assert settings[j] == init[j];
              }
            }
          }
        }
        if forall i :: 0 <= i < |settings| ==> settings[i].key != key {
          assert forall i :: 0 <= i < |init| ==> init[i].key != key by {
            forall i | 0 <= i < |init| ensures init[i].key != key {
              assert settings[i] == init[i];
            }
          }
        }
      }
    }
  }

  /** A `vcs.modified=true` setting can never be undone by later settings. */
  lemma ModifiedNeverReset(settings: seq<Setting>, later: seq<Setting>)
    requires AnyModified(settings)
    ensures AnyModified(settings + later)
  {
    var i :| 0 <= i < |settings| && settings[i].key == "vcs.modified" && settings[i].value == "true";
    assert (settings + later)[i] == settings[i];
  }

  /** Settings under other keys change neither the time, the revision nor the modified flag. */
  lemma {:induction false} UnrelatedKeysIgnored(settings: seq<Setting>, other: seq<Setting>)
    requires forall i :: 0 <= i < |other| ==> !IsVcsKey(other[i].key)
    ensures LastValue(settings + other, "vcs.time") == LastValue(settings, "vcs.time")
    ensures LastValue(settings + other, "vcs.revision") == LastValue(settings, "vcs.revision")
    ensures AnyModified(settings + other) <==> AnyModified(settings)
  {
    if |other| == 0 {
      assert settings + other == settings;
    } else {
      var init := other[..|other| - 1];
      UnrelatedKeysIgnored(settings, init);
      assert (settings + other)[..|settings + other| - 1] == settings + init;
      assert (settings + other)[|settings + other| - 1] == other[|other| - 1];
      if AnyModified(settings + other) {
        var i :| 0 <= i < |settings + other| && (settings + other)[i].key == "vcs.modified" && (settings + other)[i].value == "true";
        assert i < |settings + init|;
        assert (settings + init)[i] == (settings + other)[i];
      }
      if AnyModified(settings) {
        ModifiedNeverReset(settings, other);
      }
    }
  }
}
