/**
 Model of the notification-area icon settings update
 (MultiDisplayTool/NotifyIconSettingsUpdater.cs).

 The registry key `Control Panel\NotifyIconSettings` of the current user is an
 optional list of subkey records: `None` when the key does not exist. Each
 record carries its name, whether it opens (is still found when opened for
 writing) and its named values. The update validates the setting, then sets `IsPromoted` on every
 record whose `ExecutablePath` is a string containing the program name.
 */
module NotifyIconSettingsUpdater {
  import opened Wrappers

  /** The C# `short` the setting is passed as. */
  newtype Short = x: int | -0x8000 <= x < 0x8000

  const ExecutablePathName: string := "ExecutablePath"
  const IsPromotedName: string := "IsPromoted"

  /** A registry value as `GetValue` returns it: plain and expandable
      strings read as strings; the other kinds do not. */
  datatype RegistryValue =
    | StringValue(text: string)
    | DWordValue(dword: int)
    | QWordValue(qword: int)
    | MultiStringValue(texts: seq<string>)
    | BinaryValue(bytes: seq<bv8>)

  datatype SubKey = SubKey(name: string, opens: bool, values: map<string, RegistryValue>)

  /** The two exceptions the update throws. */
  datatype UpdateError = InvalidSetting | MissingBaseKey

  /** Ordinal substring test: `pattern` occurs in `text` at some position
      (the empty pattern occurs everywhere). */
  function Contains(text: string, pattern: string): bool
    decreases |text|
  {
    (|pattern| <= |text| && text[..|pattern|] == pattern)
    || (|text| > 0 && Contains(text[1..], pattern))
  }

  /** `pattern` occurs in `text` starting at position `i`. */
  predicate OccursAt(text: string, pattern: string, i: int)
  {
    0 <= i && i + |pattern| <= |text| && text[i..i + |pattern|] == pattern
  }

  lemma {:induction false} ContainsIffOccurs(text: string, pattern: string)
    ensures Contains(text, pattern) <==> exists i :: OccursAt(text, pattern, i)
    decreases |text|
  {
    if |pattern| <= |text| && text[..|pattern|] == pattern {
      assert OccursAt(text, pattern, 0);
    }
    if exists i :: OccursAt(text, pattern, i) {
      var i :| OccursAt(text, pattern, i);
      if i == 0 {
        assert text[..|pattern|] == text[i..i + |pattern|];
      } else {
        assert text[1..][i - 1..i - 1 + |pattern|] == text[i..i + |pattern|];
        assert OccursAt(text[1..], pattern, i - 1);
        ContainsIffOccurs(text[1..], pattern);
      }
    }
    if |text| > 0 && Contains(text[1..], pattern) {
      ContainsIffOccurs(text[1..], pattern);
      var i :| OccursAt(text[1..], pattern, i);
      assert text[i + 1..i + 1 + |pattern|] == text[1..][i..i + |pattern|];
      assert OccursAt(text, pattern, i + 1);
    }
  }

  /** A subkey the update changes: it opens and its
      `ExecutablePath` is a string containing the program name. */
  predicate IsTarget(k: SubKey, programName: string)
  {
    && k.opens
    && ExecutablePathName in k.values
    && k.values[ExecutablePathName].StringValue?
    && Contains(k.values[ExecutablePathName].text, programName)
  }

  /** One subkey after the update. */
  function Promote(k: SubKey, programName: string, setting: Short): SubKey
  {
    if IsTarget(k, programName) then k.(values := k.values[IsPromotedName := DWordValue(setting as int)])
    else k
  }

  /** All subkeys after the update, in the order they were listed. */
  function PromoteAll(keys: seq<SubKey>, programName: string, setting: Short): seq<SubKey>
  {
    seq(|keys|, i requires 0 <= i < |keys| => Promote(keys[i], programName, setting))
  }

  /** The update itself. `baseKey` is the settings key, `None` when it does
      not exist; `after` is its contents afterwards and `thrown` the
      exception raised, if any. */
  method UpdateNotifyIconSettings(programName: string, setting: Short, baseKey: Option<seq<SubKey>>)
    returns (after: Option<seq<SubKey>>, thrown: Option<UpdateError>)
    ensures !(0 <= setting <= 1) ==> thrown == Some(InvalidSetting) && after == baseKey
    ensures 0 <= setting <= 1 && baseKey.None? ==> thrown == Some(MissingBaseKey) && after == baseKey
    ensures 0 <= setting <= 1 && baseKey.Some? ==>
              thrown == None && after == Some(PromoteAll(baseKey.value, programName, setting))
  {
    if setting < 0 || setting > 1 {
      return baseKey, Some(InvalidSetting);
    }
    if baseKey.None? {
      return baseKey, Some(MissingBaseKey);
    }
    var subKeys := baseKey.value;
    var updated: seq<SubKey> := [];
    for n := 0 to |subKeys|
      invariant |updated| == n
      invariant forall j :: 0 <= j < n ==> updated[j] == Promote(subKeys[j], programName, setting)
    {
      var child := subKeys[n];
      if !child.opens {
        updated := updated + [child];
        continue;
      }
      if ExecutablePathName in child.values && child.values[ExecutablePathName].StringValue?
         && Contains(child.values[ExecutablePathName].text, programName) {
        child := child.(values := child.values[IsPromotedName := DWordValue(setting as int)]);
      }
      updated := updated + [child];
    }
    assert updated == PromoteAll(subKeys, programName, setting);
    return Some(updated), None;
  }

  /** A matching subkey ends with `IsPromoted` equal to the setting; every
      other subkey is unchanged; the name, openability and every value other
      than `IsPromoted` are kept in all cases. */
  lemma PromoteAllEffect(keys: seq<SubKey>, programName: string, setting: Short)
    ensures |PromoteAll(keys, programName, setting)| == |keys|
    ensures forall i :: 0 <= i < |keys| ==>
              var k, k' := keys[i], PromoteAll(keys, programName, setting)[i];
              && k'.name == k.name
              && k'.opens == k.opens
              && (IsTarget(k, programName) ==>
                    IsPromotedName in k'.values && k'.values[IsPromotedName] == DWordValue(setting as int))
              && (!IsTarget(k, programName) ==> k' == k)
              && (forall v :: v != IsPromotedName ==>
                    (v in k'.values <==> v in k.values) && (v in k.values ==> k'.values[v] == k.values[v]))
  {
  }

  /** `Promote` never changes whether a subkey is a target. */
  lemma PromoteKeepsTarget(k: SubKey, programName: string, setting: Short)
    ensures IsTarget(Promote(k, programName, setting), programName) == IsTarget(k, programName)
  {
    assert ExecutablePathName != IsPromotedName;
  }

  /** Running the update twice with the same arguments equals running it once. */
  lemma PromoteAllIdempotent(keys: seq<SubKey>, programName: string, setting: Short)
    ensures PromoteAll(PromoteAll(keys, programName, setting), programName, setting)
            == PromoteAll(keys, programName, setting)
  {
    var once := PromoteAll(keys, programName, setting);
    forall i | 0 <= i < |keys|
      ensures Promote(once[i], programName, setting) == once[i]
    {
      PromoteKeepsTarget(keys[i], programName, setting);
      if IsTarget(keys[i], programName) {
        var m := keys[i].values[IsPromotedName := DWordValue(setting as int)];
        assert m[IsPromotedName := DWordValue(setting as int)] == m;
      }
    }
  }

  /** The result does not depend on the value `IsPromoted` had before: two
      matching subkeys that differ at most in `IsPromoted` end up equal. */
  lemma PromoteIgnoresPriorValue(k1: SubKey, k2: SubKey, programName: string, setting: Short)
    requires k1.name == k2.name && k1.opens == k2.opens
    requires k1.values - {IsPromotedName} == k2.values - {IsPromotedName}
    requires IsTarget(k1, programName)
    ensures Promote(k1, programName, setting) == Promote(k2, programName, setting)
  {
    assert ExecutablePathName != IsPromotedName;
    assert ExecutablePathName in k1.values - {IsPromotedName};
    var d := DWordValue(setting as int);
    var m1, m2 := k1.values[IsPromotedName := d], k2.values[IsPromotedName := d];
    forall v | v in m1
      ensures v in m2 && m1[v] == m2[v]
    {
      if v != IsPromotedName {
        assert v in k1.values - {IsPromotedName};
      }
    }
    forall v | v in m2
      ensures v in m1
    {
      if v != IsPromotedName {
        assert v in k2.values - {IsPromotedName};
      }
    }
    assert m1 == m2;
  }
}
