/**
 * The API-key form: a fixed list of five named secrets, each with a value and
 * a masked/unmasked flag, merged with the stored secrets on load and folded
 * back into a map on save.
 */
module Configuration {
  import opened AppStateContext
  import MainProcess

  datatype ApiKey = ApiKey(name: string, value: string, hidden: bool)

  const KeyNames: seq<string> :=
    ["OPENAI_API_KEY", "OPENAI_ORG_ID", "GEMINI_API_KEY", "ANTHROPIC_API_KEY", "REPLICATE_API_KEY"]

  function Names(keys: seq<ApiKey>): (r: seq<string>)
    ensures |r| == |keys| && forall i :: 0 <= i < |keys| ==> r[i] == keys[i].name
  {
    seq(|keys|, i requires 0 <= i < |keys| => keys[i].name)
  }

  predicate DistinctNames(keys: seq<ApiKey>)
  {
    forall i, j :: 0 <= i < j < |keys| ==> keys[i].name != keys[j].name
  }

  /** The form's first state: the five key names in fixed order, empty and masked. */
  function InitialApiKeys(): (r: seq<ApiKey>)
    ensures Names(r) == KeyNames && DistinctNames(r)
    ensures forall i :: 0 <= i < |r| ==> r[i].value == "" && r[i].hidden
  {
    [ ApiKey("OPENAI_API_KEY", "", true),
      ApiKey("OPENAI_ORG_ID", "", true),
      ApiKey("GEMINI_API_KEY", "", true),
      ApiKey("ANTHROPIC_API_KEY", "", true),
      ApiKey("REPLICATE_API_KEY", "", true) ]
  }

  /** `loadedKeys[name] || ''`: the loaded value, or the empty string when it is missing or empty. */
  function LoadedValue(loaded: map<string, string>, name: string): string
  {
    if name in loaded && loaded[name] != "" then loaded[name] else ""
  }

  /** loadApiKeys: every entry keeps its name, place and mask; its value comes from the loaded map. */
  function Merge(keys: seq<ApiKey>, loaded: map<string, string>): (r: seq<ApiKey>)
    ensures Names(r) == Names(keys)
    ensures forall i :: 0 <= i < |keys| ==> r[i].hidden == keys[i].hidden
    ensures forall i :: 0 <= i < |keys| ==>
      (keys[i].name in loaded ==> r[i].value == loaded[keys[i].name]) &&
      (keys[i].name !in loaded ==> r[i].value == "")
  {
    seq(|keys|, i requires 0 <= i < |keys| => keys[i].(value := LoadedValue(loaded, keys[i].name)))
  }

  /** handleInputChange on an existing index: only that entry's value changes. */
  function SetValue(keys: seq<ApiKey>, index: nat, value: string): (r: seq<ApiKey>)
    requires index < |keys|
    ensures |r| == |keys| && Names(r) == Names(keys)
    ensures r[index].value == value && r[index].hidden == keys[index].hidden
    ensures forall i :: 0 <= i < |keys| && i != index ==> r[i] == keys[i]
  {
    keys[index := keys[index].(value := value)]
  }

  /** toggleVisibility on an existing index: only that entry's mask flips. */
  function Toggle(keys: seq<ApiKey>, index: nat): (r: seq<ApiKey>)
    requires index < |keys|
    ensures |r| == |keys| && Names(r) == Names(keys)
    ensures r[index].hidden != keys[index].hidden && r[index].value == keys[index].value
    ensures forall i :: 0 <= i < |keys| && i != index ==> r[i] == keys[i]
  {
    keys[index := keys[index].(hidden := !keys[index].hidden)]
  }

  /** Toggling the same entry twice restores the form. */
  lemma ToggleTwiceRestores(keys: seq<ApiKey>, index: nat)
    requires index < |keys|
    ensures Toggle(Toggle(keys, index), index) == keys
  {
  }

  /** saveApiKeys: the `reduce` that sets `acc[key.name] = key.value` for each entry in order. */
  function KeysToSave(keys: seq<ApiKey>): map<string, string>
  {
    if |keys| == 0 then map[]
    else KeysToSave(keys[..|keys| - 1])[keys[|keys| - 1].name := keys[|keys| - 1].value]
  }

  /** The saved map has exactly the entries' names; each maps to the value of its last entry. */
  lemma {:induction false} KeysToSaveContents(keys: seq<ApiKey>)
    ensures KeysToSave(keys).Keys == set i | 0 <= i < |keys| :: keys[i].name
    ensures forall i :: 0 <= i < |keys| && (forall j :: i < j < |keys| ==> keys[j].name != keys[i].name) ==>
      KeysToSave(keys)[keys[i].name] == keys[i].value
  {
    if |keys| > 0 {
      var front := keys[..|keys| - 1];
      KeysToSaveContents(front);
      assert forall i :: 0 <= i < |front| ==> front[i] == keys[i];
      var names := set i | 0 <= i < |keys| :: keys[i].name;
      var frontNames := set i | 0 <= i < |front| :: front[i].name;
      assert names == frontNames + {keys[|keys| - 1].name} by {
        forall n | n in names ensures n in frontNames + {keys[|keys| - 1].name} {
          var i :| 0 <= i < |keys| && keys[i].name == n;
          if i < |front| { assert front[i].name == n; }
        }
      }
    }
  }

  /** Loading what was saved gives back the form, masks included. */
  lemma {:induction false} SaveThenLoadRestoresForm(keys: seq<ApiKey>)
    requires DistinctNames(keys)
    ensures Merge(keys, KeysToSave(keys)) == keys
  {
    KeysToSaveContents(keys);
    var r := Merge(keys, KeysToSave(keys));
    forall i | 0 <= i < |keys| ensures r[i] == keys[i] {
      assert keys[i].name in KeysToSave(keys);
    }
  }

  /** The five key names differ pairwise (by length or by first letter). */
  lemma KeyNamesDistinct()
    ensures forall i, j :: 0 <= i < j < |KeyNames| ==> KeyNames[i] != KeyNames[j]
  {
    assert |KeyNames[0]| == 14 && |KeyNames[1]| == 13 && |KeyNames[2]| == 14;
    assert |KeyNames[3]| == 17 && |KeyNames[4]| == 17;
    assert KeyNames[0][0] == 'O' && KeyNames[2][0] == 'G';
    assert KeyNames[3][0] == 'A' && KeyNames[4][0] == 'R';
  }

  /** With distinct names the saved map has exactly the form's names, each saved with its entry's value. */
  lemma SavedValuesOfDistinctNames(keys: seq<ApiKey>)
    requires DistinctNames(keys)
    ensures forall n :: n in KeysToSave(keys) <==> n in Names(keys)
    ensures forall i :: 0 <= i < |keys| ==>
      keys[i].name in KeysToSave(keys) && KeysToSave(keys)[keys[i].name] == keys[i].value
  {
    KeysToSaveContents(keys);
    forall n ensures n in KeysToSave(keys) <==> n in Names(keys) {
      if n in Names(keys) {
        var i :| 0 <= i < |keys| && Names(keys)[i] == n;
        assert keys[i].name == n;
      }
    }
  }

  /** A form that lists the five key names has distinct names. */
  lemma FormNamesDistinct(keys: seq<ApiKey>)
    requires Names(keys) == KeyNames
    ensures DistinctNames(keys)
    ensures forall i :: 0 <= i < |keys| ==> keys[i].name == KeyNames[i]
  {
    KeyNamesDistinct();
    assert forall i :: 0 <= i < |keys| ==> keys[i].name == Names(keys)[i];
  }

  /** A form holding the five names saves a map with exactly those names, each with its current value, empty ones included. */
  lemma SavedKeysAreTheFiveNames(keys: seq<ApiKey>)
    requires Names(keys) == KeyNames
    ensures forall n :: n in KeysToSave(keys) <==> n in KeyNames
    ensures forall i :: 0 <= i < |keys| ==>
      KeyNames[i] in KeysToSave(keys) && KeysToSave(keys)[KeyNames[i]] == keys[i].value
  {
    FormNamesDistinct(keys);
    SavedValuesOfDistinctNames(keys);
  }

  /** After a save, a key is available iff its field in the form is non-empty. */
  lemma AvailabilityAfterSave(keys: seq<ApiKey>)
    requires Names(keys) == KeyNames
    ensures forall n :: n in Availability(KeysToSave(keys)) <==> n in KeyNames
    ensures forall i :: 0 <= i < |keys| ==>
      KeyNames[i] in Availability(KeysToSave(keys)) &&
      (Availability(KeysToSave(keys))[KeyNames[i]] <==> keys[i].value != "")
  {
    SavedKeysAreTheFiveNames(keys);
  }

  /** The Configuration component's `apiKeys` state. */
  class ApiKeyForm {
    var apiKeys: seq<ApiKey>

    /** The form always lists the five key names in fixed order. */
    ghost predicate Valid()
      reads this
    {
      Names(apiKeys) == KeyNames
    }

    constructor ()
      ensures Valid() && apiKeys == InitialApiKeys()
    {
      apiKeys := InitialApiKeys();
    }

    /** loadApiKeys: merge the stored secrets into the form and recompute availability from them. */
    method LoadApiKeys(backend: MainProcess.Backend, app: AppState)
      requires Valid()
      modifies this, app
      ensures Valid()
      ensures apiKeys == Merge(old(apiKeys), MainProcess.ReadSecrets(backend.files, backend.parseSecrets))
      ensures app.apiKeyAvailability == Availability(MainProcess.ReadSecrets(backend.files, backend.parseSecrets))
    {
      var loadedKeys := backend.GetApiKeys();
      apiKeys := Merge(apiKeys, loadedKeys);
      app.UpdateApiKeyAvailability(loadedKeys);
    }

    /** handleInputChange: a missing index makes the source throw and leaves the form as it was. */
    method HandleInputChange(index: int, value: string) returns (ok: bool)
      requires Valid()
      modifies this
      ensures Valid()
      ensures ok <==> 0 <= index < |old(apiKeys)|
      ensures ok ==> apiKeys == SetValue(old(apiKeys), index, value)
      ensures !ok ==> apiKeys == old(apiKeys)
    {
      ok := 0 <= index < |apiKeys|;
      if ok {
        apiKeys := apiKeys[index := apiKeys[index].(value := value)];
      }
    }

    /** toggleVisibility: a missing index makes the source throw and leaves the form as it was. */
    method ToggleVisibility(index: int) returns (ok: bool)
      requires Valid()
      modifies this
      ensures Valid()
      ensures ok <==> 0 <= index < |old(apiKeys)|
      ensures ok ==> apiKeys == Toggle(old(apiKeys), index)
      ensures !ok ==> apiKeys == old(apiKeys)
    {
      ok := 0 <= index < |apiKeys|;
      if ok {
        apiKeys := apiKeys[index := apiKeys[index].(hidden := !apiKeys[index].hidden)];
      }
    }

    /**
     * saveApiKeys: fold the form into a map, hand it to save-api-keys, and
     * recompute availability from that map whether or not the write succeeded
     * (the handler ignores save-api-keys' answer).
     */
    method SaveApiKeys(backend: MainProcess.Backend, app: AppState) returns (keysToSave: map<string, string>)
      requires Valid()
      modifies backend, app
      ensures keysToSave == KeysToSave(apiKeys)
      ensures forall n :: n in keysToSave <==> n in KeyNames
      ensures MainProcess.ConfigFilePath !in backend.readOnly ==>
        backend.files == old(backend.files)[MainProcess.ConfigFilePath := backend.showSecrets(keysToSave)]
      ensures MainProcess.ConfigFilePath in backend.readOnly ==> backend.files == old(backend.files)
      ensures app.apiKeyAvailability == Availability(keysToSave)
    {
      keysToSave := map[];
      for i := 0 to |apiKeys|
        invariant keysToSave == KeysToSave(apiKeys[..i])
      {
        assert apiKeys[..i + 1][..i] == apiKeys[..i];
        keysToSave := keysToSave[apiKeys[i].name := apiKeys[i].value];
      }
      assert apiKeys[..|apiKeys|] == apiKeys;
      SavedKeysAreTheFiveNames(apiKeys);
      var _ := backend.SaveApiKeys(keysToSave);
      app.UpdateApiKeyAvailability(keysToSave);
    }
  }
}
