/**
 * The application-state provider: which API keys are available, derived
 * from the secrets map and replaced wholesale on every update.
 */
module AppStateContext {
  import opened Wrappers
  import MainProcess

  const OutsideProviderError: string := "useAppState must be used within an AppStateProvider"

  /** Reference meaning of the availability map: a key is available iff its value is a non-empty string. */
  function Availability(keys: map<string, string>): map<string, bool>
  {
    map k | k in keys :: keys[k] != ""
  }

  /**
   * The `reduce` over `Object.keys(keys)` in the order given, each step setting
   * `acc[key] = !!keys[key]`.
   */
  function ReduceAvailability(order: seq<string>, keys: map<string, string>, acc: map<string, bool>): map<string, bool>
    requires forall i :: 0 <= i < |order| ==> order[i] in keys
  {
    if |order| == 0 then acc
    else ReduceAvailability(order[1..], keys, acc[order[0] := keys[order[0]] != ""])
  }

  /** The reduce sets exactly the visited keys, each to its availability, and keeps the rest of the accumulator. */
  lemma {:induction false} ReduceAddsVisitedKeys(order: seq<string>, keys: map<string, string>, acc: map<string, bool>)
    requires forall i :: 0 <= i < |order| ==> order[i] in keys
    ensures ReduceAvailability(order, keys, acc).Keys == acc.Keys + (set k | k in order)
    ensures forall k :: k in order ==> ReduceAvailability(order, keys, acc)[k] == (keys[k] != "")
    ensures forall k :: k in acc && k !in order ==> ReduceAvailability(order, keys, acc)[k] == acc[k]
  {
    if |order| > 0 {
      var k0, rest := order[0], order[1..];
      ReduceAddsVisitedKeys(rest, keys, acc[k0 := keys[k0] != ""]);
      assert order == [k0] + rest;
      assert forall k :: k in order <==> k == k0 || k in rest;
    }
  }

  /** Whatever order `Object.keys` lists the keys in, the reduce yields the reference availability map. */
  lemma ReduceIsAvailability(order: seq<string>, keys: map<string, string>)
    requires forall i :: 0 <= i < |order| ==> order[i] in keys
    requires forall k :: k in keys ==> k in order
    ensures ReduceAvailability(order, keys, map[]) == Availability(keys)
    ensures Availability(keys).Keys == keys.Keys
    ensures forall k :: k in keys ==> (Availability(keys)[k] <==> keys[k] != "")
  {
    ReduceAddsVisitedKeys(order, keys, map[]);
    var r := ReduceAvailability(order, keys, map[]);
    assert r.Keys == Availability(keys).Keys;
  }

  /** The provider's state cell. */
  class AppState {
    var apiKeyAvailability: map<string, bool>

    /** Before the first load nothing is available. */
    constructor ()
      ensures apiKeyAvailability == map[]
    {
      apiKeyAvailability := map[];
    }

    /** updateApiKeyAvailability: the whole map is replaced; nothing of the previous state survives. */
    method UpdateApiKeyAvailability(keys: map<string, string>)
      modifies this
      ensures apiKeyAvailability == Availability(keys)
    {
      apiKeyAvailability := Availability(keys);
    }

    /** The provider's mount effect: availability of the secrets that get-api-keys returns. */
    method LoadInitialAvailability(backend: MainProcess.Backend)
      modifies this
      ensures apiKeyAvailability == Availability(MainProcess.ReadSecrets(backend.files, backend.parseSecrets))
    {
      var keys := backend.GetApiKeys();
      UpdateApiKeyAvailability(keys);
    }
  }

  /** useAppState: the context value, or the error thrown outside the provider. */
  function UseAppState(context: Option<AppState>): (r: Result<AppState, string>)
    ensures r.Success? <==> context.Some?
    ensures r.Success? ==> r.value == context.value
    ensures r.Failure? ==> r.error == OutsideProviderError
  {
    match context
    case None => Failure(OutsideProviderError)
    case Some(state) => Success(state)
  }
}
