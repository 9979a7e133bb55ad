/**
 * hooks/use-warehouse-scripts.ts: the scripts of one warehouse with loading
 * and error state. `fetchScripts` is split into `BeginFetch` (the guard, and
 * the request going out with `isLoading` on) and `FinishFetch` (the awaited
 * response, then the `finally` that ends loading). The requested URL is
 * returned; the response is an input.
 */
module WarehouseScriptsHook {
  import opened Wrappers
  import opened Types
  import opened Text
  import opened Config

  /** `!warehouseId`: `null` and `0` both skip the fetch. */
  predicate Falsy(warehouseId: Option<int>) {
    warehouseId.None? || warehouseId.value == 0
  }

  const FetchFallback: string := "Failed to fetch scripts"

  class ScriptsHook {
    const base: string
    const warehouseId: Option<int>
    var scripts: seq<Script>
    var isLoading: bool
    var error: Option<string>

    constructor (base: string, warehouseId: Option<int>)
      ensures this.base == base && this.warehouseId == warehouseId
      ensures scripts == [] && !isLoading && error.None?
    {
      this.base := base;
      this.warehouseId := warehouseId;
      scripts := [];
      isLoading := false;
      error := None;
    }

    /**
     * The first half of `fetchScripts`. Without a warehouse the list empties
     * and nothing is requested, loading and error untouched; otherwise the
     * warehouse's scripts are requested and loading starts.
     */
    method BeginFetch() returns (request: Option<string>)
      modifies this
      ensures Falsy(warehouseId) ==>
        request.None? && scripts == [] && isLoading == old(isLoading) && error == old(error)
      ensures !Falsy(warehouseId) ==>
        request == Some(Config.WarehouseScripts(base, warehouseId.value))
        && isLoading && scripts == old(scripts) && error == old(error)
    {
      if Falsy(warehouseId) {
        scripts := [];
        request := None;
        return;
      }
      isLoading := true;
      request := Some(Config.WarehouseScripts(base, warehouseId.value));
    }

    /**
     * The second half: data replaces the list and clears the error; a thrown
     * error empties the list and records its message (or the fallback); either
     * way loading ends.
     */
    method FinishFetch(fetched: Outcome<seq<Script>>)
      modifies this
      ensures !isLoading
      ensures fetched.Ok? ==> scripts == fetched.value && error.None?
      ensures fetched.Thrown? ==> scripts == [] && error == Some(MessageOr(fetched, FetchFallback))
    {
      match fetched {
        case Ok(data) =>
          scripts := data;
          error := None;
        case Thrown(_) =>
          error := Some(MessageOr(fetched, FetchFallback));
          scripts := [];
      }
      isLoading := false;
    }

    /**
     * `mutate`: a given list (even an empty one, which is truthy) replaces the
     * scripts without a request; no list starts a refetch.
     */
    method Mutate(newScripts: Option<seq<Script>>) returns (request: Option<string>)
      modifies this
      ensures newScripts.Some? ==>
        request.None? && scripts == newScripts.value && isLoading == old(isLoading) && error == old(error)
      ensures newScripts.None? && Falsy(warehouseId) ==>
        request.None? && scripts == [] && isLoading == old(isLoading) && error == old(error)
      ensures newScripts.None? && !Falsy(warehouseId) ==>
        request == Some(Config.WarehouseScripts(base, warehouseId.value))
        && isLoading && scripts == old(scripts) && error == old(error)
    {
      if newScripts.Some? {
        scripts := newScripts.value;
        request := None;
      } else {
        request := BeginFetch();
      }
    }
  }

  /**
   * A whole `fetchScripts` from a fresh hook. Without a warehouse nothing is
   * requested and the hook stays empty and idle. With one, the request names
   * that warehouse, and afterwards loading is off and exactly one of the
   * scripts and the error carries the outcome.
   */
  method FetchOnce(base: string, warehouseId: Option<int>, fetched: Outcome<seq<Script>>)
    returns (request: Option<string>, scripts: seq<Script>, isLoading: bool, error: Option<string>)
    ensures Falsy(warehouseId) ==> request.None? && scripts == [] && !isLoading && error.None?
    ensures !Falsy(warehouseId) ==>
      request.Some? && ParseRoute(base, request.value) ==
        Some(Route(["api", "warehouses", IntToString(warehouseId.value), "scripts"], []))
    ensures !isLoading
    ensures !Falsy(warehouseId) ==> (fetched.Ok? <==> error.None?)
    ensures !Falsy(warehouseId) && fetched.Ok? ==> scripts == fetched.value
    ensures fetched.Thrown? ==> scripts == []
    ensures !Falsy(warehouseId) && fetched == Thrown(None) ==> error == Some("Failed to fetch scripts")
  {
    var hook := new ScriptsHook(base, warehouseId);
    request := hook.BeginFetch();
    if request.Some? {
      WarehouseScriptsRoute(base, warehouseId.value);
      hook.FinishFetch(fetched);
    }
    scripts, isLoading, error := hook.scripts, hook.isLoading, hook.error;
  }
}
