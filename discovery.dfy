/**
 * `agent/nix_gen/discovery.py`: the list of workload modules the flake
 * offers, read from `nix eval .#lib.availableModules --json`, validated,
 * sorted and kept in a process-wide cache.  JSON decoding is an input: the
 * `decode` argument says what `json.loads` makes of the command's output.
 */
module Discovery {
  import opened Common
  import opened Text
  import opened Cli

  /** The first evaluation after a cold boot may have to fetch the flake's inputs. */
  const NIX_EVAL_TIMEOUT: nat := 120

  /** The JSON values the validation tells apart. */
  datatype JsonValue = JList(items: seq<JsonValue>) | JString(s: string) | JOther(typeName: string)

  /** What `json.loads` makes of a text: a value, or the reason it is not JSON. */
  datatype Decoded = Parsed(value: JsonValue) | NotJson(reason: string)

  /** The answer of `discover_modules`: the module names, a `ModuleDiscoveryError`, or the `TimeoutError` of the command. */
  datatype Discovery = Modules(names: seq<string>) | DiscoveryError(message: string) | TimedOut(message: string)

  function NixEvalArgv(): seq<string> {
    ["nix", "eval", ".#lib.availableModules", "--json", "--no-update-lock-file"]
  }

  /** Python's `type(v).__name__` for a decoded JSON value. */
  function TypeName(v: JsonValue): string {
    match v
    case JList(_) => "list"
    case JString(_) => "str"
    case JOther(t) => t
  }

  predicate AllStrings(items: seq<JsonValue>) {
    forall k :: 0 <= k < |items| ==> items[k].JString?
  }

  /** The type names of the items that are not strings, in order. */
  function BadTypes(items: seq<JsonValue>): (bad: seq<string>)
    ensures bad == [] <==> AllStrings(items)
  {
    if items == [] then []
    else
      var rest := BadTypes(items[1..]);
      assert AllStrings(items) <==> items[0].JString? && AllStrings(items[1..]) by {
        if AllStrings(items[1..]) && items[0].JString? {
          forall k | 0 < k < |items| ensures items[k].JString? {
            assert items[k] == items[1..][k - 1];
          }
        }
        if AllStrings(items) {
          forall k | 0 <= k < |items[1..]| ensures items[1..][k].JString? {
            assert items[1..][k] == items[k + 1];
          }
        }
      }
      if items[0].JString? then rest else [TypeName(items[0])] + rest
  }

  /** The strings of a list that holds only strings. */
  function Texts(items: seq<JsonValue>): (ts: seq<string>)
    requires AllStrings(items)
    ensures |ts| == |items| && forall k :: 0 <= k < |items| ==> ts[k] == items[k].s
  {
    if items == [] then [] else [items[0].s] + Texts(items[1..])
  }

  /** The checks of `discover_modules` on a finished `nix eval`. */
  function Validate(eval: CommandResult, decode: string -> Decoded): (r: Discovery)
    ensures r.Modules? <==> eval.Success() && decode(eval.stdout).Parsed? &&
                            decode(eval.stdout).value.JList? && AllStrings(decode(eval.stdout).value.items)
    ensures r.Modules? ==> Sorted(r.names) && multiset(r.names) == multiset(Texts(decode(eval.stdout).value.items))
    ensures !r.TimedOut?
  {
    if !eval.Success() then
      DiscoveryError("nix eval failed (exit " + IntToString(eval.returncode) + "): " + eval.stderr)
    else
      match decode(eval.stdout)
      case NotJson(reason) => DiscoveryError("Failed to parse nix eval output as JSON: " + reason)
      case Parsed(v) =>
        if !v.JList? then DiscoveryError("Expected a list of module names, got " + TypeName(v))
        else if !AllStrings(v.items) then
          DiscoveryError("Expected all module names to be strings, got: " + Join(BadTypes(v.items), ", "))
        else Modules(Sort(Texts(v.items)))
  }

  /** A fresh query: run `nix eval`, whose timeout propagates, and validate its answer. */
  function Fresh(procs: Processes, decode: string -> Decoded): Discovery {
    match Run(procs, NixEvalArgv(), NIX_EVAL_TIMEOUT)
    case TimeoutError(m) => TimedOut(m)
    case Done(eval) => Validate(eval, decode)
  }

  /** One call of `discover_modules(use_cache=...)` on a cache: the answer and the cache afterwards. */
  function DiscoverStep(cache: Option<seq<string>>, useCache: bool, procs: Processes, decode: string -> Decoded)
    : (Discovery, Option<seq<string>>)
  {
    if useCache && cache.Some? then (Modules(cache.value), cache)
    else
      var r := Fresh(procs, decode);
      if useCache && r.Modules? then (r, Some(r.names)) else (r, cache)
  }

  /** The process-wide `_cache`. */
  class ModuleDiscovery {
    var cache: Option<seq<string>>

    constructor ()
      ensures cache == None
    {
      cache := None;
    }

    /** `discover_modules(use_cache=...)`. */
    method DiscoverModules(useCache: bool, procs: Processes, decode: string -> Decoded) returns (r: Discovery)
      modifies this
      ensures (r, cache) == DiscoverStep(old(cache), useCache, procs, decode)
    {
      if useCache && cache.Some? {
        return Modules(cache.value);
      }
      var result := Run(procs, NixEvalArgv(), NIX_EVAL_TIMEOUT);
      if result.TimeoutError? {
        return TimedOut(result.message);
      }
      r := Validate(result.value, decode);
      if r.Modules? && useCache {
        cache := Some(r.names);
      }
    }

    /** `clear_cache()`. */
    method ClearCache()
      modifies this
      ensures cache == None
    {
      cache := None;
    }
  }

  /** A filled cache answers without running anything: the result is the same whatever the host would say. */
  lemma CacheHitIgnoresHost(names: seq<string>, p1: Processes, d1: string -> Decoded, p2: Processes, d2: string -> Decoded)
    ensures DiscoverStep(Some(names), true, p1, d1) == DiscoverStep(Some(names), true, p2, d2)
    ensures DiscoverStep(Some(names), true, p1, d1).0 == Modules(names)
  {
  }

  /** After a successful cached query, the next cached query repeats it. */
  lemma CachedRepeats(cache: Option<seq<string>>, p1: Processes, d1: string -> Decoded, p2: Processes, d2: string -> Decoded)
    requires DiscoverStep(cache, true, p1, d1).0.Modules?
    ensures var (r1, c1) := DiscoverStep(cache, true, p1, d1);
            DiscoverStep(c1, true, p2, d2) == (r1, c1)
  {
  }

  /** `use_cache=False` always queries afresh and never stores, and failures never fill the cache. */
  lemma UncachedNeverStores(cache: Option<seq<string>>, useCache: bool, procs: Processes, decode: string -> Decoded)
    ensures !useCache ==> DiscoverStep(cache, false, procs, decode) == (Fresh(procs, decode), cache)
    ensures !DiscoverStep(cache, useCache, procs, decode).0.Modules? ==> DiscoverStep(cache, useCache, procs, decode).1 == cache
  {
  }

  /** After `clear_cache()` the next query is fresh and, when it succeeds, fills the cache with its own answer. */
  lemma ClearedQueriesAfresh(procs: Processes, decode: string -> Decoded)
    ensures DiscoverStep(None, true, procs, decode).0 == Fresh(procs, decode)
    ensures Fresh(procs, decode).Modules? ==> DiscoverStep(None, true, procs, decode).1 == Some(Fresh(procs, decode).names)
  {
  }

  /** A failed `nix eval` is reported with its exit code and stderr, whatever it printed on stdout. */
  lemma EvalFailureReported(eval: CommandResult, decode: string -> Decoded)
    requires !eval.Success()
    ensures Validate(eval, decode) == DiscoveryError("nix eval failed (exit " + IntToString(eval.returncode) + "): " + eval.stderr)
  {
  }
}
