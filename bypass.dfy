/**
 * Resolution of the Deployment Protection bypass secret: the inbound
 * `x-vercel-protection-bypass` header, then the query parameter of the same
 * name, then the `VERCEL_AUTOMATION_BYPASS_SECRET` environment value, first
 * truthy one wins.
 */
module Bypass {
  import opened Wrappers

  /** Name of the bypass header; the query parameter uses the same key. */
  const ProtectionHeader: string := "x-vercel-protection-bypass"

  /** JavaScript truthiness of a `string | null | undefined` value: absent and "" are falsy. */
  predicate Truthy(v: Option<string>)
    ensures Truthy(v) <==> v != None && v != Some("")
  {
    v.Some? && |v.value| > 0
  }

  /** `Headers.get` over a header map whose names are already lower case: null when absent. */
  function HeaderGet(headers: map<string, string>, name: string): (r: Option<string>)
    ensures r.Some? <==> name in headers
    ensures r.Some? ==> r.value == headers[name]
  {
    if name in headers then Some(headers[name]) else None
  }

  /** `URLSearchParams.get`: the value of the first pair carrying `name`, or null. */
  function QueryGet(params: seq<(string, string)>, name: string): (r: Option<string>)
    ensures r.Some? ==> exists k :: 0 <= k < |params| && params[k] == (name, r.value)
    ensures r.None? ==> forall k :: 0 <= k < |params| ==> params[k].0 != name
  {
    if |params| == 0 then None
    else if params[0].0 == name then Some(params[0].1)
    else QueryGet(params[1..], name)
  }

  /** The query lookup finds a value exactly when the name occurs, and it is the first occurrence's value. */
  lemma {:induction false} QueryGetFirst(params: seq<(string, string)>, name: string)
    ensures QueryGet(params, name).Some? <==> exists k :: 0 <= k < |params| && params[k].0 == name
    ensures forall k :: 0 <= k < |params| && params[k].0 == name && (forall j :: 0 <= j < k ==> params[j].0 != name)
                     ==> QueryGet(params, name) == Some(params[k].1)
  {
    if |params| > 0 && params[0].0 != name {
      QueryGetFirst(params[1..], name);
      assert forall k :: 1 <= k < |params| ==> params[1..][k - 1] == params[k];
      if QueryGet(params, name).Some? {
        var k :| 0 <= k < |params[1..]| && params[1..][k].0 == name;
        assert params[k + 1].0 == name;
      }
      forall k | 0 <= k < |params| && params[k].0 == name && (forall j :: 0 <= j < k ==> params[j].0 != name)
        ensures QueryGet(params, name) == Some(params[k].1)
      {
        assert k > 0;
        assert forall j :: 0 <= j < k - 1 ==> params[1..][j].0 != name by {
          forall j | 0 <= j < k - 1 ensures params[1..][j].0 != name {
            assert params[1..][j] == params[j + 1];
          }
        }
      }
    }
  }

  /** The bypass resolver of the landing page: first truthy of header, query parameter, environment. */
  function Resolve(header: Option<string>, query: Option<string>, env: Option<string>): (r: Option<string>)
    ensures Truthy(header) ==> r == header
    ensures !Truthy(header) && Truthy(query) ==> r == query
    ensures !Truthy(header) && !Truthy(query) && Truthy(env) ==> r == env
    ensures r.None? <==> !Truthy(header) && !Truthy(query) && !Truthy(env)
    ensures r.Some? ==> Truthy(r)
  {
    if Truthy(header) then header
    else if Truthy(query) then query
    else if Truthy(env) then env
    else None
  }

  /** Reference definition: the first truthy source of a priority-ordered list, or none. */
  function FirstTruthy(sources: seq<Option<string>>): (r: Option<string>)
    ensures r.Some? ==> Truthy(r) && r in sources
  {
    if |sources| == 0 then None
    else if Truthy(sources[0]) then sources[0]
    else FirstTruthy(sources[1..])
  }

  /** FirstTruthy is none exactly when no source is truthy, and otherwise the earliest truthy source. */
  lemma {:induction false} FirstTruthyIsEarliest(sources: seq<Option<string>>)
    ensures FirstTruthy(sources).None? <==> forall k :: 0 <= k < |sources| ==> !Truthy(sources[k])
    ensures forall k :: 0 <= k < |sources| && Truthy(sources[k]) && (forall j :: 0 <= j < k ==> !Truthy(sources[j]))
                     ==> FirstTruthy(sources) == sources[k]
  {
    if |sources| > 0 && !Truthy(sources[0]) {
      FirstTruthyIsEarliest(sources[1..]);
      assert forall k :: 1 <= k < |sources| ==> sources[1..][k - 1] == sources[k];
      forall k | 0 <= k < |sources| && Truthy(sources[k]) && (forall j :: 0 <= j < k ==> !Truthy(sources[j]))
        ensures FirstTruthy(sources) == sources[k]
      {
        assert k > 0;
        assert forall j :: 0 <= j < k - 1 ==> !Truthy(sources[1..][j]) by {
          forall j | 0 <= j < k - 1 ensures !Truthy(sources[1..][j]) {
            assert sources[1..][j] == sources[j + 1];
          }
        }
      }
    }
  }

  /** The resolver is the first-truthy rule over the order header, query parameter, environment. */
  lemma ResolveIsFirstTruthy(header: Option<string>, query: Option<string>, env: Option<string>)
    ensures Resolve(header, query, env) == FirstTruthy([header, query, env])
  {
    var s := [header, query, env];
    assert s[1..] == [query, env];
    assert s[1..][1..] == [env];
    assert s[1..][1..][1..] == [];
    assert FirstTruthy([env]) == if Truthy(env) then env else None;
    assert FirstTruthy([query, env]) == if Truthy(query) then query else FirstTruthy([env]);
  }
}
