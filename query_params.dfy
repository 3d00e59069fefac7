/**
 * A query string as the structured list of (key, value) pairs it decodes to,
 * and the lookup `URLSearchParams.get`, which yields the value of the first
 * pair with the given key, or null when there is none.
 */
module QueryParams {
  import opened Wrappers

  type Query = seq<(string, string)>

  function Get(q: Query, key: string): (r: Option<string>)
    ensures r.None? <==> forall i :: 0 <= i < |q| ==> q[i].0 != key
    ensures r.Some? ==>
      exists i :: 0 <= i < |q| && q[i] == (key, r.value) &&
        forall j :: 0 <= j < i ==> q[j].0 != key
  {
    if q == [] then None
    else if q[0].0 == key then Some(q[0].1)
    else
      Get(q[1..], key)
  }
}
