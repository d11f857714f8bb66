/** The decoded query string of the request URL (`url.searchParams`) as an
    ordered list of name/value pairs, and the `get` lookup the relay uses on
    it. Percent-decoding of the raw query string happens before this point. */
module SearchParams {
  import opened Wrappers

  datatype Param = Param(name: string, value: string)

  /** `searchParams.get(name)`: the value of the FIRST pair whose name is
      exactly `name` (names are case-sensitive here), or `None` (`null`). */
  function Get(params: seq<Param>, name: string): (r: Option<string>)
    ensures r.None? <==> forall i :: 0 <= i < |params| ==> params[i].name != name
    ensures r.Some? ==> exists i :: 0 <= i < |params| && params[i] == Param(name, r.value)
                                   && forall j :: 0 <= j < i ==> params[j].name != name
  {
    if |params| == 0 then None
    else if params[0].name == name then Some(params[0].value)
    else
      var r := Get(params[1..], name);
      assert forall i :: 1 <= i < |params| ==> params[i] == params[1..][i - 1];
      r
  }

  /** Appending more pairs never changes an answer the earlier pairs already
      give: a later duplicate `q` cannot override the first one. */
  lemma {:induction false} GetAppend(a: seq<Param>, b: seq<Param>, name: string)
    ensures Get(a + b, name) == if Get(a, name).Some? then Get(a, name) else Get(b, name)
  {
    if |a| == 0 {
      assert a + b == b;
    } else if a[0].name == name {
    } else {
      assert (a + b)[1..] == a[1..] + b;
      GetAppend(a[1..], b, name);
    }
  }
}
