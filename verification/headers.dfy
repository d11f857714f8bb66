/** The Fetch API `Headers` object as the relay uses it: a map from header
    name to a single value, where names are compared without regard to ASCII
    case. Every key stored in a `HeaderMap` is already lower-cased, which is
    how `Headers` normalises the names it is given. */
module HeaderMaps {
  import opened Wrappers

  /** An ASCII upper-case letter; header-name folding touches only these. */
  predicate IsUpper(c: char) {
    'A' <= c <= 'Z'
  }

  function LowerChar(c: char): char {
    if IsUpper(c) then (c as int + 32) as char else c
  }

  /** A name with no ASCII upper-case letter in it. */
  predicate IsLowerName(s: string) {
    forall i :: 0 <= i < |s| ==> !IsUpper(s[i])
  }

  /** ASCII lower-casing of a header name, character by character. */
  function Lower(name: string): (r: string)
    ensures |r| == |name|
    ensures forall i :: 0 <= i < |name| ==> r[i] == LowerChar(name[i])
    ensures IsLowerName(r)
    ensures IsLowerName(name) ==> r == name
  {
    seq(|name|, i requires 0 <= i < |name| => LowerChar(name[i]))
  }

  /** Two header names denote the same header. */
  predicate SameName(a: string, b: string) {
    Lower(a) == Lower(b)
  }

  /** A header set whose keys are all in normalised (lower-case) form. */
  type HeaderMap = m: map<string, string> | forall k :: k in m ==> IsLowerName(k)

  /** `headers.get(name)`: the value stored under the normalised `name`. */
  function Get(h: HeaderMap, name: string): Option<string> {
    if Lower(name) in h then Some(h[Lower(name)]) else None
  }

  /** `get` matches names without regard to case: it finds a header exactly
      when some stored name is a spelling of `name`, and then answers that
      header's value. */
  lemma GetAnySpelling(h: HeaderMap, name: string)
    ensures Get(h, name).Some? <==> exists k :: k in h && SameName(k, name)
    ensures forall k :: k in h && SameName(k, name) ==> Get(h, name) == Some(h[k])
  {
    if Lower(name) in h {
      assert SameName(Lower(name), name);
    }
  }

  /** `headers.set(name, value)`: replaces any value stored under any spelling
      of `name`; every other header keeps its value. */
  function Set(h: HeaderMap, name: string, value: string): (r: HeaderMap)
    ensures Get(r, name) == Some(value)
    ensures forall n :: !SameName(n, name) ==> Get(r, n) == Get(h, n)
    ensures r.Keys == h.Keys + {Lower(name)}
  {
    h[Lower(name) := value]
  }

  /** `headers.delete(name)`: removes the header under any spelling of `name`;
      every other header keeps its value. */
  function Delete(h: HeaderMap, name: string): (r: HeaderMap)
    ensures Get(r, name) == None
    ensures forall n :: !SameName(n, name) ==> Get(r, n) == Get(h, n)
    ensures r.Keys == h.Keys - {Lower(name)}
  {
    h - {Lower(name)}
  }

  /** Two header sets that answer every `get` alike are the same set: a
      `HeaderMap` holds nothing that `get` cannot see. */
  lemma GetExtensional(a: HeaderMap, b: HeaderMap)
    requires forall n :: Get(a, n) == Get(b, n)
    ensures a == b
  {
    forall k | k in a
      ensures k in b && b[k] == a[k]
    {
      assert Lower(k) == k;
      assert Get(a, k) == Some(a[k]);
      assert Get(b, k) == Get(a, k);
    }
    forall k | k in b
      ensures k in a
    {
      assert Lower(k) == k;
      assert Get(b, k) == Some(b[k]);
      assert Get(a, k) == Get(b, k);
    }
  }
}
