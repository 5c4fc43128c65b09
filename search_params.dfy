/** The query string of a page URL (`URLSearchParams`): a list of name/value pairs in which
    a name may occur more than once. */
module SearchParams {
  import opened Common

  type Params = seq<(string, string)>

  /** `params.get(name)`: the value of the first pair with that name. */
  function Get(ps: Params, name: string): Option<string> {
    if ps == [] then None
    else if ps[0].0 == name then Some(ps[0].1)
    else Get(ps[1..], name)
  }

  function Count(ps: Params, name: string): nat {
    if ps == [] then 0 else (if ps[0].0 == name then 1 else 0) + Count(ps[1..], name)
  }

  /** `params.set(name, value)`: the first pair with that name takes the new value and every
      later one is dropped; without such a pair, the pair is appended. */
  function Set(ps: Params, name: string, value: string): Params {
    if ps == [] then [(name, value)]
    else if ps[0].0 == name then [(name, value)] + Filter(ps[1..], (p: (string, string)) => p.0 != name)
    else [ps[0]] + Set(ps[1..], name, value)
  }

  /** Filtering out the pairs of one name leaves none of them, and does not change what
      `get` finds for any other name. */
  lemma {:induction false} GetFilterOther(ps: Params, name: string, other: string)
    ensures Count(Filter(ps, (p: (string, string)) => p.0 != other), other) == 0
    ensures name != other ==> Get(Filter(ps, (p: (string, string)) => p.0 != other), name) == Get(ps, name)
  {
    if ps != [] {
      GetFilterOther(ps[1..], name, other);
    }
  }

  /** After `set`, `get` of that name gives the new value, the name occurs exactly once, and
      `get` of every other name is unchanged. */
  lemma {:induction false} GetSet(ps: Params, name: string, value: string, other: string)
    ensures Get(Set(ps, name, value), name) == Some(value)
    ensures Count(Set(ps, name, value), name) == 1
    ensures other != name ==> Get(Set(ps, name, value), other) == Get(ps, other)
  {
    if ps != [] {
      if ps[0].0 == name {
        var rest := Filter(ps[1..], (p: (string, string)) => p.0 != name);
        assert Set(ps, name, value)[1..] == rest;
        GetFilterOther(ps[1..], other, name);
      } else {
        GetSet(ps[1..], name, value, other);
        assert Set(ps, name, value)[1..] == Set(ps[1..], name, value);
      }
    }
  }

  /** `set` of one name leaves `get` of every other name as it was. */
  lemma SetKeepsOthers(ps: Params, name: string, value: string)
    ensures forall other :: other != name ==> Get(Set(ps, name, value), other) == Get(ps, other)
  {
    forall other | other != name
      ensures Get(Set(ps, name, value), other) == Get(ps, other)
    {
      GetSet(ps, name, value, other);
    }
  }

  /** A second `set` of the same name overrides the first: only the later value is kept. */
  lemma {:induction false} SetOverrides(ps: Params, name: string, v1: string, v2: string)
    ensures Set(Set(ps, name, v1), name, v2) == Set(ps, name, v2)
  {
    var f := (p: (string, string)) => p.0 != name;
    if ps == [] {
      assert Set([(name, v1)], name, v2) == [(name, v2)] + Filter([], f);
    } else if ps[0].0 == name {
      var rest := Filter(ps[1..], f);
      FilterKeepsAll(rest, f);
      assert Set(ps, name, v1)[1..] == rest;
    } else {
      SetOverrides(ps[1..], name, v1, v2);
      assert Set(ps, name, v1)[1..] == Set(ps[1..], name, v1);
    }
  }
}
