/** The `opt_param!` macro: push a query parameter only when its optional
    value is present, and `Lookup`, which reads a query list back by key. */
module Helpers {
  import opened Wire

  /** `opt_param!(params, name, opt)`: the list after the conditional push.
      Existing entries are kept in place; a present value adds exactly one
      pair at the end; an absent one adds nothing. */
  function OptParam(params: seq<Param>, name: string, opt: Option<string>): (r: seq<Param>)
    ensures |r| == |params| + (if opt.Some? then 1 else 0)
    ensures r[..|params|] == params
    ensures opt.Some? ==> r[|params|] == (name, opt.value)
  {
    match opt
    case Some(v) => params + [(name, v)]
    case None => params
  }

  /** The value of the first pair with key `key`, if there is one. */
  function Lookup(params: seq<Param>, key: string): (r: Option<string>)
    ensures r.Some? ==> (key, r.value) in params
    ensures r.None? <==> forall i :: 0 <= i < |params| ==> params[i].0 != key
    ensures r.Some? ==> exists i :: 0 <= i < |params| && params[i] == (key, r.value)
                                   && forall j :: 0 <= j < i ==> params[j].0 != key
    decreases |params|
  {
    if params == [] then None
    else if params[0].0 == key then Some(params[0].1)
    else
      var r := Lookup(params[1..], key);
      if r.Some? then
        var i :| 0 <= i < |params| - 1 && params[1..][i] == (key, r.value)
                 && forall j :: 0 <= j < i ==> params[1..][j].0 != key;
        assert params[i + 1] == (key, r.value);
        assert forall j :: 0 <= j < i + 1 ==> params[j].0 != key by {
          forall j | 0 <= j < i + 1 ensures params[j].0 != key {
            if j > 0 { assert params[j] == params[1..][j - 1]; }
          }
        }
        r
      else r
  }

  lemma {:induction false} LookupAppend(params: seq<Param>, p: Param, key: string)
    ensures Lookup(params + [p], key)
         == if Lookup(params, key).Some? then Lookup(params, key)
            else if p.0 == key then Some(p.1) else None
    decreases |params|
  {
    if params != [] {
      assert (params + [p])[1..] == params[1..] + [p];
      LookupAppend(params[1..], p, key);
    }
  }

  /** What a key reads as after `opt_param!`: an earlier entry wins, and
      otherwise the pushed value is found under its own name. */
  lemma LookupOptParam(params: seq<Param>, name: string, opt: Option<string>, key: string)
    ensures Lookup(OptParam(params, name, opt), key)
         == if Lookup(params, key).Some? then Lookup(params, key)
            else if key == name then opt else None
  {
    if opt.Some? {
      LookupAppend(params, (name, opt.value), key);
    }
  }
}
