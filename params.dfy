/** The part of the WHATWG `URLSearchParams` interface the application uses:
    an ordered list of name/value pairs with `get`, `getAll`, `set`, `append`
    and `delete`. Percent-encoding is not modelled, so a query string is
    represented by its list of pairs. */
module Params {
  import opened Wrappers

  datatype Pair = Pair(key: string, value: string)

  /** `getAll(k)`: every value stored under `k`, in order. */
  function GetAll(ps: seq<Pair>, k: string): seq<string> {
    if ps == [] then []
    else (if ps[0].key == k then [ps[0].value] else []) + GetAll(ps[1..], k)
  }

  /** `get(k)`: the first value stored under `k`, or null. */
  function Get(ps: seq<Pair>, k: string): Option<string> {
    var vs := GetAll(ps, k);
    if vs == [] then None else Some(vs[0])
  }

  predicate HasKey(ps: seq<Pair>, k: string) {
    exists i :: 0 <= i < |ps| && ps[i].key == k
  }

  /** `delete(k)`: removes every pair named `k`. */
  function Deleted(ps: seq<Pair>, k: string): seq<Pair> {
    if ps == [] then []
    else (if ps[0].key == k then [] else [ps[0]]) + Deleted(ps[1..], k)
  }

  /** `append(k, v)` */
  function Appended(ps: seq<Pair>, k: string, v: string): seq<Pair> {
    ps + [Pair(k, v)]
  }

  /** `set(k, v)`: the first pair named `k` takes the value `v` and the other
      pairs named `k` are removed; without such a pair, `(k, v)` is appended. */
  function SetParam(ps: seq<Pair>, k: string, v: string): seq<Pair> {
    if HasKey(ps, k) then SetFirst(ps, k, v) else Appended(ps, k, v)
  }

  function SetFirst(ps: seq<Pair>, k: string, v: string): seq<Pair>
    requires HasKey(ps, k)
  {
    if ps[0].key == k then [Pair(k, v)] + Deleted(ps[1..], k)
    else
      assert HasKey(ps[1..], k) by {
        var i :| 0 <= i < |ps| && ps[i].key == k;
        assert ps[1..][i - 1].key == k;
      }
      [ps[0]] + SetFirst(ps[1..], k, v)
  }

  // ---------------------------------------------------------------- lemmas

  lemma {:induction false} GetAllConcat(a: seq<Pair>, b: seq<Pair>, k: string)
    ensures GetAll(a + b, k) == GetAll(a, k) + GetAll(b, k)
  {
    if a != [] {
      assert (a + b)[1..] == a[1..] + b;
      GetAllConcat(a[1..], b, k);
    } else {
      assert a + b == b;
    }
  }

  lemma {:induction false} GetAllEmpty(ps: seq<Pair>, k: string)
    ensures GetAll(ps, k) == [] <==> !HasKey(ps, k)
  {
    if ps != [] {
      GetAllEmpty(ps[1..], k);
      if HasKey(ps[1..], k) {
        var i :| 0 <= i < |ps| - 1 && ps[1..][i].key == k;
        assert ps[i + 1].key == k;
      }
      if HasKey(ps, k) && ps[0].key != k {
        var i :| 0 <= i < |ps| && ps[i].key == k;
        assert ps[1..][i - 1].key == k;
      }
    }
  }

  lemma {:induction false} DeleteGetAll(ps: seq<Pair>, k: string, k': string)
    ensures GetAll(Deleted(ps, k), k') == if k' == k then [] else GetAll(ps, k')
  {
    if ps != [] {
      DeleteGetAll(ps[1..], k, k');
      GetAllConcat(if ps[0].key == k then [] else [ps[0]], Deleted(ps[1..], k), k');
    }
  }

  lemma AppendGetAll(ps: seq<Pair>, k: string, v: string, k': string)
    ensures GetAll(Appended(ps, k, v), k') == GetAll(ps, k') + (if k' == k then [v] else [])
  {
    GetAllConcat(ps, [Pair(k, v)], k');
  }

  lemma {:induction false} SetFirstGetAll(ps: seq<Pair>, k: string, v: string, k': string)
    requires HasKey(ps, k)
    ensures GetAll(SetFirst(ps, k, v), k') == if k' == k then [v] else GetAll(ps, k')
  {
    if ps[0].key == k {
      GetAllConcat([Pair(k, v)], Deleted(ps[1..], k), k');
      DeleteGetAll(ps[1..], k, k');
    } else {
      var i :| 0 <= i < |ps| && ps[i].key == k;
      assert ps[1..][i - 1].key == k;
      SetFirstGetAll(ps[1..], k, v, k');
      GetAllConcat([ps[0]], SetFirst(ps[1..], k, v), k');
    }
  }

  /** After `set(k, v)`, `getAll(k)` is exactly `[v]` and every other name keeps its values. */
  lemma SetGetAll(ps: seq<Pair>, k: string, v: string, k': string)
    ensures GetAll(SetParam(ps, k, v), k') == if k' == k then [v] else GetAll(ps, k')
  {
    if HasKey(ps, k) {
      SetFirstGetAll(ps, k, v, k');
    } else {
      AppendGetAll(ps, k, v, k');
      GetAllEmpty(ps, k);
    }
  }

  // ---------------------------------------------------------------- object

  /** A `URLSearchParams` object, updated in place by `set`, `append` and `delete`. */
  class SearchParams {
    var pairs: seq<Pair>

    /** `new URLSearchParams(init)` */
    constructor (init: seq<Pair>)
      ensures pairs == init
    {
      pairs := init;
    }

    method Set(k: string, v: string)
      modifies this
      ensures pairs == SetParam(old(pairs), k, v)
    {
      pairs := SetParam(pairs, k, v);
    }

    method Append(k: string, v: string)
      modifies this
      ensures pairs == old(pairs) + [Pair(k, v)]
    {
      pairs := pairs + [Pair(k, v)];
    }

    method Delete(k: string)
      modifies this
      ensures pairs == Deleted(old(pairs), k)
    {
      pairs := Deleted(pairs, k);
    }
  }
}
