/**
  The next-page request parameters that fetch_all_ads derives from the
  `paging.next` URL of a response (app.py:113-117). The query string is taken
  as already split into (key, value) pairs, in the order they appear.
*/
module Paging {

  /** Query parameters of one request: name to value. */
  type Params = map<string, string>

  /** One `key=value` field of a query string, already decoded. */
  type QueryPair = (string, string)

  /** Every value given for key k, in order of appearance. */
  function ValuesOf(pairs: seq<QueryPair>, k: string): seq<string>
  {
    if pairs == [] then []
    else (if pairs[0].0 == k then [pairs[0].1] else []) + ValuesOf(pairs[1..], k)
  }

  /** Some pair carries key k. */
  predicate HasKey(pairs: seq<QueryPair>, k: string) {
    exists i :: 0 <= i < |pairs| && pairs[i].0 == k
  }

  /** Pair i is the first one that carries its key. */
  predicate FirstOfKey(pairs: seq<QueryPair>, i: nat)
    requires i < |pairs|
  {
    forall j :: 0 <= j < i ==> pairs[j].0 != pairs[i].0
  }

  lemma {:induction false} ValuesOfAppend(pairs: seq<QueryPair>, p: QueryPair, k: string)
    ensures ValuesOf(pairs + [p], k) == ValuesOf(pairs, k) + (if p.0 == k then [p.1] else [])
    decreases |pairs|
  {
    if pairs == [] {
      assert [p][1..] == [];
    } else {
      assert (pairs + [p])[1..] == pairs[1..] + [p];
      ValuesOfAppend(pairs[1..], p, k);
    }
  }

  /**
    `parse_qs` on the pairs: each key that occurs is given the list of its
    values, in the order they occur (ParseQueryGroups).
  */
  function ParseQuery(pairs: seq<QueryPair>): (q: map<string, seq<string>>)
    ensures forall k :: k in q ==> q[k] != []
    decreases |pairs|
  {
    if pairs == [] then map[]
    else
      var q := ParseQuery(pairs[..|pairs| - 1]);
      var last := pairs[|pairs| - 1];
      q[last.0 := (if last.0 in q then q[last.0] else []) + [last.1]]
  }

  /** parse_qs groups the values by key: a key is present exactly when it occurs, with all its values in order. */
  lemma {:induction false} ParseQueryGroups(pairs: seq<QueryPair>)
    ensures forall k :: k in ParseQuery(pairs) <==> ValuesOf(pairs, k) != []
    ensures forall k :: k in ParseQuery(pairs) ==> ParseQuery(pairs)[k] == ValuesOf(pairs, k)
    decreases |pairs|
  {
    if pairs != [] {
      var init := pairs[..|pairs| - 1];
      var last := pairs[|pairs| - 1];
      assert init + [last] == pairs;
      ParseQueryGroups(init);
      forall k ensures ValuesOf(pairs, k) == ValuesOf(init, k) + (if last.0 == k then [last.1] else []) {
        ValuesOfAppend(init, last, k);
      }
    }
  }

  /** The first value of a key is the value of the first pair that carries it. */
  lemma {:induction false} FirstValue(pairs: seq<QueryPair>, k: string)
    ensures ValuesOf(pairs, k) != [] <==> HasKey(pairs, k)
    ensures forall i :: 0 <= i < |pairs| && pairs[i].0 == k && FirstOfKey(pairs, i) ==>
                ValuesOf(pairs, k)[0] == pairs[i].1
    decreases |pairs|
  {
    if pairs != [] {
      FirstValue(pairs[1..], k);
      if pairs[0].0 != k {
        forall i | 0 <= i < |pairs| && pairs[i].0 == k
          ensures 0 < i && pairs[1..][i - 1].0 == k
        {
        }
        forall i | 1 <= i < |pairs| && pairs[i].0 == k && FirstOfKey(pairs, i)
          ensures FirstOfKey(pairs[1..], i - 1)
        {
        }
      }
    }
  }

  /**
    The parameters of the next request (app.py:115-117): `parse_qs`, then the
    first value of each key.
  */
  function CursorParams(pairs: seq<QueryPair>): Params
  {
    var q := ParseQuery(pairs);
    map k | k in q :: q[k][0]
  }

  /**
    The next request carries every key of the query string, each with the
    value of its first occurrence, and nothing else: no parameter of the
    previous request carries over.
  */
  lemma CursorParamsFirstWins(pairs: seq<QueryPair>)
    ensures forall k :: k in CursorParams(pairs) <==> HasKey(pairs, k)
    ensures forall i :: 0 <= i < |pairs| && FirstOfKey(pairs, i) ==>
              pairs[i].0 in CursorParams(pairs) && CursorParams(pairs)[pairs[i].0] == pairs[i].1
  {
    var p := CursorParams(pairs);
    ParseQueryGroups(pairs);
    forall k ensures k in p <==> HasKey(pairs, k) {
      FirstValue(pairs, k);
    }
    forall i | 0 <= i < |pairs| && FirstOfKey(pairs, i)
      ensures pairs[i].0 in p && p[pairs[i].0] == pairs[i].1
    {
      FirstValue(pairs, pairs[i].0);
    }
  }
}
