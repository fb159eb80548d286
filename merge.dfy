/**
  The all-or-nothing merge that both the cache read and the fetch use:
  each term is queried, every answer is wrapped as `{ [key]: value }`,
  and the wrapped answers are folded together with object spread, later
  keys overriding earlier ones. One missing answer makes the whole merge
  fail.
 */
module Merge {
  import opened Wrappers
  import opened Types

  /** The keys of a term list, as a set. */
  function KeysOf(ts: seq<Term>): set<string> {
    set i | 0 <= i < |ts| :: ts[i].key
  }

  /** No two terms share a key. */
  predicate DistinctKeys(ts: seq<Term>) {
    forall i, j :: 0 <= i < j < |ts| ==> ts[i].key != ts[j].key
  }

  /** Term i is the last term with its key, so its answer is the one the spread keeps. */
  predicate LastWithKey(ts: seq<Term>, i: int)
    requires 0 <= i < |ts|
  {
    forall j :: i < j < |ts| ==> ts[j].key != ts[i].key
  }

  /**
    Folds the answers for the terms, in term order, into one key -> value
    object; it fails exactly when some answer is missing.
   */
  function Combine(ts: seq<Term>, answers: seq<Option<Value>>): (r: Option<map<string, Value>>)
    requires |answers| == |ts|
    ensures r.Some? <==> forall i :: 0 <= i < |answers| ==> answers[i].Some?
  {
    if ts == [] then Some(map[])
    else
      var n := |ts| - 1;
      var init := Combine(ts[..n], answers[..n]);
      assert init.None? ==> exists i :: 0 <= i < n && answers[..n][i].None?;
      if answers[n].None? || init.None? then None
      else Some(init.value[ts[n].key := answers[n].value])
  }

  /** A successful merge has exactly the term keys. */
  lemma {:induction false} CombineKeys(ts: seq<Term>, answers: seq<Option<Value>>)
    requires |answers| == |ts| && Combine(ts, answers).Some?
    ensures Combine(ts, answers).value.Keys == KeysOf(ts)
  {
    if ts != [] {
      var n := |ts| - 1;
      CombineKeys(ts[..n], answers[..n]);
      forall k | k in KeysOf(ts) ensures k in KeysOf(ts[..n]) + {ts[n].key} {
        var i :| 0 <= i < |ts| && ts[i].key == k;
        if i < n { assert ts[..n][i].key == k; }
      }
      assert KeysOf(ts[..n]) <= KeysOf(ts) by {
        forall k | k in KeysOf(ts[..n]) ensures k in KeysOf(ts) {
          var i :| 0 <= i < n && ts[..n][i].key == k;
          assert ts[i].key == k;
        }
      }
    }
  }

  /** In a successful merge, the last term with a key decides that key's value. */
  lemma {:induction false} CombineLast(ts: seq<Term>, answers: seq<Option<Value>>, i: int)
    requires |answers| == |ts| && Combine(ts, answers).Some?
    requires 0 <= i < |ts| && LastWithKey(ts, i)
    ensures ts[i].key in Combine(ts, answers).value
    ensures Combine(ts, answers).value[ts[i].key] == answers[i].value
  {
    var n := |ts| - 1;
    if i < n {
      assert LastWithKey(ts[..n], i);
      CombineLast(ts[..n], answers[..n], i);
    }
  }

  /** With distinct keys every term's key holds exactly that term's answer. */
  lemma CombineDistinct(ts: seq<Term>, answers: seq<Option<Value>>, i: int)
    requires |answers| == |ts| && DistinctKeys(ts) && 0 <= i < |ts|
    requires Combine(ts, answers).Some?
    ensures ts[i].key in Combine(ts, answers).value
    ensures Combine(ts, answers).value[ts[i].key] == answers[i].value
  {
    CombineLast(ts, answers, i);
  }
}
