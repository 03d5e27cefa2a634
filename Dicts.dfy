/** Python dicts from names to indices, which keep their insertion order: an association list
    in which each name occurs at most once. */
module Dicts {
  import opened Wrappers

  type Dict = seq<(string, nat)>

  predicate UniqueKeys(d: Dict)
  {
    forall i, j :: 0 <= i < j < |d| ==> d[i].0 != d[j].0
  }

  predicate HasKey(d: Dict, k: string)
  {
    exists i :: 0 <= i < |d| && d[i].0 == k
  }

  /** `d.get(k)`. */
  function Find(d: Dict, k: string): (r: Option<nat>)
    ensures r.None? <==> !HasKey(d, k)
    ensures r.Some? ==> exists i :: 0 <= i < |d| && d[i] == (k, r.value)
  {
    if d == [] then None
    else if d[0].0 == k then Some(d[0].1)
    else
      var r := Find(d[1..], k);
      assert r.Some? ==> exists i :: 0 <= i < |d[1..]| && d[1..][i] == (k, r.value);
      assert HasKey(d[1..], k) ==> HasKey(d, k) by {
        if HasKey(d[1..], k) {
          var i :| 0 <= i < |d[1..]| && d[1..][i].0 == k;
          assert d[i + 1].0 == k;
        }
      }
      r
  }

  /** `d[k] = v`: an existing key keeps its position, a new one goes last. */
  function Put(d: Dict, k: string, v: nat): (r: Dict)
    ensures |r| == if HasKey(d, k) then |d| else |d| + 1
    ensures !HasKey(d, k) ==> r == d + [(k, v)]
  {
    if d == [] then [(k, v)]
    else if d[0].0 == k then [(k, v)] + d[1..]
    else
      assert HasKey(d, k) <==> HasKey(d[1..], k) by {
        if HasKey(d, k) {
          var i :| 0 <= i < |d| && d[i].0 == k;
          assert i > 0 && d[1..][i - 1].0 == k;
        }
        if HasKey(d[1..], k) {
          var i :| 0 <= i < |d[1..]| && d[1..][i].0 == k;
          assert d[i + 1].0 == k;
        }
      }
      [d[0]] + Put(d[1..], k, v)
  }

  /** After `d[k] = v`, k maps to v and every other key is unaffected. */
  lemma {:induction false} PutFind(d: Dict, k: string, v: nat, k2: string)
    ensures Find(Put(d, k, v), k) == Some(v)
    ensures k2 != k ==> Find(Put(d, k, v), k2) == Find(d, k2)
  {
    if d != [] && d[0].0 != k {
      PutFind(d[1..], k, v, k2);
      assert ([d[0]] + Put(d[1..], k, v))[1..] == Put(d[1..], k, v);
    } else if d != [] {
      assert ([(k, v)] + d[1..])[1..] == d[1..];
    }
  }
}
