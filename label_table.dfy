/**
 * A Python dictionary literal from labels to integer codes, kept as its
 * entries in source order, and the `d[key]` lookup on the dictionary it builds.
 */
module LabelTable {
  import opened Wrappers

  /** The entries `{label: code, ...}` of a dictionary literal, left to right. */
  type Table = seq<(string, int)>

  /** Some entry of the literal has key `k`. */
  predicate HasKey(t: Table, k: string)
  {
    exists i :: 0 <= i < |t| && t[i].0 == k
  }

  /** No label is listed twice. */
  predicate DistinctKeys(t: Table)
  {
    forall i, j :: 0 <= i < j < |t| ==> t[i].0 != t[j].0
  }

  /** The n entries carry the codes 0, 1, ..., n-1 in order. */
  predicate Dense(t: Table)
  {
    forall i :: 0 <= i < |t| ==> t[i].1 == i
  }

  /**
   * `d[k]` on the dictionary built from `t`: when a key is listed more than
   * once the last entry wins; a missing key raises, modelled as None.
   */
  function Lookup(t: Table, k: string): (r: Option<int>)
    ensures r.None? <==> !HasKey(t, k)
    ensures r.Some? ==> exists i :: 0 <= i < |t| && t[i] == (k, r.value) &&
                          forall j :: i < j < |t| ==> t[j].0 != k
    decreases |t|
  {
    if |t| == 0 then None
    else if t[|t| - 1].0 == k then Some(t[|t| - 1].1)
    else
      var r := Lookup(t[..|t| - 1], k);
      assert forall i :: 0 <= i < |t| - 1 ==> t[..|t| - 1][i] == t[i];
      r
  }

  /** With distinct keys, looking up the label of entry i yields exactly its code. */
  lemma LookupAt(t: Table, i: int)
    requires DistinctKeys(t) && 0 <= i < |t|
    ensures Lookup(t, t[i].0) == Some(t[i].1)
  {
    assert HasKey(t, t[i].0);
  }

  /**
   * A dense table with distinct keys is a bijection between its labels and
   * 0..n-1: codes are in range, different labels never share a code, and
   * every code in range belongs to some label.
   */
  lemma DenseLookup(t: Table, a: string, b: string, c: int)
    requires Dense(t) && DistinctKeys(t)
    ensures Lookup(t, a).Some? ==> 0 <= Lookup(t, a).value < |t|
    ensures Lookup(t, a).Some? && Lookup(t, a) == Lookup(t, b) ==> a == b
    ensures 0 <= c < |t| ==> Lookup(t, t[c].0) == Some(c)
  {
    if 0 <= c < |t| {
      LookupAt(t, c);
    }
  }

  /**
   * The table lists every value of an enumeration exactly once, entry i being
   * `all[i]` under its label and code.
   */
  ghost predicate Enumerates<E(!new)>(t: Table, all: seq<E>, labelOf: E -> string, codeOf: E -> int)
  {
    && |all| == |t|
    && (forall e :: e in all)
    && forall i :: 0 <= i < |t| ==> t[i] == (labelOf(all[i]), codeOf(all[i]))
  }

  /**
   * Looking up a string in a table that enumerates E yields the code of the
   * value it labels, and fails when it labels no value.
   */
  lemma EnumeratedLookup<E(!new)>(t: Table, all: seq<E>, labelOf: E -> string, codeOf: E -> int, s: string)
    requires DistinctKeys(t) && Enumerates(t, all, labelOf, codeOf)
    ensures forall e :: s == labelOf(e) ==> Lookup(t, s) == Some(codeOf(e))
    ensures Lookup(t, s).Some? <==> exists e :: s == labelOf(e)
  {
    forall e | s == labelOf(e)
      ensures Lookup(t, s) == Some(codeOf(e))
    {
      assert e in all;
      var j :| 0 <= j < |all| && all[j] == e;
      LookupAt(t, j);
    }
    if Lookup(t, s).Some? {
      var i :| 0 <= i < |t| && t[i] == (s, Lookup(t, s).value);
      assert s == labelOf(all[i]);
    }
  }

  /**
   * When a list holds exactly the labels of a table in order, membership in
   * the list is exactly a successful lookup.
   */
  lemma ListedKeys(t: Table, labels: seq<string>, s: string)
    requires |labels| == |t| && forall i :: 0 <= i < |t| ==> labels[i] == t[i].0
    ensures s in labels <==> Lookup(t, s).Some?
  {
    if s in labels {
      var i :| 0 <= i < |labels| && labels[i] == s;
      assert t[i].0 == s;
    }
    if Lookup(t, s).Some? {
      var i :| 0 <= i < |t| && t[i].0 == s;
      assert labels[i] == s;
    }
  }
}
