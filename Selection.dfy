/*
 * Keeping the entries of a fixed table whose flag is set, in table order.
 * The game controller builds its descriptor lists this way (one capability
 * flag per table entry) and the gamepad driver picks its connected slots
 * this way (one "is connected" flag per slot). Both walk the table front to
 * back, so the definitions say what has been kept after the first k entries.
 */
module Selection {

  /** The entries among the first k of `table` whose flag is set, in table order. */
  function SelectFirst<T>(flags: seq<bool>, table: seq<T>, k: nat): (r: seq<T>)
    requires |flags| == |table| && k <= |table|
    ensures |r| <= k
  {
    if k == 0 then []
    else SelectFirst(flags, table, k - 1) + (if flags[k - 1] then [table[k - 1]] else [])
  }

  /** The entries of `table` whose flag is set, in table order. */
  function Select<T>(flags: seq<bool>, table: seq<T>): (r: seq<T>)
    requires |flags| == |table|
  {
    SelectFirst(flags, table, |table|)
  }

  /** The positions below k whose flag is set, in increasing order. */
  function IndicesFirst(flags: seq<bool>, k: nat): (r: seq<nat>)
    requires k <= |flags|
    ensures |r| <= k
    ensures forall j :: 0 <= j < |r| ==> r[j] < k
  {
    if k == 0 then []
    else IndicesFirst(flags, k - 1) + (if flags[k - 1] then [k - 1] else [])
  }

  /** The positions whose flag is set, in increasing order. */
  function Indices(flags: seq<bool>): seq<nat>
  {
    IndicesFirst(flags, |flags|)
  }

  predicate Ascending(s: seq<int>)
  {
    forall j, l :: 0 <= j < l < |s| ==> s[j] < s[l]
  }

  /** IndicesFirst lists exactly the flagged positions below k, each once, ascending. */
  lemma {:induction false} IndicesFirstSpec(flags: seq<bool>, k: nat)
    requires k <= |flags|
    ensures Ascending(IndicesFirst(flags, k))
    ensures forall i :: i in IndicesFirst(flags, k) <==> 0 <= i < k && flags[i]
  {
    if k > 0 {
      IndicesFirstSpec(flags, k - 1);
    }
  }

  /** Indices lists exactly the flagged positions, each once, ascending. */
  lemma IndicesSpec(flags: seq<bool>)
    ensures Ascending(Indices(flags))
    ensures forall i :: i in Indices(flags) <==> 0 <= i < |flags| && flags[i]
  {
    IndicesFirstSpec(flags, |flags|);
  }

  /**
   * SelectFirst keeps the table entries at the flagged positions, in order:
   * the j-th kept entry is the table entry at the j-th flagged position.
   */
  lemma {:induction false} SelectFirstByIndices<T>(flags: seq<bool>, table: seq<T>, k: nat)
    requires |flags| == |table| && k <= |table|
    ensures |SelectFirst(flags, table, k)| == |IndicesFirst(flags, k)|
    ensures forall j :: 0 <= j < |IndicesFirst(flags, k)| ==>
              SelectFirst(flags, table, k)[j] == table[IndicesFirst(flags, k)[j]]
  {
    if k > 0 {
      SelectFirstByIndices(flags, table, k - 1);
    }
  }

  /**
   * Select keeps the table entries at the flagged positions, in order: the
   * j-th kept entry is the table entry at the j-th flagged position.
   */
  lemma SelectByIndices<T>(flags: seq<bool>, table: seq<T>)
    requires |flags| == |table|
    ensures |Select(flags, table)| == |Indices(flags)|
    ensures forall j :: 0 <= j < |Indices(flags)| ==> Select(flags, table)[j] == table[Indices(flags)[j]]
  {
    SelectFirstByIndices(flags, table, |table|);
  }

  /** An entry is kept iff it sits at some flagged position of the table. */
  lemma SelectMembership<T>(flags: seq<bool>, table: seq<T>, x: T)
    requires |flags| == |table|
    ensures x in Select(flags, table) <==> exists i :: 0 <= i < |table| && flags[i] && table[i] == x
  {
    SelectByIndices(flags, table);
    IndicesSpec(flags);
    var r, ix := Select(flags, table), Indices(flags);
    if x in r {
      var j :| 0 <= j < |r| && r[j] == x;
      assert ix[j] in ix;
    }
    if exists i :: 0 <= i < |table| && flags[i] && table[i] == x {
      var i :| 0 <= i < |table| && flags[i] && table[i] == x;
      assert i in ix;
      var j :| 0 <= j < |ix| && ix[j] == i;
      assert r[j] == x;
    }
  }

  /**
   * Keeping a sub-list of a table whose keys are pairwise distinct gives a
   * list whose keys are pairwise distinct.
   */
  lemma SelectKeepsKeysDistinct<T>(flags: seq<bool>, table: seq<T>, key: T -> int)
    requires |flags| == |table|
    requires forall i, j :: 0 <= i < j < |table| ==> key(table[i]) != key(table[j])
    ensures forall j, l :: 0 <= j < l < |Select(flags, table)| ==>
              key(Select(flags, table)[j]) != key(Select(flags, table)[l])
  {
    SelectByIndices(flags, table);
    IndicesSpec(flags);
    var r, ix := Select(flags, table), Indices(flags);
    forall j, l | 0 <= j < l < |r| ensures key(r[j]) != key(r[l]) {
      assert ix[j] < ix[l];
    }
  }

  /**
   * When the table's keys are pairwise distinct, a table entry is kept
   * exactly when its own flag is set.
   */
  lemma SelectKeepsExactlyFlagged<T>(flags: seq<bool>, table: seq<T>, key: T -> int, i: int)
    requires |flags| == |table| && 0 <= i < |table|
    requires forall j, l :: 0 <= j < l < |table| ==> key(table[j]) != key(table[l])
    ensures table[i] in Select(flags, table) <==> flags[i]
  {
    SelectMembership(flags, table, table[i]);
    if table[i] in Select(flags, table) {
      var j :| 0 <= j < |table| && flags[j] && table[j] == table[i];
      assert key(table[j]) == key(table[i]);
    }
  }
}
