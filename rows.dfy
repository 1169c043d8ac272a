/** How the database answers the two kinds of read the data-access layer
    issues against a table held as a sequence of rows: `QueryRow` (the first
    row the WHERE clause matches, in table order) and a multi-row select
    (every matching row, in table order). Also the `IN (?, ...)` lists the
    layer builds by hand. */
module Rows {
  import opened Basic

  /** The first row that satisfies `where`, if any. */
  function First<T>(s: seq<T>, where: T -> bool): (r: Option<T>)
    ensures r.None? <==> forall i :: 0 <= i < |s| ==> !where(s[i])
    ensures r.Some? ==>
      exists i :: 0 <= i < |s| && s[i] == r.value && where(s[i]) &&
        forall j :: 0 <= j < i ==> !where(s[j])
  {
    if |s| == 0 then None
    else if where(s[0]) then Some(s[0])
    else
      var r := First(s[1..], where);
      assert forall i :: 1 <= i < |s| ==> s[i] == s[1..][i - 1];
      r
  }

  /** `QueryRow(...).Scan(...)`: a driver failure, "no rows", or the first match. */
  function QueryRow<T>(online: bool, s: seq<T>, where: T -> bool): (r: Result<T>)
    ensures !online ==> r == Err(Unavailable)
    ensures online && (forall i :: 0 <= i < |s| ==> !where(s[i])) ==> r == Err(NoRows)
    ensures r.Err? ==> r.error == Unavailable || r.error == NoRows
    ensures r.Ok? ==>
      online &&
      exists i :: 0 <= i < |s| && s[i] == r.value && where(s[i]) &&
        forall j :: 0 <= j < i ==> !where(s[j])
  {
    if !online then Err(Unavailable)
    else
      match First(s, where)
      case None => Err(NoRows)
      case Some(x) => Ok(x)
  }

  /** The rows that satisfy `where`, in table order. */
  function Filter<T(!new)>(s: seq<T>, where: T -> bool): (r: seq<T>)
    ensures forall x {:trigger x in r} :: x in r <==> x in s && where(x)
    ensures |r| <= |s|
    ensures (forall i :: 0 <= i < |s| ==> !where(s[i])) ==> r == []
  {
    if |s| == 0 then []
    else
      var init := Filter(s[..|s| - 1], where);
      assert forall x :: x in s <==> x in s[..|s| - 1] || x == s[|s| - 1];
      init + (if where(s[|s| - 1]) then [s[|s| - 1]] else [])
  }

  /** A row that matches, with no match before it, is the first match. */
  lemma FirstAt<T>(s: seq<T>, i: int, where: T -> bool)
    requires 0 <= i < |s| && where(s[i])
    requires forall j :: 0 <= j < i ==> !where(s[j])
    ensures First(s, where) == Some(s[i])
  {
  }

  /** A selection is empty exactly when nothing matches. */
  lemma FilterEmpty<T(!new)>(s: seq<T>, where: T -> bool)
    ensures |Filter(s, where)| == 0 <==> First(s, where).None?
  {
    if |Filter(s, where)| > 0 {
      assert Filter(s, where)[0] in Filter(s, where);
    }
  }

  /** The head of a selection is the first match: `rows[0]` after a select
      is the row `QueryRow` would return. */
  lemma {:induction false} FilterHead<T(!new)>(s: seq<T>, where: T -> bool)
    requires |Filter(s, where)| > 0
    ensures First(s, where) == Some(Filter(s, where)[0])
    decreases |s|
  {
    var n := |s| - 1;
    var init := s[..n];
    var f := Filter(init, where);
    assert Filter(s, where) == f + (if where(s[n]) then [s[n]] else []);
    if |f| > 0 {
      assert Filter(s, where)[0] == f[0];
      FilterHead(init, where);
      var k :| 0 <= k < |init| && init[k] == f[0] && where(init[k]) && forall j :: 0 <= j < k ==> !where(init[j]);
      assert forall j :: 0 <= j <= k ==> init[j] == s[j];
      FirstAt(s, k, where);
    } else {
      FirstMatchLast(s, where);
    }
  }

  /** When only the last row can match, and does, it is the first match. */
  lemma FirstMatchLast<T(!new)>(s: seq<T>, where: T -> bool)
    requires |s| > 0 && |Filter(s[..|s| - 1], where)| == 0 && where(s[|s| - 1])
    ensures First(s, where) == Some(s[|s| - 1])
  {
    var n := |s| - 1;
    FilterEmpty(s[..n], where);
    assert forall j :: 0 <= j < n ==> s[..n][j] == s[j];
    FirstAt(s, n, where);
  }

  /** Extending the scanned prefix by one row extends the selection by that row if it matches. */
  lemma FilterStep<T(!new)>(s: seq<T>, i: nat, where: T -> bool)
    requires i < |s|
    ensures Filter(s[..i + 1], where) ==
      Filter(s[..i], where) + (if where(s[i]) then [s[i]] else [])
  {
    assert s[..i + 1][..i] == s[..i];
  }

  /** Appending a row grows the selection by one exactly when the row matches. */
  lemma FilterLengthStep<T(!new)>(s: seq<T>, where: T -> bool)
    requires |s| > 0
    ensures |Filter(s, where)| == |Filter(s[..|s| - 1], where)| + (if where(s[|s| - 1]) then 1 else 0)
  {
  }

  /** Two selections whose conditions never hold together share out the rows:
      they are together no longer than the table, and exactly as long when
      every row meets one of the two conditions. */
  lemma {:induction false} DisjointFiltersBound<T(!new)>(s: seq<T>, w1: T -> bool, w2: T -> bool)
    requires forall i :: 0 <= i < |s| ==> !(w1(s[i]) && w2(s[i]))
    ensures |Filter(s, w1)| + |Filter(s, w2)| <= |s|
    ensures (forall i :: 0 <= i < |s| ==> w1(s[i]) || w2(s[i])) ==> |Filter(s, w1)| + |Filter(s, w2)| == |s|
    decreases |s|
  {
    if |s| > 0 {
      var n := |s| - 1;
      assert forall i :: 0 <= i < n ==> s[..n][i] == s[i];
      DisjointFiltersBound(s[..n], w1, w2);
      FilterLengthStep(s, w1);
      FilterLengthStep(s, w2);
    }
  }

  /** Two tables of equal length whose rows match `where` at the same positions
      have selections of equal length. */
  lemma {:induction false} FilterLengthAgrees<T(!new)>(s: seq<T>, t: seq<T>, where: T -> bool)
    requires |s| == |t|
    requires forall i :: 0 <= i < |s| ==> (where(s[i]) <==> where(t[i]))
    ensures |Filter(s, where)| == |Filter(t, where)|
    decreases |s|
  {
    if |s| > 0 {
      var n := |s| - 1;
      assert forall i :: 0 <= i < n ==> s[..n][i] == s[i] && t[..n][i] == t[i];
      FilterLengthAgrees(s[..n], t[..n], where);
      assert Filter(s, where) == Filter(s[..n], where) + (if where(s[n]) then [s[n]] else []);
      assert Filter(t, where) == Filter(t[..n], where) + (if where(t[n]) then [t[n]] else []);
    }
  }

  /** The `?` list of an `IN (...)` clause: `make([]string, cnt)` filled with "?". */
  method Placeholders(cnt: nat) returns (items: seq<string>)
    ensures |items| == cnt
    ensures forall k :: 0 <= k < cnt ==> items[k] == "?"
  {
    var a := new string[cnt];
    var index := 0;
    while index < cnt
      invariant 0 <= index <= cnt
      invariant forall k :: 0 <= k < index ==> a[k] == "?"
    {
      a[index] := "?";
      index := index + 1;
    }
    items := a[..];
  }

  /** The bound values of an `IN (...)` clause: `make([]interface{}, cnt)` filled by index. */
  method Params<V(0)>(values: seq<V>) returns (params: seq<V>)
    ensures params == values
  {
    var a := new V[|values|];
    var index := 0;
    while index < |values|
      invariant 0 <= index <= |values|
      invariant forall k :: 0 <= k < index ==> a[k] == values[k]
    {
      a[index] := values[index];
      index := index + 1;
    }
    params := a[..];
  }

  /** How the database takes a statement `... IN (items) ...` bound to `params`:
      a driver failure; a syntax error for an empty list; an argument-count
      error when the markers and the values differ in number; otherwise the
      set of values the list stands for. */
  function RunInList<V(!new)>(online: bool, items: seq<string>, params: seq<V>): (r: Result<set<V>>)
    ensures r.Ok? <==> online && |items| > 0 && |items| == |params|
    ensures online && |items| == 0 ==> r == Err(EmptyInList)
    ensures r.Ok? ==> forall v :: v in r.value <==> v in params
  {
    if !online then Err(Unavailable)
    else if |items| == 0 then Err(EmptyInList)
    else if |items| != |params| then Err(ArgumentCount)
    else Ok(set v | v in params)
  }
}
