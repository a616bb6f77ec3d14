/** Small data the other modules share. */
module Options {
  datatype Option<+T> = None | Some(value: T)
}

/** Filtering a sequence of rows, and the few laws a pair of deletions needs. */
module Rows {
  import opened Options

  /** The rows `keep` admits, in their order. */
  function Filter<T>(rows: seq<T>, keep: T -> bool): (kept: seq<T>)
    ensures |kept| <= |rows|
  {
    if rows == [] then []
    else if keep(rows[0]) then [rows[0]] + Filter(rows[1..], keep)
    else Filter(rows[1..], keep)
  }

  lemma {:induction false} FilterMembers<T(!new)>(rows: seq<T>, keep: T -> bool)
    ensures forall row :: row in Filter(rows, keep) <==> row in rows && keep(row)
  {
    if rows != [] {
      FilterMembers(rows[1..], keep);
      assert rows == [rows[0]] + rows[1..];
    }
  }

  /** What one condition keeps and what it deletes are all the rows. */
  lemma {:induction false} FilterCounts<T>(rows: seq<T>, keep: T -> bool)
    ensures |rows| == |Filter(rows, keep)| + |Filter(rows, row => !keep(row))|
  {
    if rows != [] {
      FilterCounts(rows[1..], keep);
    }
  }

  /** Two deletions keep the same rows in either order. */
  lemma {:induction false} FilterCommutes<T>(rows: seq<T>, one: T -> bool, other: T -> bool)
    ensures Filter(Filter(rows, one), other) == Filter(Filter(rows, other), one)
  {
    if rows != [] {
      FilterCommutes(rows[1..], one, other);
      var head := [rows[0]];
      var first, second := Filter(rows[1..], one), Filter(rows[1..], other);
      if one(rows[0]) { assert (head + first)[1..] == first; }
      if other(rows[0]) { assert (head + second)[1..] == second; }
    }
  }

  /** Two conditions that agree on every row keep the same rows. */
  lemma {:induction false} FilterAgrees<T>(rows: seq<T>, one: T -> bool, other: T -> bool)
    requires forall row :: row in rows ==> one(row) == other(row)
    ensures Filter(rows, one) == Filter(rows, other)
  {
    if rows != [] {
      FilterAgrees(rows[1..], one, other);
    }
  }

  /** A deletion that deletes no row changes nothing. */
  lemma {:induction false} FilterKeepsAll<T>(rows: seq<T>, keep: T -> bool)
    requires forall row :: row in rows ==> keep(row)
    ensures Filter(rows, keep) == rows
  {
    if rows != [] {
      FilterKeepsAll(rows[1..], keep);
    }
  }

  /** A filter keeps as many rows as it was given exactly when it was given none to delete. */
  lemma {:induction false} FilterAllOrFewer<T(!new)>(rows: seq<T>, keep: T -> bool)
    ensures |Filter(rows, keep)| == |rows| <==> forall row :: row in rows ==> keep(row)
  {
    if rows != [] {
      FilterAllOrFewer(rows[1..], keep);
      assert rows == [rows[0]] + rows[1..];
    }
  }

  /** The first row `found` admits. */
  function Find<T>(rows: seq<T>, found: T -> bool): (row: Option<T>)
  {
    if rows == [] then None
    else if found(rows[0]) then Some(rows[0])
    else Find(rows[1..], found)
  }

  lemma {:induction false} FindMeaning<T>(rows: seq<T>, found: T -> bool)
    ensures Find(rows, found).None? <==> forall i :: 0 <= i < |rows| ==> !found(rows[i])
    ensures Find(rows, found).Some? ==> Find(rows, found).value in rows && found(Find(rows, found).value)
  {
    if rows != [] && !found(rows[0]) {
      FindMeaning(rows[1..], found);
      assert forall i :: 0 < i < |rows| ==> rows[i] == rows[1..][i - 1];
      if Find(rows[1..], found).None? {
        forall i | 0 <= i < |rows| ensures !found(rows[i]) {
          if i > 0 { assert rows[i] == rows[1..][i - 1]; }
        }
      }
    }
  }

  /** A deletion that spares every row searched for finds the same row. */
  lemma {:induction false} FindAfterFilter<T>(rows: seq<T>, keep: T -> bool, found: T -> bool)
    requires forall row :: row in rows && found(row) ==> keep(row)
    ensures Find(Filter(rows, keep), found) == Find(rows, found)
  {
    if rows != [] {
      FindAfterFilter(rows[1..], keep, found);
      var rest := Filter(rows[1..], keep);
      if keep(rows[0]) { assert ([rows[0]] + rest)[1..] == rest; }
    }
  }
}
