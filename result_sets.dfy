/** The result sets that the embedded SQL engine returns from `exec`, and the
    strict, order-sensitive comparison the exercise grader applies to them. */
module ResultSets {
  import opened Wrappers

  /** One cell of a result row. The engine yields JavaScript numbers (integer
      and real columns alike), strings, `null`, and a fresh `Uint8Array` for
      every BLOB value. No arithmetic is done on numbers. */
  datatype Cell = Null | Num(value: Number) | Text(text: string) | Blob(bytes: seq<bv8>)

  /** The JavaScript numbers the engine can return: finite values and the two
      infinities (an overflowing REAL such as `1e999`). The engine never
      returns NaN: SQLite stores NaN as NULL. */
  datatype Number = Finite(r: real) | PositiveInfinity | NegativeInfinity

  type Row = seq<Cell>

  /** One statement's output: `{columns, values}`. */
  datatype ResultSet = ResultSet(columns: seq<string>, values: seq<Row>)

  /** JavaScript's `===` on two cells taken from two different `exec` results.
      Numbers and strings compare by value, `null` only equals `null`, values
      of different types never match, and a BLOB is an array object compared
      by identity, so two BLOB cells from different results never match. */
  function StrictEquals(a: Cell, b: Cell): (r: bool)
    ensures r ==> a == b
    ensures a == b && !a.Blob? ==> r
    ensures a.Blob? || b.Blob? ==> !r
  {
    match (a, b)
    case (Null, Null) => true
    case (Num(x), Num(y)) => x == y
    case (Text(s), Text(t)) => s == t
    case _ => false
  }

  /** Two rows of equal length that agree cell by cell, in order. */
  predicate RowMatches(u: Row, c: Row)
  {
    |u| == |c| && forall j :: 0 <= j < |u| ==> StrictEquals(u[j], c[j])
  }

  /** Identical column names in the same order, the same number of rows, and
      rows matching position by position. */
  predicate ResultSetMatches(u: ResultSet, c: ResultSet)
  {
    && u.columns == c.columns
    && |u.values| == |c.values|
    && forall i :: 0 <= i < |u.values| ==> RowMatches(u.values[i], c.values[i])
  }

  /** When a submission's results count as equal to the reference results:
      both present, the same number of result sets, and, when there is at
      least one, matching first result sets. */
  predicate Equivalent(user: Option<seq<ResultSet>>, correct: Option<seq<ResultSet>>)
  {
    && user.Some? && correct.Some?
    && |user.value| == |correct.value|
    && (|user.value| > 0 ==> ResultSetMatches(user.value[0], correct.value[0]))
  }

  /** No BLOB cell anywhere in the rows of `rs`. */
  predicate BlobFree(rs: ResultSet)
  {
    forall i, j :: 0 <= i < |rs.values| && 0 <= j < |rs.values[i]| ==> !rs.values[i][j].Blob?
  }

  /** `compareResults`: the fail-fast walk over columns, rows and cells. */
  method CompareResults(userResult: Option<seq<ResultSet>>, correctResult: Option<seq<ResultSet>>)
    returns (same: bool)
    ensures same == Equivalent(userResult, correctResult)
  {
    if userResult.None? || correctResult.None? {
      return false;
    }
    var user, correct := userResult.value, correctResult.value;
    if |user| == 0 && |correct| == 0 {
      return true;
    }
    if |user| != |correct| {
      return false;
    }
    // Both lists are non-empty here, so the first result sets always exist.
    var userRes, correctRes := user[0], correct[0];

    if |userRes.columns| != |correctRes.columns| {
      return false;
    }
    for i := 0 to |userRes.columns|
      invariant userRes.columns[..i] == correctRes.columns[..i]
    {
      if userRes.columns[i] != correctRes.columns[i] {
        return false;
      }
    }
    assert userRes.columns == userRes.columns[..|userRes.columns|];
    assert correctRes.columns == correctRes.columns[..|correctRes.columns|];

    if |userRes.values| != |correctRes.values| {
      return false;
    }
    for i := 0 to |userRes.values|
      invariant forall k :: 0 <= k < i ==> RowMatches(userRes.values[k], correctRes.values[k])
    {
      var userRow, correctRow := userRes.values[i], correctRes.values[i];
      if |userRow| != |correctRow| {
        return false;
      }
      for j := 0 to |userRow|
        invariant forall l :: 0 <= l < j ==> StrictEquals(userRow[l], correctRow[l])
      {
        if !StrictEquals(userRow[j], correctRow[j]) {
          return false;
        }
      }
    }
    return true;
  }

  // ---------------------------------------------------------------------
  // Properties of the comparison

  lemma AbsentNeverEquivalent(user: Option<seq<ResultSet>>, correct: Option<seq<ResultSet>>)
    requires user.None? || correct.None?
    ensures !Equivalent(user, correct)
  {
  }

  lemma EmptyListsEquivalent()
    ensures Equivalent(Some([]), Some([]))
  {
  }

  lemma DifferentCountsNotEquivalent(user: seq<ResultSet>, correct: seq<ResultSet>)
    requires |user| != |correct|
    ensures !Equivalent(Some(user), Some(correct))
  {
  }

  /** Result sets after the first never influence the verdict. */
  lemma OnlyFirstResultSetCompared(user: seq<ResultSet>, correct: seq<ResultSet>,
                                   user': seq<ResultSet>, correct': seq<ResultSet>)
    requires |user| == |user'| && |correct| == |correct'|
    requires |user| > 0 ==> user[0] == user'[0]
    requires |correct| > 0 ==> correct[0] == correct'[0]
    ensures Equivalent(Some(user), Some(correct)) == Equivalent(Some(user'), Some(correct'))
  {
  }

  lemma ColumnsDifferNotEquivalent(user: seq<ResultSet>, correct: seq<ResultSet>)
    requires |user| > 0 && |correct| > 0
    requires user[0].columns != correct[0].columns
    ensures !Equivalent(Some(user), Some(correct))
  {
  }

  lemma RowCountsDifferNotEquivalent(user: seq<ResultSet>, correct: seq<ResultSet>)
    requires |user| > 0 && |correct| > 0
    requires |user[0].values| != |correct[0].values|
    ensures !Equivalent(Some(user), Some(correct))
  {
  }

  /** A single cell that is not strictly equal to its counterpart fails the comparison. */
  lemma CellDiffersNotEquivalent(user: seq<ResultSet>, correct: seq<ResultSet>, i: nat, j: nat)
    requires |user| > 0 && |correct| > 0
    requires i < |user[0].values| && i < |correct[0].values|
    requires j < |user[0].values[i]| && j < |correct[0].values[i]|
    requires !StrictEquals(user[0].values[i][j], correct[0].values[i][j])
    ensures !Equivalent(Some(user), Some(correct))
  {
  }

  /** A BLOB cell in the user's first result set makes a match impossible. */
  lemma BlobNeverEquivalent(user: seq<ResultSet>, correct: seq<ResultSet>, i: nat, j: nat)
    requires |user| > 0
    requires i < |user[0].values| && j < |user[0].values[i]|
    requires user[0].values[i][j].Blob?
    ensures !Equivalent(Some(user), Some(correct))
  {
  }

  lemma Symmetric(user: Option<seq<ResultSet>>, correct: Option<seq<ResultSet>>)
    ensures Equivalent(user, correct) == Equivalent(correct, user)
  {
  }

  /** Row matching is structural equality for rows without BLOB cells. */
  lemma RowMatchesIsEquality(u: Row, c: Row)
    requires forall j :: 0 <= j < |u| ==> !u[j].Blob?
    ensures RowMatches(u, c) <==> u == c
  {
    if RowMatches(u, c) {
      assert forall j :: 0 <= j < |u| ==> u[j] == c[j];
    }
  }

  /** For results without BLOB cells the comparison is exactly: the same number
      of result sets and, when there is one, an identical first result set
      (same columns in the same order and the same rows in the same order). */
  lemma EquivalentIffFirstSetsEqual(user: seq<ResultSet>, correct: seq<ResultSet>)
    requires |user| > 0 ==> BlobFree(user[0])
    ensures Equivalent(Some(user), Some(correct))
        <==> |user| == |correct| && (|user| > 0 ==> user[0] == correct[0])
  {
    if |user| > 0 && |user| == |correct| {
      var u, c := user[0], correct[0];
      if ResultSetMatches(u, c) {
        forall i | 0 <= i < |u.values|
          ensures u.values[i] == c.values[i]
        {
          RowMatchesIsEquality(u.values[i], c.values[i]);
        }
        assert u.values == c.values;
      }
      if u == c {
        forall i | 0 <= i < |u.values|
          ensures RowMatches(u.values[i], c.values[i])
        {
          RowMatchesIsEquality(u.values[i], c.values[i]);
        }
      }
    }
  }

  /** Identical results without BLOB cells, including ones with columns but no
      rows, always compare equal. */
  lemma Reflexive(results: seq<ResultSet>)
    requires |results| > 0 ==> BlobFree(results[0])
    ensures Equivalent(Some(results), Some(results))
  {
    EquivalentIffFirstSetsEqual(results, results);
  }

  /** Same columns, same rows as a set, different order: not equivalent. */
  lemma RowOrderMatters(user: ResultSet, correct: ResultSet)
    requires BlobFree(user)
    requires user.columns == correct.columns && user.values != correct.values
    ensures !Equivalent(Some([user]), Some([correct]))
  {
    EquivalentIffFirstSetsEqual([user], [correct]);
  }
}
