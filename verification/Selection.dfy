/** Choosing a seeder for every chunk from the seeders' `chunk_numbers` reports. */
module Selection {

  /** A parsed report: every chunk ("-1"), none ("-2"), or the listed ones (numbered from 1). */
  datatype Report = Everything | Nothing | Listed(chunks: seq<int>)

  /** A seeder's index and the chunk numbers it reported. */
  type Row = (nat, seq<int>)

  function Numbers(report: Report, nchunks: nat): seq<int> {
    match report
    case Everything => seq(nchunks, i => i + 1)
    case Nothing => []
    case Listed(chunks) => chunks
  }

  function Rows(reports: seq<Report>, nchunks: nat): seq<Row> {
    seq(|reports|, i requires 0 <= i < |reports| => (i, Numbers(reports[i], nchunks)))
  }

  ghost predicate InRange(v: seq<Row>, nchunks: nat) {
    forall i, c :: 0 <= i < |v| && c in v[i].1 ==> 1 <= c <= nchunks
  }

  /** What the sort guarantees: the same rows, in some order of non-decreasing list length. */
  ghost predicate SortedPermutation(v: seq<Row>, rows: seq<Row>) {
    && multiset(v) == multiset(rows)
    && forall i, j :: 0 <= i < j < |v| ==> |v[i].1| <= |v[j].1|
  }

  /** The matrix of the source: column 0 the seeder, column c set to 1 when it holds chunk number c. */
  ghost predicate Filled(matrix: array2<int>, v: seq<Row>, rows: nat)
    requires rows <= |v| && rows <= matrix.Length0
    reads matrix
  {
    forall i, j :: 0 <= i < rows && 0 <= j < matrix.Length1 ==>
      matrix[i, j] == if j == 0 then v[i].0 else if j in v[i].1 then 1 else -1
  }

  method Populate(matrix: array2<int>, v: seq<Row>)
    requires matrix.Length0 == |v| && matrix.Length1 >= 1
    requires InRange(v, matrix.Length1 - 1)
    requires forall i, j :: 0 <= i < |v| && 0 <= j < matrix.Length1 ==> matrix[i, j] == -1
    modifies matrix
    ensures Filled(matrix, v, |v|)
  {
    for count := 0 to |v|
      invariant Filled(matrix, v, count)
      invariant forall i, j :: count <= i < |v| && 0 <= j < matrix.Length1 ==> matrix[i, j] == -1
    {
      matrix[count, 0] := v[count].0;
      var held := v[count].1;
      for at := 0 to |held|
        invariant Filled(matrix, v, count)
        invariant forall i, j :: count < i < |v| && 0 <= j < matrix.Length1 ==> matrix[i, j] == -1
        invariant forall j :: 0 <= j < matrix.Length1 ==>
          matrix[count, j] == if j == 0 then v[count].0 else if j in held[..at] then 1 else -1
      {
        assert held[at] in v[count].1;
        matrix[count, held[at]] := 1;
        assert held[..at + 1] == held[..at] + [held[at]];
      }
      assert held[..|held|] == held;
    }
  }

  /** The first row, in sorted order, that holds chunk number `c`. */
  function FirstHolder(v: seq<Row>, c: int): (seeder: int)
  {
    if v == [] then -1 else if c in v[0].1 then v[0].0 else FirstHolder(v[1..], c)
  }

  lemma {:induction false} FirstHolderSkips(v: seq<Row>, c: int, i: nat)
    requires i <= |v| && forall k :: 0 <= k < i ==> c !in v[k].1
    ensures FirstHolder(v, c) == FirstHolder(v[i..], c)
  {
    if i > 0 {
      FirstHolderSkips(v[1..], c, i - 1);
      assert v[1..][i - 1..] == v[i..];
    }
  }

  method Decide(matrix: array2<int>, chunks: array<int>, ghost v: seq<Row>)
    requires matrix.Length0 == |v| && matrix.Length1 == chunks.Length + 1
    requires Filled(matrix, v, |v|)
    requires forall x :: 0 <= x < chunks.Length ==> chunks[x] == -1
    modifies chunks
    ensures forall x :: 0 <= x < chunks.Length ==> chunks[x] == FirstHolder(v, x + 1)
  {
    for j := 1 to matrix.Length1
      invariant forall x :: 0 <= x < j - 1 ==> chunks[x] == FirstHolder(v, x + 1)
      invariant forall x :: j - 1 <= x < chunks.Length ==> chunks[x] == -1
    {
      for i := 0 to matrix.Length0
        invariant forall x :: 0 <= x < j - 1 ==> chunks[x] == FirstHolder(v, x + 1)
        invariant forall x :: j <= x < chunks.Length ==> chunks[x] == -1
        invariant chunks[j - 1] == -1 ==> forall k :: 0 <= k < i ==> j !in v[k].1
        invariant chunks[j - 1] != -1 ==> chunks[j - 1] == FirstHolder(v, j)
      {
        if matrix[i, j] != -1 {
          var x := j - 1;
          if chunks[x] == -1 {
            chunks[x] := matrix[i, 0];
            FirstHolderSkips(v, j, i);
          }
        }
      }
      if chunks[j - 1] == -1 {
        FirstHolderSkips(v, j, |v|);
      }
    }
  }

  predicate Holds(reports: seq<Report>, nchunks: nat, seeder: nat, c: int) {
    seeder < |reports| && c in Numbers(reports[seeder], nchunks)
  }

  /** `s` is a right choice for chunk number `c`. */
  ghost predicate RightChoice(reports: seq<Report>, nchunks: nat, c: int, s: int) {
    && (s == -1 <==> forall t: nat :: !Holds(reports, nchunks, t, c))
    && (s != -1 ==>
        && s >= 0
        && Holds(reports, nchunks, s, c)
        && forall t: nat :: Holds(reports, nchunks, t, c) ==>
             |Numbers(reports[s], nchunks)| <= |Numbers(reports[t], nchunks)|)
  }

  /** The index of the first holding row, or -1; in sorted order its list is a shortest one. */
  lemma {:induction false} FirstHolderIsShortest(v: seq<Row>, c: int) returns (i: int)
    requires forall i, j :: 0 <= i < j < |v| ==> |v[i].1| <= |v[j].1|
    ensures -1 <= i < |v|
    ensures i == -1 ==> FirstHolder(v, c) == -1 && forall j :: 0 <= j < |v| ==> c !in v[j].1
    ensures i >= 0 ==> v[i].0 == FirstHolder(v, c) && c in v[i].1
    ensures i >= 0 ==> forall j :: 0 <= j < |v| && c in v[j].1 ==> |v[i].1| <= |v[j].1|
  {
    if v == [] {
      i := -1;
    } else if c in v[0].1 {
      i := 0;
    } else {
      i := FirstHolderIsShortest(v[1..], c);
      forall j | 0 < j < |v| ensures v[j] == v[1..][j - 1] {
      }
      i := if i == -1 then -1 else i + 1;
    }
  }

  lemma PermutationMembers(v: seq<Row>, rows: seq<Row>)
    requires multiset(v) == multiset(rows)
    ensures |v| == |rows|
    ensures forall r :: r in v <==> r in rows
  {
    assert |multiset(v)| == |multiset(rows)|;
    forall r ensures r in v <==> r in rows {
      assert r in multiset(v) <==> r in multiset(rows);
    }
  }

  lemma {:induction false} ChoiceIsRight(reports: seq<Report>, nchunks: nat, v: seq<Row>, c: int)
    requires SortedPermutation(v, Rows(reports, nchunks))
    ensures RightChoice(reports, nchunks, c, FirstHolder(v, c))
  {
    var rows := Rows(reports, nchunks);
    PermutationMembers(v, rows);
    var i := FirstHolderIsShortest(v, c);
    forall t: nat | Holds(reports, nchunks, t, c)
      ensures i >= 0 && |v[i].1| <= |Numbers(reports[t], nchunks)|
    {
      assert rows[t] in v;
    }
    if i >= 0 {
      assert v[i] in rows;
      assert Holds(reports, nchunks, v[i].0, c);
    }
  }

  /**
    The pipeline: sort, `populate`, `Decide`. `order` is the sort's result, whichever it is. The flag says
    that some seeder did not report everything; otherwise the caller ignores the choices and goes round robin.
   */
  method CalcChunk(reports: seq<Report>, nchunks: nat, order: seq<Row>) returns (flag: bool, seeders: array<int>)
    requires |reports| > 0
    requires InRange(Rows(reports, nchunks), nchunks)
    requires SortedPermutation(order, Rows(reports, nchunks))
    ensures flag <==> exists i :: 0 <= i < |reports| && !reports[i].Everything?
    ensures seeders.Length == nchunks
    ensures forall x :: 0 <= x < nchunks ==> RightChoice(reports, nchunks, x + 1, seeders[x])
  {
    flag := false;
    for i := 0 to |reports|
      invariant flag <==> exists k :: 0 <= k < i && !reports[k].Everything?
    {
      if !reports[i].Everything? {
        flag := true;
      }
    }
    PermutationMembers(order, Rows(reports, nchunks));
    assert InRange(order, nchunks) by {
      forall i, c | 0 <= i < |order| && c in order[i].1 ensures 1 <= c <= nchunks {
        assert order[i] in Rows(reports, nchunks);
      }
    }
    seeders := new int[nchunks](_ => -1);
    var matrix := new int[|reports|, nchunks + 1]((_, _) => -1);
    Populate(matrix, order);
    Decide(matrix, seeders, order);
    forall x | 0 <= x < nchunks ensures RightChoice(reports, nchunks, x + 1, seeders[x]) {
      ChoiceIsRight(reports, nchunks, order, x + 1);
    }
  }
}
