/** The Levenshtein distance of engine.ts: a dynamic-programming matrix
    whose cell (i, j) holds the distance between the first i characters
    of `str2` and the first j characters of `str1`. */
module EditDistance {

  function Min3(a: nat, b: nat, c: nat): (r: nat)
    ensures r <= a && r <= b && r <= c
    ensures r == a || r == b || r == c
  {
    if a <= b && a <= c then a else if b <= c then b else c
  }

  /** Single-character insert/delete/substitute distance between `a`
      (a prefix of str1) and `b` (a prefix of str2), by recursion on the
      last characters: equal last characters cost nothing. */
  function Distance(a: string, b: string): nat
    decreases |a| + |b|
  {
    if |a| == 0 then |b|
    else if |b| == 0 then |a|
    else if b[|b| - 1] == a[|a| - 1] then Distance(a[..|a| - 1], b[..|b| - 1])
    else Min3(Distance(a[..|a| - 1], b[..|b| - 1]) + 1,
              Distance(a[..|a| - 1], b) + 1,
              Distance(a, b[..|b| - 1]) + 1)
  }

  function Max(x: nat, y: nat): nat {
    if x >= y then x else y
  }

  /** d(a, b) <= max(|a|, |b|): rewriting every position suffices. */
  lemma {:induction false} DistanceAtMostMaxLen(a: string, b: string)
    ensures Distance(a, b) <= Max(|a|, |b|)
    decreases |a| + |b|
  {
    if |a| > 0 && |b| > 0 {
      DistanceAtMostMaxLen(a[..|a| - 1], b[..|b| - 1]);
    }
  }

  /** d(a, b) >= ||a| - |b||: every missing character costs an edit. */
  lemma {:induction false} DistanceAtLeastLenDiff(a: string, b: string)
    ensures Distance(a, b) >= |a| - |b| && Distance(a, b) >= |b| - |a|
    decreases |a| + |b|
  {
    if |a| > 0 && |b| > 0 {
      DistanceAtLeastLenDiff(a[..|a| - 1], b[..|b| - 1]);
      if b[|b| - 1] != a[|a| - 1] {
        DistanceAtLeastLenDiff(a[..|a| - 1], b);
        DistanceAtLeastLenDiff(a, b[..|b| - 1]);
      }
    }
  }

  /** d(s, s) = 0. */
  lemma {:induction false} DistanceToSelf(s: string)
    ensures Distance(s, s) == 0
    decreases |s|
  {
    if |s| > 0 {
      DistanceToSelf(s[..|s| - 1]);
    }
  }

  /** d(s, "") = d("", s) = |s|. */
  lemma DistanceToEmpty(s: string)
    ensures Distance(s, "") == |s| && Distance("", s) == |s|
  {
  }

  /** Distance zero only between equal strings. */
  lemma {:induction false} DistanceZeroIffEqual(a: string, b: string)
    ensures Distance(a, b) == 0 <==> a == b
    decreases |a| + |b|
  {
    if a == b {
      DistanceToSelf(a);
    } else if |a| > 0 && |b| > 0 && b[|b| - 1] == a[|a| - 1] {
      DistanceZeroIffEqual(a[..|a| - 1], b[..|b| - 1]);
    }
  }

  /** d(a, b) = d(b, a). */
  lemma {:induction false} DistanceSymmetric(a: string, b: string)
    ensures Distance(a, b) == Distance(b, a)
    decreases |a| + |b|
  {
    if |a| > 0 && |b| > 0 {
      DistanceSymmetric(a[..|a| - 1], b[..|b| - 1]);
      if b[|b| - 1] != a[|a| - 1] {
        DistanceSymmetric(a[..|a| - 1], b);
        DistanceSymmetric(a, b[..|b| - 1]);
      }
    }
  }

  /** The value the matrix cell (i, j) must hold. */
  function Cell(str1: string, str2: string, i: nat, j: nat): nat
    requires i <= |str2| && j <= |str1|
  {
    Distance(str1[..j], str2[..i])
  }

  /** The recurrence the inner loop applies, read off Distance. */
  lemma CellStep(str1: string, str2: string, i: nat, j: nat)
    requires 1 <= i <= |str2| && 1 <= j <= |str1|
    ensures Cell(str1, str2, i, j) ==
      if str2[i - 1] == str1[j - 1] then Cell(str1, str2, i - 1, j - 1)
      else Min3(Cell(str1, str2, i - 1, j - 1) + 1, Cell(str1, str2, i, j - 1) + 1, Cell(str1, str2, i - 1, j) + 1)
  {
    assert str1[..j][..j - 1] == str1[..j - 1];
    assert str2[..i][..i - 1] == str2[..i - 1];
  }

  /** levenshteinDistance(str1, str2): fills the (|str2|+1) x (|str1|+1)
      matrix row by row and returns its last cell. */
  method Levenshtein(str1: string, str2: string) returns (d: nat)
    ensures d == Distance(str1, str2)
  {
    var matrix := new nat[|str2| + 1, |str1| + 1];
    for i := 0 to |str2| + 1
      invariant forall r :: 0 <= r < i ==> matrix[r, 0] == Cell(str1, str2, r, 0)
    {
      matrix[i, 0] := i;
    }
    for j := 0 to |str1| + 1
      invariant forall r :: 0 <= r <= |str2| ==> matrix[r, 0] == Cell(str1, str2, r, 0)
      invariant forall c :: 0 <= c < j ==> matrix[0, c] == Cell(str1, str2, 0, c)
    {
      matrix[0, j] := j;
    }
    for i := 1 to |str2| + 1
      invariant forall r, c :: 0 <= r < i && 0 <= c <= |str1| ==> matrix[r, c] == Cell(str1, str2, r, c)
      invariant forall r :: i <= r <= |str2| ==> matrix[r, 0] == Cell(str1, str2, r, 0)
    {
      for j := 1 to |str1| + 1
        invariant forall r, c :: 0 <= r < i && 0 <= c <= |str1| ==> matrix[r, c] == Cell(str1, str2, r, c)
        invariant forall r :: i < r <= |str2| ==> matrix[r, 0] == Cell(str1, str2, r, 0)
        invariant forall c :: 0 <= c < j ==> matrix[i, c] == Cell(str1, str2, i, c)
      {
        CellStep(str1, str2, i, j);
        if str2[i - 1] == str1[j - 1] {
          matrix[i, j] := matrix[i - 1, j - 1];
        } else {
          matrix[i, j] := Min3(matrix[i - 1, j - 1] + 1, matrix[i, j - 1] + 1, matrix[i - 1, j] + 1);
        }
      }
    }
    assert str1[..|str1|] == str1 && str2[..|str2|] == str2;
    d := matrix[|str2|, |str1|];
  }
}
