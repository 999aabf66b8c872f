/** The patient queue of temp_app/src/app/doctor/page.tsx: the fetched
    triage records sorted in place, highest risk first and, within a risk
    level, newest first. */
module DoctorQueue {

  /** A fetched triage record; `createdAt` is its time in milliseconds. */
  datatype TriageRecord = TriageRecord(id: string, riskLevel: string, createdAt: int)

  /** `riskOrder[level] || 0`: HIGH 3, MEDIUM 2, LOW 1, anything else 0. */
  function Rank(level: string): nat {
    if level == "HIGH" then 3
    else if level == "MEDIUM" then 2
    else if level == "LOW" then 1
    else 0
  }

  /** The comparator handed to `sort`: negative when `a` goes first. */
  function Compare(a: TriageRecord, b: TriageRecord): int {
    var scoreA := Rank(a.riskLevel);
    var scoreB := Rank(b.riskLevel);
    if scoreA != scoreB then scoreB - scoreA else b.createdAt - a.createdAt
  }

  /** "May go before" (a result of at most 0) carries over from x, y and
      y, z to x, z. */
  predicate Chain<T>(cmp: (T, T) -> int, x: T, y: T, z: T) {
    cmp(x, y) <= 0 && cmp(y, z) <= 0 ==> cmp(x, z) <= 0
  }

  /** A comparator that `sort` can rely on: swapping the arguments flips
      the sign, and "may go before" is transitive. */
  ghost predicate Consistent<T(!new)>(cmp: (T, T) -> int) {
    && (forall x, y :: cmp(y, x) == -cmp(x, y))
    && (forall x, y, z :: Chain(cmp, x, y, z))
  }

  /** Every element may go before every later one. */
  ghost predicate SortedBy<T>(s: seq<T>, cmp: (T, T) -> int) {
    forall i, j :: 0 <= i < j < |s| ==> cmp(s[i], s[j]) <= 0
  }

  /** The queue order. */
  ghost predicate Queued(s: seq<TriageRecord>) {
    SortedBy(s, Compare)
  }

  // ------------------------------------------------------------ comparator

  /** The comparator puts the higher rank first, and within a rank the
      newer record; records of equal rank and time compare equal. */
  lemma CompareSpec(a: TriageRecord, b: TriageRecord)
    ensures Compare(a, b) < 0 <==>
      Rank(a.riskLevel) > Rank(b.riskLevel)
      || (Rank(a.riskLevel) == Rank(b.riskLevel) && a.createdAt > b.createdAt)
    ensures Compare(a, b) == 0 <==> Rank(a.riskLevel) == Rank(b.riskLevel) && a.createdAt == b.createdAt
  {
  }

  /** The comparator is one `sort` can rely on. */
  lemma CompareConsistent()
    ensures Consistent(Compare)
  {
    forall x, y, z
      ensures Chain(Compare, x, y, z)
    {
    }
  }

  // ------------------------------------------------------------ the sort

  /** Array.prototype.sort with a consistent comparator, as an insertion
      sort over the array. */
  method Sort<T(!new)>(a: array<T>, cmp: (T, T) -> int)
    requires Consistent(cmp)
    modifies a
    ensures SortedBy(a[..], cmp)
    ensures multiset(a[..]) == multiset(old(a[..]))
  {
    var i := 0;
    while i < a.Length
      invariant 0 <= i <= a.Length
      invariant SortedBy(a[..i], cmp)
      invariant multiset(a[..]) == multiset(old(a[..]))
    {
      ghost var s := a[..];
      var j := InsertLast(a, i, cmp);
      InsertStep(s, a[..], i, j, cmp);
      i := i + 1;
    }
    assert a[..a.Length] == a[..];
  }

  /** One insertion step: the element at `i` is lifted out, the elements
      before it that the comparator puts after it shift one place right,
      from the right end, and it drops into the gap `j` they leave. */
  method InsertLast<T>(a: array<T>, i: int, cmp: (T, T) -> int) returns (j: int)
    requires 0 <= i < a.Length
    modifies a
    ensures 0 <= j <= i
    ensures a[..] == old(a[..j]) + [old(a[i])] + old(a[j..i]) + old(a[i + 1..])
    ensures j > 0 ==> cmp(old(a[j - 1]), old(a[i])) <= 0
    ensures forall l :: j <= l < i ==> cmp(old(a[l]), old(a[i])) > 0
  {
    var x := a[i];
    j := i;
    while j > 0 && cmp(a[j - 1], x) > 0
      invariant 0 <= j <= i
      invariant a[..j] == old(a[..j])
      invariant a[j + 1..i + 1] == old(a[j..i])
      invariant a[i + 1..] == old(a[i + 1..])
      invariant forall l :: j <= l < i ==> cmp(old(a[l]), x) > 0
      decreases j
    {
      a[j] := a[j - 1];
      j := j - 1;
    }
    a[j] := x;
    assert a[..] == a[..j] + [x] + a[j + 1..i + 1] + a[i + 1..];
  }

  /** What one insertion step does to the sequence: the sorted prefix grows
      by one and the elements stay the same. */
  lemma InsertStep<T(!new)>(s: seq<T>, t: seq<T>, i: int, j: int, cmp: (T, T) -> int)
    requires Consistent(cmp) && 0 <= j <= i < |s| && SortedBy(s[..i], cmp)
    requires t == s[..j] + [s[i]] + s[j..i] + s[i + 1..]
    requires j > 0 ==> cmp(s[j - 1], s[i]) <= 0
    requires forall l :: j <= l < i ==> cmp(s[l], s[i]) > 0
    ensures SortedBy(t[..i + 1], cmp)
    ensures multiset(t) == multiset(s)
  {
    assert s[..i][..j] == s[..j] && s[..i][j..] == s[j..i];
    Inserted(s[..i], j, s[i], cmp);
    assert t[..i + 1] == s[..j] + [s[i]] + s[j..i];
    MovedKeepsMultiset(s, j, i);
  }

  /** Putting `x` into a sorted sequence after everything that may go
      before it and before everything it may go before keeps it sorted. */
  lemma Inserted<T(!new)>(p: seq<T>, j: int, x: T, cmp: (T, T) -> int)
    requires Consistent(cmp) && SortedBy(p, cmp) && 0 <= j <= |p|
    requires j > 0 ==> cmp(p[j - 1], x) <= 0
    requires forall l :: j <= l < |p| ==> cmp(p[l], x) > 0
    ensures SortedBy(p[..j] + [x] + p[j..], cmp)
  {
    var q := p[..j] + [x] + p[j..];
    forall k, l | 0 <= k < l < |q|
      ensures cmp(q[k], q[l]) <= 0
    {
      if k < j && l == j && k < j - 1 {
        assert Chain(cmp, p[k], p[j - 1], x);
      }
    }
  }

  /** Moving one element to an earlier place leaves the same elements. */
  lemma MovedKeepsMultiset<T>(s: seq<T>, j: int, i: int)
    requires 0 <= j <= i < |s|
    ensures multiset(s[..j] + [s[i]] + s[j..i] + s[i + 1..]) == multiset(s)
  {
    assert s == s[..j] + s[j..i] + [s[i]] + s[i + 1..];
  }

  /** getPatientQueue's `records.sort(...)` with the risk comparator. */
  method SortQueue(a: array<TriageRecord>)
    modifies a
    ensures Queued(a[..])
    ensures multiset(a[..]) == multiset(old(a[..]))
  {
    CompareConsistent();
    Sort(a, Compare);
  }

  // ------------------------------------------------------------ the queue

  /** Along a sorted queue ranks never increase, and within one rank the
      creation times never increase. */
  lemma QueueOrder(s: seq<TriageRecord>, i: int, j: int)
    requires Queued(s) && 0 <= i < j < |s|
    ensures Rank(s[i].riskLevel) >= Rank(s[j].riskLevel)
    ensures Rank(s[i].riskLevel) == Rank(s[j].riskLevel) ==> s[i].createdAt >= s[j].createdAt
  {
    assert Compare(s[i], s[j]) <= 0;
  }

  /** A record whose level is none of HIGH, MEDIUM and LOW ranks 0 and so
      comes after every LOW record, and every HIGH record comes before every
      record that is not HIGH. */
  lemma UnknownAfterLow(s: seq<TriageRecord>, i: int, j: int)
    requires Queued(s) && 0 <= i < |s| && 0 <= j < |s|
    ensures s[i].riskLevel == "LOW" && s[j].riskLevel !in {"HIGH", "MEDIUM", "LOW"} ==> i < j
    ensures s[i].riskLevel == "HIGH" && s[j].riskLevel != "HIGH" ==> i < j
  {
    if j < i {
      QueueOrder(s, j, i);
    }
  }
}
