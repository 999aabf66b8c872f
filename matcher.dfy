/** matchDiseasesToSymptoms of engine.ts: fuzzy scoring of each low-risk
    disease against the user's symptoms, then a stable sort by score. */
module DiseaseMatcher {
  import opened Text
  import opened Seqs
  import opened Lexicon
  import opened EditDistance
  import opened Options

  /** A disease with the fraction of its symptoms the user matched. */
  datatype DiseaseMatch = DiseaseMatch(disease: Disease, matchScore: real, matchedSymptoms: seq<string>)

  function RMax(x: real, y: real): real {
    if x >= y then x else y
  }

  function RMin(x: real, y: real): real {
    if x <= y then x else y
  }

  /** Edit-distance similarity 1 - d / maxLen of two strings, not both empty. */
  function Similarity(us: string, ds: string): (r: real)
    requires |us| > 0 || |ds| > 0
  {
    RMax(0.0, 1.0 - (Distance(us, ds) as real) / (Max(|us|, |ds|) as real))
  }

  /** What one user symptom `us` contributes to a disease symptom `ds`
      (both lower-cased): 1 when equal, 0.8 when one contains the other,
      otherwise the edit-distance similarity when it exceeds 0.6, else 0. */
  function PairScore(ds: string, us: string): real
  {
    if ds == us then 1.0
    else if Contains(ds, us) || Contains(us, ds) then 0.8
    else
      ContainsEmpty(ds);
      ContainsEmpty(us);
      var sim := Similarity(us, ds);
      if sim > 0.6 then sim else 0.0
  }

  /** A pair scores 0 or something in (0.6, 1]. */
  lemma PairScoreRange(ds: string, us: string)
    ensures PairScore(ds, us) == 0.0 || 0.6 < PairScore(ds, us) <= 1.0
  {
  }

  /** Only an exact (lower-cased) match scores 1. */
  lemma PairScoreOneIffEqual(ds: string, us: string)
    ensures PairScore(ds, us) == 1.0 <==> ds == us
  {
    if ds != us && !(Contains(ds, us) || Contains(us, ds)) {
      ContainsEmpty(ds);
      ContainsEmpty(us);
      DistanceZeroIffEqual(us, ds);
      var m := Max(|us|, |ds|) as real;
      assert (Distance(us, ds) as real) / m > 0.0;
    }
  }

  /** The score of a pair does not depend on which side is the disease's. */
  lemma PairScoreSymmetric(ds: string, us: string)
    ensures PairScore(ds, us) == PairScore(us, ds)
  {
    if ds != us && !(Contains(ds, us) || Contains(us, ds)) {
      DistanceSymmetric(us, ds);
    }
  }

  /** Containment of a non-equal string scores exactly 0.8. */
  lemma PairScoreContained(ds: string, us: string)
    requires ds != us && Contains(ds, us)
    ensures PairScore(ds, us) == 0.8
  {
  }

  /** The best score of disease symptom `ds` over the user's symptoms,
      starting from 0. */
  function BestScore(ds: string, users: seq<string>): real
    decreases |users|
  {
    if users == [] then 0.0
    else RMax(BestScore(ds, users[..|users| - 1]), PairScore(ds, Lower(users[|users| - 1])))
  }

  /** The best score is the largest pair score, 0 if there is none, and lies
      in {0} or (0.6, 1]. */
  lemma {:induction false} BestScoreSpec(ds: string, users: seq<string>)
    ensures BestScore(ds, users) == 0.0 || 0.6 < BestScore(ds, users) <= 1.0
    ensures forall k :: 0 <= k < |users| ==> PairScore(ds, Lower(users[k])) <= BestScore(ds, users)
    ensures BestScore(ds, users) > 0.0 ==>
      exists k :: 0 <= k < |users| && PairScore(ds, Lower(users[k])) == BestScore(ds, users)
    decreases |users|
  {
    if users != [] {
      var init := users[..|users| - 1];
      BestScoreSpec(ds, init);
      PairScoreRange(ds, Lower(users[|users| - 1]));
      forall k | 0 <= k < |init| ensures init[k] == users[k] {
      }
      if BestScore(ds, users) > 0.0 && BestScore(ds, users) == BestScore(ds, init) {
        var k :| 0 <= k < |init| && PairScore(ds, Lower(init[k])) == BestScore(ds, init);
        assert users[k] == init[k];
      }
    }
  }

  /** Sum of the best scores of the disease symptoms. */
  function Total(syms: seq<string>, users: seq<string>): real
    decreases |syms|
  {
    if syms == [] then 0.0
    else Total(syms[..|syms| - 1], users) + BestScore(Lower(syms[|syms| - 1]), users)
  }

  /** The disease symptoms with a positive best score, in disease order. */
  function MatchedSymptoms(syms: seq<string>, users: seq<string>): seq<string>
    decreases |syms|
  {
    if syms == [] then []
    else
      MatchedSymptoms(syms[..|syms| - 1], users)
      + (if BestScore(Lower(syms[|syms| - 1]), users) > 0.0 then [syms[|syms| - 1]] else [])
  }

  lemma {:induction false} TotalBounds(syms: seq<string>, users: seq<string>)
    ensures 0.0 <= Total(syms, users) <= |syms| as real
    ensures Total(syms, users) > 0.0 ==> MatchedSymptoms(syms, users) != []
    decreases |syms|
  {
    if syms != [] {
      TotalBounds(syms[..|syms| - 1], users);
      BestScoreSpec(Lower(syms[|syms| - 1]), users);
    }
  }

  /** The matched symptoms are disease symptoms, in the disease's order,
      and exactly those with a positive best score. */
  lemma {:induction false} MatchedSymptomsSpec(syms: seq<string>, users: seq<string>)
    ensures IsSubseq(MatchedSymptoms(syms, users), syms)
    ensures forall x :: x in MatchedSymptoms(syms, users) <==>
      x in syms && BestScore(Lower(x), users) > 0.0
    decreases |syms|
  {
    if syms != [] {
      var init := syms[..|syms| - 1];
      var last := syms[|syms| - 1];
      MatchedSymptomsSpec(init, users);
      var m := MatchedSymptoms(init, users);
      assert syms == init + [last];
      SubseqAppend(m, init, [last]);
      if BestScore(Lower(last), users) > 0.0 {
        assert MatchedSymptoms(syms, users) == m + [last];
        SubseqBothAppend(m, init, last);
      } else {
        assert MatchedSymptoms(syms, users) == m;
      }
    }
  }

  /** totalScore / number of disease symptoms, 0 for a disease without any. */
  function Score(d: Disease, users: seq<string>): real {
    if |d.symptoms| > 0 then Total(d.symptoms, users) / (|d.symptoms| as real) else 0.0
  }

  lemma ScoreBounds(d: Disease, users: seq<string>)
    ensures 0.0 <= Score(d, users) <= 1.0
    ensures Score(d, users) > 0.0 ==> MatchedSymptoms(d.symptoms, users) != []
  {
    TotalBounds(d.symptoms, users);
  }

  /** The entry a disease contributes, if its score passes 0.2 and some
      symptom matched. */
  function Candidate(d: Disease, users: seq<string>): Option<DiseaseMatch> {
    var score := Score(d, users);
    var matched := MatchedSymptoms(d.symptoms, users);
    if score > 0.2 && |matched| > 0 then Some(DiseaseMatch(d, RMin(1.0, score), matched)) else None
  }

  /** A disease is kept exactly when its score exceeds 0.2; its match score
      is then that score (the cap at 1 never applies) and its matched
      symptoms are those of its symptoms with a positive best score. */
  lemma CandidateSpec(d: Disease, users: seq<string>)
    ensures Candidate(d, users).Some? <==> Score(d, users) > 0.2
    ensures Candidate(d, users).Some? ==>
      && Candidate(d, users).value.disease == d
      && Candidate(d, users).value.matchScore == Score(d, users)
      && 0.2 < Candidate(d, users).value.matchScore <= 1.0
      && Candidate(d, users).value.matchedSymptoms == MatchedSymptoms(d.symptoms, users)
  {
    ScoreBounds(d, users);
  }

  function CandidateOf(users: seq<string>): Disease -> Option<DiseaseMatch> {
    d => Candidate(d, users)
  }

  /** The unsorted matches, in dictionary order. */
  function Candidates(diseases: seq<Disease>, users: seq<string>): seq<DiseaseMatch> {
    FilterMap(diseases, CandidateOf(users))
  }

  lemma CandidatesMembers(diseases: seq<Disease>, users: seq<string>, m: DiseaseMatch)
    ensures m in Candidates(diseases, users) <==>
      exists i :: 0 <= i < |diseases| && Candidate(diseases[i], users) == Some(m)
  {
    FilterMapMembers(diseases, CandidateOf(users), m);
    assert forall i :: 0 <= i < |diseases| ==> CandidateOf(users)(diseases[i]) == Candidate(diseases[i], users);
  }

  // ------------------------------------------------------------------ sort

  predicate SortedByScore(s: seq<DiseaseMatch>) {
    forall i, j :: 0 <= i < j < |s| ==> s[i].matchScore >= s[j].matchScore
  }

  /** Insert `x` before the first entry that does not score higher. */
  function InsertByScore(x: DiseaseMatch, s: seq<DiseaseMatch>): seq<DiseaseMatch>
  {
    if s == [] || s[0].matchScore <= x.matchScore then [x] + s
    else [s[0]] + InsertByScore(x, s[1..])
  }

  /** Array.prototype.sort with comparator b.matchScore - a.matchScore, a
      stable sort: highest score first, ties kept in their input order. */
  function SortByScore(s: seq<DiseaseMatch>): seq<DiseaseMatch>
  {
    if s == [] then [] else InsertByScore(s[0], SortByScore(s[1..]))
  }

  lemma {:induction false} InsertByScorePerm(x: DiseaseMatch, s: seq<DiseaseMatch>)
    ensures multiset(InsertByScore(x, s)) == multiset(s) + multiset{x}
  {
    if !(s == [] || s[0].matchScore <= x.matchScore) {
      InsertByScorePerm(x, s[1..]);
      assert s == [s[0]] + s[1..];
    }
  }

  lemma {:induction false} InsertByScoreSorted(x: DiseaseMatch, s: seq<DiseaseMatch>)
    requires SortedByScore(s)
    ensures SortedByScore(InsertByScore(x, s))
  {
    if !(s == [] || s[0].matchScore <= x.matchScore) {
      var t := s[1..];
      InsertByScoreSorted(x, t);
      InsertByScorePerm(x, t);
      var r := InsertByScore(x, t);
      forall j | 0 <= j < |r| ensures s[0].matchScore >= r[j].matchScore {
        assert r[j] in multiset(r);
        if r[j] != x {
          assert r[j] in t;
        }
      }
    }
  }

  /** Selects the entries of score `v`. */
  function ScoreIs(v: real): DiseaseMatch -> bool {
    (m: DiseaseMatch) => m.matchScore == v
  }

  /** Entries of score `v` keep their relative order through an insertion. */
  lemma {:induction false} InsertByScoreStable(x: DiseaseMatch, s: seq<DiseaseMatch>, v: real)
    ensures Filter(InsertByScore(x, s), ScoreIs(v))
         == (if x.matchScore == v then [x] else []) + Filter(s, ScoreIs(v))
  {
    var p := ScoreIs(v);
    if s == [] || s[0].matchScore <= x.matchScore {
      FilterAppend([x], s, p);
      assert Filter([x], p) == if p(x) then [x] else [];
    } else {
      InsertByScoreStable(x, s[1..], v);
      FilterAppend([s[0]], InsertByScore(x, s[1..]), p);
      FilterAppend([s[0]], s[1..], p);
      assert [s[0]] + s[1..] == s;
      assert Filter([s[0]], p) == if p(s[0]) then [s[0]] else [];
      if p(x) {
        assert !p(s[0]);
      }
    }
  }

  /** The sort puts scores in non-increasing order, keeps every entry and
      keeps entries of equal score in their input order. */
  lemma {:induction false} SortByScoreSpec(s: seq<DiseaseMatch>)
    ensures SortedByScore(SortByScore(s))
    ensures multiset(SortByScore(s)) == multiset(s)
    ensures forall v :: Filter(SortByScore(s), ScoreIs(v)) == Filter(s, ScoreIs(v))
  {
    if s != [] {
      SortByScoreSpec(s[1..]);
      InsertByScoreSorted(s[0], SortByScore(s[1..]));
      InsertByScorePerm(s[0], SortByScore(s[1..]));
      assert s == [s[0]] + s[1..];
      forall v ensures Filter(SortByScore(s), ScoreIs(v)) == Filter(s, ScoreIs(v)) {
        InsertByScoreStable(s[0], SortByScore(s[1..]), v);
        FilterAppend([s[0]], s[1..], ScoreIs(v));
        assert Filter([s[0]], ScoreIs(v)) == if ScoreIs(v)(s[0]) then [s[0]] else [];
      }
    }
  }

  // ----------------------------------------------------------- the matcher

  /** What matchDiseasesToSymptoms returns: nothing for an empty symptom
      list, otherwise the kept diseases sorted by score. */
  function Matches(diseases: seq<Disease>, users: seq<string>): seq<DiseaseMatch>
  {
    if users == [] then [] else SortByScore(Candidates(diseases, users))
  }

  /** The result is sorted by score, and an entry is in it exactly when it
      is some dictionary disease's entry, which requires a score above 0.2;
      each entry's match score lies in (0.2, 1]. */
  lemma MatchesSpec(diseases: seq<Disease>, users: seq<string>)
    ensures users == [] ==> Matches(diseases, users) == []
    ensures SortedByScore(Matches(diseases, users))
    ensures users != [] ==> multiset(Matches(diseases, users)) == multiset(Candidates(diseases, users))
    ensures forall m :: m in Matches(diseases, users) <==>
      users != [] && exists i :: 0 <= i < |diseases| && Candidate(diseases[i], users) == Some(m)
    ensures forall m :: m in Matches(diseases, users) ==>
      0.2 < m.matchScore <= 1.0 && m.matchScore == Score(m.disease, users)
  {
    if users != [] {
      SortByScoreSpec(Candidates(diseases, users));
      forall m ensures m in Matches(diseases, users) <==>
          exists i :: 0 <= i < |diseases| && Candidate(diseases[i], users) == Some(m)
      {
        assert m in Matches(diseases, users) <==> m in multiset(Candidates(diseases, users));
        CandidatesMembers(diseases, users, m);
      }
      forall m | m in Matches(diseases, users)
        ensures 0.2 < m.matchScore <= 1.0 && m.matchScore == Score(m.disease, users)
      {
        CandidatesMembers(diseases, users, m);
        var i :| 0 <= i < |diseases| && Candidate(diseases[i], users) == Some(m);
        CandidateSpec(diseases[i], users);
      }
    }
  }

  /** The inner forEach: the best score of one disease symptom. */
  method BestMatch(ds: string, userSymptomsList: seq<string>) returns (best: real)
    ensures best == BestScore(ds, userSymptomsList)
  {
    best := 0.0;
    for k := 0 to |userSymptomsList|
      invariant best == BestScore(ds, userSymptomsList[..k])
    {
      assert userSymptomsList[..k + 1][..k] == userSymptomsList[..k];
      var us := Lower(userSymptomsList[k]);
      ghost var before := best;
      if ds == us {
        best := RMax(best, 1.0);
      } else if Contains(ds, us) || Contains(us, ds) {
        best := RMax(best, 0.8);
      } else {
        ContainsEmpty(ds);
        ContainsEmpty(us);
        var dist := Levenshtein(us, ds);
        var maxLen := Max(|us|, |ds|);
        var sim := RMax(0.0, 1.0 - (dist as real) / (maxLen as real));
        if sim > 0.6 {
          best := RMax(best, sim);
        }
      }
      assert best == RMax(before, PairScore(ds, us));
    }
    assert userSymptomsList[..|userSymptomsList|] == userSymptomsList;
  }

  /** The inner loop over one disease's symptoms: the summed best
      similarities and the symptoms that matched some user symptom. */
  method ScoreSymptoms(disease: Disease, userSymptomsList: seq<string>)
    returns (totalScore: real, matchedSymptoms: seq<string>)
    ensures totalScore == Total(disease.symptoms, userSymptomsList)
    ensures matchedSymptoms == MatchedSymptoms(disease.symptoms, userSymptomsList)
  {
    totalScore := 0.0;
    matchedSymptoms := [];
    for j := 0 to |disease.symptoms|
      invariant totalScore == Total(disease.symptoms[..j], userSymptomsList)
      invariant matchedSymptoms == MatchedSymptoms(disease.symptoms[..j], userSymptomsList)
    {
      assert disease.symptoms[..j + 1][..j] == disease.symptoms[..j];
      var diseaseSymptom := disease.symptoms[j];
      var best := BestMatch(Lower(diseaseSymptom), userSymptomsList);
      if best > 0.0 {
        matchedSymptoms := matchedSymptoms + [diseaseSymptom];
        totalScore := totalScore + best;
      }
    }
    assert disease.symptoms[..|disease.symptoms|] == disease.symptoms;
  }

  /** matchDiseasesToSymptoms(userSymptomsList) over the given dictionary. */
  method MatchDiseasesToSymptoms(diseases: seq<Disease>, userSymptomsList: seq<string>)
    returns (r: seq<DiseaseMatch>)
    ensures r == Matches(diseases, userSymptomsList)
  {
    if |userSymptomsList| == 0 {
      return [];
    }
    var matches: seq<DiseaseMatch> := [];
    for i := 0 to |diseases|
      invariant matches == Candidates(diseases[..i], userSymptomsList)
    {
      FilterMapStep(diseases, CandidateOf(userSymptomsList), i);
      var disease := diseases[i];
      var totalScore, matchedSymptoms := ScoreSymptoms(disease, userSymptomsList);
      var score := if |disease.symptoms| > 0 then totalScore / (|disease.symptoms| as real) else 0.0;
      if score > 0.2 && |matchedSymptoms| > 0 {
        matches := matches + [DiseaseMatch(disease, RMin(1.0, score), matchedSymptoms)];
      }
    }
    assert diseases[..|diseases|] == diseases;
    r := SortByScore(matches);
  }
}
