/** The symptom picker of temp_app/src/components/triage/SymptomAutocomplete.tsx:
    the suggestion list that follows the query, and the selected-symptom
    list that addSymptom and removeSymptom rebuild. */
module SymptomAutocomplete {
  import opened Text
  import opened Seqs
  import opened Lexicon
  import opened SymptomExtraction

  /** The picker's own state: the typed query, the suggestions and whether
      they are shown. */
  datatype Picker = Picker(query: string, suggestions: seq<Symptom>, show: bool)

  /** The most suggestions listed at once. */
  const MaxSuggestions := 5

  /** `results.slice(0, n)`. */
  function Take<T>(s: seq<T>, n: nat): seq<T> {
    if |s| <= n then s else s[..n]
  }

  /** The effect run when the query changes: a query longer than one
      character lists the first search results and shows them when there are
      any; a shorter one only hides the list. */
  function Refresh(lex: seq<Symptom>, p: Picker): Picker {
    if |p.query| > 1 then
      var results := Searched(lex, p.query);
      Picker(p.query, Take(results, MaxSuggestions), |results| > 0)
    else
      Picker(p.query, p.suggestions, false)
  }

  /** addSymptom: the list handed to the parent and the picker afterwards. */
  function AddSymptom(selected: seq<string>, symptom: string, p: Picker): (seq<string>, Picker) {
    var next := if symptom !in selected then selected + [symptom] else selected;
    (next, Picker("", p.suggestions, false))
  }

  /** removeSymptom: every entry equal to the symptom is dropped. */
  function RemoveSymptom(selected: seq<string>, symptom: string): seq<string> {
    Filter(selected, (s: string) => s != symptom)
  }

  // ------------------------------------------------------------ properties

  /** A query of at most one character hides the list and leaves its
      entries; a longer one lists at most five entries, a prefix of the
      search results, shown exactly when the search found something. */
  lemma RefreshSpec(lex: seq<Symptom>, p: Picker)
    ensures Refresh(lex, p).query == p.query
    ensures |p.query| <= 1 ==> !Refresh(lex, p).show && Refresh(lex, p).suggestions == p.suggestions
    ensures |p.query| > 1 ==>
      var r := Refresh(lex, p);
      var results := Searched(lex, p.query);
      && |r.suggestions| <= MaxSuggestions
      && r.suggestions <= results
      && |r.suggestions| == (if |results| < MaxSuggestions then |results| else MaxSuggestions)
      && (r.show <==> results != [])
      && (r.show <==> r.suggestions != [])
  {
  }

  /** Search results are lexicon entries with distinct names. */
  lemma SearchedFromLexicon(lex: seq<Symptom>, query: string)
    ensures DistinctNames(Searched(lex, query))
    ensures forall s :: s in Searched(lex, query) ==> s in lex
  {
    var q := NormalQuery(query);
    SearchedSpec(lex, query);
    if !IsBlank(query) {
      SubseqMembers(ByName(lex, q), lex);
      SubseqMembers(BySynonym(lex, q), lex);
    }
  }

  /** A prefix keeps distinct names and draws its entries from the whole. */
  lemma TakeKeeps(s: seq<Symptom>, n: nat)
    requires DistinctNames(s)
    ensures DistinctNames(Take(s, n))
    ensures forall x :: x in Take(s, n) ==> x in s
  {
  }

  /** Fresh suggestions are lexicon entries with distinct names. */
  lemma SuggestionsFromLexicon(lex: seq<Symptom>, p: Picker)
    requires |p.query| > 1
    ensures var r := Refresh(lex, p);
      && DistinctNames(r.suggestions)
      && forall s :: s in r.suggestions ==> s in lex
  {
    var results := Searched(lex, p.query);
    SearchedFromLexicon(lex, p.query);
    TakeKeeps(results, MaxSuggestions);
  }

  /** A symptom already selected leaves the list alone; a new one goes at
      the end. Either way the symptom is then selected, the list gains no
      duplicate, the query is cleared and the suggestions are hidden. */
  lemma AddSymptomSpec(selected: seq<string>, symptom: string, p: Picker)
    ensures var (next, q) := AddSymptom(selected, symptom, p);
      && (symptom in selected ==> next == selected)
      && (symptom !in selected ==> next == selected + [symptom])
      && symptom in next
      && (NoDup(selected) ==> NoDup(next))
      && q.query == "" && !q.show
  {
  }

  /** removeSymptom keeps the other entries in their order and drops every
      copy of the symptom. */
  lemma RemoveSymptomSpec(selected: seq<string>, symptom: string)
    ensures var r := RemoveSymptom(selected, symptom);
      && IsSubseq(r, selected)
      && symptom !in r
      && (forall s :: s in r <==> s in selected && s != symptom)
  {
    var keep := (s: string) => s != symptom;
    FilterIsSubseq(selected, keep);
    forall s
      ensures s in Filter(selected, keep) <==> s in selected && s != symptom
    {
      FilterMembers(selected, keep, s);
    }
  }

  /** Removing a symptom that was just added gives back the list before. */
  lemma AddThenRemove(selected: seq<string>, symptom: string, p: Picker)
    requires symptom !in selected
    ensures RemoveSymptom(AddSymptom(selected, symptom, p).0, symptom) == selected
  {
    var keep := (s: string) => s != symptom;
    FilterAppend(selected, [symptom], keep);
    FilterAll(selected, keep);
    assert Filter([symptom], keep) == [];
  }

  /** Removing a symptom that is not selected changes nothing. */
  lemma RemoveAbsent(selected: seq<string>, symptom: string)
    requires symptom !in selected
    ensures RemoveSymptom(selected, symptom) == selected
  {
    FilterAll(selected, (s: string) => s != symptom);
  }
}
