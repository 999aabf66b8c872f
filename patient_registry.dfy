/** The search box of client/src/pages/Patients.tsx: which patients of the
    registry stay listed for a search text. */
module PatientRegistry {
  import opened Options
  import opened Text
  import opened Seqs

  /** The fields of a registered patient that the search reads. */
  datatype Patient = Patient(id: nat, symptoms: seq<string>)

  /** Some symptom contains the search text, ignoring case. */
  predicate SymptomMatch(p: Patient, search: string) {
    exists i :: 0 <= i < |p.symptoms| && Contains(Lower(p.symptoms[i]), Lower(search))
  }

  /** The filter predicate: the decimal id contains the search text, or
      some symptom does. */
  predicate Keep(p: Patient, search: string) {
    Contains(NatToString(p.id), search) || SymptomMatch(p, search)
  }

  /** The predicate for one search text, as handed to `filter`. */
  function Matches(search: string): Patient -> bool {
    p => Keep(p, search)
  }

  /** `filteredPatients`: nothing while the list is still loading. */
  function FilteredPatients(patients: Option<seq<Patient>>, search: string): Option<seq<Patient>> {
    if patients.None? then None else Some(Filter(patients.value, Matches(search)))
  }

  // ------------------------------------------------------------ properties

  /** The filtered list is a subsequence of the list, and holds exactly the
      listed patients that the predicate keeps. */
  lemma FilteredSpec(patients: seq<Patient>, search: string)
    ensures var r := FilteredPatients(Some(patients), search);
      && r.Some?
      && IsSubseq(r.value, patients)
      && (forall p :: p in r.value <==> p in patients && Keep(p, search))
  {
    FilterIsSubseq(patients, Matches(search));
    forall p
      ensures p in Filter(patients, Matches(search)) <==> p in patients && Keep(p, search)
    {
      FilterMembers(patients, Matches(search), p);
    }
  }

  /** An empty search keeps every patient, in order. */
  lemma EmptySearch(patients: seq<Patient>)
    ensures FilteredPatients(Some(patients), "") == Some(patients)
  {
    forall i | 0 <= i < |patients|
      ensures Matches("")(patients[i])
    {
      ContainsEmpty(NatToString(patients[i].id));
    }
    FilterAll(patients, Matches(""));
  }

  /** A patient without symptoms is kept only through its id. */
  lemma NoSymptoms(p: Patient, search: string)
    requires p.symptoms == []
    ensures Keep(p, search) <==> Contains(NatToString(p.id), search)
  {
  }

  /** The symptom test ignores the case of the search text. */
  lemma SymptomMatchIgnoresCase(p: Patient, search: string)
    ensures SymptomMatch(p, Upper(search)) <==> SymptomMatch(p, search)
    ensures SymptomMatch(p, Lower(search)) <==> SymptomMatch(p, search)
  {
    UpperLower(search);
    LowerIdempotent(search);
  }

  /** A symptom that contains the search text, whatever the case of either,
      keeps its patient. */
  lemma SymptomKeeps(p: Patient, search: string, i: int)
    requires 0 <= i < |p.symptoms| && Contains(p.symptoms[i], search)
    ensures Keep(p, search)
  {
    ContainsLower(p.symptoms[i], search);
  }
}
