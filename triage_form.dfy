/** The triage form of client/src/pages/Triage.tsx: its one extra
    validation rule and the comma-list transform of onSubmit. */
module TriageForm {
  import opened Text
  import opened Seqs
  import opened Options

  /** The form's values; symptoms and conditions are typed as
      comma-separated text. */
  datatype FormValues = FormValues(
    age: int, gender: string, systolic: int, diastolic: int, heartRate: int,
    temperature: real, symptoms: string, conditions: string)

  /** The payload sent for assessment. */
  datatype Payload = Payload(
    age: int, gender: string, systolic: int, diastolic: int, heartRate: int,
    temperature: real, symptoms: seq<string>, conditions: seq<string>)

  /** `.map(s => s.trim())`. */
  function TrimAll(xs: seq<string>): (r: seq<string>)
    ensures |r| == |xs|
  {
    seq(|xs|, i requires 0 <= i < |xs| => Trim(xs[i]))
  }

  /** `.filter(Boolean)` on strings: the empty string is falsy. */
  function Truthy(x: string): bool {
    x != ""
  }

  /** `text.split(',').map(s => s.trim()).filter(Boolean)`. */
  function ParseList(text: string): seq<string> {
    Filter(TrimAll(Split(text, ',')), Truthy)
  }

  /** The form schema's extra rule: at least one character of symptoms. */
  predicate SymptomsAccepted(v: FormValues) {
    |v.symptoms| >= 1
  }

  /** Submitting: a form the schema rejects sends nothing; otherwise the
      payload is the values with both lists parsed. */
  function Submit(v: FormValues): Option<Payload> {
    if !SymptomsAccepted(v) then None
    else Some(Payload(v.age, v.gender, v.systolic, v.diastolic, v.heartRate, v.temperature,
                      ParseList(v.symptoms), ParseList(v.conditions)))
  }

  // ------------------------------------------------------------ properties

  /** Every parsed entry is non-empty, already trimmed, free of commas and
      taken from a comma-separated segment of the text, and the entries keep
      the order of their segments. */
  lemma ParseListSpec(text: string)
    ensures forall x :: x in ParseList(text) ==>
      x != "" && Trim(x) == x && ',' !in x && x in TrimAll(Split(text, ','))
    ensures IsSubseq(ParseList(text), TrimAll(Split(text, ',')))
  {
    var pieces := Split(text, ',');
    forall x | x in ParseList(text)
      ensures x != "" && Trim(x) == x && ',' !in x && x in TrimAll(pieces)
    {
      FilterMembers(TrimAll(pieces), Truthy, x);
      var i :| 0 <= i < |pieces| && TrimAll(pieces)[i] == x;
      TrimIdempotent(pieces[i]);
      TrimInside(pieces[i], ',');
    }
    FilterIsSubseq(TrimAll(pieces), Truthy);
  }

  /** Trimming keeps only characters the text had. */
  lemma TrimInside(s: string, c: char)
    requires c !in s
    ensures c !in Trim(s)
  {
    var t := TrimStart(s);
    assert t == s[|s| - |t|..];
    var r := TrimEnd(t);
    assert r == t[..|r|];
  }

  /** An empty conditions (or symptoms) text yields no entries. */
  lemma EmptyText()
    ensures ParseList("") == []
  {
    assert Split("", ',') == [""];
    assert TrimAll([""]) == [""];
  }

  /** Entries that are non-empty, trimmed and comma-free, joined with commas,
      parse back to themselves. */
  lemma ParseJoin(items: seq<string>)
    requires |items| >= 1
    requires forall i :: 0 <= i < |items| ==> items[i] != "" && Trim(items[i]) == items[i] && ',' !in items[i]
    ensures ParseList(Join(items, ",")) == items
  {
    SplitJoin(items, ',');
    assert TrimAll(items) == items;
    FilterAll(items, Truthy);
  }

  /** The schema rejects exactly an empty symptoms text; every other field
      passes into the payload unchanged. */
  lemma SubmitSpec(v: FormValues)
    ensures Submit(v).None? <==> v.symptoms == ""
    ensures Submit(v).Some? ==>
      var p := Submit(v).value;
      && p.age == v.age && p.gender == v.gender && p.systolic == v.systolic
      && p.diastolic == v.diastolic && p.heartRate == v.heartRate && p.temperature == v.temperature
      && p.symptoms == ParseList(v.symptoms) && p.conditions == ParseList(v.conditions)
  {
  }

  /** A symptoms text of one blank passes the schema but parses to no
      symptoms. */
  lemma BlankSymptoms(v: FormValues)
    requires v.symptoms == " "
    ensures Submit(v).Some? && Submit(v).value.symptoms == []
  {
    SplitNone(" ", ',');
    assert Trim(" ") == "";
    assert TrimAll([" "]) == [""];
  }
}
