/** Lexicon lookups of engine.ts: free-text symptom extraction,
    bidirectional autocomplete search and the max-tier risk level. */
module SymptomExtraction {
  import opened Text
  import opened Seqs
  import opened Options
  import opened Lexicon

  // ------------------------------------------------------------ extraction

  /** Some synonym of `s`, lower-cased, occurs in the (lower-case) text. */
  predicate SynonymMentioned(lowerText: string, s: Symptom) {
    exists k :: 0 <= k < |s.synonyms| && Contains(lowerText, Lower(s.synonyms[k]))
  }

  /** The entry's lower-cased name or some lower-cased synonym occurs in the text. */
  predicate Mentioned(lowerText: string, s: Symptom) {
    Contains(lowerText, Lower(s.name)) || SynonymMentioned(lowerText, s)
  }

  /** Names of the mentioned entries, in lexicon order, repeats included. */
  function MentionedNames(lowerText: string, lex: seq<Symptom>): (r: seq<string>)
    decreases |lex|
  {
    if lex == [] then []
    else
      MentionedNames(lowerText, lex[..|lex| - 1])
      + (if Mentioned(lowerText, lex[|lex| - 1]) then [lex[|lex| - 1].name] else [])
  }

  /** What extractSymptomsFromText returns: nothing for blank text, and
      otherwise each mentioned canonical name once, first occurrence first. */
  function Extracted(lex: seq<Symptom>, text: string): seq<string>
  {
    if IsBlank(text) then [] else Dedup(MentionedNames(Lower(text), lex))
  }

  lemma {:induction false} MentionedNamesMembers(lowerText: string, lex: seq<Symptom>, x: string)
    ensures x in MentionedNames(lowerText, lex) <==>
            exists i :: 0 <= i < |lex| && lex[i].name == x && Mentioned(lowerText, lex[i])
    decreases |lex|
  {
    if lex != [] {
      var init := lex[..|lex| - 1];
      MentionedNamesMembers(lowerText, init, x);
      if exists i :: 0 <= i < |lex| && lex[i].name == x && Mentioned(lowerText, lex[i]) {
        var i :| 0 <= i < |lex| && lex[i].name == x && Mentioned(lowerText, lex[i]);
        if i < |lex| - 1 {
          assert init[i] == lex[i];
        }
      }
      if exists i :: 0 <= i < |init| && init[i].name == x && Mentioned(lowerText, init[i]) {
        var i :| 0 <= i < |init| && init[i].name == x && Mentioned(lowerText, init[i]);
        assert lex[i] == init[i];
      }
    }
  }

  /** extractSymptomsFromText: blank text gives []; otherwise the result
      has no repeats and holds exactly the canonical names of the entries
      whose name or some synonym occurs, case-insensitively, in the text. */
  lemma ExtractedSpec(lex: seq<Symptom>, text: string)
    ensures IsBlank(text) ==> Extracted(lex, text) == []
    ensures NoDup(Extracted(lex, text))
    ensures !IsBlank(text) ==> forall x :: x in Extracted(lex, text) <==>
              exists i :: 0 <= i < |lex| && lex[i].name == x && Mentioned(Lower(text), lex[i])
  {
    if !IsBlank(text) {
      var m := MentionedNames(Lower(text), lex);
      DedupProperties(m);
      forall x ensures x in Extracted(lex, text) <==>
                 exists i :: 0 <= i < |lex| && lex[i].name == x && Mentioned(Lower(text), lex[i]) {
        MentionedNamesMembers(Lower(text), lex, x);
      }
    }
  }

  /** The extracted names keep lexicon order: they are a subsequence of the
      mentioned entries' names. */
  lemma ExtractedInLexiconOrder(lex: seq<Symptom>, text: string)
    requires !IsBlank(text)
    ensures IsSubseq(Extracted(lex, text), MentionedNames(Lower(text), lex))
  {
    DedupProperties(MentionedNames(Lower(text), lex));
  }

  /** The empty string extracts nothing. */
  lemma ExtractEmpty(lex: seq<Symptom>)
    ensures Extracted(lex, "") == []
  {
  }

  /** One lexicon entry more: its name is appended when it is mentioned
      and not yet present. */
  lemma ExtractStep(lowerText: string, lex: seq<Symptom>, i: nat)
    requires i < |lex|
    ensures var d := Dedup(MentionedNames(lowerText, lex[..i]));
      Dedup(MentionedNames(lowerText, lex[..i + 1])) ==
        if Mentioned(lowerText, lex[i]) && lex[i].name !in d then d + [lex[i].name] else d
  {
    assert lex[..i + 1][..i] == lex[..i];
    var m := MentionedNames(lowerText, lex[..i]);
    if Mentioned(lowerText, lex[i]) {
      assert MentionedNames(lowerText, lex[..i + 1]) == m + [lex[i].name];
      assert (m + [lex[i].name])[..|m|] == m;
    } else {
      assert MentionedNames(lowerText, lex[..i + 1]) == m;
    }
  }

  /** The synonym scan of extractSymptomsFromText: stops at the first
      synonym whose lower-cased form occurs in the text. */
  method AnySynonymIn(lowerText: string, synonyms: seq<string>) returns (hit: bool)
    ensures hit <==> exists k :: 0 <= k < |synonyms| && Contains(lowerText, Lower(synonyms[k]))
  {
    var k := 0;
    while k < |synonyms|
      invariant 0 <= k <= |synonyms|
      invariant forall k' :: 0 <= k' < k ==> !Contains(lowerText, Lower(synonyms[k']))
    {
      if Contains(lowerText, Lower(synonyms[k])) {
        return true;
      }
      k := k + 1;
    }
    return false;
  }

  /** extractSymptomsFromText(text): walks the lexicon, adding each entry's
      canonical name to an insertion-ordered set when the lower-cased text
      includes the lower-cased name, else when it includes some lower-cased
      synonym (the synonym scan stops at the first hit). */
  method ExtractSymptomsFromText(lex: seq<Symptom>, text: string) returns (r: seq<string>)
    ensures r == Extracted(lex, text)
  {
    if Trim(text) == "" {
      return [];
    }
    var lowercaseText := Lower(text);
    var found: seq<string> := [];
    for i := 0 to |lex|
      invariant found == Dedup(MentionedNames(lowercaseText, lex[..i]))
    {
      var s := lex[i];
      ExtractStep(lowercaseText, lex, i);
      var name := Lower(s.name);
      var mentioned := Contains(lowercaseText, name);
      if !mentioned {
        mentioned := AnySynonymIn(lowercaseText, s.synonyms);
      }
      if mentioned && s.name !in found {
        found := found + [s.name];
      }
    }
    assert lex[..|lex|] == lex;
    r := found;
  }

  // ---------------------------------------------------------------- search

  /** Bidirectional containment between two lower-case strings. */
  predicate Overlaps(x: string, q: string) {
    Contains(x, q) || Contains(q, x)
  }

  /** First pass of searchSymptoms: the name matches the query either way. */
  predicate NameHit(q: string, s: Symptom) {
    Overlaps(Lower(s.name), q)
  }

  /** Second pass: some synonym matches the query either way. */
  predicate SynonymHit(q: string, s: Symptom) {
    exists k :: 0 <= k < |s.synonyms| && Overlaps(Lower(s.synonyms[k]), q)
  }

  function NameTest(q: string): Symptom -> bool {
    s => NameHit(q, s)
  }

  function SynonymTest(q: string): Symptom -> bool {
    s => SynonymHit(q, s)
  }

  function NameSet(s: seq<Symptom>): set<string> {
    set e | e in s :: e.name
  }

  /** One pass over the lexicon: the entries that pass `hit`, skipping any
      whose name was already seen before the pass or earlier in it. */
  function Pass(lex: seq<Symptom>, hit: Symptom -> bool, seen: set<string>): seq<Symptom>
    decreases |lex|
  {
    if lex == [] then []
    else
      var prev := Pass(lex[..|lex| - 1], hit, seen);
      var e := lex[|lex| - 1];
      if e.name in seen || e.name in NameSet(prev) || !hit(e) then prev
      else prev + [e]
  }

  /** The query as both passes compare it: lower-cased and trimmed. */
  function NormalQuery(query: string): string {
    Trim(Lower(query))
  }

  /** First pass: entries whose name matches the query. */
  function ByName(lex: seq<Symptom>, q: string): seq<Symptom> {
    Pass(lex, NameTest(q), {})
  }

  /** Second pass: entries not taken by the first one, matching by synonym. */
  function BySynonym(lex: seq<Symptom>, q: string): seq<Symptom> {
    Pass(lex, SynonymTest(q), NameSet(ByName(lex, q)))
  }

  /** What searchSymptoms returns for a query: the name matches, then the
      synonym-only matches; nothing for a blank query. */
  function Searched(lex: seq<Symptom>, query: string): seq<Symptom>
  {
    if IsBlank(query) then []
    else ByName(lex, NormalQuery(query)) + BySynonym(lex, NormalQuery(query))
  }

  predicate DistinctNames(s: seq<Symptom>) {
    forall i, j :: 0 <= i < j < |s| ==> s[i].name != s[j].name
  }

  lemma NameSetAppend(a: seq<Symptom>, b: seq<Symptom>)
    ensures NameSet(a + b) == NameSet(a) + NameSet(b)
  {
  }

  lemma NameSetPush(a: seq<Symptom>, e: Symptom)
    ensures NameSet(a + [e]) == NameSet(a) + {e.name}
  {
    NameSetAppend(a, [e]);
    assert NameSet([e]) == {e.name};
  }

  /** One lexicon entry more in a pass. */
  lemma PassStep(lex: seq<Symptom>, hit: Symptom -> bool, seen: set<string>, i: nat)
    requires i < |lex|
    ensures Pass(lex[..i + 1], hit, seen) ==
        if lex[i].name in seen || lex[i].name in NameSet(Pass(lex[..i], hit, seen)) || !hit(lex[i])
        then Pass(lex[..i], hit, seen)
        else Pass(lex[..i], hit, seen) + [lex[i]]
  {
    assert lex[..i + 1][..i] == lex[..i];
  }

  /** A pass repeats no name and takes only entries that pass the test
      and whose names were not seen before. */
  lemma {:induction false} PassSound(lex: seq<Symptom>, hit: Symptom -> bool, seen: set<string>)
    ensures DistinctNames(Pass(lex, hit, seen))
    ensures forall e :: e in Pass(lex, hit, seen) ==> hit(e) && e.name !in seen
    decreases |lex|
  {
    if lex != [] {
      var init := lex[..|lex| - 1];
      var e := lex[|lex| - 1];
      PassSound(init, hit, seen);
      var prev := Pass(init, hit, seen);
      if !(e.name in seen || e.name in NameSet(prev) || !hit(e)) {
        forall i | 0 <= i < |prev| ensures prev[i].name != e.name {
          assert prev[i] in prev;
        }
      }
    }
  }

  /** A pass keeps lexicon order. */
  lemma {:induction false} PassSubseq(lex: seq<Symptom>, hit: Symptom -> bool, seen: set<string>)
    ensures IsSubseq(Pass(lex, hit, seen), lex)
    decreases |lex|
  {
    if lex != [] {
      var init := lex[..|lex| - 1];
      var e := lex[|lex| - 1];
      PassSubseq(init, hit, seen);
      var prev := Pass(init, hit, seen);
      assert lex == init + [e];
      SubseqAppend(prev, init, [e]);
      if !(e.name in seen || e.name in NameSet(prev) || !hit(e)) {
        SubseqBothAppend(prev, init, e);
      }
    }
  }

  /** Every lexicon entry that passes the test is represented by name. */
  lemma {:induction false} PassComplete(lex: seq<Symptom>, hit: Symptom -> bool, seen: set<string>)
    ensures forall i :: 0 <= i < |lex| && hit(lex[i]) ==> lex[i].name in seen + NameSet(Pass(lex, hit, seen))
    decreases |lex|
  {
    if lex != [] {
      var init := lex[..|lex| - 1];
      PassComplete(init, hit, seen);
      var prev := Pass(init, hit, seen);
      var r := Pass(lex, hit, seen);
      NameSetAppend(prev, [lex[|lex| - 1]]);
      assert NameSet(prev) <= NameSet(r);
      forall i | 0 <= i < |lex| && hit(lex[i])
        ensures lex[i].name in seen + NameSet(r)
      {
        if i < |lex| - 1 {
          assert init[i] == lex[i];
        }
      }
    }
  }

  /** The two passes of a search never repeat a name. */
  lemma SearchDistinct(lex: seq<Symptom>, q: string)
    ensures DistinctNames(ByName(lex, q) + BySynonym(lex, q))
  {
    var a := ByName(lex, q);
    var b := BySynonym(lex, q);
    PassSound(lex, NameTest(q), {});
    PassSound(lex, SynonymTest(q), NameSet(a));
    var r := a + b;
    forall i, j | 0 <= i < j < |r| ensures r[i].name != r[j].name {
      if i < |a| && j >= |a| {
        assert r[i] in a && r[j] == b[j - |a|] && r[j] in b;
      } else if j < |a| {
        assert r[i] == a[i] && r[j] == a[j];
      } else {
        assert r[i] == b[i - |a|] && r[j] == b[j - |a|];
      }
    }
  }

  /** Entries of the first pass match by name. */
  lemma ByNameHits(lex: seq<Symptom>, q: string)
    ensures forall i :: 0 <= i < |ByName(lex, q)| ==> NameHit(q, ByName(lex, q)[i])
  {
    var a := ByName(lex, q);
    PassSound(lex, NameTest(q), {});
    forall i | 0 <= i < |a| ensures NameHit(q, a[i]) {
      assert a[i] in a;
      assert NameTest(q)(a[i]);
    }
  }

  /** Entries of the second pass match by synonym and not by name. */
  lemma BySynonymHits(lex: seq<Symptom>, q: string)
    ensures forall i :: 0 <= i < |BySynonym(lex, q)| ==>
      !NameHit(q, BySynonym(lex, q)[i]) && SynonymHit(q, BySynonym(lex, q)[i])
  {
    var a := ByName(lex, q);
    var b := BySynonym(lex, q);
    PassComplete(lex, NameTest(q), {});
    PassSound(lex, SynonymTest(q), NameSet(a));
    PassSubseq(lex, SynonymTest(q), NameSet(a));
    SubseqMembers(b, lex);
    forall i | 0 <= i < |b| ensures !NameHit(q, b[i]) && SynonymHit(q, b[i]) {
      var e := b[i];
      assert e in b;
      assert SynonymTest(q)(e);
      var j :| 0 <= j < |lex| && lex[j] == e;
      assert NameTest(q)(lex[j]) == NameHit(q, e);
    }
  }

  /** Every entry matching by name or by synonym is represented. */
  lemma SearchComplete(lex: seq<Symptom>, q: string)
    ensures forall i :: 0 <= i < |lex| && (NameHit(q, lex[i]) || SynonymHit(q, lex[i])) ==>
        lex[i].name in NameSet(ByName(lex, q) + BySynonym(lex, q))
  {
    var a := ByName(lex, q);
    var b := BySynonym(lex, q);
    PassComplete(lex, NameTest(q), {});
    PassComplete(lex, SynonymTest(q), NameSet(a));
    NameSetAppend(a, b);
    forall i | 0 <= i < |lex| && (NameHit(q, lex[i]) || SynonymHit(q, lex[i]))
      ensures lex[i].name in NameSet(a + b)
    {
      if NameHit(q, lex[i]) {
        assert NameTest(q)(lex[i]);
      } else {
        assert SynonymTest(q)(lex[i]);
      }
    }
  }

  /** searchSymptoms: a blank query gives []; each entry name appears at
      most once; the result is the name matches followed by the
      synonym-only matches, each part in lexicon order; and every entry
      that matches by name or by synonym is represented. */
  lemma SearchedSpec(lex: seq<Symptom>, query: string)
    ensures IsBlank(query) ==> Searched(lex, query) == []
    ensures DistinctNames(Searched(lex, query))
    ensures !IsBlank(query) ==>
      Searched(lex, query) == ByName(lex, NormalQuery(query)) + BySynonym(lex, NormalQuery(query))
    ensures forall i :: 0 <= i < |ByName(lex, NormalQuery(query))| ==>
      NameHit(NormalQuery(query), ByName(lex, NormalQuery(query))[i])
    ensures forall i :: 0 <= i < |BySynonym(lex, NormalQuery(query))| ==>
      !NameHit(NormalQuery(query), BySynonym(lex, NormalQuery(query))[i])
      && SynonymHit(NormalQuery(query), BySynonym(lex, NormalQuery(query))[i])
    ensures IsSubseq(ByName(lex, NormalQuery(query)), lex)
    ensures IsSubseq(BySynonym(lex, NormalQuery(query)), lex)
    ensures !IsBlank(query) ==>
      forall i :: 0 <= i < |lex| && (NameHit(NormalQuery(query), lex[i]) || SynonymHit(NormalQuery(query), lex[i])) ==>
        lex[i].name in NameSet(Searched(lex, query))
  {
    var q := NormalQuery(query);
    SearchDistinct(lex, q);
    ByNameHits(lex, q);
    BySynonymHits(lex, q);
    PassSubseq(lex, NameTest(q), {});
    PassSubseq(lex, SynonymTest(q), NameSet(ByName(lex, q)));
    SearchComplete(lex, q);
  }

  /** The synonym test of searchSymptoms' second pass (Array.prototype.some). */
  method AnySynonymOverlaps(q: string, synonyms: seq<string>) returns (hit: bool)
    ensures hit <==> exists k :: 0 <= k < |synonyms| && Overlaps(Lower(synonyms[k]), q)
  {
    var k := 0;
    while k < |synonyms|
      invariant 0 <= k <= |synonyms|
      invariant forall k' :: 0 <= k' < k ==> !Overlaps(Lower(synonyms[k']), q)
    {
      var synonym := Lower(synonyms[k]);
      if Contains(synonym, q) || Contains(q, synonym) {
        return true;
      }
      k := k + 1;
    }
    return false;
  }

  /** First forEach of searchSymptoms: entries whose name matches the
      query either way, each name once, with the set of names taken. */
  method NamePass(lex: seq<Symptom>, lowercaseQuery: string) returns (results: seq<Symptom>, seen: set<string>)
    ensures results == ByName(lex, lowercaseQuery)
    ensures seen == NameSet(results)
  {
    ghost var byNameTest := NameTest(lowercaseQuery);
    results := [];
    seen := {};
    for i := 0 to |lex|
      invariant results == Pass(lex[..i], byNameTest, {})
      invariant seen == NameSet(results)
    {
      PassStep(lex, byNameTest, {}, i);
      var symptom := lex[i];
      if symptom.name in seen {
        continue;
      }
      var name := Lower(symptom.name);
      if Contains(name, lowercaseQuery) || Contains(lowercaseQuery, name) {
        assert byNameTest(symptom);
        NameSetPush(results, symptom);
        results := results + [symptom];
        seen := seen + {symptom.name};
      } else {
        assert !byNameTest(symptom);
      }
    }
    assert lex[..|lex|] == lex;
  }

  /** Second forEach of searchSymptoms: entries not seen yet that have a
      synonym matching the query either way; `seen` grows with them. */
  method SynonymPass(lex: seq<Symptom>, lowercaseQuery: string, seen0: set<string>)
    returns (results: seq<Symptom>, seen: set<string>)
    ensures results == Pass(lex, SynonymTest(lowercaseQuery), seen0)
    ensures seen == seen0 + NameSet(results)
  {
    ghost var bySynonymTest := SynonymTest(lowercaseQuery);
    results := [];
    seen := seen0;
    assert NameSet(results) == {};
    for i := 0 to |lex|
      invariant results == Pass(lex[..i], bySynonymTest, seen0)
      invariant seen == seen0 + NameSet(results)
    {
      PassStep(lex, bySynonymTest, seen0, i);
      var symptom := lex[i];
      if symptom.name in seen {
        continue;
      }
      var hit := AnySynonymOverlaps(lowercaseQuery, symptom.synonyms);
      if hit {
        assert bySynonymTest(symptom);
        NameSetPush(results, symptom);
        results := results + [symptom];
        seen := seen + {symptom.name};
      } else {
        assert !bySynonymTest(symptom);
      }
    }
    assert lex[..|lex|] == lex;
  }

  /** searchSymptoms(query): nothing for a blank query; otherwise the
      name pass, then the synonym pass over the names not yet seen. */
  method SearchSymptoms(lex: seq<Symptom>, query: string) returns (results: seq<Symptom>)
    ensures results == Searched(lex, query)
  {
    if Trim(query) == "" {
      return [];
    }
    var lowercaseQuery := NormalQuery(query);
    var byName, seen := NamePass(lex, lowercaseQuery);
    var bySynonym, _ := SynonymPass(lex, lowercaseQuery, seen);
    results := byName + bySynonym;
  }

  // ------------------------------------------------------------ risk level

  /** Array.prototype.find on the lexicon: the first entry whose name is
      equal to `s` ignoring case. */
  function FindByName(lex: seq<Symptom>, s: string): (r: Option<Symptom>)
    ensures r.Some? ==> r.value in lex && Lower(r.value.name) == Lower(s)
    ensures r.Some? ==> (exists i :: 0 <= i < |lex| && r.value == lex[i]
                          && forall j :: 0 <= j < i ==> Lower(lex[j].name) != Lower(s))
    ensures r.None? ==> forall i :: 0 <= i < |lex| ==> Lower(lex[i].name) != Lower(s)
  {
    if lex == [] then None
    else if Lower(lex[0].name) == Lower(s) then Some(lex[0])
    else
      var r := FindByName(lex[1..], s);
      assert r.Some? ==> (exists i :: 0 <= i < |lex| && r.value == lex[i]
                           && forall j :: 0 <= j < i ==> Lower(lex[j].name) != Lower(s)) by {
        if r.Some? {
          var i :| 0 <= i < |lex[1..]| && r.value == lex[1..][i]
            && forall j :: 0 <= j < i ==> Lower(lex[1..][j].name) != Lower(s);
          assert r.value == lex[i + 1];
          forall j | 0 <= j < i + 1 ensures Lower(lex[j].name) != Lower(s) {
            if j > 0 { assert lex[j] == lex[1..][j - 1]; }
          }
        }
      }
      r
  }

  /** The tiers of the inputs that name a lexicon entry, unknown names dropped. */
  function KnownTiers(lex: seq<Symptom>, symptoms: seq<string>): seq<Tier>
  {
    if symptoms == [] then []
    else
      (match FindByName(lex, symptoms[0]) case Some(e) => [e.riskLevel] case None => [])
      + KnownTiers(lex, symptoms[1..])
  }

  /** determineRiskLevel: 'high' if any known tier is high, else 'moderate'
      if any is moderate, else 'low'. */
  function DetermineRiskLevel(lex: seq<Symptom>, symptoms: seq<string>): Tier
  {
    var tiers := KnownTiers(lex, symptoms);
    if High in tiers then High else if Moderate in tiers then Moderate else Low
  }

  /** `s` names a lexicon entry of tier `t`. */
  predicate KnownAs(lex: seq<Symptom>, s: string, t: Tier) {
    FindByName(lex, s).Some? && FindByName(lex, s).value.riskLevel == t
  }

  lemma {:induction false} KnownTiersMembers(lex: seq<Symptom>, symptoms: seq<string>, t: Tier)
    ensures t in KnownTiers(lex, symptoms) <==> exists i :: 0 <= i < |symptoms| && KnownAs(lex, symptoms[i], t)
  {
    if symptoms != [] {
      KnownTiersMembers(lex, symptoms[1..], t);
      if exists i :: 0 <= i < |symptoms| && KnownAs(lex, symptoms[i], t) {
        var i :| 0 <= i < |symptoms| && KnownAs(lex, symptoms[i], t);
        if i > 0 {
          assert symptoms[1..][i - 1] == symptoms[i];
        }
      }
      if exists i :: 0 <= i < |symptoms[1..]| && KnownAs(lex, symptoms[1..][i], t) {
        var i :| 0 <= i < |symptoms[1..]| && KnownAs(lex, symptoms[1..][i], t);
        assert symptoms[i + 1] == symptoms[1..][i];
      }
    }
  }

  /** The result is the maximum tier (high > moderate > low) over the
      inputs found in the lexicon: no known input ranks above it, and
      unless it is low some known input attains it. */
  lemma DetermineRiskLevelIsMax(lex: seq<Symptom>, symptoms: seq<string>)
    ensures var r := DetermineRiskLevel(lex, symptoms);
      && (forall i :: 0 <= i < |symptoms| && FindByName(lex, symptoms[i]).Some? ==>
            FindByName(lex, symptoms[i]).value.riskLevel.Rank() <= r.Rank())
      && (r != Low ==> exists i :: 0 <= i < |symptoms| && FindByName(lex, symptoms[i]).Some?
                                  && FindByName(lex, symptoms[i]).value.riskLevel == r)
  {
    var r := DetermineRiskLevel(lex, symptoms);
    KnownTiersMembers(lex, symptoms, High);
    KnownTiersMembers(lex, symptoms, Moderate);
    KnownTiersMembers(lex, symptoms, r);
  }

  /** No input, or only names missing from the lexicon, gives low. */
  lemma DetermineRiskLevelUnknownIgnored(lex: seq<Symptom>, symptoms: seq<string>, unknown: string)
    requires FindByName(lex, unknown).None?
    ensures DetermineRiskLevel(lex, []) == Low
    ensures DetermineRiskLevel(lex, symptoms + [unknown]) == DetermineRiskLevel(lex, symptoms)
  {
    KnownTiersAppend(lex, symptoms, [unknown]);
    assert KnownTiers(lex, [unknown]) == [];
  }

  lemma {:induction false} KnownTiersAppend(lex: seq<Symptom>, a: seq<string>, b: seq<string>)
    ensures KnownTiers(lex, a + b) == KnownTiers(lex, a) + KnownTiers(lex, b)
  {
    if a == [] {
      assert a + b == b;
    } else {
      assert (a + b)[1..] == a[1..] + b;
      KnownTiersAppend(lex, a[1..], b);
    }
  }
}
