/** buildUrl of shared/routes.ts: the placeholders ":key" of a route path
    filled in from a parameter record, one entry after another. */
module UrlBuilder {
  import opened Options
  import opened Text

  /** A parameter value: a string or a number (integers here). */
  datatype ParamValue = Str(s: string) | Num(n: int)

  /** `String(value)`. */
  function Render(v: ParamValue): string {
    match v
    case Str(s) => s
    case Num(n) => IntToString(n)
  }

  /** One entry of the forEach: the first ":key" is replaced when the url
      has one, and the url is kept otherwise. The value is handed to
      String.prototype.replace as its replacement text, so its "$$", "$&",
      "$`" and "$'" pairs are expanded. */
  function Substitute(url: string, key: string, value: ParamValue): string {
    if Contains(url, ":" + key) then ReplaceFirst(url, ":" + key, Render(value)) else url
  }

  /** The entries applied in order, each to the url the earlier ones left. */
  function Fill(path: string, entries: seq<(string, ParamValue)>): string {
    if entries == [] then path
    else
      var last := entries[|entries| - 1];
      Substitute(Fill(path, entries[..|entries| - 1]), last.0, last.1)
  }

  /** What buildUrl returns; a missing record leaves the path alone. */
  function BuiltUrl(path: string, params: Option<seq<(string, ParamValue)>>): string {
    if params.None? then path else Fill(path, params.value)
  }

  /** buildUrl(path, params), with the record's entries in their order. */
  method BuildUrl(path: string, params: Option<seq<(string, ParamValue)>>) returns (url: string)
    ensures url == BuiltUrl(path, params)
  {
    url := path;
    if params.Some? {
      var entries := params.value;
      for i := 0 to |entries|
        invariant url == Fill(path, entries[..i])
      {
        assert entries[..i + 1][..i] == entries[..i];
        var (key, value) := entries[i];
        if Contains(url, ":" + key) {
          url := ReplaceFirst(url, ":" + key, Render(value));
        }
      }
      assert entries[..|entries|] == entries;
    }
  }

  // ------------------------------------------------------------ properties

  /** Without parameters, or with an empty record, the path comes back
      unchanged. */
  lemma NoParams(path: string)
    ensures BuiltUrl(path, None) == path
    ensures BuiltUrl(path, Some([])) == path
  {
  }

  /** A key whose placeholder the url lacks changes nothing. */
  lemma AbsentKey(url: string, key: string, value: ParamValue)
    requires !Contains(url, ":" + key)
    ensures Substitute(url, key, value) == url
  {
  }

  /** Only the first placeholder is replaced: the text before it is kept,
      the expanded value takes its place (the value itself when it holds no
      '$'), the text after it is kept, and so a later occurrence of the same
      placeholder survives, shifted. */
  lemma FirstOnly(url: string, key: string, value: ParamValue)
    requires Contains(url, ":" + key)
    ensures var pat := ":" + key;
      var i := IndexOf(url, pat);
      var r := Substitute(url, key, value);
      && 0 <= i && OccursAt(url, pat, i)
      && (forall j :: 0 <= j < i ==> !OccursAt(url, pat, j))
      && var sub := Substitution(Render(value), pat, url[..i], url[i + |pat|..]);
      && r == url[..i] + sub + url[i + |pat|..]
      && ('$' !in Render(value) ==> r == url[..i] + Render(value) + url[i + |pat|..])
      && (forall j :: i + |pat| <= j && OccursAt(url, pat, j) ==>
            OccursAt(r, pat, j - |pat| + |sub|))
  {
    var pat := ":" + key;
    ReplaceFirstSpec(url, pat, Render(value));
    if '$' !in Render(value) {
      var i := IndexOf(url, pat);
      SubstitutionVerbatim(Render(value), pat, url[..i], url[i + |pat|..]);
    }
  }

  /** Entries apply in sequence: filling with `a` and then `b` is filling
      with `a + b`. */
  lemma {:induction false} FillAppend(path: string, a: seq<(string, ParamValue)>, b: seq<(string, ParamValue)>)
    ensures Fill(path, a + b) == Fill(Fill(path, a), b)
    decreases |b|
  {
    if b == [] {
      assert a + b == a;
    } else {
      FillAppend(path, a, b[..|b| - 1]);
      assert (a + b)[..|a + b| - 1] == a + b[..|b| - 1];
    }
  }

  /** A path whose only ':' before the placeholder opens the placeholder
      of the one given key comes back with the expanded value in the
      placeholder's place: "$&" brings the placeholder back, "$`" the text
      before it, "$'" the text after it, and a value without '$' goes in
      as it is. */
  lemma SinglePlaceholder(pre: string, key: string, value: ParamValue, post: string)
    requires ':' !in pre
    ensures BuiltUrl(pre + ":" + key + post, Some([(key, value)])) ==
      pre + Substitution(Render(value), ":" + key, pre, post) + post
    ensures '$' !in Render(value) ==>
      BuiltUrl(pre + ":" + key + post, Some([(key, value)])) == pre + Render(value) + post
  {
    var pat := ":" + key;
    var path := pre + pat + post;
    assert pre + ":" + key + post == path;
    assert OccursAt(path, pat, |pre|);
    forall j | 0 <= j < |pre|
      ensures !OccursAt(path, pat, j)
    {
      assert path[j] == pre[j];
    }
    ContainsAt(path, pat);
    IndexOfFound(path, pat);
    assert IndexOf(path, pat) == |pre|;
    var es := [(key, value)];
    assert es[..0] == [];
    assert Fill(path, es) == Substitute(path, key, value);
    assert path[..|pre|] == pre && path[|pre| + |pat|..] == post;
    assert ReplaceFirst(path, pat, Render(value)) ==
      pre + Substitution(Render(value), pat, pre, post) + post;
    if '$' !in Render(value) {
      SubstitutionVerbatim(Render(value), pat, pre, post);
    }
  }

  /** A number never holds '$', so it always goes in as its digits. */
  lemma NumbersVerbatim(n: int)
    ensures '$' !in Render(Num(n))
  {
    var d := NatToString(if n < 0 then -n else n);
    assert forall k :: 0 <= k < |d| ==> d[k] != '$';
    if n < 0 {
      assert Render(Num(n)) == "-" + d;
      assert forall k :: 0 <= k < |"-" + d| ==> ("-" + d)[k] != '$' by {
        forall k | 0 <= k < |"-" + d| ensures ("-" + d)[k] != '$' {
          if k > 0 { assert ("-" + d)[k] == d[k - 1]; }
        }
      }
    }
  }

  /** A string value is a replacement pattern: "$&" puts the placeholder
      itself back, so /a/:id with id "x$&y" becomes /a/x:idy. */
  lemma DollarExample()
    ensures BuiltUrl("/a/:id", Some([("id", Str("x$&y"))])) == "/a/x:idy"
  {
    AmpersandPlaceholder("/a/", "id", "x", "y");
    assert "/a/" + ":" + "id" == "/a/:id";
    assert "x" + "$&" + "y" == "x$&y";
    assert "/a/" + "x" + ":" + "id" + "y" == "/a/x:idy";
  }

  /** A value "a$&b" puts the placeholder itself between `a` and `b`. */
  lemma AmpersandPlaceholder(pre: string, key: string, a: string, b: string)
    requires ':' !in pre && '$' !in a && '$' !in b
    ensures BuiltUrl(pre + ":" + key, Some([(key, Str(a + "$&" + b))])) == pre + a + ":" + key + b
  {
    SinglePlaceholder(pre, key, Str(a + "$&" + b), "");
    assert pre + ":" + key + "" == pre + ":" + key;
    AmpersandBringsBack(a, b, ":" + key, pre, "");
    assert pre + (a + (":" + key) + b) + "" == pre + a + ":" + key + b;
  }

  /** "$&" between two '$'-free texts expands to the matched text. */
  lemma {:induction false} AmpersandBringsBack(a: string, b: string, matched: string, before: string, after: string)
    requires '$' !in a && '$' !in b
    ensures Substitution(a + "$&" + b, matched, before, after) == a + matched + b
    decreases |a|
  {
    var rep := a + "$&" + b;
    if a == [] {
      assert rep[0] == '$' && rep[1] == '&' && rep[2..] == b;
      SubstitutionVerbatim(b, matched, before, after);
    } else {
      assert rep[0] == a[0] && a[0] != '$';
      assert rep[1..] == a[1..] + "$&" + b;
      assert '$' !in a[1..] by {
        forall k | 0 <= k < |a[1..]| ensures a[1..][k] != '$' {
          assert a[1..][k] == a[k + 1];
        }
      }
      AmpersandBringsBack(a[1..], b, matched, before, after);
      assert [a[0]] + a[1..] == a;
    }
  }

  /** A number renders as its decimal digits: /api/patients/:id with id 42
      becomes /api/patients/42. */
  lemma PatientExample()
    ensures BuiltUrl("/api/patients/:id", Some([("id", Num(42))])) == "/api/patients/42"
  {
    SinglePlaceholder("/api/patients/", "id", Num(42), "");
    assert Render(Num(42)) == "42";
    assert "/api/patients/" + ":" + "id" + "" == "/api/patients/:id";
  }
}
