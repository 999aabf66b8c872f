/** uploadRecord of temp_app/src/app/actions/upload.ts: the session check,
    the form validation, the file-name default and the keyword summary of an
    uploaded medical record. The session is the signed-in user's id, if any,
    and the database write is a function telling whether it succeeded. */
module RecordUpload {
  import opened Options
  import opened Text
  import RuleClassifier

  const MinContent := 10
  const DefaultFileName := "Manual Entry"
  const TooShort := "Content is too short"
  /** The schema's message for a field that is not a string at all. */
  const NotAString := "Expected string, received null"

  const DefaultNote := "No critical conditions detected."
  const CardiacNote := "Cardiac history noted."
  const DiabeticNote := "Diabetic history noted."
  const RespiratoryNote := "Respiratory history noted."

  /** The two form fields; `None` is a field the form does not carry. */
  datatype Form = Form(content: Option<string>, fileName: Option<string>)

  datatype MedicalRecord = MedicalRecord(
    patientId: string, fileName: string, fileType: string, content: string, summary: string)

  /** What the action ends with: one of its three messages, or the stored
      record followed by the redirect to /patient. */
  datatype Outcome =
    | Unauthorized
    | ValidationError(contentErrors: seq<string>)
    | DatabaseError
    | Saved(record: MedicalRecord)

  /** The `message` field of the returned object; a saved record redirects
      instead and returns none. */
  function Message(o: Outcome): Option<string> {
    match o
    case Unauthorized => Some("Unauthorized.")
    case ValidationError(_) => Some("Validation Error")
    case DatabaseError => Some("Database Error: Failed to upload record.")
    case Saved(_) => None
  }

  /** `formData.get("fileName") || "Manual Entry"`. */
  function FileName(given: Option<string>): string {
    if given.None? || given.value == "" then DefaultFileName else given.value
  }

  /** The schema's errors for the content field. */
  function ContentErrors(content: Option<string>): seq<string> {
    if content.None? then [NotAString]
    else if |content.value| < MinContent then [TooShort]
    else []
  }

  /** The keyword summary of the lower-cased content: first match wins. */
  function Summary(content: string): string {
    var lower := Lower(content);
    if Contains(lower, "heart") || Contains(lower, "cardiac") then CardiacNote
    else if Contains(lower, "diabetes") || Contains(lower, "sugar") then DiabeticNote
    else if Contains(lower, "asthma") || Contains(lower, "lung") then RespiratoryNote
    else DefaultNote
  }

  /** uploadRecord(prevState, formData) for the signed-in `user`; `stored`
      tells whether the database accepted the record. */
  function UploadRecord(user: Option<string>, form: Form, stored: MedicalRecord -> bool): Outcome {
    if user.None? then Unauthorized
    else if ContentErrors(form.content) != [] then ValidationError(ContentErrors(form.content))
    else
      var content := form.content.value;
      var record := MedicalRecord(user.value, FileName(form.fileName), "text/plain", content, Summary(content));
      if stored(record) then Saved(record) else DatabaseError
  }

  // ------------------------------------------------------------ properties

  /** The order of the checks: no session is refused before anything else
      (whatever the form, and without a write); then content that is missing
      or shorter than 10 characters is refused with no record; only then is
      a record written, carrying the caller's id, the content unchanged,
      its summary and the plain-text type. */
  lemma UploadSpec(user: Option<string>, form: Form, stored: MedicalRecord -> bool)
    ensures var o := UploadRecord(user, form, stored);
      && (o.Unauthorized? <==> user.None?)
      && (o.ValidationError? <==>
            user.Some? && (form.content.None? || |form.content.value| < MinContent))
      && (o.ValidationError? ==> o.contentErrors == (if form.content.None? then [NotAString] else [TooShort]))
      && (o.Saved? ==>
            && user.Some? && form.content.Some? && |form.content.value| >= MinContent
            && o.record.patientId == user.value
            && o.record.content == form.content.value
            && o.record.fileName == FileName(form.fileName)
            && o.record.fileType == "text/plain"
            && o.record.summary == Summary(form.content.value)
            && stored(o.record))
      && (o.DatabaseError? ==> user.Some? && form.content.Some? && |form.content.value| >= MinContent)
      && (Message(o).None? <==> o.Saved?)
  {
  }

  /** A missing or empty file name becomes "Manual Entry" and any other is
      kept, so the file-name rule of the schema never fails. */
  lemma FileNameSpec(given: Option<string>)
    ensures given.None? || given.value == "" ==> FileName(given) == DefaultFileName
    ensures given.Some? && given.value != "" ==> FileName(given) == given.value
    ensures |FileName(given)| >= 1
  {
  }

  /** The summary chain: each note is chosen exactly when its keywords occur
      in the lower-cased content and no earlier group's do. */
  lemma SummaryChain(content: string)
    ensures var lower := Lower(content);
      var cardiac := Contains(lower, "heart") || Contains(lower, "cardiac");
      var diabetic := Contains(lower, "diabetes") || Contains(lower, "sugar");
      var respiratory := Contains(lower, "asthma") || Contains(lower, "lung");
      && (Summary(content) == CardiacNote <==> cardiac)
      && (Summary(content) == DiabeticNote <==> !cardiac && diabetic)
      && (Summary(content) == RespiratoryNote <==> !cardiac && !diabetic && respiratory)
      && (Summary(content) == DefaultNote <==> !cardiac && !diabetic && !respiratory)
  {
  }

  /** Matching ignores letter case: lower- or upper-casing the content does
      not change its summary. */
  lemma SummaryIgnoresCase(content: string)
    ensures Summary(Lower(content)) == Summary(content)
    ensures Summary(Upper(content)) == Summary(content)
  {
    LowerIdempotent(content);
    UpperLower(content);
  }

  /** Text whose lower-cased form begins with a word mentions that word. */
  lemma MentionsAtStart(s: string, w: string)
    requires |w| <= |s| && forall i :: 0 <= i < |w| ==> LowerChar(s[i]) == w[i]
    ensures Contains(Lower(s), w)
  {
    assert Lower(s)[..|w|] == w;
  }

  /** A stored summary, read back as the patient's medical history by the
      rule-based classifier, fires the history rule it names: the cardiac
      note the cardiac rule, the diabetic note the diabetes rule and the
      respiratory note the respiratory rule. */
  lemma SummaryFeedsHistory(content: string, v: RuleClassifier.Vitals)
    requires v.medicalHistory == Some([Summary(content)])
    ensures Summary(content) == CardiacNote ==> RuleClassifier.HistoryRules(v)[0].fired
    ensures Summary(content) == DiabeticNote ==> RuleClassifier.HistoryRules(v)[1].fired
    ensures Summary(content) == RespiratoryNote ==> RuleClassifier.HistoryRules(v)[2].fired
  {
    var s := Summary(content);
    HistoryOfNote(s, v);
    if s == CardiacNote {
      CardiacNoteFires(s, v);
    } else if s == DiabeticNote {
      DiabeticNoteFires(s, v);
    } else if s == RespiratoryNote {
      RespiratoryNoteFires(s, v);
    }
  }

  /** A history of one note reads back as that note, lower-cased. */
  lemma HistoryOfNote(s: string, v: RuleClassifier.Vitals)
    requires v.medicalHistory == Some([s])
    ensures RuleClassifier.HistoryText(v) == Some(Lower(s))
  {
    assert Join([s], " ") == s;
  }

  lemma CardiacNoteFires(s: string, v: RuleClassifier.Vitals)
    requires s == CardiacNote && RuleClassifier.HistoryText(v) == Some(Lower(s))
    ensures RuleClassifier.HistoryRules(v)[0].fired
  {
    MentionsAtStart(s, "cardiac");
  }

  lemma DiabeticNoteFires(s: string, v: RuleClassifier.Vitals)
    requires s == DiabeticNote && RuleClassifier.HistoryText(v) == Some(Lower(s))
    ensures RuleClassifier.HistoryRules(v)[1].fired
  {
    MentionsAtStart(s, "diabetic");
  }

  lemma RespiratoryNoteFires(s: string, v: RuleClassifier.Vitals)
    requires s == RespiratoryNote && RuleClassifier.HistoryText(v) == Some(Lower(s))
    ensures RuleClassifier.HistoryRules(v)[2].fired
  {
    MentionsAtStart(s, "respiratory");
  }
}
