/** The guided proposal wizard (client/src/pages/CreateProposal.tsx): its
    seven sections of fields, the rules that decide validation and AI
    generation, and the page state its handlers update. Calls to the AI
    service are split in two steps: the handler's synchronous part, which
    says what it asks for, and the continuation that receives the answer. */
module CreateProposal {
  import opened Common

  datatype FieldType = Text | TextArea | Number | Date | Select

  /** The only validator the form has is the project title's. */
  datatype Validator = NoValidation | TitleLength

  datatype Field = Field(id: string, kind: FieldType, required: bool, aiAssistEnabled: bool, validation: Validator)

  datatype Section = Section(id: string, title: string, fields: seq<Field>)

  /** The form as the page declares it. */
  const SECTIONS: seq<Section> := [
    Section("overview", "Project Overview", [
      Field("projectTitle", Text, true, false, TitleLength),
      Field("projectType", Select, true, false, NoValidation),
      Field("summary", TextArea, true, true, NoValidation)]),
    Section("problem", "Problem Statement", [
      Field("problemStatement", TextArea, true, true, NoValidation),
      Field("targetAudience", TextArea, true, true, NoValidation),
      Field("existingSolutions", TextArea, true, true, NoValidation)]),
    Section("solution", "Proposed Solution", [
      Field("solutionDescription", TextArea, true, true, NoValidation),
      Field("methodology", TextArea, true, true, NoValidation),
      Field("innovation", TextArea, true, true, NoValidation)]),
    Section("timeline", "Timeline & Milestones", [
      Field("projectDuration", Select, true, false, NoValidation),
      Field("startDate", Date, true, false, NoValidation),
      Field("milestones", TextArea, true, true, NoValidation)]),
    Section("budget", "Budget & Resources", [
      Field("totalBudget", Number, true, false, NoValidation),
      Field("budgetBreakdown", TextArea, true, true, NoValidation),
      Field("resourceNeeds", TextArea, true, true, NoValidation)]),
    Section("impact", "Impact & Evaluation", [
      Field("expectedOutcomes", TextArea, true, true, NoValidation),
      Field("successMetrics", TextArea, true, true, NoValidation),
      Field("evaluationPlan", TextArea, true, true, NoValidation)]),
    Section("team", "Team & Capacity", [
      Field("teamMembers", TextArea, true, true, NoValidation),
      Field("organizationCapability", TextArea, true, true, NoValidation),
      Field("partnerships", TextArea, false, true, NoValidation)])
  ]

  /** The key the complete-proposal request is tracked under in
      `isGenerating`, and the key its result is stored under. */
  const COMPLETE: string := "complete"
  const COMPLETE_PROPOSAL: string := "completeProposal"

  /** `getAISectionName`: the seven fields the AI service knows under
      another name are renamed; every other id is sent as it is. */
  function AISectionName(fieldId: string): (name: string)
    ensures fieldId == "summary" ==> name == "executiveSummary"
    ensures fieldId == "problemStatement" ==> name == "needStatement"
    ensures fieldId == "solutionDescription" ==> name == "projectDescription"
    ensures fieldId == "methodology" ==> name == "methodology"
    ensures fieldId == "evaluationPlan" ==> name == "evaluation"
    ensures fieldId == "budgetBreakdown" ==> name == "budget"
    ensures fieldId == "resourceNeeds" ==> name == "sustainability"
    ensures fieldId !in MAPPED_FIELDS ==> name == fieldId
  {
    if fieldId == "summary" then "executiveSummary"
    else if fieldId == "problemStatement" then "needStatement"
    else if fieldId == "solutionDescription" then "projectDescription"
    else if fieldId == "methodology" then "methodology"
    else if fieldId == "evaluationPlan" then "evaluation"
    else if fieldId == "budgetBreakdown" then "budget"
    else if fieldId == "resourceNeeds" then "sustainability"
    else fieldId
  }

  const MAPPED_FIELDS: set<string> :=
    {"summary", "problemStatement", "solutionDescription", "methodology", "evaluationPlan", "budgetBreakdown", "resourceNeeds"}

  /** `Array.prototype.find` by id: the first field with that id. */
  function FindField(fields: seq<Field>, fieldId: string): (r: Option<Field>)
    ensures r.Some? ==> r.value in fields && r.value.id == fieldId
    ensures r.None? <==> forall f :: f in fields ==> f.id != fieldId
    ensures r.Some? ==> exists i :: 0 <= i < |fields| && fields[i] == r.value && forall j :: 0 <= j < i ==> fields[j].id != fieldId
  {
    if fields == [] then None
    else if fields[0].id == fieldId then Some(fields[0])
    else
      var r := FindField(fields[1..], fieldId);
      assert forall f :: f in fields[1..] ==> f in fields;
      assert forall f :: f in fields ==> f == fields[0] || f in fields[1..];
      if r.Some? then
        var i :| 0 <= i < |fields[1..]| && fields[1..][i] == r.value && forall j :: 0 <= j < i ==> fields[1..][j].id != fieldId;
        assert fields[i + 1] == r.value && forall j :: 0 <= j < i + 1 ==> fields[j].id != fieldId;
        r
      else r
  }

  /** The project title's validator: too short below five UTF-16 code
      units, JavaScript's `length`. */
  function TitleError(value: string): (err: Option<string>)
    ensures err.Some? <==> Utf16Length(value) < 5
    ensures err.Some? ==> err.value == "Title must be at least 5 characters"
  {
    if Utf16Length(value) < 5 then Some("Title must be at least 5 characters") else None
  }

  /** A title of five characters from the Basic Multilingual Plane passes
      and one of four fails, while three characters beyond U+FFFF pass,
      since each counts twice. */
  lemma TitleCountsCodeUnits()
    ensures TitleError("Water").None? && TitleError("Wate").Some?
    ensures var c := 0x1F600 as char; TitleError([c, c, c]).None?
  {
    var c := 0x1F600 as char;
    assert c as int == 0x1F600;
    assert [c, c, c][..2] == [c, c] && [c, c][..1] == [c] && [c][..0] == [];
    assert Utf16Length([c]) == 2;
    assert Utf16Length([c, c]) == 4;
    assert Utf16Length([c, c, c]) == 6;
    assert "Water"[..4] == "Wate" && "Wate"[..3] == "Wat" && "Wat"[..2] == "Wa" && "Wa"[..1] == "W" && "W"[..0] == "";
  }

  /** What a field's validator says of a value: an error or nothing. */
  function Validate(v: Validator, value: string): (err: Option<string>)
    ensures v.NoValidation? ==> err.None?
  {
    match v
    case NoValidation => None
    case TitleLength => TitleError(value)
  }

  /** `shouldTriggerGeneration`: only a required AI-assisted field of the
      current section qualifies. Its fifty-character textarea rule never
      decides anything: a qualifying field triggers exactly when the value
      is non-empty. */
  function ShouldTriggerGeneration(section: Section, fieldId: string, value: string): (b: bool)
    ensures var field := FindField(section.fields, fieldId);
            b <==> field.Some? && field.value.aiAssistEnabled && field.value.required && |value| > 0
    ensures (forall f :: f in section.fields ==> f.id != fieldId) ==> !b
    ensures value == "" ==> !b
  {
    var field := FindField(section.fields, fieldId);
    if field.None? || !field.value.aiAssistEnabled || !field.value.required then false
    else if field.value.kind == TextArea && |value| >= 50 then true
    else |value| > 0
  }

  /** No two fields of the form share an id, so a field id names one field
      in one section. */
  lemma FieldIdsDistinct()
    ensures forall s, i, j :: 0 <= s < |SECTIONS| && 0 <= i < j < |SECTIONS[s].fields| ==>
              SECTIONS[s].fields[i].id != SECTIONS[s].fields[j].id
    ensures forall s :: 0 <= s < |SECTIONS| ==> |SECTIONS[s].fields| == 3
  {
  }

  /** A string key holds a non-empty string: the JavaScript truthiness test
      `record[key]` on a record of strings. */
  predicate Filled(m: map<string, string>, key: string)
  {
    key in m && m[key] != ""
  }

  /** A boolean key is set to true. */
  predicate Flagged(m: map<string, bool>, key: string)
  {
    key in m && m[key]
  }

  /** The fields the section-change effect asks the AI service for: the
      AI-assisted fields that hold a value and have neither generated
      content nor a request in flight, in the section's order. */
  function AutoGenerateTargets(fields: seq<Field>, formData: map<string, string>, generated: map<string, string>,
                               generating: map<string, bool>): seq<string>
    decreases |fields|
  {
    if fields == [] then []
    else
      var f := fields[0];
      var rest := AutoGenerateTargets(fields[1..], formData, generated, generating);
      if f.aiAssistEnabled && Filled(formData, f.id) && !Filled(generated, f.id) && !Flagged(generating, f.id)
      then [f.id] + rest
      else rest
  }

  /** The targets are exactly the ids of the AI-assisted fields that have
      input, no generated content and no generation running; there are no
      more of them than fields. */
  lemma {:induction false} AutoGenerateTargetsExactly(fields: seq<Field>, formData: map<string, string>,
                                                      generated: map<string, string>, generating: map<string, bool>)
    ensures var ids := AutoGenerateTargets(fields, formData, generated, generating);
            && |ids| <= |fields|
            && forall id :: id in ids <==> exists f :: f in fields && f.id == id && f.aiAssistEnabled && Filled(formData, id)
                                                     && !Filled(generated, id) && !Flagged(generating, id)
    decreases |fields|
  {
    if fields != [] {
      AutoGenerateTargetsExactly(fields[1..], formData, generated, generating);
      assert forall g :: g in fields <==> g == fields[0] || g in fields[1..];
    }
  }

  /** The targets of the first `k` fields followed by field `k`'s, if it is
      one. */
  lemma {:induction false} AutoGenerateTargetsSnoc(fields: seq<Field>, k: int, formData: map<string, string>,
                                                  generated: map<string, string>, generating: map<string, bool>)
    requires 0 <= k < |fields|
    ensures var f := fields[k];
            AutoGenerateTargets(fields[..k + 1], formData, generated, generating)
            == AutoGenerateTargets(fields[..k], formData, generated, generating)
               + (if f.aiAssistEnabled && Filled(formData, f.id) && !Filled(generated, f.id) && !Flagged(generating, f.id)
                  then [f.id] else [])
    decreases k
  {
    if k > 0 {
      AutoGenerateTargetsSnoc(fields[1..], k - 1, formData, generated, generating);
      assert fields[1..][..k] == fields[..k + 1][1..];
      assert fields[1..][..k - 1] == fields[..k][1..];
    }
  }

  /** Every key in `ids` set to true, one after the other, everything else
      as in `m`. */
  function WithFlags(m: map<string, bool>, ids: seq<string>): (r: map<string, bool>)
    decreases |ids|
  {
    if ids == [] then m else WithFlags(m, ids[..|ids| - 1])[ids[|ids| - 1] := true]
  }

  /** After `WithFlags`, exactly the keys of `ids` and those already set are
      set, and no other key changes. */
  lemma {:induction false} WithFlagsSets(m: map<string, bool>, ids: seq<string>)
    ensures forall k :: k in WithFlags(m, ids) <==> k in m || k in ids
    ensures forall k :: Flagged(WithFlags(m, ids), k) <==> Flagged(m, k) || k in ids
    ensures forall k :: k in m && k !in ids ==> WithFlags(m, ids)[k] == m[k]
    decreases |ids|
  {
    if ids != [] {
      var front := ids[..|ids| - 1];
      WithFlagsSets(m, front);
      assert forall k :: k in ids <==> k in front || k == ids[|ids| - 1];
    }
  }

  datatype SaveStatus = Saved | Saving | Unsaved

  /** The wizard page's state. */
  class ProposalWizard {
    var currentSection: int
    var formData: map<string, string>
    var errors: map<string, string>
    var savedStatus: SaveStatus
    var isGenerating: map<string, bool>
    var generatedContent: map<string, string>
    var showGeneratedPreview: map<string, bool>
    /** A JavaScript `Set` of field ids, in insertion order. */
    var completedSections: seq<string>

    /** The section index stays on the form, and `completedSections` is a
        set. */
    ghost predicate Valid()
      reads this
    {
      0 <= currentSection < |SECTIONS| && NoDup(completedSections)
    }

    constructor ()
      ensures Valid()
      ensures currentSection == 0 && formData == map[] && errors == map[] && savedStatus == Saved
      ensures isGenerating == map[] && generatedContent == map[] && showGeneratedPreview == map[] && completedSections == []
    {
      currentSection, formData, errors, savedStatus := 0, map[], map[], Saved;
      isGenerating, generatedContent, showGeneratedPreview, completedSections := map[], map[], map[], [];
    }

    /** `handleInputChange`: the value is stored and the page becomes
        unsaved; a field of the current section that has a validator gets
        its message recorded, or "" when the value passes. The result says
        whether a 1.5-second timer is started; the handler's returned
        cleanup is discarded, so the timer is never cancelled. */
    method HandleInputChange(fieldId: string, value: string) returns (trigger: bool)
      requires Valid()
      modifies this`formData, this`savedStatus, this`errors
      ensures Valid()
      ensures formData == old(formData)[fieldId := value] && savedStatus == Unsaved
      ensures var field := FindField(SECTIONS[currentSection].fields, fieldId);
              if field.Some? && !field.value.validation.NoValidation? then
                var err := Validate(field.value.validation, value);
                errors == old(errors)[fieldId := if err.Some? then err.value else ""]
              else errors == old(errors)
      ensures trigger == ShouldTriggerGeneration(SECTIONS[currentSection], fieldId, value)
    {
      formData := formData[fieldId := value];
      savedStatus := Unsaved;
      var field := FindField(SECTIONS[currentSection].fields, fieldId);
      if field.Some? && !field.value.validation.NoValidation? {
        var err := Validate(field.value.validation, value);
        errors := errors[fieldId := if err.Some? then err.value else ""];
      }
      trigger := ShouldTriggerGeneration(SECTIONS[currentSection], fieldId, value);
    }

    /** The synchronous part of `handleGenerateContent` when its flags are
        the current ones, as for the Generate button: nothing happens while
        a request for the field is in flight or once it has generated
        content; otherwise the field is marked as generating and the AI
        service is asked for the field's section name. */
    method BeginGeneration(fieldId: string) returns (request: Option<string>)
      requires Valid()
      modifies this`isGenerating
      ensures Valid()
      ensures Flagged(old(isGenerating), fieldId) || Filled(generatedContent, fieldId) ==>
                request.None? && isGenerating == old(isGenerating)
      ensures !Flagged(old(isGenerating), fieldId) && !Filled(generatedContent, fieldId) ==>
                request == Some(AISectionName(fieldId)) && isGenerating == old(isGenerating)[fieldId := true]
    {
      request := TimerGeneration(fieldId, isGenerating, generatedContent);
    }

    /** An input timer firing: the timer's own test and the guard of the
        `handleGenerateContent` it calls both read the `seenGenerating` and
        `seenContent` of the render that handled the keystroke, while the
        flag is set on the current state. */
    method TimerGeneration(fieldId: string, seenGenerating: map<string, bool>, seenContent: map<string, string>)
      returns (request: Option<string>)
      requires Valid()
      modifies this`isGenerating
      ensures Valid()
      ensures Flagged(seenGenerating, fieldId) || Filled(seenContent, fieldId) ==>
                request.None? && isGenerating == old(isGenerating)
      ensures !Flagged(seenGenerating, fieldId) && !Filled(seenContent, fieldId) ==>
                request == Some(AISectionName(fieldId)) && isGenerating == old(isGenerating)[fieldId := true]
    {
      if Flagged(seenGenerating, fieldId) || Filled(seenContent, fieldId) {
        return None;
      }
      isGenerating := isGenerating[fieldId := true];
      request := Some(AISectionName(fieldId));
    }

    /** The synchronous part of `handleImproveContent`: no guard; the field
        is marked as generating and its current value (or "") is sent to be
        improved. */
    method BeginImprove(fieldId: string) returns (current: string)
      requires Valid()
      modifies this`isGenerating
      ensures Valid()
      ensures isGenerating == old(isGenerating)[fieldId := true]
      ensures current == if fieldId in formData then formData[fieldId] else ""
    {
      isGenerating := isGenerating[fieldId := true];
      current := if fieldId in formData then formData[fieldId] else "";
    }

    /** The continuation of a generate or improve request: on success the
        answer becomes the field's generated content and its preview is
        shown; success or failure, the field stops generating. */
    method FinishGeneration(fieldId: string, answer: Option<string>)
      requires Valid()
      modifies this`isGenerating, this`generatedContent, this`showGeneratedPreview
      ensures Valid()
      ensures isGenerating == old(isGenerating)[fieldId := false]
      ensures answer.Some? ==> (generatedContent == old(generatedContent)[fieldId := answer.value]
                                && showGeneratedPreview == old(showGeneratedPreview)[fieldId := true])
      ensures answer.None? ==> generatedContent == old(generatedContent) && showGeneratedPreview == old(showGeneratedPreview)
    {
      if answer.Some? {
        generatedContent := generatedContent[fieldId := answer.value];
        showGeneratedPreview := showGeneratedPreview[fieldId := true];
      }
      isGenerating := isGenerating[fieldId := false];
    }

    /** `handleApplyGeneratedContent`: with no generated content nothing
        changes; otherwise the content becomes the field's value, the field
        is marked completed and its preview hidden. */
    method ApplyGeneratedContent(fieldId: string)
      requires Valid()
      modifies this`formData, this`completedSections, this`showGeneratedPreview
      ensures Valid()
      ensures !Filled(generatedContent, fieldId) ==>
                formData == old(formData) && completedSections == old(completedSections)
                && showGeneratedPreview == old(showGeneratedPreview)
      ensures Filled(generatedContent, fieldId) ==>
                formData == old(formData)[fieldId := generatedContent[fieldId]]
                && completedSections == Add(old(completedSections), fieldId)
                && showGeneratedPreview == old(showGeneratedPreview)[fieldId := false]
      ensures fieldId in completedSections <==> fieldId in old(completedSections) || Filled(generatedContent, fieldId)
    {
      if Filled(generatedContent, fieldId) {
        formData := formData[fieldId := generatedContent[fieldId]];
        AddNoDup(completedSections, fieldId);
        completedSections := Add(completedSections, fieldId);
        showGeneratedPreview := showGeneratedPreview[fieldId := false];
      }
    }

    /** The Next button is disabled on the last section until there is a
        project title. */
    predicate NextDisabled()
      reads this
    {
      currentSection == |SECTIONS| - 1 && !Filled(formData, "projectTitle")
    }

    /** `handleNextClick`: a click on the disabled button does nothing; on
        the last section the complete proposal is requested (and the page
        stays there); anywhere else it moves one section on, never past the
        last. */
    method HandleNextClick() returns (requestComplete: bool)
      requires Valid()
      modifies this`currentSection, this`isGenerating
      ensures Valid()
      ensures old(NextDisabled()) ==>
                !requestComplete && currentSection == old(currentSection) && isGenerating == old(isGenerating)
      ensures requestComplete <==> old(currentSection) == |SECTIONS| - 1 && !old(NextDisabled())
      ensures requestComplete ==> currentSection == old(currentSection) && isGenerating == old(isGenerating)[COMPLETE := true]
      ensures !requestComplete && !old(NextDisabled()) ==>
                currentSection == old(currentSection) + 1 && isGenerating == old(isGenerating)
    {
      if NextDisabled() {
        return false;
      }
      if currentSection == |SECTIONS| - 1 {
        isGenerating := isGenerating[COMPLETE := true];
        requestComplete := true;
      } else {
        currentSection := StepForward(currentSection, |SECTIONS|);
        requestComplete := false;
      }
    }

    /** The continuation of the complete-proposal request: a result is
        stored under `completeProposal`; either way the request ends. */
    method FinishCompleteProposal(answer: Option<string>)
      requires Valid()
      modifies this`isGenerating, this`generatedContent
      ensures Valid()
      ensures isGenerating == old(isGenerating)[COMPLETE := false]
      ensures answer.Some? ==> generatedContent == old(generatedContent)[COMPLETE_PROPOSAL := answer.value]
      ensures answer.None? ==> generatedContent == old(generatedContent)
    {
      if answer.Some? {
        generatedContent := generatedContent[COMPLETE_PROPOSAL := answer.value];
      }
      isGenerating := isGenerating[COMPLETE := false];
    }

    /** The Previous button: one section back, never before the first. */
    method Previous()
      requires Valid()
      modifies this`currentSection
      ensures Valid()
      ensures currentSection == if old(currentSection) == 0 then 0 else old(currentSection) - 1
    {
      currentSection := StepBack(currentSection);
    }

    /** A click in the section list jumps to that section. */
    method SelectSection(index: int)
      requires Valid() && 0 <= index < |SECTIONS|
      modifies this`currentSection
      ensures Valid() && currentSection == index
    {
      currentSection := index;
    }

    /** The effect that runs on every section change: it starts generation
        for each AI-assisted field of the new section that holds a value and
        has no generated content and no request in flight, in field order. */
    method AutoGenerate() returns (started: seq<string>)
      requires Valid()
      modifies this`isGenerating
      ensures Valid()
      ensures started == AutoGenerateTargets(SECTIONS[currentSection].fields, formData, generatedContent, old(isGenerating))
      ensures isGenerating == WithFlags(old(isGenerating), started)
    {
      var fields := SECTIONS[currentSection].fields;
      var before := isGenerating;
      started := [];
      var i := 0;
      while i < |fields|
        invariant 0 <= i <= |fields|
        invariant started == AutoGenerateTargets(fields[..i], formData, generatedContent, before)
        invariant isGenerating == WithFlags(before, started)
      {
        var f := fields[i];
        AutoGenerateTargetsSnoc(fields, i, formData, generatedContent, before);
        if f.aiAssistEnabled && Filled(formData, f.id) && !Filled(generatedContent, f.id) && !Flagged(before, f.id) {
          assert (started + [f.id])[..|started|] == started;
          isGenerating := isGenerating[f.id := true];
          started := started + [f.id];
        }
        i := i + 1;
      }
      assert fields[..i] == fields;
    }

    /** Save Draft: the page shows "saving" until the save settles. */
    method BeginSave()
      requires Valid()
      modifies this`savedStatus
      ensures Valid() && savedStatus == Saving
    {
      savedStatus := Saving;
    }

    /** The save settles: saved on success, unsaved on failure. */
    method FinishSave(ok: bool)
      requires Valid()
      modifies this`savedStatus
      ensures Valid() && savedStatus == (if ok then Saved else Unsaved)
    {
      savedStatus := if ok then Saved else Unsaved;
    }
  }

  /** Two keystrokes in the summary within the timer's delay: both timers
      judge on the flags of the render before any generation started, so
      both send a request, where a fresh Generate click would be refused. */
  method TwoKeystrokesTwoRequests()
  {
    var w := new ProposalWizard();
    var seenGenerating, seenContent := w.isGenerating, w.generatedContent;
    var t1 := w.HandleInputChange("summary", "A");
    var t2 := w.HandleInputChange("summary", "An");
    assert FindField(SECTIONS[0].fields, "summary") == Some(SECTIONS[0].fields[2]);
    assert t1 && t2;
    var r1 := w.TimerGeneration("summary", seenGenerating, seenContent);
    var r2 := w.TimerGeneration("summary", seenGenerating, seenContent);
    assert r1 == r2 == Some("executiveSummary");
    var r3 := w.BeginGeneration("summary");
    assert r3.None?;
  }
}
