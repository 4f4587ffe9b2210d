/** The step-by-step proposal form (client/src/components/TemplateLibrary.tsx):
    the template choice, the nested form data and the step navigation. */
module TemplateLibrary {
  import opened Common

  /** A form section: its id and the ids of its fields. */
  datatype FormSection = FormSection(id: string, fieldIds: seq<string>)

  /** The templates offered on the selection screen. */
  const TEMPLATE_IDS: seq<string> := ["generic", "nonprofit", "research"]

  /** The sections declared per template: only the generic template has
      any. */
  const SECTIONS: map<string, seq<FormSection>> := map[
    "generic" := [
      FormSection("basic-info", ["date", "grant-name", "submitted-to", "submitted-by", "org-address"]),
      FormSection("project-abstract", ["abstract"]),
      FormSection("need-statement", ["need-description"]),
      FormSection("goals", ["goals", "objectives"]),
      FormSection("budget", ["total-amount", "budget-breakdown"])
    ]
  ]

  /** `sections[currentTemplate] || []`: a template without declared
      sections has none. */
  function CurrentSections(template: string): (r: seq<FormSection>)
    ensures template in SECTIONS ==> r == SECTIONS[template]
    ensures template !in SECTIONS ==> r == []
  {
    if template in SECTIONS then SECTIONS[template] else []
  }

  /** Of the templates on offer, only "generic" has a step to show. */
  lemma OnlyGenericHasSections()
    ensures |CurrentSections("generic")| == 5
    ensures CurrentSections("nonprofit") == [] && CurrentSections("research") == []
  {
  }

  /** The form data: section id to field id to value. */
  type FormData = map<string, map<string, string>>

  /** The value an input shows, `formData[sectionId]?.[fieldId] || ""`. */
  function FieldValue(data: FormData, sectionId: string, fieldId: string): string
  {
    if sectionId in data && fieldId in data[sectionId] then data[sectionId][fieldId] else ""
  }

  /** The update `handleInputChange` makes: the field's section is copied
      (or started empty) with the field set, every other section kept. */
  function SetField(data: FormData, sectionId: string, fieldId: string, value: string): (r: FormData)
    ensures r.Keys == data.Keys + {sectionId}
    ensures r[sectionId].Keys == (if sectionId in data then data[sectionId].Keys else {}) + {fieldId}
    ensures r[sectionId][fieldId] == value
    ensures forall f :: sectionId in data && f in data[sectionId] && f != fieldId ==> r[sectionId][f] == data[sectionId][f]
    ensures forall s :: s in data && s != sectionId ==> r[s] == data[s]
  {
    var section := if sectionId in data then data[sectionId] else map[];
    data[sectionId := section[fieldId := value]]
  }

  /** After an input change the input shows the new value, and every other
      input shows what it showed before. */
  lemma SetFieldThenRead(data: FormData, sectionId: string, fieldId: string, value: string, s: string, f: string)
    ensures FieldValue(SetField(data, sectionId, fieldId, value), sectionId, fieldId) == value
    ensures s != sectionId || f != fieldId ==>
              FieldValue(SetField(data, sectionId, fieldId, value), s, f) == FieldValue(data, s, f)
  {
  }

  /** One step on and one step back lands where it started, unless the
      form was already on its last step. */
  lemma NextThenPrevious(step: int, count: int)
    requires 0 <= step < count - 1
    ensures StepBack(StepForward(step, count)) == step
  {
  }

  /** The form's state. */
  class ProposalForm {
    var currentTemplate: string
    var currentStep: int
    var formData: FormData
    var showTemplateSelect: bool

    constructor ()
      ensures currentTemplate == "generic" && currentStep == 0 && formData == map[] && showTemplateSelect
    {
      currentTemplate, currentStep, formData, showTemplateSelect := "generic", 0, map[], true;
    }

    /** The template's sections. */
    function Sections(): seq<FormSection>
      reads this`currentTemplate
    {
      CurrentSections(currentTemplate)
    }

    /** The last step shows Submit where the others show Next. */
    predicate ShowsSubmit()
      reads this`currentTemplate, this`currentStep
    {
      currentStep == |Sections()| - 1
    }

    /** `handleInputChange`. */
    method HandleInputChange(sectionId: string, fieldId: string, value: string)
      modifies this`formData
      ensures formData == SetField(old(formData), sectionId, fieldId, value)
    {
      var section := if sectionId in formData then formData[sectionId] else map[];
      formData := formData[sectionId := section[fieldId := value]];
    }

    /** Previous: one step back, never below the first. */
    method Previous()
      modifies this`currentStep
      ensures currentStep == StepBack(old(currentStep))
      ensures currentStep >= 0
    {
      currentStep := if currentStep - 1 < 0 then 0 else currentStep - 1;
    }

    /** Next: one step on, never past the last step of the template. */
    method Next()
      modifies this`currentStep
      ensures currentStep == StepForward(old(currentStep), |Sections()|)
      ensures 0 <= old(currentStep) < |Sections()| ==> 0 <= currentStep < |Sections()|
    {
      var count := |CurrentSections(currentTemplate)|;
      currentStep := if count - 1 < currentStep + 1 then count - 1 else currentStep + 1;
    }

    /** Save Draft sets the form data to a copy of itself. */
    method SaveDraft()
      modifies this`formData
      ensures formData == old(formData)
    {
      formData := formData;
    }

    /** Picking a template on the selection screen opens it at the current
      step, which is not reset. */
    method PickTemplate(id: string)
      modifies this`currentTemplate, this`showTemplateSelect
      ensures currentTemplate == id && !showTemplateSelect
    {
      currentTemplate := id;
      showTemplateSelect := false;
    }

    /** Back to Templates returns to the selection screen and keeps the
        template, the step and the data. */
    method BackToTemplates()
      modifies this`showTemplateSelect
      ensures showTemplateSelect
    {
      showTemplateSelect := true;
    }
  }

  /** Stepping through the generic template: Next stops at its fifth and
      last step, which shows Submit. */
  method StepToEnd()
  {
    var form := new ProposalForm();
    form.PickTemplate("generic");
    OnlyGenericHasSections();
    form.Next();
    form.Next();
    form.Next();
    form.Next();
    assert form.currentStep == 4 && form.ShowsSubmit();
    form.Next();
    assert form.currentStep == 4;
  }

  /** Filling two fields and going back to the selection screen: the data
      and the step survive a change of template. */
  method FillAndLeave()
  {
    var form := new ProposalForm();
    form.PickTemplate("generic");
    form.HandleInputChange("basic-info", "grant-name", "Clean Water");
    form.HandleInputChange("basic-info", "date", "2024-03-01");
    SetFieldThenRead(form.formData, "basic-info", "date", "2024-03-01", "basic-info", "grant-name");
    form.BackToTemplates();
    form.PickTemplate("research");
    assert form.currentStep == 0 && form.Sections() == [];
    assert FieldValue(form.formData, "basic-info", "grant-name") == "Clean Water";
  }
}
