/** The review page (client/src/pages/SubmissionReview.tsx): submit gating,
    the one-at-a-time section expansion, the status colours and icons and
    the confirmation dialog. */
module SubmissionReview {
  import opened Common

  /** The part of a section the page's logic looks at; its status is one
      of "complete", "incomplete" and "warning". */
  datatype ReviewSection = ReviewSection(id: string, status: string)

  /** The sections the page ships with. */
  const REVIEW_SECTIONS: seq<ReviewSection> := [
    ReviewSection("executive-summary", "complete"),
    ReviewSection("problem-statement", "warning"),
    ReviewSection("budget", "incomplete")
  ]

  /** `sections.some(s => s.status === "incomplete")`: the Submit button's
      `disabled`. */
  function SubmitDisabled(sections: seq<ReviewSection>): (b: bool)
    ensures b <==> exists i :: 0 <= i < |sections| && sections[i].status == "incomplete"
    decreases |sections|
  {
    if sections == [] then false
    else
      var rest := SubmitDisabled(sections[1..]);
      assert forall i :: 1 <= i < |sections| ==> sections[i] == sections[1..][i - 1];
      assert rest ==> exists i :: 1 <= i < |sections| && sections[i].status == "incomplete";
      sections[0].status == "incomplete" || rest
  }

  /** With its incomplete budget section, the shipped review cannot be
      submitted. */
  lemma ShippedReviewBlocked()
    ensures SubmitDisabled(REVIEW_SECTIONS)
  {
    assert REVIEW_SECTIONS[2].status == "incomplete";
  }

  /** A header click: the expanded section collapses, any other becomes the
      only expanded one. */
  function ToggleExpanded(expanded: Option<string>, id: string): (r: Option<string>)
    ensures r == Some(id) <==> expanded != Some(id)
    ensures r.None? <==> expanded == Some(id)
  {
    if expanded == Some(id) then None else Some(id)
  }

  /** Clicking the same header twice gives back the previous expansion
      exactly when nothing or that very section was expanded; when another
      section was, everything ends collapsed. */
  lemma ToggleTwice(expanded: Option<string>, id: string)
    ensures ToggleExpanded(ToggleExpanded(expanded, id), id) == expanded <==> expanded.None? || expanded == Some(id)
    ensures expanded.Some? && expanded != Some(id) ==> ToggleExpanded(ToggleExpanded(expanded, id), id).None?
  {
  }

  /** `getStatusColor`: the three statuses have their own colours, anything
      else is grey. */
  function StatusColor(status: string): (color: string)
    ensures status == "complete" ==> color == "text-green-600 bg-green-100"
    ensures status == "incomplete" ==> color == "text-red-600 bg-red-100"
    ensures status == "warning" ==> color == "text-yellow-600 bg-yellow-100"
    ensures status !in {"complete", "incomplete", "warning"} ==> color == "text-gray-600 bg-gray-100"
  {
    if status == "complete" then "text-green-600 bg-green-100"
    else if status == "incomplete" then "text-red-600 bg-red-100"
    else if status == "warning" then "text-yellow-600 bg-yellow-100"
    else "text-gray-600 bg-gray-100"
  }

  datatype Icon = CheckIcon | AlertCircleIcon | AlertTriangleIcon

  /** `getStatusIcon`: the three statuses have an icon, anything else none. */
  function StatusIcon(status: string): (icon: Option<Icon>)
    ensures icon.Some? <==> status in {"complete", "incomplete", "warning"}
    ensures status == "complete" ==> icon == Some(CheckIcon)
    ensures status == "incomplete" ==> icon == Some(AlertCircleIcon)
    ensures status == "warning" ==> icon == Some(AlertTriangleIcon)
  {
    if status == "complete" then Some(CheckIcon)
    else if status == "incomplete" then Some(AlertCircleIcon)
    else if status == "warning" then Some(AlertTriangleIcon)
    else None
  }

  /** The page state: which section is expanded and whether the
      confirmation dialog is open. */
  datatype ReviewState = ReviewState(expanded: Option<string>, showSubmitModal: bool)

  const INITIAL: ReviewState := ReviewState(None, false)

  /** The Submit button: it opens the dialog, unless it is disabled. */
  function ClickSubmit(s: ReviewState, sections: seq<ReviewSection>): (r: ReviewState)
    ensures r.showSubmitModal <==> s.showSubmitModal || !SubmitDisabled(sections)
    ensures r.expanded == s.expanded
  {
    if SubmitDisabled(sections) then s else s.(showSubmitModal := true)
  }

  /** Cancel and Confirm Submission both close the dialog and change
      nothing else. */
  function CloseDialog(s: ReviewState): (r: ReviewState)
    ensures !r.showSubmitModal && r.expanded == s.expanded
  {
    s.(showSubmitModal := false)
  }

  /** On the shipped sections the dialog can never be opened. */
  lemma ShippedDialogStaysClosed(s: ReviewState)
    requires !s.showSubmitModal
    ensures !ClickSubmit(s, REVIEW_SECTIONS).showSubmitModal
  {
    ShippedReviewBlocked();
  }
}
