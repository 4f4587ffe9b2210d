/** The request validators (server/src/validations/schemas.ts): the
    registration, proposal and section-generation schemas as predicates on
    typed input, with the messages the failing checks report. */
module Schemas {
  import opened Common
  import CreateProposal

  /** `/[lo-hi]/.test(s)`: some character of `s` lies in the range. */
  function ContainsInRange(s: string, lo: char, hi: char): (b: bool)
    ensures b <==> exists i :: 0 <= i < |s| && lo <= s[i] <= hi
    decreases |s|
  {
    if s == [] then false
    else if lo <= s[0] <= hi then true
    else
      var rest := ContainsInRange(s[1..], lo, hi);
      assert forall i :: 1 <= i < |s| ==> s[i] == s[1..][i - 1];
      assert rest ==> exists i :: 1 <= i < |s| && lo <= s[i] <= hi;
      rest
  }

  const PASSWORD_TOO_SHORT: string := "Password must be at least 8 characters"
  const PASSWORD_NO_UPPER: string := "Password must contain at least one uppercase letter"
  const PASSWORD_NO_LOWER: string := "Password must contain at least one lowercase letter"
  const PASSWORD_NO_DIGIT: string := "Password must contain at least one number"

  /** The messages of the password checks that fail, in the order the
      schema lists them: every check runs, so several can fail together. */
  function PasswordIssues(password: string): (issues: seq<string>)
    ensures PASSWORD_TOO_SHORT in issues <==> |password| < 8
    ensures PASSWORD_NO_UPPER in issues <==> !ContainsInRange(password, 'A', 'Z')
    ensures PASSWORD_NO_LOWER in issues <==> !ContainsInRange(password, 'a', 'z')
    ensures PASSWORD_NO_DIGIT in issues <==> !ContainsInRange(password, '0', '9')
    ensures |issues| <= 4
  {
    (if |password| < 8 then [PASSWORD_TOO_SHORT] else [])
    + (if !ContainsInRange(password, 'A', 'Z') then [PASSWORD_NO_UPPER] else [])
    + (if !ContainsInRange(password, 'a', 'z') then [PASSWORD_NO_LOWER] else [])
    + (if !ContainsInRange(password, '0', '9') then [PASSWORD_NO_DIGIT] else [])
  }

  /** A password is accepted exactly when it has at least eight characters,
      an upper-case letter, a lower-case letter and a digit. */
  lemma PasswordAccepted(password: string)
    ensures PasswordIssues(password) == [] <==>
              && |password| >= 8
              && (exists i :: 0 <= i < |password| && 'A' <= password[i] <= 'Z')
              && (exists i :: 0 <= i < |password| && 'a' <= password[i] <= 'z')
              && (exists i :: 0 <= i < |password| && '0' <= password[i] <= '9')
  {
    var issues := PasswordIssues(password);
    if issues != [] {
      assert issues[0] in issues;
    }
  }

  /** The registration body; the email's format check is given as its
      outcome. */
  datatype RegisterInput = RegisterInput(email: string, password: string, name: string, organization: Option<string>)

  /** The messages `registerSchema` reports: email, then password, then
      name; `organization` may be left out and takes any string. */
  function RegisterIssues(input: RegisterInput, emailValid: bool): (issues: seq<string>)
    ensures "Invalid email address" in issues <==> !emailValid
    ensures "Name must be at least 2 characters" in issues <==> |input.name| < 2
    ensures forall m :: m in PasswordIssues(input.password) ==> m in issues
  {
    (if emailValid then [] else ["Invalid email address"])
    + PasswordIssues(input.password)
    + (if |input.name| < 2 then ["Name must be at least 2 characters"] else [])
  }

  /** Registration passes exactly when the email is well formed, the
      password passes and the name has at least two characters, whatever
      the organization. */
  lemma RegisterAccepted(input: RegisterInput, emailValid: bool)
    ensures RegisterIssues(input, emailValid) == [] <==>
              emailValid && PasswordIssues(input.password) == [] && |input.name| >= 2
    ensures RegisterIssues(input, emailValid) == RegisterIssues(input.(organization := None), emailValid)
  {
    var issues := RegisterIssues(input, emailValid);
    if !(emailValid && PasswordIssues(input.password) == [] && |input.name| >= 2) {
      if PasswordIssues(input.password) != [] {
        assert PasswordIssues(input.password)[0] in issues;
      }
    }
  }

  /** The values `organizationType` may take. */
  const ORGANIZATION_TYPES: set<string> := {"nonprofit", "education", "research", "community", "other"}

  datatype Timeline = Timeline(startDate: string, endDate: string, duration: string)

  /** The proposal body. Numbers are exact rationals. */
  datatype ProposalInput = ProposalInput(
    projectTitle: string,
    organizationType: string,
    missionStatement: Option<string>,
    targetAmount: Option<real>,
    projectTimeline: Option<Timeline>,
    targetAudience: Option<string>,
    objectives: seq<string>,
    teamSize: Option<real>)

  /** `.int()` on a number: it has no fractional part. */
  predicate IsWhole(x: real)
  {
    x.Floor as real == x
  }

  /** The fields of the proposal body an issue can be reported on. */
  datatype ProposalPath =
    | ProjectTitle | OrganizationType | TargetAmount | TimelineStart | TimelineEnd | Objectives | TeamSize

  /** The paths of the issues `proposalSchema` reports, in the order of its
      fields; a team size that is neither whole nor positive fails both of
      its checks. Whether a string is an ISO date-time is given as
      `isDatetime`. */
  function ProposalIssues(p: ProposalInput, isDatetime: string -> bool): (paths: seq<ProposalPath>)
    ensures ProjectTitle in paths <==> |p.projectTitle| < 3
    ensures OrganizationType in paths <==> p.organizationType !in ORGANIZATION_TYPES
    ensures TargetAmount in paths <==> p.targetAmount.Some? && p.targetAmount.value <= 0.0
    ensures TimelineStart in paths <==> p.projectTimeline.Some? && !isDatetime(p.projectTimeline.value.startDate)
    ensures TimelineEnd in paths <==> p.projectTimeline.Some? && !isDatetime(p.projectTimeline.value.endDate)
    ensures Objectives in paths <==> |p.objectives| == 0
    ensures TeamSize in paths <==> p.teamSize.Some? && !(IsWhole(p.teamSize.value) && p.teamSize.value > 0.0)
  {
    HeadIssues(p) + TailIssues(p, isDatetime)
  }

  /** The issues of the title, the organization type and the target
      amount. */
  function HeadIssues(p: ProposalInput): (paths: seq<ProposalPath>)
    ensures ProjectTitle in paths <==> |p.projectTitle| < 3
    ensures OrganizationType in paths <==> p.organizationType !in ORGANIZATION_TYPES
    ensures TargetAmount in paths <==> p.targetAmount.Some? && p.targetAmount.value <= 0.0
    ensures forall q :: q in paths ==> q in {ProjectTitle, OrganizationType, TargetAmount}
  {
    Check(|p.projectTitle| < 3, ProjectTitle)
    + Check(p.organizationType !in ORGANIZATION_TYPES, OrganizationType)
    + Check(p.targetAmount.Some? && p.targetAmount.value <= 0.0, TargetAmount)
  }

  /** The issues of the timeline, the objectives and the team size. */
  function TailIssues(p: ProposalInput, isDatetime: string -> bool): (paths: seq<ProposalPath>)
    ensures TimelineStart in paths <==> p.projectTimeline.Some? && !isDatetime(p.projectTimeline.value.startDate)
    ensures TimelineEnd in paths <==> p.projectTimeline.Some? && !isDatetime(p.projectTimeline.value.endDate)
    ensures Objectives in paths <==> |p.objectives| == 0
    ensures TeamSize in paths <==> p.teamSize.Some? && !(IsWhole(p.teamSize.value) && p.teamSize.value > 0.0)
    ensures forall q :: q in paths ==> q in {TimelineStart, TimelineEnd, Objectives, TeamSize}
  {
    Check(p.projectTimeline.Some? && !isDatetime(p.projectTimeline.value.startDate), TimelineStart)
    + Check(p.projectTimeline.Some? && !isDatetime(p.projectTimeline.value.endDate), TimelineEnd)
    + Check(|p.objectives| == 0, Objectives)
    + Check(p.teamSize.Some? && !IsWhole(p.teamSize.value), TeamSize)
    + Check(p.teamSize.Some? && p.teamSize.value <= 0.0, TeamSize)
  }

  /** One check of the schema: its path when it fails, nothing otherwise. */
  function Check(fails: bool, path: ProposalPath): (r: seq<ProposalPath>)
    ensures path in r <==> fails
    ensures forall q :: q in r ==> q == path
  {
    if fails then [path] else []
  }

  /** A proposal passes exactly when its title has at least three
      characters, its organization type is one of the five, it has an
      objective, a given target amount is positive, a given timeline has
      date-time start and end, and a given team size is a whole number of
      at least one. */
  lemma ProposalAccepted(p: ProposalInput, isDatetime: string -> bool)
    ensures ProposalIssues(p, isDatetime) == [] <==>
              && |p.projectTitle| >= 3
              && p.organizationType in {"nonprofit", "education", "research", "community", "other"}
              && |p.objectives| >= 1
              && (p.targetAmount.Some? ==> p.targetAmount.value > 0.0)
              && (p.projectTimeline.Some? ==>
                    (isDatetime(p.projectTimeline.value.startDate) && isDatetime(p.projectTimeline.value.endDate)))
              && (p.teamSize.Some? ==> p.teamSize.value == p.teamSize.value.Floor as real && p.teamSize.value.Floor >= 1)
  {
    var issues := ProposalIssues(p, isDatetime);
    if issues != [] {
      assert issues[0] in issues;
    }
  }

  /** `proposalSchema` accepts the body. */
  predicate ValidProposal(p: ProposalInput, isDatetime: string -> bool)
  {
    ProposalIssues(p, isDatetime) == []
  }

  /** Leaving out every optional field never makes a valid proposal
      invalid. */
  lemma OptionalFieldsOptional(p: ProposalInput, isDatetime: string -> bool)
    requires ValidProposal(p, isDatetime)
    ensures ValidProposal(p.(missionStatement := None, targetAmount := None, projectTimeline := None,
                             targetAudience := None, teamSize := None), isDatetime)
  {
  }

  /** The section names the generation schema accepts. */
  const SECTION_NAMES: set<string> :=
    {"executiveSummary", "needStatement", "projectDescription", "methodology", "evaluation", "sustainability", "budget"}

  /** `sectionGenerationSchema`: a known section name and, when given, a
      temperature between 0 and 1. */
  predicate ValidSectionGeneration(sectionName: string, temperature: Option<real>)
  {
    sectionName in SECTION_NAMES && (temperature.Some? ==> 0.0 <= temperature.value <= 1.0)
  }

  /** The wizard's renaming of its field ids lands exactly on the section
      names this schema accepts: every renamed field gives one, and every
      one comes from a renamed field. */
  lemma WizardNamesMatchSchema()
    ensures forall f :: f in CreateProposal.MAPPED_FIELDS ==> CreateProposal.AISectionName(f) in SECTION_NAMES
    ensures forall n :: n in SECTION_NAMES ==> exists f :: f in CreateProposal.MAPPED_FIELDS && CreateProposal.AISectionName(f) == n
  {
    forall n | n in SECTION_NAMES
      ensures exists f :: f in CreateProposal.MAPPED_FIELDS && CreateProposal.AISectionName(f) == n
    {
      if n == "executiveSummary" {
        assert CreateProposal.AISectionName("summary") == n;
      } else if n == "needStatement" {
        assert CreateProposal.AISectionName("problemStatement") == n;
      } else if n == "projectDescription" {
        assert CreateProposal.AISectionName("solutionDescription") == n;
      } else if n == "methodology" {
        assert CreateProposal.AISectionName("methodology") == n;
      } else if n == "evaluation" {
        assert CreateProposal.AISectionName("evaluationPlan") == n;
      } else if n == "sustainability" {
        assert CreateProposal.AISectionName("resourceNeeds") == n;
      } else {
        assert CreateProposal.AISectionName("budgetBreakdown") == n;
      }
    }
  }

  /** An AI-assisted wizard field that is not renamed keeps its own id,
      a name this schema would refuse. The wizard's own generation route
      does not apply the schema: it only checks that a section name and a
      proposal are present. */
  lemma UnmappedFieldRefused()
    ensures "targetAudience" !in CreateProposal.MAPPED_FIELDS
    ensures !ValidSectionGeneration(CreateProposal.AISectionName("targetAudience"), None)
  {
  }
}
