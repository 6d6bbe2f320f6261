/**
 * The build-context fields attached to notifications about a running build:
 * project, build name, branch and an optional comment, with the two
 * fallbacks for a project that cannot be found and a default branch.
 */
module BuildContext {
  import opened Wrappers
  import opened Discord

  /** Shown as the project name when no project of the server owns the build. */
  const NoData := "<No data available>"
  /** Shown as the branch name for a build on no branch or on the default branch. */
  const DefaultBranchLabel := "Default"
  /** TeamCity's name for the default branch (its Branch.DEFAULT_BRANCH_NAME). */
  const DefaultBranchName := "<default>"

  const ProjectFieldName := "프로젝트: "
  const BuildFieldName := "빌드:"
  const BranchFieldName := "브랜치"
  const CommentFieldName := "코멘트"

  datatype Project = Project(projectId: string, name: string, fullName: string)

  datatype Branch = Branch(name: string, displayName: string)

  /** The parts of a running build the notificator reads; the build id is already rendered as text. */
  datatype RunningBuild = RunningBuild(
    buildId: string,
    projectId: string,
    buildTypeName: string,
    branch: Option<Branch>,
    comment: Option<string>)

  /** `i` is the position of the first project in `projects` whose id is `projectId`. */
  predicate IsFirstMatch(projects: seq<Project>, projectId: string, i: int)
  {
    0 <= i < |projects| && projects[i].projectId == projectId &&
    forall j | 0 <= j < i :: projects[j].projectId != projectId
  }

  /** Position of the first project with id `projectId`, or |projects| when there is none. */
  function FirstMatch(projects: seq<Project>, projectId: string): (i: nat)
    ensures i <= |projects|
    ensures forall j | 0 <= j < i :: projects[j].projectId != projectId
    ensures i < |projects| ==> projects[i].projectId == projectId
  {
    if projects == [] then 0
    else if projects[0].projectId == projectId then 0
    else 1 + FirstMatch(projects[1..], projectId)
  }

  /** The project that owns a build: the first one in list order with the build's project id. */
  function FindProject(projects: seq<Project>, projectId: string): (r: Option<Project>)
    ensures r.None? <==> forall p | p in projects :: p.projectId != projectId
    ensures forall i | IsFirstMatch(projects, projectId, i) :: r == Some(projects[i])
  {
    var i := FirstMatch(projects, projectId);
    if i < |projects| then Some(projects[i]) else None
  }

  /** The build-context fields of a running build, in display order. */
  function ContextFields(projects: seq<Project>, build: RunningBuild): (fields: seq<Field>)
    ensures |fields| == if build.comment.Some? then 4 else 3
    ensures fields[0].name == ProjectFieldName && fields[0].inline
    ensures fields[1] == Field(BuildFieldName, build.buildTypeName, true)
    ensures fields[2].name == BranchFieldName && fields[2].inline
    ensures build.comment.Some? ==> fields[3] == Field(CommentFieldName, build.comment.value, false)
    ensures (forall p | p in projects :: p.projectId != build.projectId) ==> fields[0].value == NoData
    ensures forall i | IsFirstMatch(projects, build.projectId, i) :: fields[0].value == projects[i].name
    ensures build.branch.None? || build.branch.value.name == DefaultBranchName ==>
              fields[2].value == DefaultBranchLabel
    ensures build.branch.Some? && build.branch.value.name != DefaultBranchName ==>
              fields[2].value == build.branch.value.displayName
  {
    var projectName := match FindProject(projects, build.projectId)
                       case Some(p) => p.name
                       case None => NoData;
    var branchName := if build.branch.Some? && build.branch.value.name != DefaultBranchName
                      then build.branch.value.displayName else DefaultBranchLabel;
    [Field(ProjectFieldName, projectName, true),
     Field(BuildFieldName, build.buildTypeName, true),
     Field(BranchFieldName, branchName, true)] +
    (if build.comment.Some? then [Field(CommentFieldName, build.comment.value, false)] else [])
  }

  /** Linear search over the server's projects, returning at the first whose id matches the build's. */
  method GetProjectFromRunningBuild(projects: seq<Project>, build: RunningBuild) returns (project: Option<Project>)
    ensures project == FindProject(projects, build.projectId)
    ensures project.None? <==> forall p | p in projects :: p.projectId != build.projectId
    ensures forall i | IsFirstMatch(projects, build.projectId, i) :: project == Some(projects[i])
  {
    for i := 0 to |projects|
      invariant forall j | 0 <= j < i :: projects[j].projectId != build.projectId
    {
      if projects[i].projectId == build.projectId {
        return Some(projects[i]);
      }
    }
    return None;
  }

  /** Builds the context fields by appending them one by one, as the notificator does. */
  method BuildFieldsForRunningBuild(projects: seq<Project>, build: RunningBuild) returns (fields: seq<Field>)
    ensures fields == ContextFields(projects, build)
  {
    fields := [];
    var project := GetProjectFromRunningBuild(projects, build);
    var projectName := NoData;
    if project.Some? {
      projectName := project.value.name;
    }
    fields := fields + [Field(ProjectFieldName, projectName, true)];
    fields := fields + [Field(BuildFieldName, build.buildTypeName, true)];
    var branchName := DefaultBranchLabel;
    if build.branch.Some? && build.branch.value.name != DefaultBranchName {
      branchName := build.branch.value.displayName;
    }
    fields := fields + [Field(BranchFieldName, branchName, true)];
    if build.comment.Some? {
      fields := fields + [Field(CommentFieldName, build.comment.value, false)];
    }
  }
}
