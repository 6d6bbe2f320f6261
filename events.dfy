/**
 * The notification events the CI server raises, and the single embed the
 * notificator builds for each: a fixed title, a description naming the build
 * or project, a colour fixed by the kind of event, and either the
 * build-context fields or no fields.
 */
module Events {
  import opened Wrappers
  import opened Discord
  import opened BuildContext

  /**
   * One event, carrying only what its message reads: the running build, the
   * id of a build whose labeling failed, the extended full name of a build
   * type, the project concerned, or the project of a mute, which may be absent.
   */
  datatype Event =
    | BuildStarted(build: RunningBuild)
    | BuildSuccessful(build: RunningBuild)
    | BuildFailed(build: RunningBuild)
    | BuildFailedToStart(build: RunningBuild)
    | LabelingFailed(buildId: string)
    | BuildFailing(build: RunningBuild)
    | BuildProbablyHanging(build: RunningBuild)
    | BuildTypeResponsibleChanged(buildTypeFullName: string)
    | BuildTypeResponsibleAssigned(buildTypeFullName: string)
    | TestResponsibleChanged(project: Project)
    | TestResponsibleAssigned(project: Project)
    | TestsResponsibleChanged(project: Project)
    | TestsResponsibleAssigned(project: Project)
    | BuildProblemResponsibleAssigned(project: Project)
    | BuildProblemResponsibleChanged(project: Project)
    | TestsMuted(muteProject: Option<Project>)
    | TestsUnmuted(muteProject: Option<Project>)
    | BuildProblemsMuted(muteProject: Option<Project>)
    | BuildProblemsUnmuted(muteProject: Option<Project>)
  {
    /** Events about a running build, whose message carries the build-context fields. */
    predicate IsRunningBuildEvent() {
      BuildStarted? || BuildSuccessful? || BuildFailed? || BuildFailedToStart? ||
      BuildFailing? || BuildProbablyHanging?
    }

    predicate IsMuteEvent() {
      TestsMuted? || TestsUnmuted? || BuildProblemsMuted? || BuildProblemsUnmuted?
    }

    /** A mute event whose mute has no project: the notificator sends nothing for it. */
    predicate IsSkipped() {
      IsMuteEvent() && muteProject.None?
    }
  }

  /** The colour table, by kind of event alone. */
  function ExpectedColor(e: Event): Color
  {
    if e.BuildStarted? then Blue
    else if e.BuildSuccessful? then Green
    else if e.BuildFailed? || e.BuildFailedToStart? || e.LabelingFailed? || e.BuildFailing? then Red
    else Orange
  }

  /** The fixed title each handler gives its embed. */
  function Title(e: Event): string
  {
    match e
    case BuildStarted(_) => "빌드 시작됨!"
    case BuildSuccessful(_) => "빌드 성공!"
    case BuildFailed(_) => "빌드 실패"
    case BuildFailedToStart(_) => "빌드 시작 실패"
    case LabelingFailed(_) => "라벨링 실패"
    case BuildFailing(_) => "Build is failing"
    case BuildProbablyHanging(_) => "Build is probably hanging"
    case BuildTypeResponsibleChanged(_) => "Responsibility for build type has changed"
    case BuildTypeResponsibleAssigned(_) => "Responsibility assigned"
    case TestResponsibleChanged(_) => "Responsibility changed"
    case TestResponsibleAssigned(_) => "Responsibility assigned"
    case TestsResponsibleChanged(_) => "Responsibility changed"
    case TestsResponsibleAssigned(_) => "Responsibility assigned"
    case BuildProblemResponsibleAssigned(_) => "Responsibility assigned"
    case BuildProblemResponsibleChanged(_) => "Responsibility assigned"
    case TestsMuted(_) => "Tests muted"
    case TestsUnmuted(_) => "Tests unmuted"
    case BuildProblemsMuted(_) => "Build problems muted"
    case BuildProblemsUnmuted(_) => "Build problems unmuted"
  }

  /** The description each handler writes, naming the build id, build type or project. */
  function Description(e: Event): string
    requires !e.IsSkipped()
  {
    match e
    case BuildStarted(b) => "ID " + b.buildId + " 빌드가 시작되었습니다."
    case BuildSuccessful(b) => "ID " + b.buildId + " 빌드가 성공했습니다!"
    case BuildFailed(b) => "ID " + b.buildId + " 빌드가 실패했습니다."
    case BuildFailedToStart(b) => "ID " + b.buildId + " 빌드 시작을 실패했습니다!"
    case LabelingFailed(id) => "Labeling of build with the ID " + id + " has failed!"
    case BuildFailing(b) => "The build with the ID " + b.buildId + " is failing!"
    case BuildProbablyHanging(b) => "The build with the ID " + b.buildId + " is probably hanging!"
    case BuildTypeResponsibleChanged(n) => "The responsibility for the build type " + n + " has changed!"
    case BuildTypeResponsibleAssigned(n) => "Responsibility for build type " + n + " has been assigned!"
    case TestResponsibleChanged(p) => "Responsibility for the project " + p.fullName + " has changed!"
    case TestResponsibleAssigned(p) => "Responsibility for project " + p.fullName + " has been assigned!"
    case TestsResponsibleChanged(p) => "Responsibility for project " + p.fullName + " has been changed!"
    case TestsResponsibleAssigned(p) =>
      "Responsibility for one or more tests of project " + p.fullName + " have been assigned!"
    case BuildProblemResponsibleAssigned(p) =>
      "Responsibility for one or more build problems of project " + p.fullName + " have been assigned!"
    case BuildProblemResponsibleChanged(p) =>
      "Responsibility for one or more tests of project " + p.fullName + " has been changed!"
    case TestsMuted(mp) => "One or more tests of the project " + mp.value.fullName + " have been muted!"
    case TestsUnmuted(mp) => "One or more tests of the project " + mp.value.fullName + " have been unmuted!"
    case BuildProblemsMuted(mp) =>
      "One or more build problems of the project " + mp.value.fullName + " have been muted!"
    case BuildProblemsUnmuted(mp) =>
      "One or more build problems of the project " + mp.value.fullName + " have been unmuted!"
  }

  /** The colour each handler passes, one case per handler; it agrees with the colour table. */
  function HandlerColor(e: Event): (c: Color)
    ensures c == ExpectedColor(e)
  {
    match e
    case BuildStarted(_) => Blue
    case BuildSuccessful(_) => Green
    case BuildFailed(_) => Red
    case BuildFailedToStart(_) => Red
    case LabelingFailed(_) => Red
    case BuildFailing(_) => Red
    case BuildProbablyHanging(_) => Orange
    case BuildTypeResponsibleChanged(_) => Orange
    case BuildTypeResponsibleAssigned(_) => Orange
    case TestResponsibleChanged(_) => Orange
    case TestResponsibleAssigned(_) => Orange
    case TestsResponsibleChanged(_) => Orange
    case TestsResponsibleAssigned(_) => Orange
    case BuildProblemResponsibleAssigned(_) => Orange
    case BuildProblemResponsibleChanged(_) => Orange
    case TestsMuted(_) => Orange
    case TestsUnmuted(_) => Orange
    case BuildProblemsMuted(_) => Orange
    case BuildProblemsUnmuted(_) => Orange
  }

  /**
   * The embed for an event that is not skipped, given the build-context
   * fields of its build (ignored for events that carry none).
   */
  function EmbedFor(e: Event, contextFields: seq<Field>): (m: Embed)
    requires !e.IsSkipped()
    ensures m.url == "" && m.timestamp.None? && m.footer.None? && m.thumbnail.None?
    ensures m.color == ExpectedColor(e)
    ensures m.fields == if e.IsRunningBuildEvent() then contextFields else []
  {
    Embed(Title(e), Description(e), "", HandlerColor(e), None, None, None,
          if e.IsRunningBuildEvent() then contextFields else [])
  }

  /** The message an event produces against the server's project list, or None when it is skipped. */
  function MessageFor(projects: seq<Project>, e: Event): (r: Option<Embed>)
    ensures r.None? <==> e.IsMuteEvent() && e.muteProject.None?
    ensures r.Some? ==> r.value.url == "" && r.value.timestamp.None? &&
                        r.value.footer.None? && r.value.thumbnail.None?
    ensures r.Some? ==> r.value.color == ExpectedColor(e)
    ensures r.Some? && e.IsRunningBuildEvent() ==> r.value.fields == ContextFields(projects, e.build)
    ensures r.Some? && !e.IsRunningBuildEvent() ==> r.value.fields == []
  {
    if e.IsSkipped() then None
    else Some(EmbedFor(e, if e.IsRunningBuildEvent() then ContextFields(projects, e.build) else []))
  }
}

/** Worked examples of the event-to-message mapping. */
module EventExamples {
  import opened Wrappers
  import opened Discord
  import opened BuildContext
  import opened Events

  /** A build started on the default branch of a known project, without a comment. */
  lemma BuildStartedOnDefaultBranch()
    ensures var foo := Project("p1", "Foo", "Foo");
            var build := RunningBuild("42", "p1", "Compile", Some(Branch(DefaultBranchName, "main")), None);
            MessageFor([Project("p0", "Bar", "Bar"), foo], BuildStarted(build)) ==
            Some(Embed("빌드 시작됨!", "ID 42 빌드가 시작되었습니다.", "", Blue, None, None, None,
                       [Field(ProjectFieldName, "Foo", true),
                        Field(BuildFieldName, "Compile", true),
                        Field(BranchFieldName, DefaultBranchLabel, true)]))
  {
    var projects := [Project("p0", "Bar", "Bar"), Project("p1", "Foo", "Foo")];
    var build := RunningBuild("42", "p1", "Compile", Some(Branch(DefaultBranchName, "main")), None);
    assert IsFirstMatch(projects, "p1", 1);
    var fields := ContextFields(projects, build);
    assert fields == [Field(ProjectFieldName, "Foo", true),
                      Field(BuildFieldName, "Compile", true),
                      Field(BranchFieldName, DefaultBranchLabel, true)];
    assert "ID " + "42" + " 빌드가 시작되었습니다." == "ID 42 빌드가 시작되었습니다.";
  }

  /** A failed build on a feature branch with a comment, whose project is unknown. */
  lemma BuildFailedOnFeatureBranch()
    ensures var build := RunningBuild("7", "gone", "Test", Some(Branch("refs/heads/feature/x", "feature/x")),
                                      Some("flaky test"));
            MessageFor([Project("p1", "Foo", "Foo")], BuildFailed(build)) ==
            Some(Embed("빌드 실패", "ID 7 빌드가 실패했습니다.", "", Red, None, None, None,
                       [Field(ProjectFieldName, NoData, true),
                        Field(BuildFieldName, "Test", true),
                        Field(BranchFieldName, "feature/x", true),
                        Field(CommentFieldName, "flaky test", false)]))
  {
    var projects := [Project("p1", "Foo", "Foo")];
    var build := RunningBuild("7", "gone", "Test", Some(Branch("refs/heads/feature/x", "feature/x")),
                              Some("flaky test"));
    assert "p1" != "gone";
    var fields := ContextFields(projects, build);
    assert fields == [Field(ProjectFieldName, NoData, true),
                      Field(BuildFieldName, "Test", true),
                      Field(BranchFieldName, "feature/x", true),
                      Field(CommentFieldName, "flaky test", false)];
    assert "ID " + "7" + " 빌드가 실패했습니다." == "ID 7 빌드가 실패했습니다.";
  }
}
