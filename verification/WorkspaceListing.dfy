/** Listing the stored workspaces, which migrates old entries on the way, and finding one by its id. */
module WorkspaceListing {
  import opened Wrappers
  import opened Text

  const DEFAULT_RUNTIME_CONFIG := "default"

  datatype ProjectRef = ProjectRef(projectPath: string, projectName: string)

  datatype AgentSettings = Stored(text: string) | PlanAndExec(settings: string)

  // An entry of the configuration file; a field is None where the file has none.
  datatype Workspace = Workspace(
    path: string,
    id: Option<string>,
    name: Option<string>,
    createdAt: Option<string>,
    runtimeConfig: Option<string>,
    aiSettings: Option<string>,
    aiSettingsByAgent: Option<AgentSettings>,
    heartbeat: Option<string>,
    projects: Option<seq<ProjectRef>>,
    forkFamilyBaseName: Option<string>,
    parentWorkspaceId: Option<string>,
    pendingAutoTitle: Option<bool>)

  datatype Project = Project(path: string, workspaces: seq<Workspace>)

  // The metadata.json of older versions.
  datatype LegacyMetadata = LegacyMetadata(
    id: Option<string>,
    name: Option<string>,
    projectPath: Option<string>,
    projectName: Option<string>,
    createdAt: Option<string>,
    runtimeConfig: Option<string>,
    aiSettings: Option<string>,
    aiSettingsByAgent: Option<AgentSettings>,
    heartbeat: Option<string>,
    projects: Option<seq<ProjectRef>>,
    forkFamilyBaseName: Option<string>)

  datatype LegacyFile = Unreadable | File(metadata: LegacyMetadata)
  type Sessions = map<string, LegacyFile>   // by session directory

  // What the listing returns for a workspace.
  datatype Metadata = Metadata(
    id: Option<string>,
    name: string,
    projectName: string,
    projectPath: string,
    createdAt: string,
    runtimeConfig: string,
    aiSettings: Option<string>,
    aiSettingsByAgent: Option<AgentSettings>,
    heartbeat: Option<string>,
    projects: Option<seq<ProjectRef>>,
    namedWorkspacePath: string)

  // ---------- names ----------

  // What follows the last slash.
  function Basename(path: string): string {
    if '/' in path then var i := IndexOf(path, '/'); Basename(path[i + 1..]) else path
  }

  function ProjectName(path: string): string {
    if Basename(path) == "" then "unknown" else Basename(path)
  }

  function LegacyId(projectPath: string, path: string): string {
    ProjectName(projectPath) + "-" + Basename(path)
  }

  // A JavaScript string that is neither undefined nor empty.
  predicate Truthy(s: Option<string>) {
    s.Some? && s.value != ""
  }

  function Or<T>(a: Option<T>, b: Option<T>): Option<T> {
    if a.Some? then a else b
  }

  function WorkspaceProjects(w: Workspace): Option<seq<ProjectRef>> {
    if w.projects.Some? && w.projects.value != [] then w.projects else None
  }

  // The project a workspace is attributed to.
  function Attribution(projectPath: string, w: Workspace): string {
    if w.projects.Some? && w.projects.value != [] then w.projects.value[0].projectPath else projectPath
  }

  function JoinedNames(refs: seq<ProjectRef>): string {
    Join(seq(|refs|, i requires 0 <= i < |refs| => refs[i].projectName), "+")
  }

  function AttributionName(projectPath: string, w: Workspace): string {
    if WorkspaceProjects(w).Some? then JoinedNames(WorkspaceProjects(w).value) else ProjectName(projectPath)
  }

  function DerivedSettings(w: Workspace): Option<AgentSettings> {
    Or(w.aiSettingsByAgent, if w.aiSettings.Some? then Some(PlanAndExec(w.aiSettings.value)) else None)
  }

  // ---------- one workspace ----------

  predicate NewFormat(w: Workspace) {
    Truthy(w.id) && Truthy(w.name)
  }

  // metadata.json once its gaps are filled from the entry.
  function FilledMetadata(m: LegacyMetadata, projectPath: string, w: Workspace, now: string): Metadata {
    Metadata(
      m.id,
      if Truthy(m.name) then m.name.value else Basename(w.path),
      if Truthy(m.projectName) then m.projectName.value else AttributionName(projectPath, w),
      if Truthy(m.projectPath) then m.projectPath.value else Attribution(projectPath, w),
      m.createdAt.GetOr(now),
      m.runtimeConfig.GetOr(DEFAULT_RUNTIME_CONFIG),
      Or(m.aiSettings, w.aiSettings),
      Or(m.aiSettingsByAgent, DerivedSettings(w)),
      Or(m.heartbeat, w.heartbeat),
      Or(m.projects, WorkspaceProjects(w)),
      w.path)
  }

  function BasicMetadata(projectPath: string, w: Workspace, now: string): Metadata {
    Metadata(Some(LegacyId(projectPath, w.path)), Basename(w.path), AttributionName(projectPath, w),
             Attribution(projectPath, w), now, DEFAULT_RUNTIME_CONFIG, w.aiSettings, DerivedSettings(w),
             w.heartbeat, WorkspaceProjects(w), w.path)
  }

  function ListOne(sessions: Sessions, now: string, projectPath: string, w: Workspace): Metadata {
    if NewFormat(w) then
      Metadata(w.id, w.name.value, AttributionName(projectPath, w), Attribution(projectPath, w),
               w.createdAt.GetOr(now), w.runtimeConfig.GetOr(DEFAULT_RUNTIME_CONFIG), w.aiSettings,
               DerivedSettings(w), w.heartbeat, WorkspaceProjects(w), w.path)
    else if LegacyId(projectPath, w.path) in sessions && sessions[LegacyId(projectPath, w.path)].File? then
      FilledMetadata(sessions[LegacyId(projectPath, w.path)].metadata, projectPath, w, now)
    else
      BasicMetadata(projectPath, w, now)
  }

  function MigrateOne(sessions: Sessions, now: string, projectPath: string, w: Workspace): Workspace {
    if NewFormat(w) then
      w.(createdAt := if Truthy(w.createdAt) then w.createdAt else Some(w.createdAt.GetOr(now)),
         aiSettingsByAgent := DerivedSettings(w),
         runtimeConfig := Some(w.runtimeConfig.GetOr(DEFAULT_RUNTIME_CONFIG)))
    else
      var legacyId := LegacyId(projectPath, w.path);
      if legacyId !in sessions then
        w.(id := Some(legacyId), name := Some(Basename(w.path)), createdAt := Some(now),
           runtimeConfig := Some(DEFAULT_RUNTIME_CONFIG))
      else match sessions[legacyId]
        case Unreadable => w
        case File(file) =>
          var m := FilledMetadata(file, projectPath, w, now);
          w.(id := m.id, name := Some(m.name), createdAt := Some(m.createdAt), runtimeConfig := Some(m.runtimeConfig),
             aiSettingsByAgent := Or(w.aiSettingsByAgent, m.aiSettingsByAgent),
             heartbeat := Or(w.heartbeat, m.heartbeat),
             projects := Or(w.projects, m.projects),
             forkFamilyBaseName := Or(file.forkFamilyBaseName, w.forkFamilyBaseName))
  }

  // Whether migrating the entry sets the flag that makes the listing write the file.
  predicate Modifies(sessions: Sessions, projectPath: string, w: Workspace) {
    if NewFormat(w) then
      !Truthy(w.createdAt) || (w.aiSettingsByAgent.None? && w.aiSettings.Some?) || w.runtimeConfig.None?
    else
      LegacyId(projectPath, w.path) !in sessions || sessions[LegacyId(projectPath, w.path)].File?
  }

  // ---------- the whole file ----------

  function MigrateAll(sessions: Sessions, now: string, projectPath: string, ws: seq<Workspace>): (r: seq<Workspace>)
    ensures |r| == |ws|
  {
    seq(|ws|, i requires 0 <= i < |ws| => MigrateOne(sessions, now, projectPath, ws[i]))
  }

  // A project with an empty path is skipped.
  function MigrateProject(sessions: Sessions, now: string, p: Project): Project {
    if p.path == "" then p else p.(workspaces := MigrateAll(sessions, now, p.path, p.workspaces))
  }

  function Migrated(sessions: Sessions, now: string, ps: seq<Project>): (r: seq<Project>)
    ensures |r| == |ps|
  {
    seq(|ps|, i requires 0 <= i < |ps| => MigrateProject(sessions, now, ps[i]))
  }

  function ListProject(sessions: Sessions, now: string, p: Project): (r: seq<Metadata>)
    ensures |r| == if p.path == "" then 0 else |p.workspaces|
  {
    if p.path == "" then []
    else seq(|p.workspaces|, i requires 0 <= i < |p.workspaces| => ListOne(sessions, now, p.path, p.workspaces[i]))
  }

  function Listing(sessions: Sessions, now: string, ps: seq<Project>): seq<Metadata> {
    if ps == [] then [] else Listing(sessions, now, ps[..|ps| - 1]) + ListProject(sessions, now, ps[|ps| - 1])
  }

  predicate ModifiesProject(sessions: Sessions, p: Project) {
    p.path != "" && exists i :: 0 <= i < |p.workspaces| && Modifies(sessions, p.path, p.workspaces[i])
  }

  predicate ModifiesAny(sessions: Sessions, ps: seq<Project>) {
    exists i :: 0 <= i < |ps| && ModifiesProject(sessions, ps[i])
  }

  datatype Location = Location(
    workspacePath: string,
    projectPath: string,
    attributionProjectPath: string,
    workspaceName: Option<string>,
    parentWorkspaceId: Option<string>,
    pendingAutoTitle: Option<bool>)

  // Where an entry is; its name and flags are known only if it was found by its own id.
  function LocationOf(projectPath: string, w: Workspace, id: string): Location {
    var own := w.id == Some(id);
    Location(w.path, projectPath, Attribution(projectPath, w), if own then w.name else None,
             if own then w.parentWorkspaceId else None, if own then w.pendingAutoTitle else None)
  }

  // Whether findWorkspace takes an entry for the workspace of that id.
  predicate Matches(sessions: Sessions, projectPath: string, w: Workspace, id: string) {
    || w.id == Some(id)
    || (!Truthy(w.id) &&
         ((Basename(w.path) in sessions && sessions[Basename(w.path)].File? && sessions[Basename(w.path)].metadata.id == Some(id))
          || LegacyId(projectPath, w.path) == id))
  }

  class Config {
    var projects: seq<Project>

    // Returns the listing, and whether the file was written.
    method GetAllWorkspaceMetadata(sessions: Sessions, now: string) returns (listing: seq<Metadata>, configModified: bool)
      modifies this
      ensures listing == Listing(sessions, now, old(projects))
      ensures projects == Migrated(sessions, now, old(projects))
      ensures configModified == ModifiesAny(sessions, old(projects))
    {
      var config;
      config, listing, configModified := MigrateProjects(sessions, now, projects);
      if configModified {
        projects := config;
      } else {
        UnmodifiedStays(sessions, now, projects);
      }
    }

    method FindWorkspace(sessions: Sessions, workspaceId: string) returns (found: Option<Location>)
      ensures found == Find(sessions, projects, workspaceId)
    {
      for i := 0 to |projects|
        invariant FindFrom(sessions, projects, i, workspaceId) == Find(sessions, projects, workspaceId)
      {
        var p := projects[i];
        for j := 0 to |p.workspaces|
          invariant FindIn(sessions, p, j, workspaceId) == FindIn(sessions, p, 0, workspaceId)
        {
          var w := p.workspaces[j];
          if Matches(sessions, p.path, w, workspaceId) {
            return Some(LocationOf(p.path, w, workspaceId));
          }
        }
      }
      return None;
    }
  }

  method MigrateProjects(sessions: Sessions, now: string, ps: seq<Project>)
    returns (config: seq<Project>, listing: seq<Metadata>, modified: bool)
    ensures config == Migrated(sessions, now, ps)
    ensures listing == Listing(sessions, now, ps)
    ensures modified == ModifiesAny(sessions, ps)
  {
    config, listing, modified := [], [], false;
    for i := 0 to |ps|
      invariant config == Migrated(sessions, now, ps[..i])
      invariant listing == Listing(sessions, now, ps[..i])
      invariant modified == ModifiesAny(sessions, ps[..i])
    {
      var migrated, entries, changed := MigrateWorkspaces(sessions, now, ps[i]);
      ListingOneMore(sessions, now, ps, i);
      config := config + [migrated];
      listing := listing + entries;
      modified := modified || changed;
    }
    assert ps[..|ps|] == ps;
  }

  method MigrateWorkspaces(sessions: Sessions, now: string, project: Project)
    returns (migrated: Project, entries: seq<Metadata>, modified: bool)
    ensures migrated == MigrateProject(sessions, now, project)
    ensures entries == ListProject(sessions, now, project)
    ensures modified == ModifiesProject(sessions, project)
  {
    var workspaces := project.workspaces;
    migrated, entries, modified := project, [], false;
    if project.path == "" { return; }
    for j := 0 to |workspaces|
      invariant |workspaces| == |project.workspaces| == |MigrateAll(sessions, now, project.path, project.workspaces)|
      invariant forall k :: 0 <= k < j ==> workspaces[k] == MigrateOne(sessions, now, project.path, project.workspaces[k])
      invariant forall k :: j <= k < |workspaces| ==> workspaces[k] == project.workspaces[k]
      invariant entries == ListProject(sessions, now, project)[..j]
      invariant modified <==> exists k :: 0 <= k < j && Modifies(sessions, project.path, project.workspaces[k])
    {
      entries := entries + [ListOne(sessions, now, project.path, workspaces[j])];
      modified := modified || Modifies(sessions, project.path, workspaces[j]);
      workspaces := workspaces[j := MigrateOne(sessions, now, project.path, workspaces[j])];
    }
    migrated := project.(workspaces := workspaces);
  }

  // The first match at or after the j-th workspace of a project.
  function FindIn(sessions: Sessions, p: Project, j: nat, id: string): Option<Location>
    requires j <= |p.workspaces|
    decreases |p.workspaces| - j
  {
    if j == |p.workspaces| then None
    else if Matches(sessions, p.path, p.workspaces[j], id) then
      Some(LocationOf(p.path, p.workspaces[j], id))
    else FindIn(sessions, p, j + 1, id)
  }

  function FindFrom(sessions: Sessions, ps: seq<Project>, i: nat, id: string): Option<Location>
    requires i <= |ps|
    decreases |ps| - i
  {
    if i == |ps| then None
    else Or(FindIn(sessions, ps[i], 0, id), FindFrom(sessions, ps, i + 1, id))
  }

  function Find(sessions: Sessions, ps: seq<Project>, id: string): Option<Location> {
    FindFrom(sessions, ps, 0, id)
  }

  // ---------- writing only what changed ----------

  lemma ModifiesOneMore(sessions: Sessions, ps: seq<Project>, p: Project)
    ensures ModifiesAny(sessions, ps + [p]) <==> ModifiesAny(sessions, ps) || ModifiesProject(sessions, p)
  {
    if i :| 0 <= i < |ps| && ModifiesProject(sessions, ps[i]) { assert ModifiesProject(sessions, (ps + [p])[i]); }
    if ModifiesProject(sessions, p) { assert ModifiesProject(sessions, (ps + [p])[|ps|]); }
    if i :| 0 <= i < |ps + [p]| && ModifiesProject(sessions, (ps + [p])[i]) {
      if i < |ps| { assert ModifiesProject(sessions, ps[i]); }
    }
  }

  lemma ListingOneMore(sessions: Sessions, now: string, ps: seq<Project>, i: nat)
    requires i < |ps|
    ensures Migrated(sessions, now, ps[..i + 1]) == Migrated(sessions, now, ps[..i]) + [MigrateProject(sessions, now, ps[i])]
    ensures Listing(sessions, now, ps[..i + 1]) == Listing(sessions, now, ps[..i]) + ListProject(sessions, now, ps[i])
    ensures ModifiesAny(sessions, ps[..i + 1]) <==> ModifiesAny(sessions, ps[..i]) || ModifiesProject(sessions, ps[i])
  {
    assert ps[..i + 1][..i] == ps[..i] && ps[..i + 1] == ps[..i] + [ps[i]];
    ModifiesOneMore(sessions, ps[..i], ps[i]);
  }

  // An entry that does not set the flag is not changed, so a file that is not written loses nothing.
  lemma UnmodifiedStays(sessions: Sessions, now: string, ps: seq<Project>)
    requires !ModifiesAny(sessions, ps)
    ensures Migrated(sessions, now, ps) == ps
  {
    forall i | 0 <= i < |ps| ensures MigrateProject(sessions, now, ps[i]) == ps[i] {
      assert !ModifiesProject(sessions, ps[i]);
      if ps[i].path != "" {
        var ws := ps[i].workspaces;
        forall j | 0 <= j < |ws| ensures MigrateOne(sessions, now, ps[i].path, ws[j]) == ws[j] {
          assert !Modifies(sessions, ps[i].path, ws[j]);
        }
        assert MigrateAll(sessions, now, ps[i].path, ws) == ws;
      }
    }
  }
}
