/** Migrating loses no stored value: what an entry or its legacy file says is what is listed and written. */
module WorkspaceValues {
  import opened Wrappers
  import opened Text
  import opened WorkspaceListing
  import opened WorkspaceTheorems

  // The legacy file of an entry, if the listing reads it.
  function LegacyOf(sessions: Sessions, projectPath: string, w: Workspace): Option<LegacyMetadata> {
    var id := LegacyId(projectPath, w.path);
    if !NewFormat(w) && id in sessions && sessions[id].File? then Some(sessions[id].metadata) else None
  }

  // A stored value is the one that counts, if there is one.
  predicate Holds<T(==)>(stored: Option<T>, now: Option<T>) {
    stored.Some? ==> now == stored
  }

  // A value may be stored in two places, the first of which counts before the second.
  predicate HoldsFirst<T(==)>(first: Option<T>, second: Option<T>, now: Option<T>) {
    Holds(first, now) && (first.None? ==> Holds(second, now))
  }

  // ---------- what is written ----------

  // The entry keeps the values of its own, and takes those of its legacy file over them where that file counts.
  predicate Remembers(sessions: Sessions, projectPath: string, w: Workspace, v: Workspace) {
    var m := LegacyOf(sessions, projectPath, w);
    && v.path == w.path && v.aiSettings == w.aiSettings
    && v.parentWorkspaceId == w.parentWorkspaceId && v.pendingAutoTitle == w.pendingAutoTitle
    && (NewFormat(w) ==>
          && v.id == w.id && v.name == w.name && (Truthy(w.createdAt) ==> v.createdAt == w.createdAt)
          && Holds(w.runtimeConfig, v.runtimeConfig)
          && v.heartbeat == w.heartbeat && v.projects == w.projects && v.forkFamilyBaseName == w.forkFamilyBaseName)
    && (m.Some? ==>
          && v.id == m.value.id && (Truthy(m.value.name) ==> v.name == m.value.name)
          && Holds(m.value.createdAt, v.createdAt) && Holds(m.value.runtimeConfig, v.runtimeConfig)
          && HoldsFirst(w.aiSettingsByAgent, m.value.aiSettingsByAgent, v.aiSettingsByAgent)
          && HoldsFirst(w.heartbeat, m.value.heartbeat, v.heartbeat)
          && HoldsFirst(w.projects, m.value.projects, v.projects)
          && HoldsFirst(m.value.forkFamilyBaseName, w.forkFamilyBaseName, v.forkFamilyBaseName))
    && (m.None? ==>
          && Holds(w.aiSettingsByAgent, v.aiSettingsByAgent) && v.heartbeat == w.heartbeat && v.projects == w.projects
          && v.forkFamilyBaseName == w.forkFamilyBaseName)
  }

  lemma MigratingRemembers(sessions: Sessions, now: string, projectPath: string, w: Workspace)
    ensures Remembers(sessions, projectPath, w, MigrateOne(sessions, now, projectPath, w))
  {
  }

  // Nor does the second pass forget anything.
  lemma MigratingTwiceRemembers(sessions: Sessions, now1: string, now2: string, projectPath: string, w: Workspace)
    requires Migratable(sessions, projectPath, w)
    ensures Remembers(sessions, projectPath, w, MigrateOne(sessions, now2, projectPath, MigrateOne(sessions, now1, projectPath, w)))
  {
    var once := MigrateOne(sessions, now1, projectPath, w);
    LegacyIdIsNotEmpty(projectPath, w.path);
    MigratingRemembers(sessions, now1, projectPath, w);
    MigratingRemembers(sessions, now2, projectPath, once);
    assert NewFormat(once);
  }

  // A value that is stored nowhere is made up from the path, the clock and the defaults.
  lemma GapsAreFilled(sessions: Sessions, now: string, projectPath: string, w: Workspace)
    ensures var v := MigrateOne(sessions, now, projectPath, w); var m := LegacyOf(sessions, projectPath, w);
      var missing := !NewFormat(w) && LegacyId(projectPath, w.path) !in sessions;
      && (missing ==> v.id == Some(LegacyId(projectPath, w.path)))
      && (missing || (m.Some? && !Truthy(m.value.name)) ==> v.name == Some(Basename(w.path)))
      && (missing || (m.Some? && m.value.createdAt.None?) || (NewFormat(w) && w.createdAt.None?) ==> v.createdAt == Some(now))
      && (missing || (m.Some? && m.value.runtimeConfig.None?) || (NewFormat(w) && w.runtimeConfig.None?) ==>
            v.runtimeConfig == Some(DEFAULT_RUNTIME_CONFIG))
      && (NewFormat(w) && w.aiSettingsByAgent.None? && w.aiSettings.Some? ==>
            v.aiSettingsByAgent == Some(PlanAndExec(w.aiSettings.value)))
  {
  }

  // ---------- what is listed ----------

  // The listing says what is stored, in the legacy file before the entry if it is read.
  predicate Shows(sessions: Sessions, projectPath: string, w: Workspace, l: Metadata) {
    var m := LegacyOf(sessions, projectPath, w);
    && l.namedWorkspacePath == w.path
    && (NewFormat(w) ==>
          && l.id == w.id && Some(l.name) == w.name && Holds(w.createdAt, Some(l.createdAt))
          && Holds(w.runtimeConfig, Some(l.runtimeConfig)))
    && (m.Some? ==>
          && l.id == m.value.id && (Truthy(m.value.name) ==> Some(l.name) == m.value.name)
          && (Truthy(m.value.projectPath) ==> Some(l.projectPath) == m.value.projectPath)
          && (Truthy(m.value.projectName) ==> Some(l.projectName) == m.value.projectName)
          && Holds(m.value.createdAt, Some(l.createdAt)) && Holds(m.value.runtimeConfig, Some(l.runtimeConfig))
          && HoldsFirst(m.value.aiSettings, w.aiSettings, l.aiSettings)
          && HoldsFirst(m.value.aiSettingsByAgent, w.aiSettingsByAgent, l.aiSettingsByAgent)
          && HoldsFirst(m.value.heartbeat, w.heartbeat, l.heartbeat)
          && Holds(m.value.projects, l.projects))
    && (m.None? ==>
          && Attributed(projectPath, w, l)
          && l.aiSettings == w.aiSettings && Holds(w.aiSettingsByAgent, l.aiSettingsByAgent) && l.heartbeat == w.heartbeat)
  }

  // A workspace of several projects is listed under the first of them, with all their names.
  predicate Attributed(projectPath: string, w: Workspace, l: Metadata) {
    if w.projects.Some? && w.projects.value != [] then
      && l.projectPath == w.projects.value[0].projectPath && l.projects == w.projects
      && Split(l.projectName, '+') == Concat(NamePieces(w.projects.value))
    else
      && l.projectPath == projectPath && l.projects.None?
      && l.projectName == if Basename(projectPath) == "" then "unknown" else Basename(projectPath)
  }

  // The pieces of the names between plus signs.
  function NamePieces(refs: seq<ProjectRef>): seq<seq<string>> {
    seq(|refs|, i requires 0 <= i < |refs| => Split(refs[i].projectName, '+'))
  }

  function Concat(sss: seq<seq<string>>): seq<string> {
    if sss == [] then [] else sss[0] + Concat(sss[1..])
  }

  function Names(refs: seq<ProjectRef>): seq<string> {
    seq(|refs|, i requires 0 <= i < |refs| => refs[i].projectName)
  }

  lemma {:induction false} JoinedSplits(refs: seq<ProjectRef>)
    requires refs != []
    ensures Split(Join(Names(refs), "+"), '+') == Concat(NamePieces(refs))
  {
    if |refs| == 1 {
      assert NamePieces(refs)[1..] == [];
    } else {
      JoinedSplits(refs[1..]);
      assert Names(refs)[1..] == Names(refs[1..]) && NamePieces(refs)[1..] == NamePieces(refs[1..]);
      SplitConcat(refs[0].projectName, '+', Join(Names(refs[1..]), "+"));
    }
  }

  lemma ListingShows(sessions: Sessions, now: string, projectPath: string, w: Workspace)
    ensures Shows(sessions, projectPath, w, ListOne(sessions, now, projectPath, w))
  {
    if w.projects.Some? && w.projects.value != [] {
      JoinedSplits(w.projects.value);
      assert Names(w.projects.value) == seq(|w.projects.value|, i requires 0 <= i < |w.projects.value| => w.projects.value[i].projectName);
    }
  }

  // What is stored nowhere is listed as it is made up.
  lemma ListedGaps(sessions: Sessions, now: string, projectPath: string, w: Workspace)
    ensures var l := ListOne(sessions, now, projectPath, w); var m := LegacyOf(sessions, projectPath, w);
      && (!NewFormat(w) && m.None? ==>
            && l.id == Some(LegacyId(projectPath, w.path)) && l.name == Basename(w.path)
            && l.createdAt == now && l.runtimeConfig == DEFAULT_RUNTIME_CONFIG)
      && (m.Some? && !Truthy(m.value.name) ==> l.name == Basename(w.path))
      && ((m.Some? && m.value.createdAt.None?) || (NewFormat(w) && w.createdAt.None?) ==> l.createdAt == now)
      && ((m.Some? && m.value.runtimeConfig.None?) || (NewFormat(w) && w.runtimeConfig.None?) ==> l.runtimeConfig == DEFAULT_RUNTIME_CONFIG)
      && (m.Some? && !Truthy(m.value.projectPath) ==> l.projectPath == Attribution(projectPath, w))
      && (m.Some? && !Truthy(m.value.projectName) ==> l.projectName == AttributionName(projectPath, w))
      && (m.None? && w.aiSettingsByAgent.None? ==>
            l.aiSettingsByAgent == if w.aiSettings.Some? then Some(PlanAndExec(w.aiSettings.value)) else None)
  {
  }

  // ---------- names ----------

  // The base name is what follows the last slash.
  lemma {:induction false} BasenameIs(prefix: string, name: string)
    requires '/' !in name
    ensures Basename(prefix + "/" + name) == name && Basename(name) == name
  {
    var path := prefix + "/" + name;
    assert path[|prefix|] == '/';
    var i := IndexOf(path, '/');
    if i == |prefix| {
      assert path[i + 1..] == name;
    } else {
      assert forall k :: 0 <= k < i ==> path[..i][k] == path[k];
      assert path[i + 1..] == prefix[i + 1..] + "/" + name;
      BasenameIs(prefix[i + 1..], name);
    }
  }

  // The old id of a workspace is made of the last names of its two paths.
  lemma LegacyIdIs(a: string, project: string, b: string, workspace: string)
    requires '/' !in project && '/' !in workspace
    ensures LegacyId(a + "/" + project, b + "/" + workspace) == (if project == "" then "unknown" else project) + "-" + workspace
  {
    BasenameIs(a, project);
    BasenameIs(b, workspace);
  }

  // ---------- the whole file ----------

  // After two passes over a file of migratable entries, every value stored before is still in its entry, and what is
  // listed for it is what the entry says.
  lemma StoredValuesSurvive(sessions: Sessions, now1: string, now2: string, now: string, ps: seq<Project>, i: nat, j: nat)
    requires now1 != "" && now2 != "" && AllMigratable(sessions, ps)
    requires i < |ps| && ps[i].path != "" && j < |ps[i].workspaces|
    ensures var qs := Migrated(sessions, now2, Migrated(sessions, now1, ps)); var v := qs[i].workspaces[j];
      && Remembers(sessions, ps[i].path, ps[i].workspaces[j], v)
      && exists k :: 0 <= k < |Listing(sessions, now, qs)| && ListsEntry(Listing(sessions, now, qs)[k], ps[i].path, v)
  {
    var once := Migrated(sessions, now1, ps);
    var qs := Migrated(sessions, now2, once);
    var v := qs[i].workspaces[j];
    assert v == MigrateOne(sessions, now2, ps[i].path, MigrateOne(sessions, now1, ps[i].path, ps[i].workspaces[j]));
    MigratingTwiceRemembers(sessions, now1, now2, ps[i].path, ps[i].workspaces[j]);
    TwoPassesSettle(sessions, now1, now2, ps);
    ListingIsInStoredOrder(sessions, now, qs);
    var k := StoredIsEntry(qs, i, j);
    SettledListing(sessions, now, ps[i].path, v);
    ListingShows(sessions, now, ps[i].path, v);
  }

  predicate ListsEntry(l: Metadata, projectPath: string, v: Workspace) {
    && l.id == v.id && Some(l.name) == v.name && Some(l.createdAt) == v.createdAt && Some(l.runtimeConfig) == v.runtimeConfig
    && l.aiSettings == v.aiSettings && l.aiSettingsByAgent == v.aiSettingsByAgent && l.heartbeat == v.heartbeat
    && Attributed(projectPath, v, l) && l.namedWorkspacePath == v.path
  }

  // ---------- the lookup ----------

  // What a lookup says of an entry: its paths, and its name and flags if the id is its own.
  predicate Locates(found: Location, projectPath: string, w: Workspace, id: string) {
    && found.workspacePath == w.path && found.projectPath == projectPath
    && found.attributionProjectPath
         == (if w.projects.Some? && w.projects.value != [] then w.projects.value[0].projectPath else projectPath)
    && (w.id == Some(id) ==>
          found.workspaceName == w.name && found.parentWorkspaceId == w.parentWorkspaceId && found.pendingAutoTitle == w.pendingAutoTitle)
    && (w.id != Some(id) ==> found.workspaceName.None? && found.parentWorkspaceId.None? && found.pendingAutoTitle.None?)
  }

  // Whether an entry is meant: by its id, or, having none, by the id in the file of its last name or by its old id.
  predicate Meant(sessions: Sessions, projectPath: string, w: Workspace, id: string) {
    || w.id == Some(id)
    || ((w.id == None || w.id == Some("")) &&
         var name := Basename(w.path);
         (name in sessions && sessions[name].File? && sessions[name].metadata.id == Some(id)) || LegacyId(projectPath, w.path) == id)
  }

  // The first entry that is meant is the one that is found, and without one nothing is.
  lemma {:induction false} FirstMeantIsFound(sessions: Sessions, ps: seq<Project>, from: nat, i: nat, j: nat, id: string)
    requires from <= i < |ps| && j < |ps[i].workspaces| && Meant(sessions, ps[i].path, ps[i].workspaces[j], id)
    requires forall k, l :: from <= k < i && 0 <= l < |ps[k].workspaces| ==> !Meant(sessions, ps[k].path, ps[k].workspaces[l], id)
    requires forall l :: 0 <= l < j ==> !Meant(sessions, ps[i].path, ps[i].workspaces[l], id)
    ensures var found := FindFrom(sessions, ps, from, id); found.Some? && Locates(found.value, ps[i].path, ps[i].workspaces[j], id)
    decreases i - from
  {
    if from < i {
      NoneMeantIn(sessions, ps[from], 0, id);
      FirstMeantIsFound(sessions, ps, from + 1, i, j, id);
    } else {
      FirstMeantIn(sessions, ps[i], 0, j, id);
    }
  }

  lemma {:induction false} FirstMeantIn(sessions: Sessions, p: Project, from: nat, j: nat, id: string)
    requires from <= j < |p.workspaces| && Meant(sessions, p.path, p.workspaces[j], id)
    requires forall l :: from <= l < j ==> !Meant(sessions, p.path, p.workspaces[l], id)
    ensures var found := FindIn(sessions, p, from, id); found.Some? && Locates(found.value, p.path, p.workspaces[j], id)
    decreases j - from
  {
    if from < j { FirstMeantIn(sessions, p, from + 1, j, id); }
  }

  lemma {:induction false} NoneMeantIn(sessions: Sessions, p: Project, from: nat, id: string)
    requires from <= |p.workspaces|
    requires forall l :: from <= l < |p.workspaces| ==> !Meant(sessions, p.path, p.workspaces[l], id)
    ensures FindIn(sessions, p, from, id) == None
    decreases |p.workspaces| - from
  {
    if from < |p.workspaces| { NoneMeantIn(sessions, p, from + 1, id); }
  }

  lemma {:induction false} NothingMeantIsFound(sessions: Sessions, ps: seq<Project>, from: nat, id: string)
    requires from <= |ps|
    requires forall k, l :: from <= k < |ps| && 0 <= l < |ps[k].workspaces| ==> !Meant(sessions, ps[k].path, ps[k].workspaces[l], id)
    ensures FindFrom(sessions, ps, from, id) == None
    decreases |ps| - from
  {
    if from < |ps| {
      NoneMeantIn(sessions, ps[from], 0, id);
      NothingMeantIsFound(sessions, ps, from + 1, id);
    }
  }
}
