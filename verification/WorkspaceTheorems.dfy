/** The listing reaches a fixed point after two passes, and then agrees with the lookup by id. */
module WorkspaceTheorems {
  import opened Wrappers
  import opened WorkspaceListing

  // ---------- one entry ----------

  // Nothing is left to migrate, and the entry has a creation time.
  predicate Settled(w: Workspace) {
    && NewFormat(w) && Truthy(w.createdAt) && w.runtimeConfig.Some?
    && (w.aiSettings.Some? ==> w.aiSettingsByAgent.Some?)
  }

  // What the listing of a settled entry says does not depend on the clock or on old metadata files.
  lemma SettledListing(sessions: Sessions, now: string, projectPath: string, w: Workspace)
    requires Settled(w)
    ensures ListOne(sessions, now, projectPath, w) ==
      Metadata(w.id, w.name.value, AttributionName(projectPath, w), Attribution(projectPath, w), w.createdAt.value,
               w.runtimeConfig.value, w.aiSettings, w.aiSettingsByAgent, w.heartbeat, WorkspaceProjects(w), w.path)
  {
  }

  // The entries that migration can settle: nobody stored an empty creation time, an old metadata file is
  // readable and names its workspace, and the path does not end in a slash when the name comes from it.
  predicate Migratable(sessions: Sessions, projectPath: string, w: Workspace) {
    if NewFormat(w) then w.createdAt != Some("")
    else if LegacyId(projectPath, w.path) !in sessions then Basename(w.path) != ""
    else match sessions[LegacyId(projectPath, w.path)]
      case Unreadable => false
      case File(m) => Truthy(m.id) && (Truthy(m.name) || Basename(w.path) != "") && m.createdAt != Some("")
  }

  lemma LegacyIdIsNotEmpty(projectPath: string, path: string)
    ensures LegacyId(projectPath, path) != ""
  {
  }

  // Two passes settle an entry exactly when it is migratable.
  lemma SettlesInTwoPasses(sessions: Sessions, now1: string, now2: string, projectPath: string, w: Workspace)
    requires now1 != "" && now2 != ""
    ensures Settled(MigrateOne(sessions, now2, projectPath, MigrateOne(sessions, now1, projectPath, w)))
            <==> Migratable(sessions, projectPath, w)
  {
    LegacyIdIsNotEmpty(projectPath, w.path);
    var once := MigrateOne(sessions, now1, projectPath, w);
    assert once.path == w.path;
    if NewFormat(once) && Truthy(once.createdAt) {
      assert Settled(MigrateOne(sessions, now2, projectPath, once));
    }
  }

  // ---------- the whole file ----------

  ghost predicate AllMigratable(sessions: Sessions, ps: seq<Project>) {
    forall i, j :: 0 <= i < |ps| && ps[i].path != "" && 0 <= j < |ps[i].workspaces| ==>
      Migratable(sessions, ps[i].path, ps[i].workspaces[j])
  }

  ghost predicate AllSettled(ps: seq<Project>) {
    forall i, j :: 0 <= i < |ps| && ps[i].path != "" && 0 <= j < |ps[i].workspaces| ==> Settled(ps[i].workspaces[j])
  }

  lemma TwoPassesSettle(sessions: Sessions, now1: string, now2: string, ps: seq<Project>)
    requires now1 != "" && now2 != ""
    ensures AllSettled(Migrated(sessions, now2, Migrated(sessions, now1, ps))) <==> AllMigratable(sessions, ps)
  {
    var qs := Migrated(sessions, now2, Migrated(sessions, now1, ps));
    forall i, j | 0 <= i < |ps| && ps[i].path != "" && 0 <= j < |ps[i].workspaces|
      ensures Settled(qs[i].workspaces[j]) <==> Migratable(sessions, ps[i].path, ps[i].workspaces[j])
    {
      SettlesInTwoPasses(sessions, now1, now2, ps[i].path, ps[i].workspaces[j]);
    }
    if AllSettled(qs) {
      forall i, j | 0 <= i < |ps| && ps[i].path != "" && 0 <= j < |ps[i].workspaces|
        ensures Migratable(sessions, ps[i].path, ps[i].workspaces[j])
      {
        assert Settled(qs[i].workspaces[j]);
      }
    }
  }

  // A settled file is a fixed point: nothing is written, nothing changes, and every listing is the same.
  lemma SettledFileIsFixed(sessions: Sessions, now: string, ps: seq<Project>)
    requires AllSettled(ps)
    ensures !ModifiesAny(sessions, ps) && Migrated(sessions, now, ps) == ps
    ensures forall later :: Listing(sessions, later, ps) == Listing(sessions, now, ps)
  {
    UnmodifiedStays(sessions, now, ps);
    forall later ensures Listing(sessions, later, ps) == Listing(sessions, now, ps) {
      SameListing(sessions, now, later, ps);
    }
  }

  lemma {:induction false} SameListing(sessions: Sessions, now: string, later: string, ps: seq<Project>)
    requires AllSettled(ps)
    ensures Listing(sessions, later, ps) == Listing(sessions, now, ps)
  {
    if ps != [] {
      SameListing(sessions, now, later, ps[..|ps| - 1]);
      var p := ps[|ps| - 1];
      assert ListProject(sessions, later, p) == ListProject(sessions, now, p);
    }
  }

  // ---------- one entry per workspace ----------

  // The stored workspaces with their projects, in stored order, without those of projects with no path.
  function Entries(ps: seq<Project>): seq<(string, Workspace)> {
    if ps == [] then [] else Entries(ps[..|ps| - 1]) + ProjectEntries(ps[|ps| - 1])
  }

  function ProjectEntries(p: Project): (r: seq<(string, Workspace)>)
    ensures |r| == if p.path == "" then 0 else |p.workspaces|
  {
    if p.path == "" then []
    else seq(|p.workspaces|, i requires 0 <= i < |p.workspaces| => (p.path, p.workspaces[i]))
  }

  lemma {:induction false} ListingIsInStoredOrder(sessions: Sessions, now: string, ps: seq<Project>)
    ensures var r := Listing(sessions, now, ps);
      && |r| == |Entries(ps)|
      && (forall i :: 0 <= i < |r| ==> r[i] == ListOne(sessions, now, Entries(ps)[i].0, Entries(ps)[i].1))
  {
    if ps != [] {
      var front, p := ps[..|ps| - 1], ps[|ps| - 1];
      ListingIsInStoredOrder(sessions, now, front);
      assert Lists(sessions, now, ListProject(sessions, now, p), ProjectEntries(p));
      ListsAppend(sessions, now, Listing(sessions, now, front), Entries(front), ListProject(sessions, now, p), ProjectEntries(p));
    }
    assert Lists(sessions, now, Listing(sessions, now, ps), Entries(ps));
  }

  // The listing of some entries.
  ghost predicate Lists(sessions: Sessions, now: string, r: seq<Metadata>, entries: seq<(string, Workspace)>) {
    |r| == |entries| && forall i :: 0 <= i < |r| ==> r[i] == ListOne(sessions, now, entries[i].0, entries[i].1)
  }

  lemma ListsAppend(sessions: Sessions, now: string, r: seq<Metadata>, entries: seq<(string, Workspace)>,
                    more: seq<Metadata>, moreEntries: seq<(string, Workspace)>)
    requires Lists(sessions, now, r, entries) && Lists(sessions, now, more, moreEntries)
    ensures Lists(sessions, now, r + more, entries + moreEntries)
  {
  }

  lemma {:induction false} EntryIsStored(ps: seq<Project>, k: nat) returns (i: nat, j: nat)
    requires k < |Entries(ps)|
    ensures i < |ps| && ps[i].path != "" && j < |ps[i].workspaces| && Entries(ps)[k] == (ps[i].path, ps[i].workspaces[j])
  {
    var front := ps[..|ps| - 1];
    if k < |Entries(front)| {
      i, j := EntryIsStored(front, k);
    } else {
      i, j := |ps| - 1, k - |Entries(front)|;
    }
  }

  // ---------- the lookup agrees with the listing ----------

  // The entry has an id, and no other is taken for it: by the same id or, having none, by its legacy id or the id
  // in its legacy file.
  ghost predicate Alone(sessions: Sessions, ps: seq<Project>, i: nat, j: nat)
    requires i < |ps| && j < |ps[i].workspaces|
  {
    && Truthy(ps[i].workspaces[j].id)
    && (forall k, l :: 0 <= k < |ps| && 0 <= l < |ps[k].workspaces| && (k != i || l != j) ==>
          !Matches(sessions, ps[k].path, ps[k].workspaces[l], ps[i].workspaces[j].id.value))
  }

  // So it is for every entry that is listed. The others need no ids.
  ghost predicate UniqueIds(sessions: Sessions, ps: seq<Project>) {
    forall i, j :: 0 <= i < |ps| && ps[i].path != "" && 0 <= j < |ps[i].workspaces| ==> Alone(sessions, ps, i, j)
  }

  lemma {:induction false} FindInIs(sessions: Sessions, p: Project, from: nat, j: nat, id: string)
    requires from <= j < |p.workspaces| && p.workspaces[j].id == Some(id)
    requires forall l :: from <= l < j ==> !Matches(sessions, p.path, p.workspaces[l], id)
    ensures FindIn(sessions, p, from, id) == Some(LocationOf(p.path, p.workspaces[j], id))
    decreases j - from
  {
    if from < j { FindInIs(sessions, p, from + 1, j, id); }
  }

  lemma {:induction false} FindInIsNot(sessions: Sessions, p: Project, from: nat, id: string)
    requires from <= |p.workspaces|
    requires forall l :: from <= l < |p.workspaces| ==> !Matches(sessions, p.path, p.workspaces[l], id)
    ensures FindIn(sessions, p, from, id) == None
    decreases |p.workspaces| - from
  {
    if from < |p.workspaces| { FindInIsNot(sessions, p, from + 1, id); }
  }

  lemma {:induction false} FindIs(sessions: Sessions, ps: seq<Project>, from: nat, i: nat, j: nat)
    requires from <= i < |ps| && j < |ps[i].workspaces| && Alone(sessions, ps, i, j)
    ensures var w := ps[i].workspaces[j];
      FindFrom(sessions, ps, from, w.id.value) == Some(LocationOf(ps[i].path, w, w.id.value))
    decreases i - from
  {
    var id := ps[i].workspaces[j].id.value;
    if from < i {
      FindInIsNot(sessions, ps[from], 0, id);
      FindIs(sessions, ps, from + 1, i, j);
    } else {
      FindInIs(sessions, ps[i], 0, j, id);
    }
  }

  // The lookup of a listed workspace's id gives the path, the attribution and the name the listing gives.
  ghost predicate Agrees(sessions: Sessions, ps: seq<Project>, m: Metadata) {
    && m.id.Some?
    && var found := Find(sessions, ps, m.id.value);
       && found.Some? && found.value.workspacePath == m.namedWorkspacePath
       && found.value.attributionProjectPath == m.projectPath && found.value.workspaceName == Some(m.name)
  }

  // Once the file is settled and the listed ids are unique, the lookup agrees with the listing for every listed workspace.
  lemma FindAgreesWithListing(sessions: Sessions, now: string, ps: seq<Project>, k: nat)
    requires AllSettled(ps) && UniqueIds(sessions, ps) && k < |Listing(sessions, now, ps)|
    ensures Agrees(sessions, ps, Listing(sessions, now, ps)[k])
  {
    ListingIsInStoredOrder(sessions, now, ps);
    var i, j := EntryIsStored(ps, k);
    SettledListing(sessions, now, ps[i].path, ps[i].workspaces[j]);
    FindIs(sessions, ps, 0, i, j);
  }

  // From any file of migratable entries: after two passes every later pass writes nothing and lists the
  // same, and, with unique ids, the lookup agrees with what is listed.
  lemma ListingConverges(sessions: Sessions, now1: string, now2: string, now: string, ps: seq<Project>)
    requires now1 != "" && now2 != "" && AllMigratable(sessions, ps)
    ensures var qs := Migrated(sessions, now2, Migrated(sessions, now1, ps));
      && !ModifiesAny(sessions, qs) && Migrated(sessions, now, qs) == qs
      && (forall later :: Listing(sessions, later, qs) == Listing(sessions, now, qs))
      && |Listing(sessions, now, qs)| == |Listing(sessions, now, ps)|
      && (forall k :: 0 <= k < |Listing(sessions, now, qs)| ==> Listing(sessions, now, qs)[k].createdAt != "")
      && (UniqueIds(sessions, qs) ==> forall k :: 0 <= k < |Listing(sessions, now, qs)| ==> Agrees(sessions, qs, Listing(sessions, now, qs)[k]))
  {
    var qs := Migrated(sessions, now2, Migrated(sessions, now1, ps));
    TwoPassesSettle(sessions, now1, now2, ps);
    SettledFileIsFixed(sessions, now, qs);
    ListingIsInStoredOrder(sessions, now, qs);
    ListingIsInStoredOrder(sessions, now, ps);
    SameShape(sessions, now1, ps);
    SameShape(sessions, now2, Migrated(sessions, now1, ps));
    forall k | 0 <= k < |Listing(sessions, now, qs)| ensures Listing(sessions, now, qs)[k].createdAt != "" {
      var i, j := EntryIsStored(qs, k);
      SettledListing(sessions, now, qs[i].path, qs[i].workspaces[j]);
    }
    if UniqueIds(sessions, qs) {
      forall k | 0 <= k < |Listing(sessions, now, qs)| ensures Agrees(sessions, qs, Listing(sessions, now, qs)[k]) {
        FindAgreesWithListing(sessions, now, qs, k);
      }
    }
  }

  lemma {:induction false} SameShape(sessions: Sessions, now: string, ps: seq<Project>)
    ensures |Entries(Migrated(sessions, now, ps))| == |Entries(ps)|
  {
    if ps != [] {
      SameShape(sessions, now, ps[..|ps| - 1]);
      assert Migrated(sessions, now, ps)[..|ps| - 1] == Migrated(sessions, now, ps[..|ps| - 1]);
    }
  }

  lemma {:induction false} StoredIsEntry(ps: seq<Project>, i: nat, j: nat) returns (k: nat)
    requires i < |ps| && ps[i].path != "" && j < |ps[i].workspaces|
    ensures k < |Entries(ps)| && Entries(ps)[k] == (ps[i].path, ps[i].workspaces[j])
  {
    var front := ps[..|ps| - 1];
    if i < |ps| - 1 {
      k := StoredIsEntry(front, i, j);
    } else {
      k := |Entries(front)| + j;
    }
  }

  lemma ListedIsStored(sessions: Sessions, now: string, ps: seq<Project>, i: nat, j: nat, k: nat)
    requires AllSettled(ps) && i < |ps| && j < |ps[i].workspaces| && Alone(sessions, ps, i, j)
    requires k < |Listing(sessions, now, ps)| && Listing(sessions, now, ps)[k].id == ps[i].workspaces[j].id
    ensures ps[i].path != ""
  {
    ListingIsInStoredOrder(sessions, now, ps);
    var i', j' := EntryIsStored(ps, k);
    SettledListing(sessions, now, ps[i'].path, ps[i'].workspaces[j']);
    assert Matches(sessions, ps[i'].path, ps[i'].workspaces[j'], ps[i].workspaces[j].id.value);
  }

  // A stored workspace that no other is taken for is found by its id, but it is listed if and only if its project
  // path is not empty.
  lemma EmptyProjectIsFoundNotListed(sessions: Sessions, now: string, ps: seq<Project>, i: nat, j: nat)
    requires AllSettled(ps) && i < |ps| && j < |ps[i].workspaces| && Alone(sessions, ps, i, j)
    ensures var w := ps[i].workspaces[j];
      && Find(sessions, ps, w.id.value) == Some(LocationOf(ps[i].path, w, w.id.value))
      && ((exists k :: 0 <= k < |Listing(sessions, now, ps)| && Listing(sessions, now, ps)[k].id == w.id) <==> ps[i].path != "")
  {
    var w := ps[i].workspaces[j];
    FindIs(sessions, ps, 0, i, j);
    if k :| 0 <= k < |Listing(sessions, now, ps)| && Listing(sessions, now, ps)[k].id == w.id {
      ListedIsStored(sessions, now, ps, i, j, k);
    }
    if ps[i].path != "" {
      ListingIsInStoredOrder(sessions, now, ps);
      var k := StoredIsEntry(ps, i, j);
      SettledListing(sessions, now, ps[i].path, w);
      assert Listing(sessions, now, ps)[k].id == w.id;
    }
  }
}
