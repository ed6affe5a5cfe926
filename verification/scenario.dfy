/** The two entry points of the event-driven generation: creating a
    scenario (Classes/EventListener/CreateTranslationHandlingScenarioListener.php)
    behind the one-tree-per-type guard, and deleting it again
    (Classes/EventListener/DeleteTranslationHandlingScenarioListener.php). */
module Scenario {
  import opened Wrappers
  import opened Php
  import opened Markers
  import opened Host
  import opened RecordFinder
  import opened FileHandler
  import opened PageCreation

  /** The demo images copied into the scenario folder. */
  const DemoFiles: seq<string> := ["Superhero_00032_.jpg"]

  /** A live page of the store carries the scenario's root marker. */
  ghost predicate HasRootPage(s: Store, t: string) {
    exists k :: 0 <= k < |s.pages| && !s.pages[k].deleted && s.pages[k].marker == RootMarker(t)
  }

  /** The root lookup finds something exactly when the database answers and
      a live page carries the root marker. */
  lemma RootLookup(s: Store, t: string)
    ensures |FindUidsOfPages(s, [RootMarker(t)])| > 0 <==> s.dbOk && HasRootPage(s, t)
  {
    var found := FindUidsOfPages(s, [RootMarker(t)]);
    MarkerValid(t);
    assert ValidMarkers([RootMarker(t)]) == [RootMarker(t)];
    if s.dbOk && HasRootPage(s, t) {
      var k :| 0 <= k < |s.pages| && !s.pages[k].deleted && s.pages[k].marker == RootMarker(t);
      LivePageFound(s, RootMarker(t), k);
    }
    if |found| > 0 {
      assert found[0] in found;
    }
  }

  // ---------------------------------------------------------------------
  // Creating a scenario

  function SecondTreeMessage(t: string): string {
    "Can not create a second record tree for " + t
  }

  function CreatedMessage(t: string): string {
    "Scenario \"" + t + "\" created."
  }

  /** The create listener: when a root page of the type exists only the
      message is written; otherwise the demo files go to the scenario
      folder, the page tree is built, and the listener reports. */
  method CreateScenario(env: Env, s: Store, t: string) returns (r: Exec)
    ensures s.dbOk && HasRootPage(s, t) ==> r == Exec(Say(s, SecondTreeMessage(t)), None)
    ensures !(s.dbOk && HasRootPage(s, t)) ==>
      var files := AddToFal(env, s, DemoFiles, DemoFolder).store;
      && |r.store.trace| > |files.trace| && files.trace <= r.store.trace
      && r.store.trace[|files.trace|].DataProcessed?
    ensures !(s.dbOk && HasRootPage(s, t)) && r.Ok() ==> r.store.trace[|r.store.trace| - 1] == Message(CreatedMessage(t))
    ensures r.store.dbOk == s.dbOk
  {
    RootLookup(s, t);
    if |FindUidsOfPages(s, [RootMarker(t)])| > 0 {
      return Exec(Say(s, SecondTreeMessage(t)), None);
    }
    var files := AddToFal(env, s, DemoFiles, DemoFolder);
    var pages := BuildPages(env, files.store, t);
    if !pages.Ok() {
      return pages;
    }
    r := Exec(Say(pages.store, CreatedMessage(t)), None);
  }

  /** The page-creation event seen from the create listener: its first
      effect is the first engine run. */
  method BuildPages(env: Env, s: Store, t: string) returns (r: Exec)
    ensures |r.store.trace| > |s.trace| && s.trace <= r.store.trace && r.store.trace[|s.trace|].DataProcessed?
    ensures r.store.dbOk == s.dbOk
  {
    var c := CreatePages(env, s, t);
    r := c.exec;
    assert r.store.trace[|s.trace|] == DataProcessed(c.entry);
  }

  // ---------------------------------------------------------------------
  // Deleting a scenario

  /** The markers whose pages the delete listener removes. */
  function PageMarkers(t: string): seq<string> {
    [RootMarker(t), StorageMarker(t), Identifier(t)]
  }

  function DeleteCommand(uid: int): Command {
    Command("pages", Int(uid), Delete)
  }

  /** `$commands['pages'][$uid]['delete'] = 1` for each uid in turn: the
      command map is keyed by uid, so a uid listed twice is one entry, at
      its first position. */
  function DeletePlan(uids: seq<int>): (r: seq<Command>)
    ensures forall c :: c in r ==> exists u :: c == DeleteCommand(u)
    ensures forall u :: DeletesPage(r, u) <==> u in uids
    ensures forall i, j :: 0 <= i < j < |r| ==> r[i] != r[j]
    ensures |r| <= |uids|
  {
    if |uids| == 0 then []
    else
      var init := uids[..|uids| - 1];
      var last := uids[|uids| - 1];
      assert uids == init + [last];
      var rest := DeletePlan(init);
      if DeletesPage(rest, last) then rest else rest + [DeleteCommand(last)]
  }

  /** The plan deletes a page uid exactly when a live page with that uid
      carries the root, storage or plain marker (and the database
      answers). */
  lemma DeletePlanCovers(s: Store, t: string, u: int)
    ensures DeletesPage(DeletePlan(FindUidsOfPages(s, PageMarkers(t))), u) <==>
      s.dbOk && exists k :: 0 <= k < |s.pages| && !s.pages[k].deleted && s.pages[k].marker in PageMarkers(t) && s.pages[k].uid == u
  {
    var valid := ValidMarkers(PageMarkers(t));
    MarkerValid(t);
    assert StartsWith(StorageMarker(t), Prefix);
    assert StartsWith(Identifier(t), Prefix);
    assert forall m :: m in valid <==> m in PageMarkers(t);
    assert RootMarker(t) in valid;
  }

  /** `SiteWriter::delete` for the site of the root page: a missing site is
      tolerated; a failing write throws 1757323932. */
  function DeleteSiteOf(env: Env, s: Store, root: int): (r: Exec)
    ensures SiteByRootPage(s.sites, root).None? ==> r == Exec(s, None)
    ensures SiteByRootPage(s.sites, root).Some? && env.deleteFails ==> r == Exec(s, Some(Code(HostFailure)))
    ensures SiteByRootPage(s.sites, root).Some? && !env.deleteFails ==>
      var id := SiteByRootPage(s.sites, root).value.identifier;
      && r.Ok()
      && r.store == s.(sites := RemoveSite(s.sites, id), trace := s.trace + [SiteDeleted(id)])
      && forall site :: site in r.store.sites ==> site.identifier != id
    ensures r.Ok() ==> r.store.pages == s.pages && r.store.dbOk == s.dbOk && r.store.trace == s.trace + SiteStep(s, root)
  {
    match SiteByRootPage(s.sites, root)
    case None => Exec(s, None)
    case Some(site) =>
      if env.deleteFails then Exec(s, Some(Code(HostFailure)))
      else Exec(s.(sites := RemoveSite(s.sites, site.identifier), trace := s.trace + [SiteDeleted(site.identifier)]), None)
  }

  /** The trace the site step leaves. */
  function SiteStep(s: Store, root: int): seq<Effect> {
    match SiteByRootPage(s.sites, root)
    case None => []
    case Some(site) => [SiteDeleted(site.identifier)]
  }

  /** A delete-only engine run marks exactly the planned pages deleted and
      leaves every other row as it was. */
  lemma ProcessDeletes(env: Env, s: Store, commands: seq<Command>)
    requires |commands| > 0
    ensures var r := Process(env, s, [], commands);
      && |r.pages| == |s.pages|
      && forall k :: 0 <= k < |s.pages| ==>
           r.pages[k] == s.pages[k].(deleted := s.pages[k].deleted || DeletesPage(commands, s.pages[k].uid))
  {
    assert CreatedPages(env, []) == [];
    assert s.pages + [] == s.pages;
  }

  function AlreadyDeletedMessage(t: string): string {
    "page for type " + t + " has already been deleted"
  }

  function DeletedMessage(t: string): string {
    "page for type " + t + " deleted"
  }

  /** The rows after a delete run: the same pages, those with a planned
      delete marked deleted, every other one unchanged. */
  predicate DeletesApplied(before: seq<PageRow>, after: seq<PageRow>, plan: seq<Command>) {
    && |after| == |before|
    && forall k :: 0 <= k < |before| ==>
         after[k] == before[k].(deleted := before[k].deleted || DeletesPage(plan, before[k].uid))
  }

  /** The trace of a completed delete after `from`: the delete run, the
      folder deletion when it happened, the message last. */
  predicate DeleteTrace(trace: seq<Effect>, from: seq<Effect>, plan: seq<Command>, t: string) {
    && from + [CommandsProcessed(plan)] < trace
    && |trace| <= |from| + 3
    && trace[|trace| - 1] == Message(DeletedMessage(t))
    && (|trace| == |from| + 3 ==> trace[|trace| - 2] == FolderDeleted(DemoFolder))
  }

  /** The delete listener. The plan over the root, storage and plain
      markers is made first; without a root page only a message is written
      and nothing is deleted, whatever else is marked. Otherwise: the root
      page's site, then one engine run with the delete commands, then the
      scenario folder, then the message. */
  method DeleteScenario(env: Env, s: Store, t: string) returns (r: Exec, plan: seq<Command>)
    ensures plan == DeletePlan(FindUidsOfPages(s, PageMarkers(t)))
    ensures !(s.dbOk && HasRootPage(s, t)) ==> r == Exec(Say(s, AlreadyDeletedMessage(t)), None)
    ensures s.dbOk && HasRootPage(s, t) ==>
      && |FindUidsOfPages(s, [RootMarker(t)])| > 0
      && var root := FindUidsOfPages(s, [RootMarker(t)])[0];
      && (SiteByRootPage(s.sites, root).Some? && env.deleteFails ==> r == Exec(s, Some(Code(HostFailure))))
      && (r.Ok() ==>
            && DeletesApplied(s.pages, r.store.pages, plan)
            && (forall k :: 0 <= k < |s.pages| && s.pages[k].marker in PageMarkers(t) ==> r.store.pages[k].deleted)
            && DeleteTrace(r.store.trace, s.trace + SiteStep(s, root), plan, t))
  {
    plan := DeletePlan(FindUidsOfPages(s, PageMarkers(t)));
    var rootUids := FindUidsOfPages(s, [RootMarker(t)]);
    RootLookup(s, t);
    if |rootUids| == 0 {
      return Exec(Say(s, AlreadyDeletedMessage(t)), None), plan;
    }
    var root := rootUids[0];
    var site := DeleteSiteOf(env, s, root);
    if !site.Ok() {
      return site, plan;
    }
    RootInPlan(s, t, root);
    r := DeleteRecords(env, site.store, t, plan);
    if r.Ok() {
      PlannedPagesDeleted(s, t, plan, r.store.pages);
    }
  }

  /** The records run with the delete commands, the scenario folder, the
      message. */
  method DeleteRecords(env: Env, s: Store, t: string, plan: seq<Command>) returns (r: Exec)
    requires |plan| > 0
    ensures r.thrown.Some? ==> r.thrown == Some(Code(HostFailure)) || r.thrown == Some(Uncaught("DBALException"))
    ensures s.runs in env.failingRuns ==> r.thrown == Some(Code(HostFailure))
    ensures r.Ok() ==> DeletesApplied(s.pages, r.store.pages, plan) && DeleteTrace(r.store.trace, s.trace, plan, t)
  {
    var records := Execute(env, s, [], plan);
    if !records.Ok() {
      return records;
    }
    ProcessDeletes(env, s, plan);
    var folder := DeleteFalFolder(env, records.store, DemoFolder);
    if !folder.Ok() {
      return folder;
    }
    r := Exec(Say(folder.store, DeletedMessage(t)), None);
  }

  /** The root page found by the root lookup is among the planned deletes. */
  lemma RootInPlan(s: Store, t: string, root: int)
    requires root in FindUidsOfPages(s, [RootMarker(t)])
    ensures DeletesPage(DeletePlan(FindUidsOfPages(s, PageMarkers(t))), root)
  {
    var k :| 0 <= k < |s.pages| && PageSelected(s.pages[k], ValidMarkers([RootMarker(t)])) && s.pages[k].uid == root;
    DeletePlanCovers(s, t, root);
  }

  /** After the delete run every marked page of the store is deleted. */
  lemma PlannedPagesDeleted(s: Store, t: string, plan: seq<Command>, after: seq<PageRow>)
    requires plan == DeletePlan(FindUidsOfPages(s, PageMarkers(t)))
    requires s.dbOk && DeletesApplied(s.pages, after, plan)
    ensures forall k :: 0 <= k < |s.pages| && s.pages[k].marker in PageMarkers(t) ==> after[k].deleted
  {
    forall k | 0 <= k < |s.pages| && s.pages[k].marker in PageMarkers(t)
      ensures after[k].deleted
    {
      if !s.pages[k].deleted {
        DeletePlanCovers(s, t, s.pages[k].uid);
      }
    }
  }
}
