/** The page tree of a new scenario
    (Classes/EventListener/PageCreationListener.php): one engine run for the
    entry page, its records storage and its root template, the site
    configuration, one subpage per translation mode, then content. */
module PageCreation {
  import opened Wrappers
  import opened Php
  import opened Markers
  import opened Host
  import opened RecordFinder
  import opened PageTree
  import opened SiteConfigurationCreation
  import opened ContentCreation

  /** The backend translation modes, one subpage each, in creation order. */
  const Modes: seq<string> := ["free", "connected", "mixed"]

  /** The static TypoScript the root template includes. */
  const StaticTemplates := "EXT:translation_handling/Configuration/TypoScript,EXT:seo/Configuration/TypoScript/XmlSitemap"

  // ---------------------------------------------------------------------
  // The records handed to the engine

  /** The fields hold `key` with exactly this value. */
  predicate Has(fields: map<string, Value>, key: string, v: Value) {
    key in fields && fields[key] == v
  }

  /** The entry page: on the top level after page `last`, marked as the
      scenario's root, a site root. */
  method RootRecord(t: string, last: int, token: nat) returns (rec: NewRecord)
    ensures IsRootPage(rec, t, last, token)
  {
    rec := NewRecord("pages", token, map[
      "title" := Str("TYPO3 Translation Handling - " + Upper(t)),
      "pid" := Int(0 - last),
      Field := Str(RootMarker(t)),
      "is_siteroot" := Int(1),
      "hidden" := Int(0)]);
  }

  /** The records storage: a folder below the entry page. */
  method StorageRecord(t: string, root: nat, token: nat) returns (rec: NewRecord)
    ensures IsStoragePage(rec, t, root, token)
  {
    rec := NewRecord("pages", token, map[
      "title" := Str("records storage"),
      "pid" := NewId(root),
      Field := Str(StorageMarker(t)),
      "hidden" := Int(0),
      "doktype" := Int(254)]);
  }

  /** The root TypoScript template, on the entry page. */
  method TemplateRecord(t: string, root: nat, token: nat) returns (rec: NewRecord)
    ensures IsRootTemplate(rec, root, token)
  {
    rec := NewRecord("sys_template", token, map[
      "title" := Str("Root Translation Handling " + UcFirst(t)),
      "root" := Int(1),
      "clear" := Int(3),
      "include_static_file" := Str(StaticTemplates),
      "constants" := Str(""),
      "config" := Str(""),
      "pid" := NewId(root)]);
  }

  /** One subpage of the entry page, titled with its mode. */
  method SubpageRecord(t: string, mode: string, root: Value, token: nat) returns (rec: NewRecord)
    ensures IsSubpage(rec, t, mode, root, token)
  {
    rec := NewRecord("pages", token, map[
      "title" := Str(mode),
      "pid" := root,
      Field := Str(Identifier(t)),
      "hidden" := Int(0)]);
  }

  /** What the entry page promises: a page after top-level page `last`,
      with the root marker, flagged as site root, a standard page. */
  predicate IsRootPage(rec: NewRecord, t: string, last: int, token: nat) {
    && rec.table == "pages" && rec.token == token
    && Has(rec.fields, "pid", Int(0 - last))
    && Has(rec.fields, Field, Str(RootMarker(t)))
    && Has(rec.fields, "is_siteroot", Int(1))
    && "doktype" !in rec.fields
  }

  /** What the storage page promises: a folder (doktype 254) below the
      entry page's placeholder, with the storage marker. */
  predicate IsStoragePage(rec: NewRecord, t: string, root: nat, token: nat) {
    && rec.table == "pages" && rec.token == token
    && Has(rec.fields, "pid", NewId(root))
    && Has(rec.fields, Field, Str(StorageMarker(t)))
    && Has(rec.fields, "doktype", Int(254))
  }

  /** What the template promises: a root template on the entry page. */
  predicate IsRootTemplate(rec: NewRecord, root: nat, token: nat) {
    && rec.table == "sys_template" && rec.token == token
    && Has(rec.fields, "pid", NewId(root))
    && Has(rec.fields, "root", Int(1))
  }

  /** What a subpage promises: a standard page below `root`, titled with
      its mode, with the plain marker. */
  predicate IsSubpage(rec: NewRecord, t: string, mode: string, root: Value, token: nat) {
    && rec.table == "pages" && rec.token == token
    && Has(rec.fields, "title", Str(mode))
    && Has(rec.fields, "pid", root)
    && Has(rec.fields, Field, Str(Identifier(t)))
    && "doktype" !in rec.fields
  }

  /** `$pageTreeData['pages-' . $pageUid] = ['uid' => $pageUid, 'mode' => $mode]`. */
  function SubpageSlot(env: Env, mode: string, token: nat): (slot: Slot)
    ensures slot.key == PageKey(slot.entry.uid) && slot.entry.uid == Substituted(env, token)
    ensures slot.entry.mode == Some(mode) && slot.entry.contentElements.None?
  {
    var uid := Substituted(env, token);
    Slot(PageKey(uid), TreeEntry(uid, Some(mode), None))
  }

  // ---------------------------------------------------------------------
  // The rows the engine creates from them

  /** The entry page lands on the top level (a negative pid means "after
      that page"), live, with the root marker: the row the create guard
      looks for. */
  lemma RootRowIsTopLevel(env: Env, rec: NewRecord, t: string, last: int, token: nat)
    requires IsRootPage(rec, t, last, token) && last >= 0 && token in env.subst
    ensures PageRowOf(env, rec) == PageRow(env.subst[token], 0, RootMarker(t), 1, false)
    ensures TopLevel(PageRowOf(env, rec))
  {
  }

  /** The storage row sits below the entry page's uid. */
  lemma StorageRowBelowRoot(env: Env, rec: NewRecord, t: string, root: nat, token: nat)
    requires IsStoragePage(rec, t, root, token) && root in env.subst && token in env.subst
    ensures PageRowOf(env, rec) == PageRow(env.subst[token], env.subst[root], StorageMarker(t), 254, false)
  {
  }

  /** A subpage row carries the plain marker and sits below the entry page
      once that page's uid is known. */
  lemma SubpageRowBelowRoot(env: Env, rec: NewRecord, t: string, mode: string, root: int, token: nat)
    requires IsSubpage(rec, t, mode, Int(root), token) && root > 0 && token in env.subst
    ensures PageRowOf(env, rec) == PageRow(env.subst[token], root, Identifier(t), 1, false)
  {
  }

  /** After a successful first run whose entry placeholder got a uid, the
      page lookup by the root marker finds that uid. */
  lemma EntryFoundAfterCreation(env: Env, s: Store, t: string, data: seq<NewRecord>, pages: seq<PageRow>)
    requires |data| == 3 && IsRootPage(data[0], t, GetUidOfLastTopLevelPage(s), s.nextToken)
    requires s.nextToken in env.subst
    requires pages == s.pages + CreatedPages(env, data)
    ensures s.dbOk ==> env.subst[s.nextToken] in FindUidsOfPages(s.(pages := pages), [RootMarker(t)])
  {
    var row := PageRowOf(env, data[0]);
    RootRowIsTopLevel(env, data[0], t, GetUidOfLastTopLevelPage(s), s.nextToken);
    assert CreatedPages(env, data) == [row] + CreatedPages(env, data[1..]);
    assert pages[|s.pages|] == row;
    if s.dbOk {
      MarkerValid(t);
      LivePageFound(s.(pages := pages), RootMarker(t), |s.pages|);
    }
  }

  /** Every root marker carries the marker prefix, so the lookup uses it. */
  lemma MarkerValid(t: string)
    ensures StartsWith(RootMarker(t), Prefix)
  {
    assert RootMarker(t)[..|Prefix|] == Prefix;
  }

  // ---------------------------------------------------------------------
  // The listener, step by step

  /** The first engine run: entry page, records storage and root template
      in one data map, with the placeholders `s.nextToken` to
      `s.nextToken + 2`. */
  method CreateEntryPages(env: Env, s: Store, t: string) returns (r: Exec, data: seq<NewRecord>)
    ensures |data| == 3
    ensures IsRootPage(data[0], t, GetUidOfLastTopLevelPage(s), s.nextToken)
    ensures IsStoragePage(data[1], t, s.nextToken, s.nextToken + 1)
    ensures IsRootTemplate(data[2], s.nextToken, s.nextToken + 2)
    ensures r.thrown.Some? <==> s.runs in env.failingRuns
    ensures r.thrown.Some? ==> r.thrown == Some(Code(HostFailure))
    ensures r.store.trace == s.trace + [DataProcessed(data)]
    ensures r.store.pages == s.pages + CreatedPages(env, data)
    ensures r.store.nextToken == s.nextToken + 3 && r.store.runs == s.runs + 1
    ensures r.store.sites == s.sites && r.store.dbOk == s.dbOk && r.store.storage == s.storage
  {
    var token := s.nextToken;
    var last := GetUidOfLastTopLevelPage(s);
    var rootPage := RootRecord(t, last, token);
    var storagePage := StorageRecord(t, token, token + 1);
    var template := TemplateRecord(t, token, token + 2);
    data := [rootPage, storagePage, template];
    r := Execute(env, s.(nextToken := token + 3), data, []);
  }

  /** One subpage run: the page below `root` titled `mode`, with the
      placeholder `s.nextToken`. */
  method CreateSubpage(env: Env, s: Store, t: string, mode: string, root: Value) returns (r: Exec, rec: NewRecord)
    ensures IsSubpage(rec, t, mode, root, s.nextToken)
    ensures r.thrown.Some? <==> s.runs in env.failingRuns
    ensures r.thrown.Some? ==> r.thrown == Some(Code(HostFailure))
    ensures r.store.trace == s.trace + [DataProcessed([rec])]
    ensures r.store.nextToken == s.nextToken + 1 && r.store.runs == s.runs + 1
    ensures r.store.sites == s.sites && r.store.dbOk == s.dbOk && r.store.storage == s.storage
  {
    rec := SubpageRecord(t, mode, root, s.nextToken);
    r := Execute(env, s.(nextToken := s.nextToken + 1), [rec], []);
  }

  /** The loop over the modes: one engine run per subpage; a failing run
      ends the loop with 1757323932. */
  method CreateSubpages(env: Env, s: Store, t: string, root: Value) returns (r: Exec, data: seq<NewRecord>)
    ensures r.thrown.Some? <==> !CleanRuns(env, s.runs, 3)
    ensures r.thrown.Some? ==> r.thrown == Some(Code(HostFailure))
    ensures r.Ok() ==> |data| == 3 && forall k :: 0 <= k < 3 ==> IsSubpage(data[k], t, Modes[k], root, s.nextToken + k)
    ensures r.Ok() ==> r.store.trace == s.trace + [DataProcessed([data[0]]), DataProcessed([data[1]]), DataProcessed([data[2]])]
    ensures r.Ok() ==> r.store.nextToken == s.nextToken + 3 && r.store.runs == s.runs + 3
    ensures r.store.sites == s.sites && r.store.dbOk == s.dbOk && r.store.storage == s.storage
    ensures s.trace <= r.store.trace
  {
    var e0, d0 := CreateSubpage(env, s, t, Modes[0], root);
    if !e0.Ok() {
      return e0, [d0];
    }
    var e1, d1 := CreateSubpage(env, e0.store, t, Modes[1], root);
    if !e1.Ok() {
      return e1, [d0, d1];
    }
    var e2, d2 := CreateSubpage(env, e1.store, t, Modes[2], root);
    AppendAssoc(s.trace, [DataProcessed([d0])], [DataProcessed([d1])]);
    AppendAssoc(s.trace, [DataProcessed([d0]), DataProcessed([d1])], [DataProcessed([d2])]);
    return e2, [d0, d1, d2];
  }

  /** The tree entries of the three subpages, each assigned in turn. */
  function WithSubpages(env: Env, tree: Tree, n: nat): Tree {
    Put(Put(Put(tree, PageKey(Substituted(env, n)), SubpageSlot(env, Modes[0], n).entry),
            PageKey(Substituted(env, n + 1)), SubpageSlot(env, Modes[1], n + 1).entry),
        PageKey(Substituted(env, n + 2)), SubpageSlot(env, Modes[2], n + 2).entry)
  }

  /** Assigning the subpage entries keeps the tree an array. */
  lemma WithSubpagesUnique(env: Env, tree: Tree, n: nat)
    requires UniqueKeys(tree)
    ensures UniqueKeys(WithSubpages(env, tree, n))
  {
    var t1 := Put(tree, PageKey(Substituted(env, n)), SubpageSlot(env, Modes[0], n).entry);
    var t2 := Put(t1, PageKey(Substituted(env, n + 1)), SubpageSlot(env, Modes[1], n + 1).entry);
    PutKeepsKeysUnique(tree, PageKey(Substituted(env, n)), SubpageSlot(env, Modes[0], n).entry);
    PutKeepsKeysUnique(t1, PageKey(Substituted(env, n + 1)), SubpageSlot(env, Modes[1], n + 1).entry);
    PutKeepsKeysUnique(t2, PageKey(Substituted(env, n + 2)), SubpageSlot(env, Modes[2], n + 2).entry);
  }

  /** The entries that are not page entries keep their place and value. */
  lemma WithSubpagesKeeps(env: Env, tree: Tree, n: nat)
    ensures |WithSubpages(env, tree, n)| >= |tree|
    ensures forall j :: 0 <= j < |tree| && !tree[j].key.PageKey? ==> WithSubpages(env, tree, n)[j] == tree[j]
  {
  }

  /** With fresh uids the three subpages get three new keys, appended in
      the order free, connected, mixed, each with its mode. */
  lemma {:induction false} WithSubpagesAppends(env: Env, tree: Tree, n: nat)
    requires FreshUids(env)
    requires forall j :: 0 <= j < |tree| ==> !tree[j].key.PageKey?
    ensures WithSubpages(env, tree, n)
         == tree + [SubpageSlot(env, Modes[0], n), SubpageSlot(env, Modes[1], n + 1), SubpageSlot(env, Modes[2], n + 2)]
  {
    var s0 := SubpageSlot(env, Modes[0], n);
    var s1 := SubpageSlot(env, Modes[1], n + 1);
    var s2 := SubpageSlot(env, Modes[2], n + 2);
    SubstitutedInjective(env, n, n + 1);
    SubstitutedInjective(env, n, n + 2);
    SubstitutedInjective(env, n + 1, n + 2);
    KeyNotIn(tree, s0.key);
    var t1 := Put(tree, s0.key, s0.entry);
    assert t1 == tree + [s0];
    KeyNotIn(t1, s1.key);
    var t2 := Put(t1, s1.key, s1.entry);
    assert t2 == tree + [s0, s1];
    KeyNotIn(t2, s2.key);
    assert Put(t2, s2.key, s2.entry) == tree + [s0, s1, s2];
  }

  /** A key that no slot carries is not among the keys. */
  lemma KeyNotIn(tree: Tree, key: TreeKey)
    requires forall i :: 0 <= i < |tree| ==> tree[i].key != key
    ensures key !in Keys(tree)
  {
  }

  /** The listener: the entry pages in one run, the site configuration for
      the entry page's uid, the three mode subpages, then content (and
      with it localization), then the message. The outcome records the
      data maps handed to the engine and the tree the content event got. */
  datatype Created = Created(exec: Exec, entry: seq<NewRecord>, subpages: seq<NewRecord>, tree: Tree)

  method CreatePages(env: Env, s: Store, t: string) returns (c: Created)
    ensures |c.entry| == 3
    ensures IsRootPage(c.entry[0], t, GetUidOfLastTopLevelPage(s), s.nextToken)
    ensures IsStoragePage(c.entry[1], t, s.nextToken, s.nextToken + 1)
    ensures IsRootTemplate(c.entry[2], s.nextToken, s.nextToken + 2)
    ensures s.trace + [DataProcessed(c.entry)] <= c.exec.store.trace
    ensures s.runs in env.failingRuns ==>
      c.exec.thrown == Some(Code(HostFailure)) && c.exec.store.trace == s.trace + [DataProcessed(c.entry)]
    ensures s.runs !in env.failingRuns && s.nextToken !in env.subst ==>
      c.exec.thrown == Some(TypeError) && c.exec.store.trace == s.trace + [DataProcessed(c.entry)]
    ensures c.exec.Ok() ==> s.nextToken in env.subst
    ensures c.exec.Ok() ==> ScenarioBuilt(c.exec.store, t, env.subst[s.nextToken], s.sites, c.subpages, s.nextToken + 3, |s.trace| + 1)
    ensures c.exec.Ok() ==> IsSubpageTree(env, c.tree, Int(env.subst[s.nextToken]), Substituted(env, s.nextToken + 1), s.nextToken + 3)
    ensures c.exec.store.dbOk == s.dbOk && c.exec.store.storage == s.storage
  {
    var entry, data := CreateEntryPages(env, s, t);
    if !entry.Ok() {
      return Created(entry, data, [], []);
    }
    var rest, subpages, tree := AfterEntryPages(env, entry.store, t, Substituted(env, s.nextToken), Substituted(env, s.nextToken + 1));
    c := Created(rest, data, subpages, tree);
  }

  /** What a completed listener run leaves behind: the site of the entry
      page `root` with the scenario's configuration, the three subpages
      below it, and the trace of `ScenarioTrace`. */
  ghost predicate ScenarioBuilt(s: Store, t: string, root: int, before: seq<Site>, subpages: seq<NewRecord>, n: nat, from: nat) {
    && (exists config :: Site(SiteIdentifier(t, root), config) in s.sites && ScenarioConfig(config, t, root, before))
    && |subpages| == 3
    && (forall k :: 0 <= k < 3 ==> IsSubpage(subpages[k], t, Modes[k], Int(root), n + k))
    && ScenarioTrace(s.trace, t, subpages, from)
  }

  /** The site message followed by the three subpage runs at or after
      position `from`, and the content and pages messages last. */
  ghost predicate ScenarioTrace(trace: seq<Effect>, t: string, subpages: seq<NewRecord>, from: nat) {
    && (exists i :: from <= i < |trace|
          && trace[i] == Message("Site configuration created for scenario: " + t)
          && SubpageRuns(trace, i + 1, subpages))
    && |trace| >= 2
    && trace[|trace| - 2] == Message("Content created for scenario: " + t)
    && trace[|trace| - 1] == Message("Pages created for scenario: " + t)
  }

  /** Everything after the first run: the site configuration for the entry
      page's uid (a type error when that placeholder got none), the
      subpages and content, then the message. */
  method AfterEntryPages(env: Env, s: Store, t: string, root: Value, storage: Value) returns (r: Exec, subpages: seq<NewRecord>, tree: Tree)
    ensures !root.Int? ==> r == Exec(s, Some(TypeError))
    ensures s.trace <= r.store.trace
    ensures r.Ok() ==> root.Int? && ScenarioBuilt(r.store, t, root.i, s.sites, subpages, s.nextToken, |s.trace|)
    ensures r.Ok() ==> IsSubpageTree(env, tree, root, storage, s.nextToken)
    ensures r.store.dbOk == s.dbOk && r.store.storage == s.storage
  {
    var site, config := CreateSiteConfiguration(env, s, t, root);
    if !site.Ok() {
      return site, [], [];
    }
    r, subpages, tree := SubpagesAndPagesMessage(env, site.store, t, root, storage, |s.trace|);
    if r.Ok() {
      ShowScenarioBuilt(r.store, t, root.i, s.sites, subpages, s.nextToken, |s.trace|, config);
    }
  }

  /** The subpages and content after the site message at the end of
      `s.trace`, then the pages message. */
  method SubpagesAndPagesMessage(env: Env, s: Store, t: string, root: Value, storage: Value, from: nat)
    returns (r: Exec, subpages: seq<NewRecord>, tree: Tree)
    requires from < |s.trace| && s.trace[|s.trace| - 1] == Message("Site configuration created for scenario: " + t)
    ensures s.trace <= r.store.trace
    ensures r.Ok() ==> |subpages| == 3 && forall k :: 0 <= k < 3 ==> IsSubpage(subpages[k], t, Modes[k], root, s.nextToken + k)
    ensures r.Ok() ==> ScenarioTrace(r.store.trace, t, subpages, from)
    ensures r.Ok() ==> IsSubpageTree(env, tree, root, storage, s.nextToken)
    ensures r.store.sites == s.sites && r.store.dbOk == s.dbOk && r.store.storage == s.storage
  {
    var rest;
    rest, subpages, tree := SubpagesAndContent(env, s, t, root, storage);
    if !rest.Ok() {
      return rest, subpages, tree;
    }
    var i := |s.trace| - 1;
    var done := Say(rest.store, "Pages created for scenario: " + t);
    assert done.trace[i] == s.trace[i];
    SubpageRunsKept(rest.store.trace, done.trace, i + 1, subpages);
    ShowScenarioTrace(done.trace, t, subpages, from, i);
    r := Exec(done, None);
  }

  /** The witness of the trace: the position of the site message. */
  lemma ShowScenarioTrace(trace: seq<Effect>, t: string, subpages: seq<NewRecord>, from: nat, i: nat)
    requires from <= i < |trace|
    requires trace[i] == Message("Site configuration created for scenario: " + t)
    requires SubpageRuns(trace, i + 1, subpages)
    requires |trace| >= 2
    requires trace[|trace| - 2] == Message("Content created for scenario: " + t)
    requires trace[|trace| - 1] == Message("Pages created for scenario: " + t)
    ensures ScenarioTrace(trace, t, subpages, from)
  {
  }

  /** The witness of the site: the configuration written. */
  lemma ShowScenarioBuilt(s: Store, t: string, root: int, before: seq<Site>, subpages: seq<NewRecord>, n: nat, from: nat, config: SiteConfig)
    requires Site(SiteIdentifier(t, root), config) in s.sites && ScenarioConfig(config, t, root, before)
    requires |subpages| == 3 && forall k :: 0 <= k < 3 ==> IsSubpage(subpages[k], t, Modes[k], Int(root), n + k)
    requires ScenarioTrace(s.trace, t, subpages, from)
    ensures ScenarioBuilt(s, t, root, before, subpages, n, from)
  {
  }

  /** The rest of the listener once the site is configured: the three
      subpages, the tree with their entries, then content creation with
      that tree. */
  method SubpagesAndContent(env: Env, s: Store, t: string, root: Value, storage: Value) returns (r: Exec, subpages: seq<NewRecord>, tree: Tree)
    ensures r.Ok() ==> |subpages| == 3 && forall k :: 0 <= k < 3 ==> IsSubpage(subpages[k], t, Modes[k], root, s.nextToken + k)
    ensures r.Ok() ==> SubpageRuns(r.store.trace, |s.trace|, subpages)
    ensures r.Ok() ==> |r.store.trace| >= |s.trace| + 4 && r.store.trace[|r.store.trace| - 1] == Message("Content created for scenario: " + t)
    ensures IsSubpageTree(env, tree, root, storage, s.nextToken)
    ensures s.trace <= r.store.trace
    ensures r.store.sites == s.sites && r.store.dbOk == s.dbOk && r.store.storage == s.storage
  {
    var sub;
    sub, subpages := CreateSubpages(env, s, t, root);
    tree := SubpageTree(env, root, storage, s.nextToken);
    if !sub.Ok() {
      return sub, subpages, tree;
    }
    AppendAssoc(s.trace, [DataProcessed([subpages[0]]), DataProcessed([subpages[1]])], [DataProcessed([subpages[2]])]);
    assert SubpageRuns(sub.store.trace, |s.trace|, subpages);
    r := ContentFor(env, sub.store, t, root, tree);
    if r.Ok() {
      SubpageRunsKept(sub.store.trace, r.store.trace, |s.trace|, subpages);
    }
  }

  /** The three subpage runs, one data map each, at position `at` of the
      trace. */
  ghost predicate SubpageRuns(trace: seq<Effect>, at: nat, subpages: seq<NewRecord>) {
    && |subpages| == 3 && at + 3 <= |trace|
    && trace[at] == DataProcessed([subpages[0]])
    && trace[at + 1] == DataProcessed([subpages[1]])
    && trace[at + 2] == DataProcessed([subpages[2]])
  }

  /** Later effects leave earlier runs where they are. */
  lemma SubpageRunsKept(a: seq<Effect>, b: seq<Effect>, at: nat, subpages: seq<NewRecord>)
    requires SubpageRuns(a, at, subpages) && a <= b
    ensures SubpageRuns(b, at, subpages)
  {
    assert b[at] == a[at] && b[at + 1] == a[at + 1] && b[at + 2] == a[at + 2];
  }

  /** The tree the content event gets: the entry page, the records storage,
      then the subpages with their modes. */
  ghost predicate IsSubpageTree(env: Env, tree: Tree, root: Value, storage: Value, n: nat) {
    && UniqueKeys(tree)
    && |tree| >= 2
    && tree[0] == Slot(RootKey, TreeEntry(root, None, None))
    && tree[1] == Slot(StorageKey, TreeEntry(storage, None, None))
    && (FreshUids(env) ==>
          && |tree| == 5
          && tree[2] == SubpageSlot(env, Modes[0], n)
          && tree[3] == SubpageSlot(env, Modes[1], n + 1)
          && tree[4] == SubpageSlot(env, Modes[2], n + 2))
  }

  /** The tree built from the entry and storage entries by assigning the
      three subpage entries. */
  method SubpageTree(env: Env, root: Value, storage: Value, n: nat) returns (tree: Tree)
    ensures IsSubpageTree(env, tree, root, storage, n)
  {
    var entries := [Slot(RootKey, TreeEntry(root, None, None)), Slot(StorageKey, TreeEntry(storage, None, None))];
    tree := WithSubpages(env, entries, n);
    WithSubpagesUnique(env, entries, n);
    WithSubpagesKeeps(env, entries, n);
    ghost var isFresh := FreshUids(env);
    if isFresh {
      WithSubpagesAppends(env, entries, n);
    }
  }

  /** Content creation (and localization) for the new tree, seen from the
      listener: on success the trace grows and ends with the content
      message. */
  method ContentFor(env: Env, s: Store, t: string, root: Value, tree: Tree) returns (r: Exec)
    requires UniqueKeys(tree)
    ensures s.trace <= r.store.trace
    ensures r.Ok() ==> |r.store.trace| >= 1 && r.store.trace[|r.store.trace| - 1] == Message("Content created for scenario: " + t)
    ensures r.store.sites == s.sites && r.store.dbOk == s.dbOk && r.store.storage == s.storage
  {
    var filled;
    r, filled := RunContentCreation(env, s, t, root, tree);
  }
}
