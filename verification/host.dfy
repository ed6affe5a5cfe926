/** The host CMS as the scenario code sees it: an abstract store of page,
    content, site and file rows, an oracle standing in for the generic
    record-mutation engine, and the trace of everything done to them. */
module Host {
  import opened Wrappers
  import opened Php
  import opened Markers

  // ---------------------------------------------------------------------
  // Rows and configuration objects

  datatype PageRow = PageRow(uid: int, pid: int, marker: string, doktype: int, deleted: bool)

  datatype ContentRow = ContentRow(uid: int, pid: int, ctype: string, marker: string, deleted: bool)

  /** One language of a site configuration. The default language has no
      `fallbackType` and no `fallbacks`. */
  datatype Language = Language(
    languageId: int,
    title: string,
    base: string,
    locale: string,
    fallbackType: Option<string>,
    fallbacks: Option<string>)

  datatype SiteConfig = SiteConfig(base: string, rootPageId: int, languages: seq<Language>)

  datatype Site = Site(identifier: string, config: SiteConfig)

  /** A file with the number of live `sys_file_reference` rows pointing at
      it and the number of `sys_refindex` rows naming it; `None` stands for
      a query that fails. */
  datatype FileEntry = FileEntry(uid: int, name: string, hardRefs: Option<int>, softRefs: Option<int>)

  /** The file storage with uid 1: its top-level folders by name. */
  datatype FileStorage = FileStorage(online: bool, folders: map<string, seq<FileEntry>>)

  // ---------------------------------------------------------------------
  // What the scenario code hands to the record-mutation engine

  datatype Action = Localize(lang: int) | CopyToLanguage(lang: int) | Delete

  /** One `$commands[table][id][action] = value` entry. */
  datatype Command = Command(table: string, id: Value, action: Action)

  /** One `$data[table][NEW…] = fields` entry; `token` is the placeholder. */
  datatype NewRecord = NewRecord(table: string, token: nat, fields: map<string, Value>)

  /** Everything observable the scenario code does, in order. */
  datatype Effect =
    | DataProcessed(records: seq<NewRecord>)
    | CommandsProcessed(commands: seq<Command>)
    | SiteRenamed(from: string, to: string)
    | SiteWritten(identifier: string, config: SiteConfig)
    | SiteDeleted(identifier: string)
    | FolderCreated(name: string)
    | FileAdded(folder: string, name: string)
    | FolderDeleted(name: string)
    | Message(text: string)

  /** The host state. `pages` is kept in `sorting` order; `runs` counts the
      engine runs so far; `nextToken` is the next unused NEW placeholder. */
  datatype Store = Store(
    dbOk: bool,
    pages: seq<PageRow>,
    contents: seq<ContentRow>,
    sites: seq<Site>,
    storage: Option<FileStorage>,
    runs: nat,
    nextToken: nat,
    trace: seq<Effect>)

  /** The host's answers that the scenario code cannot see coming:
      - `subst`: the uid the engine assigned to each NEW placeholder;
      - `failingRuns`: the engine runs (by number) whose error log is not empty;
      - `schemaOk`: `tt_content` has a schema with the Language capability;
      - `renameFails`, `writeFails`, `deleteFails`: the site writer throws;
      - `folderWritable`: the storage root folder accepts a new folder;
      - `folderDeleteFails`: recursive folder deletion throws;
      - `fileUids`: the uid the storage gives a file added under a name. */
  datatype Env = Env(
    subst: map<nat, int>,
    failingRuns: set<nat>,
    schemaOk: bool,
    renameFails: bool,
    writeFails: bool,
    deleteFails: bool,
    folderWritable: bool,
    folderDeleteFails: bool,
    fileUids: map<string, int>)

  /** The state after a call, and the exception it ended with, if any. No
      step undoes the effects of the steps before a failure. */
  datatype Exec = Exec(store: Store, thrown: Option<Error>) {
    predicate Ok() { thrown.None? }
  }

  /** The engine hands out fresh uids: no two placeholders get the same one. */
  ghost predicate FreshUids(env: Env) {
    forall a, b :: a in env.subst && b in env.subst && a != b ==> env.subst[a] != env.subst[b]
  }

  /** `getSubstNEWwithIDs()[$new] ?? $new`. */
  function Substituted(env: Env, token: nat): (v: Value)
    ensures token in env.subst ==> v == Int(env.subst[token])
    ensures token !in env.subst ==> v == NewId(token)
  {
    if token in env.subst then Int(env.subst[token]) else NewId(token)
  }

  /** With fresh uids, distinct placeholders resolve to distinct values. */
  lemma SubstitutedInjective(env: Env, a: nat, b: nat)
    requires FreshUids(env) && a != b
    ensures Substituted(env, a) != Substituted(env, b)
  {
  }

  /** `$output->writeln($text)`. */
  function Say(s: Store, text: string): (r: Store)
    ensures r.trace == s.trace + [Message(text)]
    ensures r == s.(trace := r.trace)
  {
    s.(trace := s.trace + [Message(text)])
  }

  /** `SiteFinder::getSiteByRootPageId`: the first site configured for the
      root page; `None` stands for `SiteNotFoundException`. */
  function SiteByRootPage(sites: seq<Site>, root: int): (r: Option<Site>)
    ensures r.Some? ==> r.value in sites && r.value.config.rootPageId == root
    ensures r.None? ==> forall k :: 0 <= k < |sites| ==> sites[k].config.rootPageId != root
  {
    if |sites| == 0 then None
    else if sites[0].config.rootPageId == root then Some(sites[0])
    else SiteByRootPage(sites[1..], root)
  }

  /** `SiteWriter::rename`: every site named `from` is named `to`. */
  function RenameSite(sites: seq<Site>, from: string, to: string): (r: seq<Site>)
    ensures |r| == |sites|
    ensures forall k :: 0 <= k < |sites| ==>
      r[k] == if sites[k].identifier == from then sites[k].(identifier := to) else sites[k]
  {
    seq(|sites|, k requires 0 <= k < |sites| =>
      if sites[k].identifier == from then sites[k].(identifier := to) else sites[k])
  }

  /** Renaming to a name no site has is undone by renaming back; after it
      no site carries the old name (unless the names are the same), and
      the configurations stay where they were. */
  lemma RenameSiteRoundTrip(sites: seq<Site>, from: string, to: string)
    requires forall site :: site in sites ==> site.identifier != to
    ensures RenameSite(RenameSite(sites, from, to), to, from) == sites
    ensures from != to ==> forall site :: site in RenameSite(sites, from, to) ==> site.identifier != from
    ensures forall k :: 0 <= k < |sites| ==> RenameSite(sites, from, to)[k].config == sites[k].config
  {
    var there := RenameSite(sites, from, to);
    var back := RenameSite(there, to, from);
    forall k | 0 <= k < |sites|
      ensures back[k] == sites[k]
    {
      assert sites[k] in sites;
    }
  }

  /** `SiteWriter::write`: the configuration of site `id` is replaced, or a
      site `id` is added when there is none. */
  function WriteSite(sites: seq<Site>, id: string, config: SiteConfig): (r: seq<Site>)
    ensures Site(id, config) in r
    ensures forall site :: site in r ==> site == Site(id, config) || (site in sites && site.identifier != id)
    ensures forall site :: site in sites && site.identifier != id ==> site in r
  {
    if exists k :: 0 <= k < |sites| && sites[k].identifier == id then
      var r := seq(|sites|, k requires 0 <= k < |sites| =>
                 if sites[k].identifier == id then Site(id, config) else sites[k]);
      var k :| 0 <= k < |sites| && sites[k].identifier == id;
      assert r[k] == Site(id, config);
      assert forall site :: site in sites && site.identifier != id ==> site in r by {
        forall site | site in sites && site.identifier != id ensures site in r {
          var j :| 0 <= j < |sites| && sites[j] == site;
          assert r[j] == site;
        }
      }
      r
    else
      sites + [Site(id, config)]
  }

  /** `SiteWriter::delete` for every site named `id`. */
  function RemoveSite(sites: seq<Site>, id: string): (r: seq<Site>)
    ensures forall site :: site in r <==> site in sites && site.identifier != id
  {
    if |sites| == 0 then []
    else
      assert forall site :: site in sites <==> site == sites[0] || site in sites[1..];
      (if sites[0].identifier == id then [] else [sites[0]]) + RemoveSite(sites[1..], id)
  }

  /** No two languages of a configuration share an id. */
  predicate DistinctLanguageIds(langs: seq<Language>) {
    forall i, j :: 0 <= i < j < |langs| ==> langs[i].languageId != langs[j].languageId
  }

  /** Some language before position `k` has the id. */
  predicate DefinedBefore(langs: seq<Language>, k: int, id: int)
    requires 0 <= k <= |langs|
  {
    exists j :: 0 <= j < k && langs[j].languageId == id
  }

  /** Language `k`'s fallback list parses and names only languages that
      come before it; a language without `fallbacks` is fine. */
  predicate FallbacksDefinedBefore(langs: seq<Language>, k: int)
    requires 0 <= k < |langs|
  {
    langs[k].fallbacks.None? ||
    match ParseIdList(langs[k].fallbacks.value)
    case None => false
    case Some(ids) => forall n :: 0 <= n < |ids| ==> DefinedBefore(langs, k, ids[n])
  }

  /** Every fallback chain of the configuration refers backwards only. */
  predicate FallbacksWellOrdered(langs: seq<Language>) {
    forall k :: 0 <= k < |langs| ==> FallbacksDefinedBefore(langs, k)
  }

  // ---------------------------------------------------------------------
  // The record-mutation engine (oracle)

  function StrField(fields: map<string, Value>, k: string): string {
    if k in fields && fields[k].Str? then fields[k].s else ""
  }

  function IntField(fields: map<string, Value>, k: string, default: int): int {
    if k in fields && fields[k].Int? then fields[k].i else default
  }

  /** Where a `pid` value puts the new row: a NEW placeholder resolves
      through the substitution; a negative pid ("after top-level page n")
      puts the row on the top level. */
  function ResolvePid(env: Env, v: Value): (pid: int)
    ensures pid >= 0 || v.NewId?
  {
    match v
    case Int(n) => if n < 0 then 0 else n
    case NewId(t) => if t in env.subst then env.subst[t] else 0
    case _ => 0
  }

  function PageRowOf(env: Env, r: NewRecord): PageRow
    requires r.token in env.subst
  {
    PageRow(
      env.subst[r.token],
      ResolvePid(env, if "pid" in r.fields then r.fields["pid"] else Int(0)),
      StrField(r.fields, Field),
      IntField(r.fields, "doktype", 1),
      false)
  }

  function ContentRowOf(env: Env, r: NewRecord): ContentRow
    requires r.token in env.subst
  {
    ContentRow(
      env.subst[r.token],
      ResolvePid(env, if "pid" in r.fields then r.fields["pid"] else Int(0)),
      StrField(r.fields, "CType"),
      StrField(r.fields, Field),
      false)
  }

  /** The page rows the engine creates for a data map: one per `pages`
      record it assigned a uid to, in data-map order. */
  function CreatedPages(env: Env, data: seq<NewRecord>): (rows: seq<PageRow>)
    ensures |rows| <= |data|
    ensures forall row | row in rows :: exists rec | rec in data :: rec.table == "pages" && rec.token in env.subst && row == PageRowOf(env, rec)
  {
    if |data| == 0 then []
    else
      var rest := CreatedPages(env, data[1..]);
      assert forall rec | rec in data[1..] :: rec in data;
      (if data[0].table == "pages" && data[0].token in env.subst then [PageRowOf(env, data[0])] else []) + rest
  }

  function CreatedContents(env: Env, data: seq<NewRecord>): (rows: seq<ContentRow>)
    ensures |rows| <= |data|
  {
    if |data| == 0 then []
    else
      (if data[0].table == "tt_content" && data[0].token in env.subst then [ContentRowOf(env, data[0])] else [])
      + CreatedContents(env, data[1..])
  }

  predicate DeletesPage(commands: seq<Command>, uid: int) {
    Command("pages", Int(uid), Delete) in commands
  }

  /** The pages with a delete command are marked deleted. */
  function MarkPages(pages: seq<PageRow>, commands: seq<Command>): (r: seq<PageRow>)
    ensures |r| == |pages|
    ensures forall k :: 0 <= k < |pages| ==> r[k] == pages[k].(deleted := pages[k].deleted || DeletesPage(commands, pages[k].uid))
  {
    if |pages| == 0 then []
    else [pages[0].(deleted := pages[0].deleted || DeletesPage(commands, pages[0].uid))] + MarkPages(pages[1..], commands)
  }

  /** Content on a deleted page is deleted with it. */
  function MarkContents(contents: seq<ContentRow>, commands: seq<Command>): (r: seq<ContentRow>)
    ensures |r| == |contents|
    ensures forall k :: 0 <= k < |contents| ==> r[k] == contents[k].(deleted := contents[k].deleted || DeletesPage(commands, contents[k].pid))
  {
    if |contents| == 0 then []
    else [contents[0].(deleted := contents[0].deleted || DeletesPage(commands, contents[0].pid))] + MarkContents(contents[1..], commands)
  }

  /** Deleting a page also deletes the content on it. */
  function ApplyDeletes(s: Store, commands: seq<Command>): (r: Store)
    ensures |r.pages| == |s.pages| && |r.contents| == |s.contents|
    ensures forall k :: 0 <= k < |s.pages| ==> r.pages[k] == s.pages[k].(deleted := s.pages[k].deleted || DeletesPage(commands, s.pages[k].uid))
    ensures r == s.(pages := r.pages, contents := r.contents)
  {
    if |commands| == 0 then s
    else s.(pages := MarkPages(s.pages, commands), contents := MarkContents(s.contents, commands))
  }

  /** One engine run (`start`, `process_datamap`, `process_cmdmap`): nothing
      at all when both maps are empty; otherwise the data map is processed
      before the command map, and the run is counted. */
  function Process(env: Env, s: Store, data: seq<NewRecord>, commands: seq<Command>): (r: Store)
    ensures |data| == 0 && |commands| == 0 ==> r == s
    ensures |data| + |commands| > 0 ==>
      && r.runs == s.runs + 1
      && r.trace == s.trace
           + (if |data| > 0 then [DataProcessed(data)] else [])
           + (if |commands| > 0 then [CommandsProcessed(commands)] else [])
    ensures r.dbOk == s.dbOk && r.sites == s.sites && r.storage == s.storage && r.nextToken == s.nextToken
    ensures |commands| == 0 ==> r.pages == s.pages + CreatedPages(env, data)
  {
    if |data| == 0 && |commands| == 0 then s
    else
      var created := s.(pages := s.pages + CreatedPages(env, data),
                        contents := s.contents + CreatedContents(env, data));
      var deleted := ApplyDeletes(created, commands);
      deleted.(runs := s.runs + 1,
               trace := s.trace
                 + (if |data| > 0 then [DataProcessed(data)] else [])
                 + (if |commands| > 0 then [CommandsProcessed(commands)] else []))
  }

  /** The `count` engine runs numbered from `from` on all succeed. */
  predicate CleanRuns(env: Env, from: nat, count: nat) {
    forall n :: from <= n < from + count ==> n !in env.failingRuns
  }

  lemma CleanRunsStep(env: Env, from: nat, count: nat)
    requires count > 0
    ensures CleanRuns(env, from, count) <==> from !in env.failingRuns && CleanRuns(env, from + 1, count - 1)
  {
  }

  /** `DataHandlerService::executeDataHandler`: one engine run, then
      exception 1757323932 when the run's error log is not empty. */
  function Execute(env: Env, s: Store, data: seq<NewRecord>, commands: seq<Command>): (r: Exec)
    ensures r.store == Process(env, s, data, commands)
    ensures |data| == 0 && |commands| == 0 ==> r == Exec(s, None)
    ensures r.thrown.Some? <==> |data| + |commands| > 0 && s.runs in env.failingRuns
    ensures r.thrown.Some? ==> r.thrown == Some(Code(HostFailure))
  {
    var after := Process(env, s, data, commands);
    if |data| + |commands| > 0 && s.runs in env.failingRuns then Exec(after, Some(Code(HostFailure)))
    else Exec(after, None)
  }

  /** The exception comes after the run: whether or not the run's error
      log is empty, a non-empty call is counted as one run and its entries
      stay recorded in the trace: the error does not undo the run. */
  lemma ExecuteThrowsAfterEffects(env: Env, s: Store, data: seq<NewRecord>, commands: seq<Command>)
    requires |data| + |commands| > 0
    ensures var r := Execute(env, s, data, commands);
      && (r.thrown == Some(Code(HostFailure)) <==> s.runs in env.failingRuns)
      && (r.thrown.None? <==> s.runs !in env.failingRuns)
      && r.store.runs == s.runs + 1
      && r.store.trace[..|s.trace|] == s.trace
      && (|data| > 0 ==> r.store.trace[|s.trace|] == DataProcessed(data))
      && (|commands| > 0 ==> r.store.trace[|r.store.trace| - 1] == CommandsProcessed(commands))
      && (|commands| == 0 ==> r.store.pages == s.pages + CreatedPages(env, data))
  {
  }

  /** Appending to a trace in two steps is appending once. */
  lemma AppendAssoc<T>(a: seq<T>, b: seq<T>, c: seq<T>)
    ensures (a + b) + c == a + (b + c)
  {
  }

  /** A data-only run that succeeds: counted, traced, nothing thrown. */
  lemma ExecuteDataOk(env: Env, s: Store, data: seq<NewRecord>)
    requires |data| > 0 && s.runs !in env.failingRuns
    ensures var r := Execute(env, s, data, []);
      && r.thrown.None?
      && r.store.runs == s.runs + 1
      && r.store.nextToken == s.nextToken
      && r.store.trace == s.trace + [DataProcessed(data)]
  {
  }
}
