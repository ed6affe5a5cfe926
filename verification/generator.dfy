/** The older, monolithic generator (Classes/Generator/Generator.php): one
    engine run for the whole tree, a five-language site configuration, and
    a delete that removes the tree and its site. Unlike the listeners it
    catches no database error of its page lookup, does not check the
    engine's error log, and lets site-writer exceptions through. */
module Generator {
  import opened Wrappers
  import opened Php
  import opened Markers
  import opened Host
  import opened Sorting
  import opened RecordFinder
  import opened SiteConfigurationCreation
  import opened ContentCreation
  import opened PageCreation
  import opened Scenario
  import opened Kauderwelsch

  /** A failing page query: the generator does not catch it. */
  const DbError: Error := Uncaught("DBALException")

  /** A failing site rename, write or delete: let through as well. */
  const WriteError: Error := Uncaught("SiteConfigurationWriteException")

  // ---------------------------------------------------------------------
  // Lookup

  /** The generator's `findUidsOfPages`: the same selection as the record
      finder's, sorted ascending, but a database error propagates. */
  function FindPages(s: Store, types: seq<string>): (r: Result<seq<int>>)
    ensures r.Failure? <==> !s.dbOk
    ensures r.Failure? ==> r.error == DbError
    ensures r.Success? ==> SortedBy(r.value, Id)
    ensures r.Success? ==> forall u :: u in r.value <==>
      exists k :: 0 <= k < |s.pages| && PageSelected(s.pages[k], ValidMarkers(types)) && s.pages[k].uid == u
  {
    if !s.dbOk then Failure(DbError) else Success(FindUidsOfPages(s, types))
  }

  // ---------------------------------------------------------------------
  // The records of one create call

  /** `getElementContent`: one `textmedia` group of two items. */
  function ElementContent(): seq<Group> {
    [Group("textmedia", [
      map["header" := Str(Lorem), "header_layout" := Int(5), "subheader" := Str(Lorem),
          "bodytext" := Str(LoremHtml + " " + LoremHtml)],
      map["header" := Str(Lorem), "header_layout" := Int(2),
          "bodytext" := Str(LoremHtml + " " + LoremHtml), "imageorient" := Int(25)]])]
  }

  /** The generator's records storage: a folder below the entry page that
      carries the plain marker, not the `_storage` one. */
  method PlainStorageRecord(t: string, root: nat, token: nat) returns (rec: NewRecord)
    ensures IsPlainStorage(rec, t, root, token)
  {
    rec := NewRecord("pages", token, map[
      "title" := Str("records storage"),
      "pid" := NewId(root),
      Field := Str(Identifier(t)),
      "hidden" := Int(0),
      "doktype" := Int(254)]);
  }

  predicate IsPlainStorage(rec: NewRecord, t: string, root: nat, token: nat) {
    && rec.table == "pages" && rec.token == token
    && Has(rec.fields, "pid", NewId(root))
    && Has(rec.fields, Field, Str(Identifier(t)))
    && Has(rec.fields, "doktype", Int(254))
  }

  /** The fields of the subpage of one content group: titled with the
      group's CType, below the entry page, with the plain marker. */
  function GroupPageFields(t: string, cType: string, root: nat): map<string, Value> {
    map["title" := Str(cType), Field := Str(Identifier(t)), "hidden" := Int(0),
        "abstract" := Str(Lorem), "pid" := NewId(root)]
  }

  /** The fields of one content item: the fixture's fields with CType,
      page and marker assigned over them. */
  function ItemFields(t: string, item: map<string, Value>, cType: string, page: nat): map<string, Value> {
    item + map["CType" := Str(cType), "pid" := NewId(page), Field := Str(Identifier(t))]
  }

  /** A group's subpage is a standard page below the entry page, titled
      with the CType, with the plain marker. */
  lemma GroupPageShape(t: string, cType: string, root: nat)
    ensures var f := GroupPageFields(t, cType, root);
      && Has(f, "title", Str(cType))
      && Has(f, "pid", NewId(root))
      && Has(f, Field, Str(Identifier(t)))
      && "doktype" !in f
  {
  }

  /** The assigned CType, page and marker win over the fixture; every
      other fixture key is kept as it is and no other key is added. */
  lemma ItemFieldsShape(t: string, item: map<string, Value>, cType: string, page: nat)
    ensures var f := ItemFields(t, item, cType, page);
      && Has(f, "CType", Str(cType))
      && Has(f, "pid", NewId(page))
      && Has(f, Field, Str(Identifier(t)))
      && (forall k :: k in item && k !in {"CType", "pid", Field} ==> Has(f, k, item[k]))
      && (forall k :: k in f ==> k in item || k in {"CType", "pid", Field})
  {
  }

  predicate IsGroupPage(rec: NewRecord, t: string, cType: string, root: nat) {
    rec.table == "pages" && rec.fields == GroupPageFields(t, cType, root)
  }

  predicate IsGroupItem(rec: NewRecord, t: string, item: map<string, Value>, cType: string, page: nat) {
    rec.table == "tt_content" && rec.fields == ItemFields(t, item, cType, page)
  }

  /** The items of one group, with consecutive placeholders from `token`. */
  function ItemRecords(t: string, cType: string, items: seq<map<string, Value>>, page: nat, token: nat): (r: seq<NewRecord>)
    ensures |r| == |items|
    ensures forall i :: 0 <= i < |items| ==> IsGroupItem(r[i], t, items[i], cType, page) && r[i].token == token + i
  {
    seq(|items|, i requires 0 <= i < |items| => NewRecord("tt_content", token + i, ItemFields(t, items[i], cType, page)))
  }

  /** The number of items of a fixture. */
  function ItemCount(groups: seq<Group>): nat {
    if |groups| == 0 then 0 else |groups[0].items| + ItemCount(groups[1..])
  }

  lemma {:induction false} ItemCountAppend(groups: seq<Group>, g: Group)
    ensures ItemCount(groups + [g]) == ItemCount(groups) + |g.items|
  {
    if |groups| > 0 {
      assert (groups + [g])[1..] == groups[1..] + [g];
      ItemCountAppend(groups[1..], g);
    } else {
      assert groups + [g] == [g];
    }
  }

  /** The placeholder of group `k`'s subpage: the fixture loop takes one
      placeholder per subpage and one per item, group after group. */
  function PageToken(groups: seq<Group>, token: nat, k: nat): nat
    requires k <= |groups|
  {
    token + k + ItemCount(groups[..k])
  }

  /** The next group's subpage comes right after this group's items. */
  lemma PageTokenNext(groups: seq<Group>, token: nat, k: nat)
    requires k < |groups|
    ensures PageToken(groups, token, k + 1) == PageToken(groups, token, k) + 1 + |groups[k].items|
  {
    assert groups[..k + 1] == groups[..k] + [groups[k]];
    ItemCountAppend(groups[..k], groups[k]);
  }

  /** Later groups get later placeholders: every placeholder of group `k`
      lies below group `m`'s subpage placeholder for `k < m`. */
  lemma {:induction false} PageTokenIncreasing(groups: seq<Group>, token: nat, k: nat, m: nat)
    requires k < m <= |groups|
    ensures PageToken(groups, token, k) + |groups[k].items| < PageToken(groups, token, m)
    decreases m - k
  {
    PageTokenNext(groups, token, k);
    if k + 1 < m {
      PageTokenIncreasing(groups, token, k + 1, m);
    }
  }

  /** The subpages and the items of a fixture, the items kept per group. */
  datatype Grouped = Grouped(pages: seq<NewRecord>, contents: seq<seq<NewRecord>>)

  /** The fixture loop: per group one subpage titled with its CType, then
      the group's items on that subpage, each with the next placeholder. */
  function GroupRecords(t: string, groups: seq<Group>, root: nat, token: nat): (g: Grouped)
    ensures |g.pages| == |groups| && |g.contents| == |groups|
  {
    Grouped(
      seq(|groups|, k requires 0 <= k < |groups| =>
        NewRecord("pages", PageToken(groups, token, k), GroupPageFields(t, groups[k].cType, root))),
      seq(|groups|, k requires 0 <= k < |groups| =>
        ItemRecords(t, groups[k].cType, groups[k].items, PageToken(groups, token, k), PageToken(groups, token, k) + 1)))
  }

  /** Per group one subpage titled with the group's CType below the entry
      page, with the next placeholder; then one record per item of the
      group on that subpage, each with the placeholder after the last. */
  lemma GroupRecordsShape(t: string, groups: seq<Group>, root: nat, token: nat)
    ensures var g := GroupRecords(t, groups, root, token);
      forall k :: 0 <= k < |groups| ==>
        && IsGroupPage(g.pages[k], t, groups[k].cType, root)
        && g.pages[k].token == PageToken(groups, token, k)
    ensures var g := GroupRecords(t, groups, root, token);
      forall k :: 0 <= k < |groups| ==>
        && |g.contents[k]| == |groups[k].items|
        && forall i :: 0 <= i < |groups[k].items| ==>
          && IsGroupItem(g.contents[k][i], t, groups[k].items[i], groups[k].cType, g.pages[k].token)
          && g.contents[k][i].token == g.pages[k].token + 1 + i
  {
  }

  /** All placeholders of the fixture loop are distinct: subpages and items
      of different groups never share one, nor do two items of one group
      or an item and its own subpage. */
  lemma GroupTokensDistinct(t: string, groups: seq<Group>, root: nat, token: nat, k: nat, m: nat)
    requires k < m < |groups|
    ensures var g := GroupRecords(t, groups, root, token);
      && g.pages[k].token < g.pages[m].token
      && forall i, j :: 0 <= i < |g.contents[k]| && 0 <= j < |g.contents[m]| ==>
           g.contents[k][i].token < g.pages[m].token < g.contents[m][j].token
  {
    GroupRecordsShape(t, groups, root, token);
    PageTokenIncreasing(groups, token, k, m);
  }

  /** `$data['tt_content']`: the items in group-then-item order. */
  function Flatten(contents: seq<seq<NewRecord>>): seq<NewRecord> {
    if |contents| == 0 then [] else contents[0] + Flatten(contents[1..])
  }

  /** Only content records come out of the items of a group plan. */
  lemma {:induction false} FlattenContent(contents: seq<seq<NewRecord>>)
    requires forall k, i :: 0 <= k < |contents| && 0 <= i < |contents[k]| ==> contents[k][i].table == "tt_content"
    ensures forall rec :: rec in Flatten(contents) ==> rec.table == "tt_content"
  {
    if |contents| > 0 {
      FlattenContent(contents[1..]);
      assert forall k, i :: 1 <= k < |contents| && 0 <= i < |contents[k]| ==> contents[1..][k - 1][i] == contents[k][i];
    }
  }

  /** The records of one create call, in data-map order: the entry page
      (`n`), the storage (`n + 1`) and the group subpages under `pages`,
      then the template (`n + 2`) under `sys_template`, then the items under
      `tt_content`; the group loop takes placeholders from `n + 3` on. */
  method CreateRecords(t: string, last: int, n: nat) returns (data: seq<NewRecord>, g: Grouped)
    ensures g == GroupRecords(t, ElementContent(), n, n + 3)
    ensures CreateData(data, g, t, last, n)
  {
    var entry := RootRecord(t, last, n);
    var storage := PlainStorageRecord(t, n, n + 1);
    var template := TemplateRecord(t, n, n + 2);
    var groups := ElementContent();
    g := GroupRecords(t, groups, n, n + 3);
    GroupRecordsShape(t, groups, n, n + 3);
    data := [entry, storage] + g.pages + [template] + Flatten(g.contents);
    assert data[2..2 + |g.pages|] == g.pages;
    assert data[3 + |g.pages|..] == Flatten(g.contents);
    forall k | 0 <= k < |g.pages|
      ensures g.pages[k].table == "pages" && StrField(g.pages[k].fields, Field) == Identifier(t)
    {
      assert g.pages[k].fields == GroupPageFields(t, groups[k].cType, n);
    }
  }

  /** The layout of the create data map: entry page, storage, the group
      subpages (plain-marked pages), the template, then the group items
      (content records). */
  predicate CreateData(data: seq<NewRecord>, g: Grouped, t: string, last: int, n: nat) {
    && (forall k :: 0 <= k < |g.pages| ==> g.pages[k].table == "pages" && StrField(g.pages[k].fields, Field) == Identifier(t))
    && (forall k, i :: 0 <= k < |g.contents| && 0 <= i < |g.contents[k]| ==> g.contents[k][i].table == "tt_content")
    && |data| == 3 + |g.pages| + |Flatten(g.contents)|
    && IsRootPage(data[0], t, last, n)
    && IsPlainStorage(data[1], t, n, n + 1)
    && data[2..2 + |g.pages|] == g.pages
    && IsRootTemplate(data[2 + |g.pages|], n, n + 2)
    && data[3 + |g.pages|..] == Flatten(g.contents)
  }

  /** Every page record of the create data map but the entry page carries
      the plain marker. */
  lemma OtherPagesPlain(data: seq<NewRecord>, g: Grouped, t: string, last: int, n: nat, idx: nat)
    requires CreateData(data, g, t, last, n)
    requires 0 < idx < |data|
    ensures data[idx].table == "pages" ==> StrField(data[idx].fields, Field) == Identifier(t)
  {
    var rec := data[idx];
    if 2 <= idx < 2 + |g.pages| {
      assert rec == g.pages[idx - 2];
    } else if idx > 2 + |g.pages| {
      FlattenContent(g.contents);
      assert rec in Flatten(g.contents) by {
        assert rec == data[3 + |g.pages|..][idx - 3 - |g.pages|];
      }
    }
  }

  /** Of all records of the create data map, only the entry page can
      become a page row carrying the root marker. */
  lemma OnlyEntryIsRoot(env: Env, data: seq<NewRecord>, g: Grouped, t: string, last: int, n: nat, rec: NewRecord)
    requires CreateData(data, g, t, last, n)
    requires rec in data && rec.table == "pages" && rec.token in env.subst
    requires PageRowOf(env, rec).marker == RootMarker(t)
    ensures rec == data[0]
  {
    MarkersDistinct(t);
    var idx :| 0 <= idx < |data| && data[idx] == rec;
    if idx > 0 {
      OtherPagesPlain(data, g, t, last, n, idx);
    }
  }

  /** After the create run the root-marker lookup finds the entry page's
      uid when the engine assigned one, and nothing else: the guard saw no
      root page, and no other created record carries the root marker. */
  lemma RootAfterCreate(env: Env, s: Store, t: string, data: seq<NewRecord>, g: Grouped, after: Store)
    requires s.dbOk && |FindUidsOfPages(s, [RootMarker(t)])| == 0
    requires CreateData(data, g, t, GetUidOfLastTopLevelPage(s), s.nextToken)
    requires after.dbOk && after.pages == s.pages + CreatedPages(env, data)
    ensures forall u :: u in FindUidsOfPages(after, [RootMarker(t)]) <==> s.nextToken in env.subst && u == env.subst[s.nextToken]
  {
    var last := GetUidOfLastTopLevelPage(s);
    var rows := CreatedPages(env, data);
    forall row | row in rows && row.marker == RootMarker(t)
      ensures s.nextToken in env.subst && row.uid == env.subst[s.nextToken]
    {
      var rec :| rec in data && rec.table == "pages" && rec.token in env.subst && row == PageRowOf(env, rec);
      OnlyEntryIsRoot(env, data, g, t, last, s.nextToken, rec);
      RootRowIsTopLevel(env, data[0], t, last, s.nextToken);
    }
    forall u | u in FindUidsOfPages(after, [RootMarker(t)])
      ensures s.nextToken in env.subst && u == env.subst[s.nextToken]
    {
      var j := OnlyAddedRows(s, t, rows, after, u);
      assert rows[j] in rows;
    }
    if s.nextToken in env.subst {
      NewRootFound(env, s, t, data, g, after);
    }
  }

  /** When the lookup found nothing before rows were appended, whatever it
      finds afterwards is among the appended rows. */
  lemma OnlyAddedRows(s: Store, t: string, rows: seq<PageRow>, after: Store, u: int) returns (j: nat)
    requires s.dbOk && |FindUidsOfPages(s, [RootMarker(t)])| == 0
    requires after.dbOk && after.pages == s.pages + rows
    requires u in FindUidsOfPages(after, [RootMarker(t)])
    ensures j < |rows| && rows[j].uid == u && rows[j].marker == RootMarker(t)
  {
    var found := FindUidsOfPages(s, [RootMarker(t)]);
    MarkerValid(t);
    assert ValidMarkers([RootMarker(t)]) == [RootMarker(t)];
    forall k | 0 <= k < |s.pages| && PageSelected(s.pages[k], [RootMarker(t)])
      ensures s.pages[k].uid in found
    {
    }
    var k :| 0 <= k < |after.pages| && PageSelected(after.pages[k], [RootMarker(t)]) && after.pages[k].uid == u;
    assert k >= |s.pages|;
    j := k - |s.pages|;
    assert after.pages[k] == rows[j];
  }

  /** The entry page, once the engine gave it a uid, is found. */
  lemma NewRootFound(env: Env, s: Store, t: string, data: seq<NewRecord>, g: Grouped, after: Store)
    requires CreateData(data, g, t, GetUidOfLastTopLevelPage(s), s.nextToken)
    requires after.dbOk && after.pages == s.pages + CreatedPages(env, data)
    requires s.nextToken in env.subst
    ensures env.subst[s.nextToken] in FindUidsOfPages(after, [RootMarker(t)])
  {
    var n := s.nextToken;
    var rows := CreatedPages(env, data);
    MarkerValid(t);
    RootRowIsTopLevel(env, data[0], t, GetUidOfLastTopLevelPage(s), n);
    assert rows == [PageRowOf(env, data[0])] + CreatedPages(env, data[1..]);
    assert after.pages[|s.pages|] == PageRowOf(env, data[0]);
    LivePageFound(after, RootMarker(t), |s.pages|);
  }

  /** `to` extends `from` with engine and site effects only: nothing was
      written to the output in between. */
  predicate Silent(from: seq<Effect>, to: seq<Effect>) {
    from <= to && forall i :: |from| <= i < |to| ==> !to[i].Message?
  }

  /** The last effect of a trace. */
  predicate EndsWith(trace: seq<Effect>, e: Effect) {
    |trace| > 0 && trace[|trace| - 1] == e
  }

  // ---------------------------------------------------------------------
  // Site configuration

  /** The five languages: the default 0, then four more numbered upwards
      from `highest + 1`, each falling back in the type's mode: to 0, to
      the first new language and 0, to nothing, and to the third new one. */
  function GeneratorLanguages(t: string, highest: int): seq<Language> {
    [Language(0, "English", "/", "en_US.utf8", None, None),
     Language(highest + 1, "Spanish US", "/es-us/", "es_US.utf8", Some(t), Some("0")),
     Language(highest + 2, "Spanish MX", "/es-mx/", "es_MX.utf8", Some(t), Some(IntToString(highest + 1) + ",0")),
     Language(highest + 3, "German DE", "/de-de/", "de_DE.utf8", Some(t), Some("")),
     Language(highest + 4, "German AT", "/de-at/", "de_AT.utf8", Some(t), Some(IntToString(highest + 3)))]
  }

  function GeneratorSiteConfig(t: string, root: int, base: string, highest: int): SiteConfig {
    SiteConfig(base + SiteIdentifier(t, root), root, GeneratorLanguages(t, highest))
  }

  /** The four fallback lists parse to: 0; the first new language and 0;
      nothing; the third new language. */
  lemma GeneratorFallbacksParse(highest: int)
    requires highest >= 0
    ensures ParseIdList("0") == Some([0])
    ensures ParseIdList(IntToString(highest + 1) + ",0") == Some([highest + 1, 0])
    ensures ParseIdList("") == Some([])
    ensures ParseIdList(IntToString(highest + 3)) == Some([highest + 3])
  {
    assert NatToString(0) == "0";
    ParseIdListSingle(0);
    ParseIdListPair(highest + 1, 0);
    ParseIdListSingle(highest + 3);
    assert IntToString(highest + 1) + ",0" == NatToString(highest + 1) + "," + NatToString(0);
  }

  /** The five ids are distinct (0 and four above `highest`), and every
      fallback list names only languages listed before it. */
  lemma {:induction false} GeneratorLanguagesWellFormed(t: string, highest: int)
    requires highest >= 0
    ensures var langs := GeneratorLanguages(t, highest);
      && DistinctLanguageIds(langs)
      && FallbacksWellOrdered(langs)
      && forall k :: 1 <= k < 5 ==> langs[k].languageId == highest + k && langs[k].fallbackType == Some(t)
  {
    var langs := GeneratorLanguages(t, highest);
    forall k | 1 <= k < 5
      ensures langs[k].languageId == highest + k && langs[k].fallbackType == Some(t)
    {
      if k == 1 {} else if k == 2 {} else if k == 3 {} else {}
    }
    forall i, j | 0 <= i < j < 5
      ensures langs[i].languageId != langs[j].languageId
    {
      assert langs[j].languageId == highest + j;
    }
    GeneratorFallbacksParse(highest);
    assert DefinedBefore(langs, 1, 0) by { assert langs[0].languageId == 0; }
    assert DefinedBefore(langs, 2, 0) by { assert langs[0].languageId == 0; }
    assert DefinedBefore(langs, 2, highest + 1) by { assert langs[1].languageId == highest + 1; }
    assert DefinedBefore(langs, 4, highest + 3) by { assert langs[3].languageId == highest + 3; }
    assert FallbacksDefinedBefore(langs, 0);
    assert FallbacksDefinedBefore(langs, 1);
    assert FallbacksDefinedBefore(langs, 2);
    assert FallbacksDefinedBefore(langs, 3);
    assert FallbacksDefinedBefore(langs, 4);
  }

  /** What the written configuration promises: exactly the generator's
      configuration for the base, the root page and the highest language id
      of the sites before the write (so the four new ids follow it in
      order), with ids distinct and above every id any site had before, and
      fallback chains that only refer backwards. */
  predicate GeneratorConfig(config: SiteConfig, t: string, root: int, base: string, before: seq<Site>) {
    && config == GeneratorSiteConfig(t, root, base, FindHighestLanguageId(before))
    && DistinctLanguageIds(config.languages)
    && FallbacksWellOrdered(config.languages)
    && (forall site, l, k :: site in before && l in site.config.languages && 1 <= k < 5 ==>
          l.languageId < config.languages[k].languageId)
  }

  lemma GeneratorConfigFresh(before: seq<Site>, after: seq<Site>, t: string, root: int, base: string, highest: int)
    requires |after| == |before|
    requires forall k :: 0 <= k < |before| ==> after[k].config == before[k].config
    requires highest == FindHighestLanguageId(after)
    ensures GeneratorConfig(GeneratorSiteConfig(t, root, base, highest), t, root, base, before)
  {
    HighestCoversRenamed(before, after, highest);
    HighestIgnoresIdentifiers(before, after);
    GeneratorLanguagesWellFormed(t, highest);
    var config := GeneratorSiteConfig(t, root, base, highest);
    var langs := config.languages;
    assert langs == GeneratorLanguages(t, highest);
    forall site, l, k | site in before && l in site.config.languages && 1 <= k < 5
      ensures l.languageId < langs[k].languageId
    {
      assert l.languageId <= highest;
    }
  }

  /** The rename step: a missing site is skipped; a failing rename is not
      caught and changes nothing. */
  function RenameSiteOf(env: Env, s: Store, id: string, root: int): (r: Exec)
    ensures r.thrown.Some? <==> SiteByRootPage(s.sites, root).Some? && env.renameFails
    ensures r.thrown.Some? ==> r == Exec(s, Some(WriteError))
    ensures r.store == s.(sites := r.store.sites, trace := r.store.trace)
    ensures |r.store.sites| == |s.sites|
    ensures forall k :: 0 <= k < |s.sites| ==> r.store.sites[k].config == s.sites[k].config
    ensures Silent(s.trace, r.store.trace)
  {
    match SiteByRootPage(s.sites, root)
    case None => Exec(s, None)
    case Some(site) =>
      if env.renameFails then Exec(s, Some(WriteError))
      else Exec(s.(sites := RenameSite(s.sites, site.identifier, id),
                   trace := s.trace + [SiteRenamed(site.identifier, id)]), None)
  }

  /** A written generator site: the site under the generator's name holds
      `config`, which meets `GeneratorConfig` against `before`, and the
      write is the last effect. */
  predicate GeneratorWritten(after: Store, config: SiteConfig, t: string, root: int, base: string, before: seq<Site>) {
    && Site(SiteIdentifier(t, root), config) in after.sites
    && GeneratorConfig(config, t, root, base, before)
    && EndsWith(after.trace, SiteWritten(SiteIdentifier(t, root), config))
  }

  /** `createSiteConfiguration`: rename the root page's site (if any) to
      `translation-handling-<type>-<root>`, then write the five-language
      configuration under that name. Rename and write failures are let
      through; a missing site is not an error. */
  method SiteConfiguration(env: Env, s: Store, t: string, root: int, base: string) returns (r: Exec, config: SiteConfig)
    ensures r.thrown.Some? ==> r.thrown == Some(WriteError)
    ensures SiteByRootPage(s.sites, root).Some? && env.renameFails ==> r == Exec(s, Some(WriteError))
    ensures !(SiteByRootPage(s.sites, root).Some? && env.renameFails) ==> (r.thrown.Some? <==> env.writeFails)
    ensures r.store == s.(sites := r.store.sites, trace := r.store.trace)
    ensures Silent(s.trace, r.store.trace)
    ensures r.Ok() ==> |r.store.trace| > |s.trace| && GeneratorWritten(r.store, config, t, root, base, s.sites)
  {
    var id := SiteIdentifier(t, root);
    var renamed := RenameSiteOf(env, s, id, root);
    config := SiteConfig("", 0, []);
    if !renamed.Ok() {
      return renamed, config;
    }
    var highest := FindHighestLanguageId(renamed.store.sites);
    config := GeneratorSiteConfig(t, root, base, highest);
    GeneratorConfigFresh(s.sites, renamed.store.sites, t, root, base, highest);
    if env.writeFails {
      return Exec(renamed.store, Some(WriteError)), config;
    }
    r := Exec(renamed.store.(sites := WriteSite(renamed.store.sites, id, config),
                             trace := renamed.store.trace + [SiteWritten(id, config)]), None);
  }

  // ---------------------------------------------------------------------
  // create and delete


  /** On the command line: the type is the base path, or "/" when empty. */
  function Domain(t: string): string {
    if EmptyString(t) then "/" else t
  }

  function CreatedText(t: string): string {
    "page for type " + t + " created"
  }

  /** The tree's engine run after a passed guard: the create data map,
      processed in one run, one placeholder used per record, after which
      the root-marker lookup finds exactly the uid the engine gave the
      entry page. */
  method RunTree(env: Env, s: Store, t: string, data: seq<NewRecord>, g: Grouped) returns (run: Store)
    requires s.dbOk && |FindUidsOfPages(s, [RootMarker(t)])| == 0
    requires CreateData(data, g, t, GetUidOfLastTopLevelPage(s), s.nextToken)
    ensures run.trace == s.trace + [DataProcessed(data)]
    ensures run.pages == s.pages + CreatedPages(env, data)
    ensures run.nextToken == s.nextToken + |data|
    ensures run.dbOk && run.sites == s.sites
    ensures forall u :: u in FindUidsOfPages(run, [RootMarker(t)]) <==> s.nextToken in env.subst && u == env.subst[s.nextToken]
  {
    run := Process(env, s.(nextToken := s.nextToken + |data|), data, []);
    RootAfterCreate(env, s, t, data, g, run);
  }

  /** `(int)` of the first uid the root lookup finds; PHP's null for a
      missing first element becomes 0. */
  method FirstRoot(roots: seq<int>, n: nat, subst: map<nat, int>) returns (root: int)
    requires forall u :: u in roots <==> n in subst && u == subst[n]
    ensures root == if n in subst then subst[n] else 0
  {
    root := if |roots| > 0 then roots[0] else 0;
    if n in subst {
      var entry := subst[n];
      assert n in subst && entry == subst[n];
      assert entry in roots;
    }
    if |roots| > 0 {
      assert roots[0] in roots;
    }
  }

  /** `create`: the guard on the root marker, one engine run with the whole
      tree, then the site configuration for the root page the lookup finds
      afterwards (0 when it finds none). The guard's lookup is the first
      database access: a database error ends the call before any write, and
      so does an existing root page, with 1702623429. The engine's error
      log is not checked, so nothing but the site writer can fail later. */
  method Create(env: Env, s: Store, t: string) returns (r: Exec, data: seq<NewRecord>, g: Grouped, root: int, config: SiteConfig)
    ensures !s.dbOk ==> r == Exec(s, Some(DbError))
    ensures s.dbOk && |FindUidsOfPages(s, [RootMarker(t)])| > 0 ==> r == Exec(s, Some(Code(SecondTree)))
    ensures s.dbOk && |FindUidsOfPages(s, [RootMarker(t)])| == 0 ==>
      && g == GroupRecords(t, ElementContent(), s.nextToken, s.nextToken + 3)
      && CreateData(data, g, t, GetUidOfLastTopLevelPage(s), s.nextToken)
      && CreatedTree(env, s, t, r, data, root)
    ensures r.thrown.Some? ==> r.thrown.value in {DbError, Code(SecondTree), WriteError}
    ensures r.store.dbOk == s.dbOk
    ensures Silent(s.trace, r.store.trace)
    ensures r.Ok() ==> SiteCreated(r, t, root, config, s.sites)
  {
    data, g, root, config := [], Grouped([], []), 0, SiteConfig("", 0, []);
    var guard := FindPages(s, [RootMarker(t)]);
    if guard.Failure? {
      return Exec(s, Some(guard.error)), data, g, root, config;
    }
    if |guard.value| > 0 {
      return Exec(s, Some(Code(SecondTree))), data, g, root, config;
    }
    data, g := CreateRecords(t, GetUidOfLastTopLevelPage(s), s.nextToken);
    r, root, config := CreateTree(env, s, t, data, g);
  }

  /** What `create` promises once the guard has passed: one engine run
      with the data map, the lookup afterwards finding the new entry page
      exactly when the engine gave it a uid, the site step for that root,
      and the site writer's failures. */
  ghost predicate CreatedTree(env: Env, s: Store, t: string, r: Exec, data: seq<NewRecord>, root: int) {
    && s.trace + [DataProcessed(data)] <= r.store.trace
    && r.store.pages == s.pages + CreatedPages(env, data)
    && (forall u :: u in FindUidsOfPages(r.store, [RootMarker(t)]) <==> s.nextToken in env.subst && u == env.subst[s.nextToken])
    && r.store.nextToken == s.nextToken + |data|
    && root == (if s.nextToken in env.subst then env.subst[s.nextToken] else 0)
    && (SiteByRootPage(s.sites, root).Some? && env.renameFails ==> r.thrown == Some(WriteError))
    && (!(SiteByRootPage(s.sites, root).Some? && env.renameFails) ==> (r.Ok() <==> !env.writeFails))
  }

  /** A completed `create`'s site: written under the generator's name with
      the five-language configuration, as the last effect. */
  ghost predicate SiteCreated(r: Exec, t: string, root: int, config: SiteConfig, before: seq<Site>) {
    GeneratorWritten(r.store, config, t, root, Domain(t), before)
  }

  /** `create` after a passed guard, with the records built. */
  method CreateTree(env: Env, s: Store, t: string, data: seq<NewRecord>, g: Grouped) returns (r: Exec, root: int, config: SiteConfig)
    requires s.dbOk && |FindUidsOfPages(s, [RootMarker(t)])| == 0
    requires CreateData(data, g, t, GetUidOfLastTopLevelPage(s), s.nextToken)
    ensures CreatedTree(env, s, t, r, data, root)
    ensures r.thrown.Some? ==> r.thrown == Some(WriteError)
    ensures r.store.dbOk == s.dbOk
    ensures Silent(s.trace, r.store.trace)
    ensures r.Ok() ==> SiteCreated(r, t, root, config, s.sites)
  {
    var run := RunTree(env, s, t, data, g);
    root := FirstRoot(FindUidsOfPages(run, [RootMarker(t)]), s.nextToken, env.subst);
    r, config := SiteConfiguration(env, run, t, root, Domain(t));
    SiteCreatedAfterRun(r, t, root, config, run.sites, s.sites);
    CreatedTreeAfterSite(env, s, t, run, r, data, root);
  }

  /** The site step keeps the pages and the token counter of the engine
      run, so what the run promised still holds after it. */
  lemma CreatedTreeAfterSite(env: Env, s: Store, t: string, run: Store, r: Exec, data: seq<NewRecord>, root: int)
    requires run.trace == s.trace + [DataProcessed(data)]
    requires run.pages == s.pages + CreatedPages(env, data)
    requires run.nextToken == s.nextToken + |data|
    requires run.sites == s.sites
    requires forall u :: u in FindUidsOfPages(run, [RootMarker(t)]) <==> s.nextToken in env.subst && u == env.subst[s.nextToken]
    requires root == (if s.nextToken in env.subst then env.subst[s.nextToken] else 0)
    requires r.store == run.(sites := r.store.sites, trace := r.store.trace)
    requires run.trace <= r.store.trace
    requires SiteByRootPage(run.sites, root).Some? && env.renameFails ==> r.thrown == Some(WriteError)
    requires !(SiteByRootPage(run.sites, root).Some? && env.renameFails) ==> (r.thrown.Some? <==> env.writeFails)
    ensures CreatedTree(env, s, t, r, data, root)
  {
    assert FindUidsOfPages(r.store, [RootMarker(t)]) == FindUidsOfPages(run, [RootMarker(t)]);
  }

  /** The engine run does not touch the sites, so the site step's promise
      against the sites after the run holds against those before it. */
  lemma SiteCreatedAfterRun(r: Exec, t: string, root: int, config: SiteConfig, run: seq<Site>, before: seq<Site>)
    requires run == before
    requires r.Ok() ==> GeneratorWritten(r.store, config, t, root, Domain(t), run)
    ensures r.Ok() ==> SiteCreated(r, t, root, config, before)
  {
  }

  /** `delete`'s markers: the root and the plain one. Pages with the
      listeners' `_storage` marker are not among them. */
  function DeleteMarkers(t: string): seq<string> {
    [RootMarker(t), Identifier(t)]
  }

  /** The site step of `delete`: the root page's site (when there is a
      root page and it has one) is deleted; a missing site is tolerated; a
      failing delete is let through. */
  method DeleteSiteOfRoots(env: Env, s: Store, roots: seq<int>) returns (r: Exec)
    ensures |roots| == 0 ==> r == Exec(s, None)
    ensures |roots| > 0 && SiteByRootPage(s.sites, roots[0]).Some? && env.deleteFails ==> r == Exec(s, Some(WriteError))
    ensures r.thrown.Some? ==> r == Exec(s, Some(WriteError)) && |roots| > 0 && SiteByRootPage(s.sites, roots[0]).Some? && env.deleteFails
    ensures r.Ok() ==> r.store.pages == s.pages && r.store.dbOk == s.dbOk
    ensures Silent(s.trace, r.store.trace)
    ensures r.Ok() ==> r.store.trace == s.trace + (if |roots| > 0 then SiteStep(s, roots[0]) else [])
    ensures r.Ok() && |roots| > 0 && SiteByRootPage(s.sites, roots[0]).Some? ==>
      forall site :: site in r.store.sites ==> site.identifier != SiteByRootPage(s.sites, roots[0]).value.identifier
  {
    if |roots| == 0 {
      return Exec(s, None);
    }
    var site := SiteByRootPage(s.sites, roots[0]);
    if site.None? {
      return Exec(s, None);
    }
    if env.deleteFails {
      return Exec(s, Some(WriteError));
    }
    var id := site.value.identifier;
    r := Exec(s.(sites := RemoveSite(s.sites, id), trace := s.trace + [SiteDeleted(id)]), None);
  }

  /** `executeDataHandler([], commands)`: nothing at all for an empty plan;
      otherwise one run that marks exactly the planned pages deleted. */
  method RunDeletes(env: Env, s: Store, plan: seq<Command>) returns (r: Store)
    ensures DeletesApplied(s.pages, r.pages, plan)
    ensures r.trace == s.trace + (if |plan| > 0 then [CommandsProcessed(plan)] else [])
    ensures Silent(s.trace, r.trace)
    ensures r.dbOk == s.dbOk && r.sites == s.sites
  {
    r := Process(env, s, [], plan);
    if |plan| > 0 {
      ProcessDeletes(env, s, plan);
    } else {
      forall k | 0 <= k < |s.pages|
        ensures r.pages[k] == s.pages[k].(deleted := s.pages[k].deleted || DeletesPage(plan, s.pages[k].uid))
      {
        assert !DeletesPage(plan, s.pages[k].uid);
      }
    }
  }

  /** `delete`: plan one delete command per page with the root or the plain
      marker, delete the root page's site, then run the engine with the
      plan (nothing at all when it is empty). There is no early exit: a
      tree without root page still has its plain-marked pages deleted. */
  method Delete(env: Env, s: Store, t: string) returns (r: Exec, plan: seq<Command>)
    ensures !s.dbOk ==> r == Exec(s, Some(DbError))
    ensures s.dbOk ==> plan == DeletePlan(FindUidsOfPages(s, DeleteMarkers(t)))
    ensures s.dbOk ==>
      var roots := FindUidsOfPages(s, [RootMarker(t)]);
      && (|roots| > 0 && SiteByRootPage(s.sites, roots[0]).Some? && env.deleteFails ==> r == Exec(s, Some(WriteError)))
      && (!(|roots| > 0 && SiteByRootPage(s.sites, roots[0]).Some? && env.deleteFails) ==>
           && r.Ok()
           && r.store.trace == s.trace + (if |roots| > 0 then SiteStep(s, roots[0]) else [])
                + (if |plan| > 0 then [CommandsProcessed(plan)] else []))
    ensures r.thrown.Some? ==> r.store == s && r.thrown.value in {DbError, WriteError}
    ensures r.store.dbOk == s.dbOk
    ensures Silent(s.trace, r.store.trace)
    ensures r.Ok() ==> DeletesApplied(s.pages, r.store.pages, plan)
    ensures r.Ok() ==> forall k :: 0 <= k < |s.pages| && s.pages[k].marker in DeleteMarkers(t) ==> r.store.pages[k].deleted
  {
    plan := [];
    var pages := FindPages(s, DeleteMarkers(t));
    if pages.Failure? {
      return Exec(s, Some(pages.error)), plan;
    }
    plan := DeletePlan(pages.value);
    var roots := FindUidsOfPages(s, [RootMarker(t)]);
    var site := DeleteSiteOfRoots(env, s, roots);
    if !site.Ok() {
      return site, plan;
    }
    var after := RunDeletes(env, site.store, plan);
    r := Exec(after, None);
    MarkedPagesDeleted(s, t, plan, after.pages);
  }

  /** The delete plan covers exactly the live pages with the root or the
      plain marker. */
  lemma DeleteCovers(s: Store, t: string, u: int)
    ensures DeletesPage(DeletePlan(FindUidsOfPages(s, DeleteMarkers(t))), u) <==>
      s.dbOk && exists k :: 0 <= k < |s.pages| && !s.pages[k].deleted && s.pages[k].marker in DeleteMarkers(t) && s.pages[k].uid == u
  {
    var valid := ValidMarkers(DeleteMarkers(t));
    MarkerValid(t);
    assert StartsWith(Identifier(t), Prefix);
    assert forall m :: m in valid <==> m in DeleteMarkers(t);
  }

  /** After the delete run every page with the root or the plain marker is
      deleted (the live ones by the plan, the others were already). */
  lemma MarkedPagesDeleted(s: Store, t: string, plan: seq<Command>, after: seq<PageRow>)
    requires s.dbOk && plan == DeletePlan(FindUidsOfPages(s, DeleteMarkers(t)))
    requires DeletesApplied(s.pages, after, plan)
    ensures forall k :: 0 <= k < |s.pages| && s.pages[k].marker in DeleteMarkers(t) ==> after[k].deleted
  {
    forall k | 0 <= k < |s.pages| && s.pages[k].marker in DeleteMarkers(t)
      ensures after[k].deleted
    {
      if !s.pages[k].deleted {
        DeleteCovers(s, t, s.pages[k].uid);
      }
    }
  }
}
