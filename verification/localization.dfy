/** The localization pass over the page tree
    (Classes/EventListener/LocalizationListener.php), split into a pure
    planner that yields the commands it issues, in order, and the error it
    stops with, and the listener that hands each command to the engine. */
module Localization {
  import opened Wrappers
  import opened Php
  import opened Markers
  import opened Host
  import opened RecordFinder
  import opened PageTree

  /** The commands issued so far and the exception the pass stopped with. */
  datatype Run = Run(issued: seq<Command>, failure: Option<Error>)

  const Done := Run([], None)

  /** Run `a`, then `b` unless `a` stopped. */
  function Then(a: Run, b: Run): (r: Run)
    ensures a.failure.Some? ==> r == a
    ensures a.failure.None? ==> r == Run(a.issued + b.issued, b.failure)
  {
    if a.failure.Some? then a else Run(a.issued + b.issued, b.failure)
  }

  lemma ThenAssociative(a: Run, b: Run, c: Run)
    ensures Then(Then(a, b), c) == Then(a, Then(b, c))
  {
    if a.failure.None? && b.failure.None? {
      assert a.issued + b.issued + c.issued == a.issued + (b.issued + c.issued);
    }
  }

  lemma ThenDoneLeft(b: Run)
    ensures Then(Done, b) == b
  {
    assert [] + b.issued == b.issued;
  }

  /** `$contentElement['config']['excludeLanguages'] ?? []`. */
  function ExcludeOf(config: Value): (v: Value)
    ensures config.Dict? && IsSet(config.entries, "excludeLanguages") ==> v == config.entries["excludeLanguages"]
    ensures !(config.Dict? && IsSet(config.entries, "excludeLanguages")) ==> v == EmptyArray
  {
    if config.Dict? then Coalesce(config.entries, "excludeLanguages", EmptyArray) else EmptyArray
  }

  /** Whether the element is skipped for the language: its exclusion list
      holds the id itself (strict comparison). */
  predicate Excluded(e: ContentEntry, lang: int)
    requires IsArray(ExcludeOf(e.config))
  {
    InArrayStrict(Int(lang), ExcludeOf(e.config))
  }

  /** The mode an element is localized in: in `mixed` mode even positions
      are `connected` and odd ones `free`. */
  function ElementMode(mode: string, i: nat): (m: string)
    ensures mode == "mixed" && i % 2 == 0 ==> m == "connected"
    ensures mode == "mixed" && i % 2 == 1 ==> m == "free"
    ensures mode != "mixed" ==> m == mode
  {
    if mode == "mixed" then (if i % 2 == 0 then "connected" else "free") else mode
  }

  /** One content element at position `i` for one language. The checks come
      in the source's order: the exclusion list's type, the exclusion, the
      uid's type (an `int` parameter), the schema, the mode. */
  function ElementRun(e: ContentEntry, lang: int, mode: string, i: nat, schemaOk: bool): (r: Run)
    ensures !IsArray(ExcludeOf(e.config)) <==> r == Run([], Some(Code(ExcludeLanguagesNotArray)))
    ensures |r.issued| <= 1
    ensures |r.issued| == 1 <==>
      IsArray(ExcludeOf(e.config)) && !Excluded(e, lang) && e.uid.Int? && schemaOk
      && ElementMode(mode, i) in {"free", "connected"}
    ensures |r.issued| == 1 ==>
      && r.failure.None?
      && r.issued[0] == Command("tt_content", e.uid,
                                if ElementMode(mode, i) == "free" then CopyToLanguage(lang) else Localize(lang))
    ensures r.failure.None? && |r.issued| == 0 ==> IsArray(ExcludeOf(e.config)) && Excluded(e, lang)
    ensures (IsArray(ExcludeOf(e.config)) && !Excluded(e, lang) && e.uid.Int? && schemaOk
             && ElementMode(mode, i) !in {"free", "connected"}) ==> r.failure == Some(Code(NoLanguagesOrUnknownMode))
  {
    var ex := ExcludeOf(e.config);
    if !IsArray(ex) then Run([], Some(Code(ExcludeLanguagesNotArray)))
    else if InArrayStrict(Int(lang), ex) then Done
    else
      var m := ElementMode(mode, i);
      if !e.uid.Int? then Run([], Some(TypeError))
      else if !schemaOk then Run([], Some(Code(HostFailure)))
      else if m == "free" then Run([Command("tt_content", e.uid, CopyToLanguage(lang))], None)
      else if m == "connected" then Run([Command("tt_content", e.uid, Localize(lang))], None)
      else Run([], Some(Code(NoLanguagesOrUnknownMode)))
  }

  /** The content elements from position `i` on, for one language; the
      position counts skipped elements too. */
  function ContentRun(elems: seq<ContentEntry>, lang: int, mode: string, i: nat, schemaOk: bool): (r: Run)
    ensures forall c :: c in r.issued ==> c.table == "tt_content" && c.action in {Localize(lang), CopyToLanguage(lang)}
    decreases |elems|
  {
    if |elems| == 0 then Done
    else Then(ElementRun(elems[0], lang, mode, i, schemaOk), ContentRun(elems[1..], lang, mode, i + 1, schemaOk))
  }

  /** The localize command for a page. */
  function PageCommand(uid: Value, lang: int): Command {
    Command("pages", uid, Localize(lang))
  }

  /** For every language in order: the page's localize command, then its
      content. */
  function LanguagesRun(uid: Value, mode: string, elems: seq<ContentEntry>, langs: seq<int>, schemaOk: bool): (r: Run)
    ensures |langs| > 0 ==> |r.issued| > 0 && r.issued[0] == PageCommand(uid, langs[0])
    ensures |langs| == 0 ==> r == Done
    decreases |langs|
  {
    if |langs| == 0 then Done
    else Then(Then(Run([PageCommand(uid, langs[0])], None), ContentRun(elems, langs[0], mode, 0, schemaOk)),
              LanguagesRun(uid, mode, elems, langs[1..], schemaOk))
  }

  /** `$page['uid'] ?? 0`. */
  function PageUid(entry: TreeEntry): (v: Value)
    ensures entry.uid == Null ==> v == Int(0)
    ensures entry.uid != Null ==> v == entry.uid
  {
    if entry.uid == Null then Int(0) else entry.uid
  }

  /** One page entry: nothing when its uid is missing or the integer 0;
      a missing mode is `connected`, missing content is none. */
  function PageRun(entry: TreeEntry, langs: seq<int>, schemaOk: bool): (r: Run)
    ensures PageUid(entry) == Int(0) ==> r == Done
    ensures PageUid(entry) != Int(0) ==>
      r == LanguagesRun(PageUid(entry), entry.mode.GetOr("connected"), entry.contentElements.GetOr([]), langs, schemaOk)
  {
    var uid := PageUid(entry);
    if uid == Int(0) then Done
    else LanguagesRun(uid, entry.mode.GetOr("connected"), entry.contentElements.GetOr([]), langs, schemaOk)
  }

  /** What the defaults mean: an entry without a uid is one with uid 0 and
      issues nothing; an entry without a mode is one in `connected` mode;
      an entry without content elements is one with none. */
  lemma PageRunDefaults(entry: TreeEntry, langs: seq<int>, schemaOk: bool)
    ensures entry.uid == Null || entry.uid == Int(0) ==> PageRun(entry, langs, schemaOk) == Done
    ensures entry.uid == Null ==> PageRun(entry, langs, schemaOk) == PageRun(entry.(uid := Int(0)), langs, schemaOk)
    ensures entry.mode.None? ==>
      PageRun(entry, langs, schemaOk) == PageRun(entry.(mode := Some("connected")), langs, schemaOk)
    ensures entry.contentElements.None? ==>
      PageRun(entry, langs, schemaOk) == PageRun(entry.(contentElements := Some([])), langs, schemaOk)
  {
  }

  function TreeRun(tree: Tree, langs: seq<int>, schemaOk: bool): Run
    decreases |tree|
  {
    if |tree| == 0 then Done
    else Then(PageRun(tree[0].entry, langs, schemaOk), TreeRun(tree[1..], langs, schemaOk))
  }

  /** The whole pass for the root page's language ids: an empty list is an
      error before any command; otherwise the page entries in tree order. */
  function Plan(langs: seq<int>, tree: Tree, schemaOk: bool): (r: Run)
    ensures |langs| == 0 ==> r == Run([], Some(Code(NoLanguagesOrUnknownMode)))
  {
    if |langs| == 0 then Run([], Some(Code(NoLanguagesOrUnknownMode)))
    else TreeRun(tree, langs, schemaOk)
  }

  // ---------------------------------------------------------------------
  // Properties of the planner

  /** Two content lists in a row are handled as one, the second starting
      at the position after the first. */
  lemma {:induction false} ContentRunAppend(a: seq<ContentEntry>, b: seq<ContentEntry>, lang: int, mode: string, i: nat, schemaOk: bool)
    ensures ContentRun(a + b, lang, mode, i, schemaOk)
         == Then(ContentRun(a, lang, mode, i, schemaOk), ContentRun(b, lang, mode, i + |a|, schemaOk))
    decreases |a|
  {
    if |a| == 0 {
      assert a + b == b;
      ThenDoneLeft(ContentRun(b, lang, mode, i, schemaOk));
    } else {
      var head := ElementRun(a[0], lang, mode, i, schemaOk);
      var tail := ContentRun(a[1..], lang, mode, i + 1, schemaOk);
      var rest := ContentRun(b, lang, mode, i + |a|, schemaOk);
      assert (a + b)[0] == a[0];
      assert (a + b)[1..] == a[1..] + b;
      assert (i + 1) + |a[1..]| == i + |a|;
      calc {
        ContentRun(a + b, lang, mode, i, schemaOk);
        Then(head, ContentRun(a[1..] + b, lang, mode, i + 1, schemaOk));
        { ContentRunAppend(a[1..], b, lang, mode, i + 1, schemaOk); }
        Then(head, Then(tail, rest));
        { ThenAssociative(head, tail, rest); }
        Then(Then(head, tail), rest);
      }
    }
  }

  /** Element `j` of a content list is handled at position `i + j`, after
      the elements before it and before the ones after it. */
  lemma ContentRunSplit(elems: seq<ContentEntry>, lang: int, mode: string, i: nat, schemaOk: bool, j: nat)
    requires j < |elems|
    ensures ContentRun(elems, lang, mode, i, schemaOk)
         == Then(ContentRun(elems[..j], lang, mode, i, schemaOk),
                 Then(ElementRun(elems[j], lang, mode, i + j, schemaOk),
                      ContentRun(elems[j + 1..], lang, mode, i + j + 1, schemaOk)))
  {
    var tail := elems[j..];
    assert elems == elems[..j] + tail;
    assert tail[0] == elems[j] && tail[1..] == elems[j + 1..];
    calc {
      ContentRun(elems, lang, mode, i, schemaOk);
      { ContentRunAppend(elems[..j], tail, lang, mode, i, schemaOk); }
      Then(ContentRun(elems[..j], lang, mode, i, schemaOk), ContentRun(tail, lang, mode, i + j, schemaOk));
      Then(ContentRun(elems[..j], lang, mode, i, schemaOk),
           Then(ElementRun(tail[0], lang, mode, i + j, schemaOk), ContentRun(tail[1..], lang, mode, i + j + 1, schemaOk)));
    }
  }

  /** In `mixed` mode, an element that reaches the mode switch is localized
      (`connected`) at an even position and copied (`free`) at an odd one;
      the position counts the elements skipped before it. */
  lemma MixedAlternates(elems: seq<ContentEntry>, lang: int, j: nat)
    requires j < |elems|
    requires ContentRun(elems[..j], lang, "mixed", 0, true).failure.None?
    requires IsArray(ExcludeOf(elems[j].config)) && !Excluded(elems[j], lang) && elems[j].uid.Int?
    ensures var before := ContentRun(elems[..j], lang, "mixed", 0, true).issued;
            var r := ContentRun(elems, lang, "mixed", 0, true);
            |before| < |r.issued| && r.issued[..|before|] == before
            && r.issued[|before|] == Command("tt_content", elems[j].uid,
                                             if j % 2 == 0 then Localize(lang) else CopyToLanguage(lang))
  {
    ContentRunSplit(elems, lang, "mixed", 0, true, j);
  }

  /** Every content command comes from an element that is not excluded for
      the language and carries that element's uid. */
  lemma {:induction false} ContentCommandsFromIncluded(elems: seq<ContentEntry>, lang: int, mode: string, i: nat, schemaOk: bool, c: Command)
    requires c in ContentRun(elems, lang, mode, i, schemaOk).issued
    ensures exists k :: 0 <= k < |elems| && elems[k].uid == c.id && IsArray(ExcludeOf(elems[k].config)) && !Excluded(elems[k], lang)
    decreases |elems|
  {
    var head := ElementRun(elems[0], lang, mode, i, schemaOk);
    var rest := ContentRun(elems[1..], lang, mode, i + 1, schemaOk);
    if c in head.issued {
      assert elems[0].uid == c.id;
    } else {
      assert c in rest.issued;
      ContentCommandsFromIncluded(elems[1..], lang, mode, i + 1, schemaOk, c);
      var k :| 0 <= k < |elems[1..]| && elems[1..][k].uid == c.id && IsArray(ExcludeOf(elems[1..][k].config)) && !Excluded(elems[1..][k], lang);
      assert elems[k + 1] == elems[1..][k];
    }
  }

  /** A uid whose every element excludes the language gets no content
      command for it. */
  lemma ExcludedGetsNothing(elems: seq<ContentEntry>, lang: int, mode: string, schemaOk: bool, uid: Value)
    requires forall k :: 0 <= k < |elems| && elems[k].uid == uid ==> IsArray(ExcludeOf(elems[k].config)) && Excluded(elems[k], lang)
    ensures forall c :: c in ContentRun(elems, lang, mode, 0, schemaOk).issued ==> c.id != uid
  {
    forall c | c in ContentRun(elems, lang, mode, 0, schemaOk).issued
      ensures c.id != uid
    {
      ContentCommandsFromIncluded(elems, lang, mode, 0, schemaOk, c);
    }
  }

  /** A non-array exclusion list reached by the pass aborts it with
      1704540645; the page's localize command for the first language has
      already been issued and stays. */
  lemma NonArrayExcludeAborts(uid: Value, mode: string, elems: seq<ContentEntry>, langs: seq<int>, schemaOk: bool, j: nat)
    requires |langs| > 0 && j < |elems|
    requires ContentRun(elems[..j], langs[0], mode, 0, schemaOk).failure.None?
    requires !IsArray(ExcludeOf(elems[j].config))
    ensures var r := LanguagesRun(uid, mode, elems, langs, schemaOk);
            r.failure == Some(Code(ExcludeLanguagesNotArray)) && r.issued[0] == PageCommand(uid, langs[0])
  {
    ContentRunSplit(elems, langs[0], mode, 0, schemaOk, j);
  }

  /** The page commands of a command list, in order. */
  function PageCommands(cmds: seq<Command>): (r: seq<Command>)
    ensures forall c :: c in r <==> c in cmds && c.table == "pages"
  {
    if |cmds| == 0 then []
    else
      assert forall c :: c in cmds <==> c == cmds[0] || c in cmds[1..];
      (if cmds[0].table == "pages" then [cmds[0]] else []) + PageCommands(cmds[1..])
  }

  lemma {:induction false} PageCommandsAppend(a: seq<Command>, b: seq<Command>)
    ensures PageCommands(a + b) == PageCommands(a) + PageCommands(b)
  {
    if |a| == 0 {
      assert a + b == b;
    } else {
      assert (a + b)[1..] == a[1..] + b;
      PageCommandsAppend(a[1..], b);
    }
  }

  function PageCommandsFor(uid: Value, langs: seq<int>): (r: seq<Command>)
    ensures |r| == |langs|
    ensures forall k :: 0 <= k < |langs| ==> r[k] == PageCommand(uid, langs[k])
  {
    seq(|langs|, k requires 0 <= k < |langs| => PageCommand(uid, langs[k]))
  }

  /** A pass over the first language that does not stop: the page command,
      then all of its content, then the other languages. */
  lemma LanguagesRunStep(uid: Value, mode: string, elems: seq<ContentEntry>, langs: seq<int>, schemaOk: bool)
    requires |langs| > 0 && LanguagesRun(uid, mode, elems, langs, schemaOk).failure.None?
    ensures ContentRun(elems, langs[0], mode, 0, schemaOk).failure.None?
    ensures LanguagesRun(uid, mode, elems, langs, schemaOk).issued
         == ([PageCommand(uid, langs[0])] + ContentRun(elems, langs[0], mode, 0, schemaOk).issued)
            + LanguagesRun(uid, mode, elems, langs[1..], schemaOk).issued
  {
  }

  /** A pass over a page that does not stop localizes the page once per
      language, in the order of the language list. */
  lemma {:induction false} PageLocalizedPerLanguageInOrder(uid: Value, mode: string, elems: seq<ContentEntry>, langs: seq<int>, schemaOk: bool)
    requires LanguagesRun(uid, mode, elems, langs, schemaOk).failure.None?
    ensures PageCommands(LanguagesRun(uid, mode, elems, langs, schemaOk).issued) == PageCommandsFor(uid, langs)
    decreases |langs|
  {
    if |langs| > 0 {
      var p := [PageCommand(uid, langs[0])];
      var content := ContentRun(elems, langs[0], mode, 0, schemaOk);
      var rest := LanguagesRun(uid, mode, elems, langs[1..], schemaOk);
      calc {
        PageCommands(LanguagesRun(uid, mode, elems, langs, schemaOk).issued);
        { LanguagesRunStep(uid, mode, elems, langs, schemaOk); }
        PageCommands((p + content.issued) + rest.issued);
        { PageCommandsAppend(p + content.issued, rest.issued); }
        PageCommands(p + content.issued) + PageCommands(rest.issued);
        { PageCommandsAppend(p, content.issued); }
        PageCommands(p) + PageCommands(content.issued) + PageCommands(rest.issued);
        { ContentHasNoPageCommands(content.issued); }
        PageCommands(p) + PageCommands(rest.issued);
        { assert p[1..] == []; }
        p + PageCommands(rest.issued);
        { PageLocalizedPerLanguageInOrder(uid, mode, elems, langs[1..], schemaOk); }
        p + PageCommandsFor(uid, langs[1..]);
        PageCommandsFor(uid, langs);
      }
    }
  }

  lemma ContentHasNoPageCommands(cmds: seq<Command>)
    requires forall c :: c in cmds ==> c.table == "tt_content"
    ensures PageCommands(cmds) == []
  {
  }

  /** Every content command for a language comes after the page's localize
      command for that language. */
  lemma {:induction false} PageLocalizeBeforeContent(uid: Value, mode: string, elems: seq<ContentEntry>, langs: seq<int>, schemaOk: bool, k: nat)
    requires k < |LanguagesRun(uid, mode, elems, langs, schemaOk).issued|
    requires LanguagesRun(uid, mode, elems, langs, schemaOk).issued[k].table == "tt_content"
    ensures var r := LanguagesRun(uid, mode, elems, langs, schemaOk).issued;
            !r[k].action.Delete? && exists j :: 0 <= j < k && r[j] == PageCommand(uid, r[k].action.lang)
    decreases |langs|
  {
    var r := LanguagesRun(uid, mode, elems, langs, schemaOk).issued;
    var content := ContentRun(elems, langs[0], mode, 0, schemaOk);
    var first := Then(Run([PageCommand(uid, langs[0])], None), content);
    var rest := LanguagesRun(uid, mode, elems, langs[1..], schemaOk);
    assert first.issued == [PageCommand(uid, langs[0])] + content.issued;
    if k < |first.issued| {
      assert k > 0;
      assert r[k] == content.issued[k - 1];
      assert r[k] in content.issued;
      assert r[0] == PageCommand(uid, langs[0]);
    } else {
      assert first.failure.None?;
      assert r == first.issued + rest.issued;
      var k' := k - |first.issued|;
      assert r[k] == rest.issued[k'];
      PageLocalizeBeforeContent(uid, mode, elems, langs[1..], schemaOk, k');
      assert !rest.issued[k'].action.Delete?;
      var j' :| 0 <= j' < k' && rest.issued[j'] == PageCommand(uid, rest.issued[k'].action.lang);
      assert r[j' + |first.issued|] == rest.issued[j'];
    }
  }

  // ---------------------------------------------------------------------
  // The listener

  /** The trace of handing each command to the engine as a batch of its own. */
  function Batches(cmds: seq<Command>): (r: seq<Effect>)
    ensures |r| == |cmds|
    ensures forall k :: 0 <= k < |cmds| ==> r[k] == CommandsProcessed([cmds[k]])
  {
    seq(|cmds|, k requires 0 <= k < |cmds| => CommandsProcessed([cmds[k]]))
  }

  /** `executeDataHandler([], $commands)` once per command, in order; the
      first run with errors ends the pass with 1757323932. */
  function ExecuteEach(env: Env, s: Store, cmds: seq<Command>): (r: Exec)
    ensures r.thrown.None? <==> CleanRuns(env, s.runs, |cmds|)
    ensures r.thrown.Some? ==> r.thrown == Some(Code(HostFailure))
    ensures r.thrown.None? ==> r.store.runs == s.runs + |cmds| && r.store.trace == s.trace + Batches(cmds)
    ensures r.store.dbOk == s.dbOk && r.store.sites == s.sites && r.store.storage == s.storage
    ensures r.store.nextToken == s.nextToken
    ensures s.trace <= r.store.trace
    decreases |cmds|
  {
    if |cmds| == 0 then
      assert s.trace + [] == s.trace;
      Exec(s, None)
    else
      var e := Execute(env, s, [], [cmds[0]]);
      CleanRunsStep(env, s.runs, |cmds|);
      assert e.store.runs == s.runs + 1 && e.store.trace == s.trace + [CommandsProcessed([cmds[0]])];
      if !e.Ok() then e
      else
        var r := ExecuteEach(env, e.store, cmds[1..]);
        assert Batches(cmds) == [CommandsProcessed([cmds[0]])] + Batches(cmds[1..]);
        AppendAssoc(s.trace, [CommandsProcessed([cmds[0]])], Batches(cmds[1..]));
        r
  }

  /** The listener: the root page's language ids, the plan over the page
      tree, each planned command executed in order, and the completion
      message only when nothing stopped the pass. A NEW placeholder as root
      page uid is not an `int`. */
  function RunLocalization(env: Env, s: Store, t: string, root: Value, tree: Tree): (r: Exec)
    ensures !root.Int? ==> r == Exec(s, Some(TypeError))
    ensures root.Int? && FindLanguageIdsByRootPage(s.sites, root.i) == [] ==> r == Exec(s, Some(Code(NoLanguagesOrUnknownMode)))
    ensures root.Int? ==>
      var plan := Plan(FindLanguageIdsByRootPage(s.sites, root.i), tree, env.schemaOk);
      && (r.Ok() <==> plan.failure.None? && CleanRuns(env, s.runs, |plan.issued|))
      && (r.Ok() ==> r.store.trace == s.trace + Batches(plan.issued) + [Message("Localization completed for scenario: " + t)])
    ensures r.store.dbOk == s.dbOk && r.store.sites == s.sites && r.store.storage == s.storage
    ensures r.store.nextToken == s.nextToken
    ensures s.trace <= r.store.trace
  {
    if !root.Int? then Exec(s, Some(TypeError))
    else
      var plan := Plan(FindLanguageIdsByRootPage(s.sites, root.i), tree, env.schemaOk);
      var ex := ExecuteEach(env, s, plan.issued);
      if !ex.Ok() then ex
      else if plan.failure.Some? then Exec(ex.store, plan.failure)
      else Exec(Say(ex.store, "Localization completed for scenario: " + t), None)
  }
}
