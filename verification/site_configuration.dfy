/** The site configuration of a new scenario tree
    (Classes/EventListener/SiteConfigurationCreationListener.php). */
module SiteConfigurationCreation {
  import opened Wrappers
  import opened Php
  import opened Markers
  import opened Host
  import opened RecordFinder

  /** `translation-handling-<type>-<root page uid>`. */
  function SiteIdentifier(t: string, root: int): (id: string)
    ensures StartsWith(id, "translation-handling-" + t + "-")
  {
    "translation-handling-" + t + "-" + IntToString(root)
  }

  /** For one type, different root pages give different site identifiers. */
  lemma SiteIdentifierInjective(t: string, a: nat, b: nat)
    requires SiteIdentifier(t, a) == SiteIdentifier(t, b)
    ensures a == b
  {
    var p := "translation-handling-" + t + "-";
    assert SiteIdentifier(t, a)[|p|..] == NatToString(a);
    assert SiteIdentifier(t, b)[|p|..] == NatToString(b);
    NatToStringInjective(a, b);
  }

  /** The configuration written for the scenario: the default language 0
      and one language `highest + 1` falling back to 0 in the type's mode. */
  function ScenarioSiteConfig(t: string, root: int, highest: int): SiteConfig {
    SiteConfig("/" + SiteIdentifier(t, root), root, [
      Language(0, "Pink (Default)", "/", "en_US.utf8", None, None),
      Language(highest + 1, "Purple (> Pink)", "/purple/", "es_US.utf8", Some(t), Some("0"))])
  }

  /** The two languages have distinct ids and the fallback list of the
      second one names only the first. */
  lemma {:induction false} ScenarioSiteConfigWellFormed(t: string, root: int, highest: int)
    requires highest >= 0
    ensures DistinctLanguageIds(ScenarioSiteConfig(t, root, highest).languages)
    ensures FallbacksWellOrdered(ScenarioSiteConfig(t, root, highest).languages)
  {
    var langs := ScenarioSiteConfig(t, root, highest).languages;
    ParseIdListSingle(0);
    assert NatToString(0) == "0";
    assert DefinedBefore(langs, 1, 0) by { assert langs[0].languageId == 0; }
    assert FallbacksDefinedBefore(langs, 1);
    assert FallbacksDefinedBefore(langs, 0);
  }

  /** The rename step: the site the engine created for the root page gets
      the scenario's identifier; a missing site is skipped, a failing
      rename ends the call with 1757323932 and changes nothing. */
  function RenameForScenario(env: Env, s: Store, id: string, root: int): (r: Exec)
    ensures r.thrown.Some? <==> SiteByRootPage(s.sites, root).Some? && env.renameFails
    ensures r.thrown.Some? ==> r == Exec(s, Some(Code(HostFailure)))
    ensures r.store == s.(sites := r.store.sites, trace := r.store.trace)
    ensures |r.store.sites| == |s.sites|
    ensures forall k :: 0 <= k < |s.sites| ==> r.store.sites[k].config == s.sites[k].config
    ensures forall k :: |s.trace| <= k < |r.store.trace| ==> r.store.trace[k].SiteRenamed?
    ensures |s.trace| <= |r.store.trace| && r.store.trace[..|s.trace|] == s.trace
  {
    match SiteByRootPage(s.sites, root)
    case None => Exec(s, None)
    case Some(site) =>
      if env.renameFails then Exec(s, Some(Code(HostFailure)))
      else Exec(s.(sites := RenameSite(s.sites, site.identifier, id),
                   trace := s.trace + [SiteRenamed(site.identifier, id)]), None)
  }

  /** The listener: rename the site the engine created for the root page
      (if any), then write the configuration, returned as `config`. A
      rename or write failure ends the call with 1757323932; a missing site
      is not an error. A NEW placeholder as root page uid is not an `int`.
      The added language never clashes with a language id any site had
      before, and the written configuration is well formed. */
  method CreateSiteConfiguration(env: Env, s: Store, t: string, root: Value) returns (r: Exec, config: SiteConfig)
    ensures r.thrown == Some(TypeError) <==> !root.Int?
    ensures r.thrown.Some? && r.thrown != Some(TypeError) ==> r.thrown == Some(Code(HostFailure))
    ensures !root.Int? ==> r.store == s
    ensures root.Int? && SiteByRootPage(s.sites, root.i).Some? && env.renameFails ==> r == Exec(s, Some(Code(HostFailure)))
    ensures root.Int? && (SiteByRootPage(s.sites, root.i).None? || !env.renameFails) ==> (r.thrown.Some? <==> env.writeFails)
    ensures r.store == s.(sites := r.store.sites, trace := r.store.trace)
    ensures s.trace <= r.store.trace
    ensures r.Ok() ==> ScenarioWritten(s, r.store, config, t, root.i)
    ensures r.thrown.Some? ==> forall k :: |s.trace| <= k < |r.store.trace| ==> r.store.trace[k].SiteRenamed?
  {
    if !root.Int? {
      return Exec(s, Some(TypeError)), SiteConfig("", 0, []);
    }
    r, config := RenameAndWrite(env, s, t, root.i);
  }

  /** A successful listener run: the scenario's site holds `config`, which
      meets `ScenarioConfig` against the sites before the run, and the last
      two effects are the write and the message. */
  predicate ScenarioWritten(s: Store, after: Store, config: SiteConfig, t: string, root: int) {
    && Site(SiteIdentifier(t, root), config) in after.sites
    && ScenarioConfig(config, t, root, s.sites)
    && |after.trace| >= |s.trace| + 2
    && after.trace[|after.trace| - 2] == SiteWritten(SiteIdentifier(t, root), config)
    && after.trace[|after.trace| - 1] == Message("Site configuration created for scenario: " + t)
  }

  /** The listener once the root page uid is an `int`: the rename, then the
      write. */
  method RenameAndWrite(env: Env, s: Store, t: string, root: int) returns (r: Exec, config: SiteConfig)
    ensures r.thrown.Some? ==> r.thrown == Some(Code(HostFailure))
    ensures SiteByRootPage(s.sites, root).Some? && env.renameFails ==> r == Exec(s, Some(Code(HostFailure)))
    ensures SiteByRootPage(s.sites, root).None? || !env.renameFails ==> (r.thrown.Some? <==> env.writeFails)
    ensures r.store == s.(sites := r.store.sites, trace := r.store.trace)
    ensures s.trace <= r.store.trace
    ensures r.Ok() ==> ScenarioWritten(s, r.store, config, t, root)
    ensures r.thrown.Some? ==> forall k :: |s.trace| <= k < |r.store.trace| ==> r.store.trace[k].SiteRenamed?
  {
    config := SiteConfig("", 0, []);
    var renamed := RenameForScenario(env, s, SiteIdentifier(t, root), root);
    if !renamed.Ok() {
      return renamed, config;
    }
    r, config := WriteScenarioSite(env, renamed.store, t, root, s.sites);
  }

  /** The write step, after the rename: the configuration for the new
      language above every language id of `before`, which the rename left
      unchanged. */
  method WriteScenarioSite(env: Env, s: Store, t: string, root: int, before: seq<Site>) returns (r: Exec, config: SiteConfig)
    requires |s.sites| == |before|
    requires forall k :: 0 <= k < |before| ==> s.sites[k].config == before[k].config
    ensures r.thrown.Some? <==> env.writeFails
    ensures r.thrown.Some? ==> r == Exec(s, Some(Code(HostFailure)))
    ensures r.store == s.(sites := r.store.sites, trace := r.store.trace)
    ensures r.Ok() ==>
      && Site(SiteIdentifier(t, root), config) in r.store.sites
      && ScenarioConfig(config, t, root, before)
      && r.store.trace == s.trace + [SiteWritten(SiteIdentifier(t, root), config), Message("Site configuration created for scenario: " + t)]
  {
    var id := SiteIdentifier(t, root);
    var highest := FindHighestLanguageId(s.sites);
    config := ScenarioSiteConfig(t, root, highest);
    ScenarioConfigFresh(before, s.sites, t, root, highest);
    if env.writeFails {
      return Exec(s, Some(Code(HostFailure))), config;
    }
    var message := "Site configuration created for scenario: " + t;
    var written := s.(sites := WriteSite(s.sites, id, config), trace := s.trace + [SiteWritten(id, config)]);
    WriteThenSay(s, id, config, message);
    r := Exec(Say(written, message), None);
  }

  /** Writing a site and then printing a message: the site is there, the
      two effects come last in that order, and nothing else changes. */
  lemma WriteThenSay(s: Store, id: string, config: SiteConfig, message: string)
    ensures var after := Say(s.(sites := WriteSite(s.sites, id, config), trace := s.trace + [SiteWritten(id, config)]), message);
      && Site(id, config) in after.sites
      && after == s.(sites := after.sites, trace := after.trace)
      && after.trace == s.trace + [SiteWritten(id, config), Message(message)]
  {
  }

  /** What the written configuration promises: its base and root page, the
      default language 0 and one language falling back to it in the type's
      mode whose id is one above the highest id of the sites before, so no
      site had it; ids distinct, fallbacks well ordered. */
  predicate ScenarioConfig(config: SiteConfig, t: string, root: int, before: seq<Site>) {
    && config.base == "/" + SiteIdentifier(t, root)
    && config.rootPageId == root
    && |config.languages| == 2
    && config.languages[0].languageId == 0
    && config.languages[1].languageId == FindHighestLanguageId(before) + 1
    && config.languages[1].fallbackType == Some(t)
    && config.languages[1].fallbacks == Some("0")
    && DistinctLanguageIds(config.languages) && FallbacksWellOrdered(config.languages)
    && (forall site, l :: site in before && l in site.config.languages ==> l.languageId < config.languages[1].languageId)
  }

  lemma ScenarioConfigFresh(before: seq<Site>, after: seq<Site>, t: string, root: int, highest: int)
    requires |after| == |before|
    requires forall k :: 0 <= k < |before| ==> after[k].config == before[k].config
    requires highest == FindHighestLanguageId(after)
    ensures ScenarioConfig(ScenarioSiteConfig(t, root, highest), t, root, before)
  {
    HighestCoversRenamed(before, after, highest);
    HighestIgnoresIdentifiers(before, after);
    ScenarioSiteConfigWellFormed(t, root, highest);
  }

  /** Renaming does not touch languages, so the highest id computed after
      the rename bounds every language before it. */
  lemma HighestCoversRenamed(before: seq<Site>, after: seq<Site>, highest: int)
    requires |after| == |before|
    requires forall k :: 0 <= k < |before| ==> after[k].config == before[k].config
    requires highest == FindHighestLanguageId(after)
    ensures forall site, l :: site in before && l in site.config.languages ==> l.languageId <= highest
  {
    forall site, l | site in before && l in site.config.languages
      ensures l.languageId <= highest
    {
      var i :| 0 <= i < |before| && before[i] == site;
      var j :| 0 <= j < |site.config.languages| && site.config.languages[j] == l;
      assert after[i].config.languages[j] == l;
    }
  }
}
