/** Read-only lookups over the store (Classes/Generator/RecordFinder.php).
    Every database failure degrades to an empty or zero result. */
module RecordFinder {
  import opened Wrappers
  import opened Php
  import opened Markers
  import opened Host
  import opened Sorting

  function Id(x: int): int { x }

  function Descending(c: ContentRow): int { -c.uid }

  /** The CTypes `findTtContent` filters by when the caller gives none. */
  const DefaultCTypes: seq<string> := ["textmedia", "textpic", "image", "uploads"]

  /** The marker values that become a condition: only those with the prefix. */
  function ValidMarkers(types: seq<string>): (r: seq<string>)
    ensures forall m :: m in r <==> m in types && StartsWith(m, Prefix)
  {
    if |types| == 0 then []
    else
      assert forall m :: m in types <==> m == types[0] || m in types[1..];
      (if StartsWith(types[0], Prefix) then [types[0]] else []) + ValidMarkers(types[1..])
  }

  /** A page row the marker query returns: not deleted and, when some marker
      is valid, carrying one of them. With no valid marker there is no
      marker condition at all. */
  predicate PageSelected(row: PageRow, valid: seq<string>) {
    !row.deleted && (|valid| == 0 || row.marker in valid)
  }

  function SelectedUids(pages: seq<PageRow>, valid: seq<string>): (r: seq<int>)
    ensures forall u :: u in r <==> exists k :: 0 <= k < |pages| && PageSelected(pages[k], valid) && pages[k].uid == u
  {
    if |pages| == 0 then []
    else
      var rest := SelectedUids(pages[1..], valid);
      forall k | 1 <= k < |pages| && PageSelected(pages[k], valid)
        ensures pages[k].uid in rest
      {
        assert pages[1..][k - 1] == pages[k];
      }
      (if PageSelected(pages[0], valid) then [pages[0].uid] else []) + rest
  }

  /** `findUidsOfPages`: the uids of the selected pages, sorted ascending;
      `[]` on a database error. */
  function FindUidsOfPages(s: Store, types: seq<string>): (r: seq<int>)
    ensures !s.dbOk ==> r == []
    ensures SortedBy(r, Id)
    ensures s.dbOk ==> forall u :: u in r <==>
      exists k :: 0 <= k < |s.pages| && PageSelected(s.pages[k], ValidMarkers(types)) && s.pages[k].uid == u
    ensures s.dbOk ==> multiset(r) == multiset(SelectedUids(s.pages, ValidMarkers(types)))
  {
    if !s.dbOk then []
    else
      var uids := SelectedUids(s.pages, ValidMarkers(types));
      var r := SortBy(uids, Id);
      assert forall u :: u in r <==> u in uids by {
        forall u ensures u in r <==> u in uids {
          SortByMembership(uids, Id, u);
        }
      }
      r
  }

  /** A live page carrying a valid marker is always found. */
  lemma LivePageFound(s: Store, m: string, k: int)
    requires s.dbOk && StartsWith(m, Prefix)
    requires 0 <= k < |s.pages| && !s.pages[k].deleted && s.pages[k].marker == m
    ensures s.pages[k].uid in FindUidsOfPages(s, [m])
  {
    assert m in ValidMarkers([m]);
    assert PageSelected(s.pages[k], ValidMarkers([m]));
  }

  /** Without a single valid marker every live page is returned. */
  lemma NoValidMarkerSelectsAllLivePages(s: Store, types: seq<string>, k: int)
    requires s.dbOk && forall m :: m in types ==> !StartsWith(m, Prefix)
    requires 0 <= k < |s.pages| && !s.pages[k].deleted
    ensures s.pages[k].uid in FindUidsOfPages(s, types)
  {
    assert ValidMarkers(types) == [] by {
      if ValidMarkers(types) != [] {
        assert ValidMarkers(types)[0] in ValidMarkers(types);
      }
    }
  }

  /** Some language of some site carries the id `x`. */
  predicate SomeLanguageHas(sites: seq<Site>, x: int) {
    exists i, j :: 0 <= i < |sites| && 0 <= j < |sites[i].config.languages| && sites[i].config.languages[j].languageId == x
  }

  /** A language of a later site is a language of the whole list. */
  lemma SomeLanguageHasTail(sites: seq<Site>, x: int)
    requires |sites| > 0 && SomeLanguageHas(sites[1..], x)
    ensures SomeLanguageHas(sites, x)
  {
    var i, j :| 0 <= i < |sites[1..]| && 0 <= j < |sites[1..][i].config.languages| && sites[1..][i].config.languages[j].languageId == x;
    assert sites[i + 1] == sites[1..][i];
  }

  /** Ids of every language of every site, site by site. */
  function LanguageIds(sites: seq<Site>): (r: seq<int>)
    ensures forall i, j :: 0 <= i < |sites| && 0 <= j < |sites[i].config.languages| ==> sites[i].config.languages[j].languageId in r
    ensures forall x :: x in r ==> SomeLanguageHas(sites, x)
  {
    if |sites| == 0 then []
    else
      var head := IdsOf(sites[0].config.languages);
      var rest := LanguageIds(sites[1..]);
      forall x | x in rest
        ensures SomeLanguageHas(sites, x)
      {
        SomeLanguageHasTail(sites, x);
      }
      forall i, j | 1 <= i < |sites| && 0 <= j < |sites[i].config.languages|
        ensures sites[i].config.languages[j].languageId in rest
      {
        assert sites[1..][i - 1] == sites[i];
      }
      head + rest
  }

  function IdsOf(langs: seq<Language>): (r: seq<int>)
    ensures |r| == |langs|
    ensures forall j :: 0 <= j < |langs| ==> r[j] == langs[j].languageId
  {
    if |langs| == 0 then [] else [langs[0].languageId] + IdsOf(langs[1..])
  }

  /** The running maximum of `findHighestLanguageId`, started at 0. */
  function MaxFromZero(ids: seq<int>): (r: int)
    ensures r >= 0
    ensures forall x :: x in ids ==> x <= r
    ensures r == 0 || r in ids
  {
    if |ids| == 0 then 0
    else
      var rest := MaxFromZero(ids[1..]);
      assert forall x :: x in ids ==> x == ids[0] || x in ids[1..];
      if ids[0] > rest then ids[0] else rest
  }

  /** `findHighestLanguageId`: the largest language id of all sites, and 0
      when there is none larger. */
  function FindHighestLanguageId(sites: seq<Site>): (r: int)
    ensures r >= 0
    ensures forall i, j :: 0 <= i < |sites| && 0 <= j < |sites[i].config.languages| ==> sites[i].config.languages[j].languageId <= r
    ensures r == 0 || SomeLanguageHas(sites, r)
  {
    MaxFromZero(LanguageIds(sites))
  }

  /** The ids greater than 0, in the order given. */
  function PositiveIds(langs: seq<Language>): (r: seq<int>)
    ensures |r| <= |langs|
    ensures forall x :: x in r <==> x > 0 && exists j :: 0 <= j < |langs| && langs[j].languageId == x
  {
    if |langs| == 0 then []
    else
      var rest := PositiveIds(langs[1..]);
      forall j | 1 <= j < |langs| && langs[j].languageId > 0
        ensures langs[j].languageId in rest
      {
        assert langs[1..][j - 1] == langs[j];
      }
      (if langs[0].languageId > 0 then [langs[0].languageId] else []) + rest
  }

  /** Keeping the positive ids commutes with concatenation: the result
      keeps the site's order. */
  lemma {:induction false} PositiveIdsAppend(a: seq<Language>, b: seq<Language>)
    ensures PositiveIds(a + b) == PositiveIds(a) + PositiveIds(b)
  {
    if |a| > 0 {
      assert (a + b)[1..] == a[1..] + b;
      PositiveIdsAppend(a[1..], b);
    } else {
      assert a + b == b;
    }
  }

  /** The highest language id reads only the configurations: two site lists
      that differ in identifiers alone have the same highest id. */
  lemma {:induction false} HighestIgnoresIdentifiers(a: seq<Site>, b: seq<Site>)
    requires |a| == |b|
    requires forall k :: 0 <= k < |a| ==> a[k].config == b[k].config
    ensures FindHighestLanguageId(a) == FindHighestLanguageId(b)
  {
    LanguageIdsIgnoreIdentifiers(a, b);
  }

  lemma {:induction false} LanguageIdsIgnoreIdentifiers(a: seq<Site>, b: seq<Site>)
    requires |a| == |b|
    requires forall k :: 0 <= k < |a| ==> a[k].config == b[k].config
    ensures LanguageIds(a) == LanguageIds(b)
  {
    if |a| > 0 {
      assert a[0].config == b[0].config;
      LanguageIdsIgnoreIdentifiers(a[1..], b[1..]);
    }
  }

  /** The positive ids are exactly the positive entries of `langs`, each
      once and in their order: `idx` picks them out by strictly increasing
      position and misses none. */
  lemma PositiveIdsOrder(langs: seq<Language>) returns (idx: seq<nat>)
    ensures |idx| == |PositiveIds(langs)|
    ensures forall i :: 0 <= i < |idx| ==> idx[i] < |langs| && PositiveIds(langs)[i] == langs[idx[i]].languageId
    ensures forall i, i' :: 0 <= i < i' < |idx| ==> idx[i] < idx[i']
    ensures forall j :: 0 <= j < |langs| && langs[j].languageId > 0 ==> j in idx
  {
    idx := PositiveIndices(langs);
    PositiveIndicesPick(langs);
    PositiveIndicesIncreasing(langs);
    PositiveIndicesCover(langs);
  }

  /** Positions of the languages with a positive id. */
  function PositiveIndices(langs: seq<Language>): (r: seq<nat>)
    ensures forall i :: 0 <= i < |r| ==> r[i] < |langs|
  {
    if |langs| == 0 then []
    else (if langs[0].languageId > 0 then [0] else []) + Shift(PositiveIndices(langs[1..]))
  }

  /** Every position moved one further on. */
  function Shift(idx: seq<nat>): (r: seq<nat>)
    ensures |r| == |idx|
    ensures forall i :: 0 <= i < |idx| ==> r[i] == idx[i] + 1
  {
    seq(|idx|, i requires 0 <= i < |idx| => idx[i] + 1)
  }

  lemma {:induction false} PositiveIndicesPick(langs: seq<Language>)
    ensures |PositiveIndices(langs)| == |PositiveIds(langs)|
    ensures forall i :: 0 <= i < |PositiveIndices(langs)| ==> PositiveIds(langs)[i] == langs[PositiveIndices(langs)[i]].languageId
  {
    if |langs| > 0 {
      PositiveIndicesPick(langs[1..]);
      var tail := PositiveIndices(langs[1..]);
      var rest := PositiveIds(langs[1..]);
      var shifted := Shift(tail);
      forall i | 0 <= i < |shifted|
        ensures rest[i] == langs[shifted[i]].languageId
      {
        assert langs[1..][tail[i]] == langs[shifted[i]];
      }
      if langs[0].languageId > 0 {
        assert PositiveIds(langs) == [langs[0].languageId] + rest;
        assert PositiveIndices(langs) == [0] + shifted;
      } else {
        assert PositiveIds(langs) == rest;
        assert PositiveIndices(langs) == shifted;
      }
    }
  }

  lemma {:induction false} PositiveIndicesIncreasing(langs: seq<Language>)
    ensures forall i, i' :: 0 <= i < i' < |PositiveIndices(langs)| ==> PositiveIndices(langs)[i] < PositiveIndices(langs)[i']
  {
    if |langs| > 0 {
      PositiveIndicesIncreasing(langs[1..]);
      var shifted := Shift(PositiveIndices(langs[1..]));
      if langs[0].languageId > 0 {
        var idx := [0] + shifted;
        assert PositiveIndices(langs) == idx;
        forall i, i' | 0 <= i < i' < |idx|
          ensures idx[i] < idx[i']
        {
          if i > 0 {
            assert idx[i] == shifted[i - 1] && idx[i'] == shifted[i' - 1];
          }
        }
      } else {
        assert PositiveIndices(langs) == shifted;
      }
    }
  }

  lemma {:induction false} PositiveIndicesCover(langs: seq<Language>)
    ensures forall j :: 0 <= j < |langs| && langs[j].languageId > 0 ==> j in PositiveIndices(langs)
  {
    if |langs| > 0 {
      PositiveIndicesCover(langs[1..]);
      var tail := PositiveIndices(langs[1..]);
      var shifted := Shift(tail);
      var idx := PositiveIndices(langs);
      var head: seq<nat> := if langs[0].languageId > 0 then [0] else [];
      assert idx == head + shifted;
      forall j | 0 <= j < |langs| && langs[j].languageId > 0
        ensures j in idx
      {
        if j > 0 {
          assert langs[1..][j - 1] == langs[j];
          var i :| 0 <= i < |tail| && tail[i] == j - 1;
          assert idx[|head| + i] == j;
        } else {
          assert idx[0] == j;
        }
      }
    }
  }

  /** `findLanguageIdsByRootPage`: the positive language ids of the root
      page's site, in the site's order; `[]` when there is no such site. */
  function FindLanguageIdsByRootPage(sites: seq<Site>, root: int): (r: seq<int>)
    ensures SiteByRootPage(sites, root).None? ==> r == []
    ensures forall x :: x in r ==> x > 0
    ensures SiteByRootPage(sites, root).Some? ==>
      forall x :: x in r <==> x > 0 && x in IdsOf(SiteByRootPage(sites, root).value.config.languages)
  {
    match SiteByRootPage(sites, root)
    case None => []
    case Some(site) => PositiveIds(site.config.languages)
  }

  /** The ids found for a root page are the positive language ids of its
      site, each once per language and in the site's order. */
  lemma FindLanguageIdsInSiteOrder(sites: seq<Site>, root: int) returns (idx: seq<nat>)
    ensures SiteByRootPage(sites, root).None? ==> FindLanguageIdsByRootPage(sites, root) == []
    ensures SiteByRootPage(sites, root).Some? ==>
      var langs := SiteByRootPage(sites, root).value.config.languages;
      var r := FindLanguageIdsByRootPage(sites, root);
      && |idx| == |r|
      && (forall i :: 0 <= i < |idx| ==> idx[i] < |langs| && r[i] == langs[idx[i]].languageId)
      && (forall i, i' :: 0 <= i < i' < |idx| ==> idx[i] < idx[i'])
      && (forall j :: 0 <= j < |langs| && langs[j].languageId > 0 ==> j in idx)
  {
    idx := [];
    if SiteByRootPage(sites, root).Some? {
      idx := PositiveIdsOrder(SiteByRootPage(sites, root).value.config.languages);
    }
  }

  // ---------------------------------------------------------------------
  // Last top-level page

  predicate TopLevel(row: PageRow) {
    !row.deleted && row.pid == 0
  }

  /** Index of the last live top-level page (highest `sorting`). */
  function LastTopLevelIndex(pages: seq<PageRow>): (r: Option<nat>)
    ensures r.Some? ==> r.value < |pages| && TopLevel(pages[r.value])
    ensures r.Some? ==> forall k :: r.value < k < |pages| ==> !TopLevel(pages[k])
    ensures r.None? ==> forall k :: 0 <= k < |pages| ==> !TopLevel(pages[k])
  {
    if |pages| == 0 then None
    else if TopLevel(pages[|pages| - 1]) then Some(|pages| - 1)
    else LastTopLevelIndex(pages[..|pages| - 1])
  }

  /** `getUidOfLastTopLevelPage`: the uid of the top-level page sorted last
      when it is positive, otherwise 0 (also on a database error). */
  function GetUidOfLastTopLevelPage(s: Store): (r: int)
    ensures r >= 0
    ensures !s.dbOk ==> r == 0
    ensures r > 0 ==> exists k :: 0 <= k < |s.pages| && TopLevel(s.pages[k]) && s.pages[k].uid == r
                                  && forall k' :: k < k' < |s.pages| ==> !TopLevel(s.pages[k'])
    ensures s.dbOk && (forall k :: 0 <= k < |s.pages| ==> !TopLevel(s.pages[k])) ==> r == 0
    ensures s.dbOk ==> forall k :: 0 <= k < |s.pages| && TopLevel(s.pages[k])
                                   && (forall k' :: k < k' < |s.pages| ==> !TopLevel(s.pages[k'])) ==>
                                   r == (if s.pages[k].uid > 0 then s.pages[k].uid else 0)
  {
    if !s.dbOk then 0
    else match LastTopLevelIndex(s.pages)
      case None => 0
      case Some(k) => if s.pages[k].uid > 0 then s.pages[k].uid else 0
  }

  // ---------------------------------------------------------------------
  // Content lookup

  predicate ContentSelected(row: ContentRow, identifier: string, cTypes: seq<string>) {
    !row.deleted && row.marker == identifier && (|cTypes| == 0 || row.ctype in cTypes)
  }

  function SelectedContents(rows: seq<ContentRow>, identifier: string, cTypes: seq<string>): (r: seq<ContentRow>)
    ensures forall c :: c in r <==> c in rows && ContentSelected(c, identifier, cTypes)
  {
    if |rows| == 0 then []
    else
      assert forall c :: c in rows <==> c == rows[0] || c in rows[1..];
      (if ContentSelected(rows[0], identifier, cTypes) then [rows[0]] else [])
      + SelectedContents(rows[1..], identifier, cTypes)
  }

  /** `findTtContent`: the live content rows of the scenario type, filtered
      by CType only when the list is not empty, highest uid first; `[]` on
      a database error. */
  function FindTtContent(s: Store, t: string, cTypes: seq<string>): (r: seq<ContentRow>)
    ensures !s.dbOk ==> r == []
    ensures forall i, j :: 0 <= i < j < |r| ==> r[i].uid >= r[j].uid
    ensures s.dbOk ==> forall c :: c in r <==> c in s.contents && ContentSelected(c, Identifier(t), cTypes)
    ensures s.dbOk ==> multiset(r) == multiset(SelectedContents(s.contents, Identifier(t), cTypes))
  {
    if !s.dbOk then []
    else
      var rows := SelectedContents(s.contents, Identifier(t), cTypes);
      var r := SortBy(rows, Descending);
      assert forall c :: c in r <==> c in rows by {
        forall c ensures c in r <==> c in rows {
          SortByMembership(rows, Descending, c);
        }
      }
      assert forall i, j :: 0 <= i < j < |r| ==> Descending(r[i]) <= Descending(r[j]);
      r
  }
}
