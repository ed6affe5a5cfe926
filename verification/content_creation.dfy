/** Content elements for every page of a new scenario tree
    (Classes/EventListener/ContentCreationListener.php). */
module ContentCreation {
  import opened Wrappers
  import opened Php
  import opened Markers
  import opened Host
  import opened RecordFinder
  import opened PageTree
  import opened Localization

  /** A fixture: content items grouped by CType, groups and items in order. */
  datatype Group = Group(cType: string, items: seq<map<string, Value>>)

  /** One fixture item together with its group's CType. */
  datatype Item = Item(cType: string, fields: map<string, Value>)

  /** The items of a fixture, group by group. */
  function Items(fixture: seq<Group>): (r: seq<Item>)
    ensures |fixture| == 0 ==> r == []
    ensures |fixture| > 0 ==>
      |r| >= |fixture[0].items|
      && (forall k :: 0 <= k < |fixture[0].items| ==> r[k] == Item(fixture[0].cType, fixture[0].items[k]))
      && r[|fixture[0].items|..] == Items(fixture[1..])
  {
    if |fixture| == 0 then []
    else
      seq(|fixture[0].items|, k requires 0 <= k < |fixture[0].items| => Item(fixture[0].cType, fixture[0].items[k]))
      + Items(fixture[1..])
  }

  /** Items of consecutive fixtures are the items of the first followed by
      those of the second: group order is kept. */
  lemma {:induction false} ItemsAppend(a: seq<Group>, b: seq<Group>)
    ensures Items(a + b) == Items(a) + Items(b)
  {
    if |a| == 0 {
      assert a + b == b;
    } else {
      assert (a + b)[0] == a[0];
      assert (a + b)[1..] == a[1..] + b;
      ItemsAppend(a[1..], b);
    }
  }

  /** The items are exactly the groups' entries, each tagged with the CType
      of a group that holds it. */
  lemma {:induction false} ItemsFromGroups(fixture: seq<Group>)
    ensures forall it :: it in Items(fixture) <==> exists g :: g in fixture && it.cType == g.cType && it.fields in g.items
  {
    if |fixture| > 0 {
      ItemsFromGroups(fixture[1..]);
      var r := Items(fixture);
      var n := |fixture[0].items|;
      forall it: Item | it in r
        ensures exists g :: g in fixture && it.cType == g.cType && it.fields in g.items
      {
        var k :| 0 <= k < |r| && r[k] == it;
        if k < n {
          assert fixture[0] in fixture && it.fields == fixture[0].items[k];
        } else {
          assert it in r[n..];
          var g :| g in fixture[1..] && it.cType == g.cType && it.fields in g.items;
          assert g in fixture;
        }
      }
      forall it: Item | exists g :: g in fixture && it.cType == g.cType && it.fields in g.items
        ensures it in r
      {
        var g :| g in fixture && it.cType == g.cType && it.fields in g.items;
        if g == fixture[0] {
          var k :| 0 <= k < n && fixture[0].items[k] == it.fields;
          assert r[k] == it;
        } else {
          var i :| 0 <= i < |fixture| && fixture[i] == g;
          assert g in fixture[1..] by { assert fixture[1..][i - 1] == g; }
          assert it in r[n..];
        }
      }
    }
  }

  /** `cleanContentData`: unsets `config` when it is set. */
  function CleanContentData(fields: map<string, Value>): map<string, Value> {
    if IsSet(fields, "config") then fields - {"config"} else fields
  }

  /** Cleaning drops exactly the `config` key, and only when it is set: a
      `null` config stays, every other key keeps its value. */
  lemma CleanContentDataDropsConfig(fields: map<string, Value>)
    ensures var r := CleanContentData(fields);
      && (forall k :: k != "config" ==> (k in r <==> k in fields))
      && (forall k :: k in r ==> k in fields && r[k] == fields[k])
      && ("config" in r <==> "config" in fields && fields["config"] == Null)
  {
  }

  /** The fields of one new content record: CType, page and marker, then
      the cleaned item merged over them (`array_merge`). */
  function ContentFields(item: Item, pageUid: int, identifier: string): map<string, Value> {
    map["CType" := Str(item.cType), "pid" := Int(pageUid), Field := Str(identifier)] + CleanContentData(item.fields)
  }

  /** A new content record carries CType, page and marker; a fixture key
      other than `config` wins over them; `config` is dropped unless it is
      `null`; no other key appears. */
  lemma ContentFieldsMerge(item: Item, pageUid: int, identifier: string)
    ensures var r := ContentFields(item, pageUid, identifier);
      && "CType" in r && "pid" in r && Field in r
      && (forall k :: k in item.fields && k != "config" ==> k in r && r[k] == item.fields[k])
      && ("CType" !in item.fields ==> r["CType"] == Str(item.cType))
      && ("pid" !in item.fields ==> r["pid"] == Int(pageUid))
      && (Field !in item.fields ==> r[Field] == Str(identifier))
      && ("config" in r <==> "config" in item.fields && item.fields["config"] == Null)
      && (forall k :: k in r ==> k in item.fields || k in {"CType", "pid", Field})
  {
    CleanContentDataDropsConfig(item.fields);
  }

  function ContentRecord(item: Item, pageUid: int, identifier: string, token: nat): NewRecord {
    NewRecord("tt_content", token, ContentFields(item, pageUid, identifier))
  }

  /** The entry recorded for a created element: its uid, or the NEW
      placeholder without a substitution, and the item's `config` or `[]`. */
  function Recorded(env: Env, item: Item, token: nat): ContentEntry {
    ContentEntry(Substituted(env, token), Coalesce(item.fields, "config", EmptyArray))
  }

  /** The state after adding content and the entries recorded for it. */
  datatype Added = Added(exec: Exec, entries: seq<ContentEntry>)

  /** The trace of creating one content record per field map, each in its
      own engine run, with placeholders from `token` on. */
  function Creations(token: nat, rows: seq<map<string, Value>>): (r: seq<Effect>)
    ensures |r| == |rows|
    ensures forall k :: 0 <= k < |rows| ==> r[k] == DataProcessed([NewRecord("tt_content", token + k, rows[k])])
  {
    seq(|rows|, k requires 0 <= k < |rows| => DataProcessed([NewRecord("tt_content", token + k, rows[k])]))
  }

  /** One content record per field map, each under a fresh placeholder and
      in its own engine run; the first failing run ends the loop. */
  function CreateEach(env: Env, s: Store, rows: seq<map<string, Value>>): (r: Exec)
    ensures r.thrown.None? <==> CleanRuns(env, s.runs, |rows|)
    ensures r.thrown.Some? ==> r.thrown == Some(Code(HostFailure))
    ensures r.thrown.None? ==>
      && r.store.nextToken == s.nextToken + |rows|
      && r.store.runs == s.runs + |rows|
      && r.store.trace == s.trace + Creations(s.nextToken, rows)
    ensures r.store.sites == s.sites && r.store.dbOk == s.dbOk && r.store.storage == s.storage
    ensures r.store.nextToken >= s.nextToken
    ensures s.trace <= r.store.trace
    decreases |rows|
  {
    if |rows| == 0 then
      assert s.trace + [] == s.trace;
      Exec(s, None)
    else
      var token := s.nextToken;
      var data := [NewRecord("tt_content", token, rows[0])];
      var e := Execute(env, s.(nextToken := token + 1), data, []);
      CleanRunsStep(env, s.runs, |rows|);
      assert e.store.trace == s.trace + [DataProcessed(data)];
      if !e.Ok() then e
      else
        CreationsStep(token, rows);
        AppendAssoc(s.trace, [DataProcessed(data)], Creations(token + 1, rows[1..]));
        CreateEach(env, e.store, rows[1..])
  }

  lemma CreationsStep(token: nat, rows: seq<map<string, Value>>)
    requires |rows| > 0
    ensures Creations(token, rows) == [DataProcessed([NewRecord("tt_content", token, rows[0])])] + Creations(token + 1, rows[1..])
  {
  }

  /** The field maps of the records created for `items`. */
  function ItemRows(items: seq<Item>, pageUid: int, identifier: string): (r: seq<map<string, Value>>)
    ensures |r| == |items|
    ensures forall k :: 0 <= k < |items| ==> r[k] == ContentFields(items[k], pageUid, identifier)
  {
    seq(|items|, k requires 0 <= k < |items| => ContentFields(items[k], pageUid, identifier))
  }

  /** The entries recorded for `items` created from placeholder `token` on. */
  function Entries(env: Env, items: seq<Item>, token: nat): (r: seq<ContentEntry>)
    ensures |r| == |items|
    ensures forall k :: 0 <= k < |items| ==> r[k] == Recorded(env, items[k], token + k)
  {
    seq(|items|, k requires 0 <= k < |items| => Recorded(env, items[k], token + k))
  }

  /** Creates the items one engine run each and records one entry per
      item. The entries only reach the caller when no run failed. */
  function AddItems(env: Env, s: Store, items: seq<Item>, pageUid: int, identifier: string): (r: Added)
    ensures r.exec.thrown.None? <==> CleanRuns(env, s.runs, |items|)
    ensures r.exec.thrown.Some? ==> r.exec.thrown == Some(Code(HostFailure))
    ensures r.exec.thrown.None? ==>
      && r.exec.store.nextToken == s.nextToken + |items|
      && r.exec.store.runs == s.runs + |items|
      && r.exec.store.trace == s.trace + Creations(s.nextToken, ItemRows(items, pageUid, identifier))
    ensures |r.entries| == |items|
    ensures forall k :: 0 <= k < |items| ==> r.entries[k] == Recorded(env, items[k], s.nextToken + k)
    ensures r.exec.store.sites == s.sites && r.exec.store.dbOk == s.dbOk && r.exec.store.storage == s.storage
    ensures r.exec.store.nextToken >= s.nextToken
    ensures s.trace <= r.exec.store.trace
  {
    Added(CreateEach(env, s, ItemRows(items, pageUid, identifier)), Entries(env, items, s.nextToken))
  }

  /** `addContentToPage`: one engine run per fixture item, group by group,
      and one recorded entry per item in the same order. The page uid is an
      `int` parameter, so a NEW placeholder is a type error. */
  function AddContentToPage(env: Env, s: Store, fixture: seq<Group>, pageUid: Value, identifier: string): (r: Added)
    ensures !pageUid.Int? ==> r == Added(Exec(s, Some(TypeError)), [])
    ensures pageUid.Int? ==> r == AddItems(env, s, Items(fixture), pageUid.i, identifier)
  {
    if !pageUid.Int? then Added(Exec(s, Some(TypeError)), [])
    else AddItems(env, s, Items(fixture), pageUid.i, identifier)
  }

  // ---------------------------------------------------------------------
  // Fixtures

  /** The welcome item of `getRootContent`. */
  function WelcomeItem(t: string): Item {
    Item("textmedia", map["header" := Str("Welcome to the translation handling demo for type " + t),
                          "bodytext" := Str("This is a demo of the translation handling functionality in TYPO3.")])
  }

  /** `getRootContent`: a textmedia group with the welcome item. */
  function RootContent(t: string): seq<Group> {
    [Group(WelcomeItem(t).cType, [WelcomeItem(t).fields])]
  }

  lemma RootItems(t: string)
    ensures Items(RootContent(t)) == [WelcomeItem(t)]
  {
    assert Items(RootContent(t)[1..]) == [];
  }

  /** The two items of `getContent`, neither with a `config`. */
  const TextmediaItem := Item("textmedia", map["header" := Str("This is a textmedia element"),
                                              "bodytext" := Str("This is the bodytext of the textmedia element.")])
  const TextItem := Item("text", map["header" := Str("This is a text element"),
                                    "bodytext" := Str("This is the bodytext of the text element.")])

  /** `getContent`: a textmedia group and a text group of one item each. */
  function GenericContent(): seq<Group> {
    [Group(TextmediaItem.cType, [TextmediaItem.fields]), Group(TextItem.cType, [TextItem.fields])]
  }

  /** The generic fixture yields the textmedia and then the text item, and
      neither carries a `config`. */
  lemma GenericItems()
    ensures Items(GenericContent()) == [TextmediaItem, TextItem]
    ensures !IsSet(TextmediaItem.fields, "config") && !IsSet(TextItem.fields, "config")
  {
    var g := GenericContent();
    assert Items(g[1..][1..]) == [];
    assert Items(g[1..]) == [TextItem];
  }

  /** The entries recorded for the generic content created from placeholder
      `n` on: two fresh elements, both with the default `[]` config. */
  function GenericEntries(env: Env, n: nat): (r: seq<ContentEntry>)
    ensures |r| == 2
    ensures r[0].uid == Substituted(env, n) && r[1].uid == Substituted(env, n + 1)
    ensures r[0].config == EmptyArray && r[1].config == EmptyArray
  {
    GenericItems();
    [Recorded(env, TextmediaItem, n), Recorded(env, TextItem, n + 1)]
  }

  /** With fresh uids, no generic entry created from placeholder `n` on
      has the uid of an element created under an earlier placeholder. */
  lemma GenericEntriesAvoid(env: Env, n: nat, earlier: nat)
    requires FreshUids(env) && earlier < n
    ensures forall c :: c in GenericEntries(env, n) ==> c.uid != Substituted(env, earlier)
  {
    SubstitutedInjective(env, n, earlier);
    SubstitutedInjective(env, n + 1, earlier);
  }

  /** `addContentToPage($this->getContent(), $uid, …)` as its callers see
      it: a textmedia and then a text record on the page, one engine run
      each, and the two generic entries. */
  method AddGenericContent(env: Env, s: Store, pageUid: Value, identifier: string) returns (r: Added)
    ensures !pageUid.Int? ==> r.exec == Exec(s, Some(TypeError))
    ensures pageUid.Int? ==> (r.exec.Ok() <==> CleanRuns(env, s.runs, 2))
    ensures pageUid.Int? && !r.exec.Ok() ==> r.exec.thrown == Some(Code(HostFailure))
    ensures r.exec.Ok() ==>
      && r.entries == GenericEntries(env, s.nextToken)
      && r.exec.store.nextToken == s.nextToken + 2
      && r.exec.store.runs == s.runs + 2
      && r.exec.store.trace == s.trace + Creations(s.nextToken, ItemRows([TextmediaItem, TextItem], pageUid.i, identifier))
    ensures r.exec.store.sites == s.sites && r.exec.store.dbOk == s.dbOk && r.exec.store.storage == s.storage
    ensures r.exec.store.nextToken >= s.nextToken
    ensures s.trace <= r.exec.store.trace
  {
    GenericItems();
    r := AddContentToPage(env, s, GenericContent(), pageUid, identifier);
    if pageUid.Int? {
      var items := [TextmediaItem, TextItem];
      var a := AddItems(env, s, items, pageUid.i, identifier);
      assert r == a;
      if a.exec.Ok() {
        TwoEntries(env, s.nextToken, TextmediaItem, TextItem);
        assert a.entries == Entries(env, items, s.nextToken);
      }
    }
  }

  lemma TwoEntries(env: Env, n: nat, a: Item, b: Item)
    ensures Entries(env, [a, b], n) == [Recorded(env, a, n), Recorded(env, b, n + 1)]
  {
  }

  /** `addContentToPage($this->getRootContent($type), $root, …)` as its
      callers see it: the welcome record on the root page, one engine run. */
  method AddWelcomeContent(env: Env, s: Store, t: string, root: Value) returns (r: Added)
    ensures !root.Int? ==> r.exec == Exec(s, Some(TypeError))
    ensures root.Int? ==> (r.exec.Ok() <==> s.runs !in env.failingRuns)
    ensures root.Int? && !r.exec.Ok() ==> r.exec.thrown == Some(Code(HostFailure))
    ensures r.exec.Ok() ==>
      && r.entries == [Recorded(env, WelcomeItem(t), s.nextToken)]
      && r.exec.store.nextToken == s.nextToken + 1
      && r.exec.store.runs == s.runs + 1
      && r.exec.store.trace == s.trace + [DataProcessed([ContentRecord(WelcomeItem(t), root.i, Identifier(t), s.nextToken)])]
    ensures r.exec.store.sites == s.sites && r.exec.store.dbOk == s.dbOk && r.exec.store.storage == s.storage
    ensures r.exec.store.nextToken >= s.nextToken
    ensures s.trace <= r.exec.store.trace
  {
    r := AddContentToPage(env, s, RootContent(t), root, Identifier(t));
    RootItems(t);
  }

  // ---------------------------------------------------------------------
  // The listener

  /** `$tree[$key]['contentElements'] = $elems`: the entry keeps its uid and
      mode; a missing key gets an entry with nothing but the content. */
  function SetContent(tree: Tree, key: TreeKey, elems: seq<ContentEntry>): (r: Tree)
    requires UniqueKeys(tree)
    ensures UniqueKeys(r)
    ensures Keys(r) == Keys(tree) || Keys(r) == Keys(tree) + [key]
    ensures Lookup(r, key).Some? && Lookup(r, key).value.contentElements == Some(elems)
    ensures Lookup(tree, key).Some? ==> Lookup(r, key).value.uid == Lookup(tree, key).value.uid
    ensures forall j :: 0 <= j < |tree| && tree[j].key != key ==> r[j] == tree[j]
    ensures forall j :: 0 <= j < |tree| ==> r[j].key == tree[j].key
    ensures forall j :: 0 <= j < |tree| ==> r[j].entry.uid == tree[j].entry.uid && r[j].entry.mode == tree[j].entry.mode
    ensures forall j :: |tree| <= j < |r| ==> r[j] == Slot(key, TreeEntry(Null, None, Some(elems)))
  {
    match Lookup(tree, key)
    case Some(e) =>
      LookupAfterPut(tree, key, e.(contentElements := Some(elems)));
      PutKeepsKeysUnique(tree, key, e.(contentElements := Some(elems)));
      assert forall j :: 0 <= j < |tree| && tree[j].key == key ==> tree[j].entry == e by {
        var i :| 0 <= i < |tree| && tree[i] == Slot(key, e);
      }
      Put(tree, key, e.(contentElements := Some(elems)))
    case None =>
      LookupAfterPut(tree, key, TreeEntry(Null, None, Some(elems)));
      PutKeepsKeysUnique(tree, key, TreeEntry(Null, None, Some(elems)));
      Put(tree, key, TreeEntry(Null, None, Some(elems)))
  }

  /** The state after the content loop, the tree as it then stands, and
      for each slot the placeholder its generic content starts at. */
  datatype Filled = Filled(exec: Exec, tree: Tree, starts: seq<nat>)

  /** The loop over the tree: every entry whose uid is set gets the generic
      content and has its `contentElements` replaced by it; the others stay
      as they are. The first failure ends the loop. */
  method FillTree(env: Env, s: Store, tree: Tree, identifier: string) returns (r: Filled)
    ensures |r.tree| == |tree| && |r.starts| == |tree|
    ensures forall j :: 0 <= j < |tree| ==>
      r.tree[j].key == tree[j].key && r.tree[j].entry.uid == tree[j].entry.uid && r.tree[j].entry.mode == tree[j].entry.mode
    ensures r.exec.Ok() ==> forall j :: 0 <= j < |tree| && tree[j].entry.uid == Null ==> r.tree[j] == tree[j]
    ensures r.exec.Ok() ==> forall j :: 0 <= j < |tree| && tree[j].entry.uid != Null ==>
      r.starts[j] >= s.nextToken && r.tree[j].entry.contentElements == Some(GenericEntries(env, r.starts[j]))
    ensures r.exec.store.sites == s.sites && r.exec.store.dbOk == s.dbOk && r.exec.store.storage == s.storage
    ensures r.exec.store.nextToken >= s.nextToken
    ensures s.trace <= r.exec.store.trace
  {
    var cur := s;
    var out := tree;
    var starts: seq<nat> := seq(|tree|, j => s.nextToken);
    var k := 0;
    while k < |tree|
      invariant 0 <= k <= |tree| && |out| == |tree| && |starts| == |tree|
      invariant forall j :: 0 <= j < |tree| ==>
        out[j].key == tree[j].key && out[j].entry.uid == tree[j].entry.uid && out[j].entry.mode == tree[j].entry.mode
      invariant forall j :: 0 <= j < |tree| && (k <= j || tree[j].entry.uid == Null) ==> out[j] == tree[j]
      invariant forall j :: 0 <= j < k && tree[j].entry.uid != Null ==>
        starts[j] >= s.nextToken && out[j].entry.contentElements == Some(GenericEntries(env, starts[j]))
      invariant cur.sites == s.sites && cur.dbOk == s.dbOk && cur.storage == s.storage
      invariant cur.nextToken >= s.nextToken && s.trace <= cur.trace
    {
      if tree[k].entry.uid != Null {
        var added := AddGenericContent(env, cur, tree[k].entry.uid, identifier);
        if !added.exec.Ok() {
          return Filled(added.exec, out, starts);
        }
        out := out[k := Slot(out[k].key, out[k].entry.(contentElements := Some(added.entries)))];
        starts := starts[k := cur.nextToken];
        cur := added.exec.store;
      }
      k := k + 1;
    }
    r := Filled(Exec(cur, None), out, starts);
  }

  /** The welcome element on the root page, recorded under the `root` key
      of the tree. */
  method PutWelcome(env: Env, s: Store, t: string, root: Value, tree: Tree) returns (r: Exec, out: Tree)
    requires UniqueKeys(tree)
    ensures !root.Int? ==> r == Exec(s, Some(TypeError))
    ensures root.Int? && !r.Ok() ==> r.thrown == Some(Code(HostFailure))
    ensures r.Ok() ==>
      && root.Int?
      && r.store.nextToken == s.nextToken + 1
      && r.store.trace == s.trace + [DataProcessed([ContentRecord(WelcomeItem(t), root.i, Identifier(t), s.nextToken)])]
      && (Keys(out) == Keys(tree) || Keys(out) == Keys(tree) + [RootKey])
      && Lookup(out, RootKey).Some?
      && Lookup(out, RootKey).value.contentElements == Some([Recorded(env, WelcomeItem(t), s.nextToken)])
      && (forall j :: 0 <= j < |tree| ==>
            out[j].key == tree[j].key && out[j].entry.uid == tree[j].entry.uid && out[j].entry.mode == tree[j].entry.mode)
      && (forall j :: 0 <= j < |tree| && tree[j].key != RootKey ==> out[j] == tree[j])
      && (forall j :: |tree| <= j < |out| ==> out[j].entry.uid == Null)
    ensures r.store.sites == s.sites && r.store.dbOk == s.dbOk && r.store.storage == s.storage
    ensures s.trace <= r.store.trace
  {
    var welcome := AddWelcomeContent(env, s, t, root);
    r := welcome.exec;
    out := if welcome.exec.Ok() then SetContent(tree, RootKey, welcome.entries) else tree;
  }

  /** Content for the root page first, recorded under the `root` key; then
      the loop over all entries. The welcome element is created first, but
      every entry with a uid ends up listing only generic content created
      after it; the root entry has a uid once page creation has run, so the
      welcome element reaches no entry the localization pass handles. */
  method CreateContent(env: Env, s: Store, t: string, root: Value, tree: Tree) returns (r: Filled)
    requires UniqueKeys(tree)
    ensures !root.Int? ==> r.exec == Exec(s, Some(TypeError))
    ensures r.exec.Ok() ==> root.Int? && |r.starts| == |r.tree|
    ensures r.exec.Ok() ==> Keys(r.tree) == Keys(tree) || Keys(r.tree) == Keys(tree) + [RootKey]
    ensures r.exec.Ok() ==> forall j :: 0 <= j < |tree| ==>
      r.tree[j].key == tree[j].key && r.tree[j].entry.uid == tree[j].entry.uid && r.tree[j].entry.mode == tree[j].entry.mode
    ensures r.exec.Ok() ==> forall j :: 0 <= j < |tree| && tree[j].entry.uid == Null && tree[j].key != RootKey ==> r.tree[j] == tree[j]
    ensures r.exec.Ok() ==> forall j :: 0 <= j < |r.tree| && r.tree[j].entry.uid != Null ==>
      r.starts[j] > s.nextToken && r.tree[j].entry.contentElements == Some(GenericEntries(env, r.starts[j]))
    ensures r.exec.store.sites == s.sites && r.exec.store.dbOk == s.dbOk && r.exec.store.storage == s.storage
    ensures s.trace <= r.exec.store.trace
  {
    var welcome, withRoot := PutWelcome(env, s, t, root, tree);
    if !welcome.Ok() {
      return Filled(welcome, tree, []);
    }
    r := FillTree(env, welcome.store, withRoot, Identifier(t));
    if r.exec.Ok() {
      assert Keys(r.tree) == Keys(withRoot);
    }
  }

  /** With fresh uids, an element created under placeholder `welcome`
      is in none of the content lists of a filled tree whose generic
      content was all created after it. */
  lemma WelcomeNotLocalized(env: Env, welcome: nat, tree: Tree, starts: seq<nat>)
    requires FreshUids(env) && |starts| == |tree|
    requires forall j :: 0 <= j < |tree| && tree[j].entry.uid != Null ==>
      starts[j] > welcome && tree[j].entry.contentElements == Some(GenericEntries(env, starts[j]))
    ensures forall j, c ::
      (0 <= j < |tree| && tree[j].entry.uid != Null && tree[j].entry.contentElements.Some? && c in tree[j].entry.contentElements.value)
      ==> c.uid != Substituted(env, welcome)
  {
    forall j | 0 <= j < |tree| && tree[j].entry.uid != Null {
      GenericEntriesAvoid(env, starts[j], welcome);
    }
  }

  /** The listener: content everywhere, then the localization pass over
      the tree as content creation left it, then the message. `filled` is
      the state and the tree the localization event is dispatched with. */
  method RunContentCreation(env: Env, s: Store, t: string, root: Value, tree: Tree) returns (r: Exec, filled: Filled)
    requires UniqueKeys(tree)
    ensures !root.Int? ==> r == Exec(s, Some(TypeError))
    ensures r.Ok() ==> root.Int? && |filled.starts| == |filled.tree|
    ensures r.Ok() ==> forall j :: 0 <= j < |filled.tree| && filled.tree[j].entry.uid != Null ==>
      filled.starts[j] > s.nextToken && filled.tree[j].entry.contentElements == Some(GenericEntries(env, filled.starts[j]))
    ensures r.Ok() ==> Keys(filled.tree) == Keys(tree) || Keys(filled.tree) == Keys(tree) + [RootKey]
    ensures r.Ok() ==> forall j :: 0 <= j < |tree| ==>
      filled.tree[j].entry.uid == tree[j].entry.uid && filled.tree[j].entry.mode == tree[j].entry.mode
    ensures r.Ok() ==> s.trace <= filled.exec.store.trace && filled.exec.store.sites == s.sites
    ensures r.Ok() ==>
      var plan := Plan(FindLanguageIdsByRootPage(s.sites, root.i), filled.tree, env.schemaOk);
      && plan.failure.None?
      && r.store.trace == filled.exec.store.trace + Batches(plan.issued)
           + [Message("Localization completed for scenario: " + t), Message("Content created for scenario: " + t)]
    ensures r.store.sites == s.sites && r.store.dbOk == s.dbOk && r.store.storage == s.storage
    ensures s.trace <= r.store.trace
  {
    filled := CreateContent(env, s, t, root, tree);
    if !filled.exec.Ok() {
      return filled.exec, filled;
    }
    var loc := RunLocalization(env, filled.exec.store, t, root, filled.tree);
    if !loc.Ok() {
      return loc, filled;
    }
    r := Exec(Say(loc.store, "Content created for scenario: " + t), None);
  }
}
