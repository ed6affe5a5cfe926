/** The page-tree data handed from page creation to content creation and
    on to localization: a PHP array keyed `root`, `storage` and
    `pages-<uid>`, whose order is insertion order. */
module PageTree {
  import opened Wrappers
  import opened Php

  /** The array keys; `PageKey(uid)` is `'pages-' . $uid`. */
  datatype TreeKey = RootKey | StorageKey | PageKey(uid: Value)

  /** One recorded content element: its uid (or NEW placeholder) and the
      fixture's `config`. */
  datatype ContentEntry = ContentEntry(uid: Value, config: Value)

  /** One page entry. `uid` is `Null` when the key is absent; `mode` and
      `contentElements` are `None` when absent. */
  datatype TreeEntry = TreeEntry(uid: Value, mode: Option<string>, contentElements: Option<seq<ContentEntry>>)

  datatype Slot = Slot(key: TreeKey, entry: TreeEntry)

  type Tree = seq<Slot>

  function Keys(tree: Tree): (r: seq<TreeKey>)
    ensures |r| == |tree|
    ensures forall k :: 0 <= k < |tree| ==> r[k] == tree[k].key
  {
    seq(|tree|, k requires 0 <= k < |tree| => tree[k].key)
  }

  /** A PHP array never holds a key twice. */
  predicate UniqueKeys(tree: Tree) {
    forall i, j :: 0 <= i < j < |tree| ==> tree[i].key != tree[j].key
  }

  /** `$tree[$key] = $entry`: an existing key keeps its position and gets
      the new entry; a new key goes to the end. */
  function Put(tree: Tree, key: TreeKey, entry: TreeEntry): (r: Tree)
    ensures key in Keys(tree) ==> |r| == |tree| && Keys(r) == Keys(tree)
    ensures key !in Keys(tree) ==> r == tree + [Slot(key, entry)]
    ensures forall k :: 0 <= k < |tree| ==> r[k] == if tree[k].key == key then Slot(key, entry) else tree[k]
    ensures Slot(key, entry) in r
  {
    if key in Keys(tree) then
      var r := seq(|tree|, k requires 0 <= k < |tree| => if tree[k].key == key then Slot(key, entry) else tree[k]);
      var j :| 0 <= j < |tree| && Keys(tree)[j] == key;
      assert r[j] == Slot(key, entry);
      assert Keys(r) == Keys(tree);
      r
    else tree + [Slot(key, entry)]
  }

  /** Assignment keeps an array an array. */
  lemma PutKeepsKeysUnique(tree: Tree, key: TreeKey, entry: TreeEntry)
    requires UniqueKeys(tree)
    ensures UniqueKeys(Put(tree, key, entry))
  {
    if key !in Keys(tree) {
      var r := Put(tree, key, entry);
      forall i, j | 0 <= i < j < |r| ensures r[i].key != r[j].key {
        if j == |tree| {
          assert Keys(tree)[i] == tree[i].key;
        }
      }
    }
  }

  /** The entry stored under a key, if any. */
  function Lookup(tree: Tree, key: TreeKey): (r: Option<TreeEntry>)
    ensures r.Some? ==> Slot(key, r.value) in tree
    ensures r.None? ==> key !in Keys(tree)
  {
    if |tree| == 0 then None
    else if tree[0].key == key then Some(tree[0].entry)
    else
      var rest := Lookup(tree[1..], key);
      assert Keys(tree) == [tree[0].key] + Keys(tree[1..]);
      rest
  }

  /** Reading a key back after assigning it gives the assigned entry. */
  lemma {:induction false} LookupAfterPut(tree: Tree, key: TreeKey, entry: TreeEntry)
    ensures Lookup(Put(tree, key, entry), key) == Some(entry)
  {
    var r := Put(tree, key, entry);
    var j :| 0 <= j < |r| && r[j] == Slot(key, entry);
    FirstSlotFound(r, key, entry);
  }

  lemma {:induction false} FirstSlotFound(tree: Tree, key: TreeKey, entry: TreeEntry)
    requires Slot(key, entry) in tree
    requires forall k :: 0 <= k < |tree| && tree[k].key == key ==> tree[k].entry == entry
    ensures Lookup(tree, key) == Some(entry)
  {
    if tree[0].key != key {
      assert Slot(key, entry) in tree[1..];
      FirstSlotFound(tree[1..], key, entry);
    }
  }
}
