/** Demo files in the file storage and the file references that would
    attach them to records (Classes/Generator/FileHandler.php). */
module FileHandler {
  import opened Wrappers
  import opened Php
  import opened Markers
  import opened Host
  import opened RecordFinder

  /** The reference field a content element's CType uses. */
  function FieldName(cType: string): (f: string)
    ensures f == "assets" <==> cType == "textmedia"
    ensures f == "media" <==> cType == "uploads"
    ensures f == "image" <==> cType != "textmedia" && cType != "uploads"
  {
    if cType == "textmedia" then "assets"
    else if cType == "uploads" then "media"
    else "image"
  }

  /** One `sys_file_reference` record to create (`table_local` is always
      `sys_file`); `token` is its NEW placeholder. */
  datatype FileReference = FileReference(
    token: nat,
    fileUid: int,
    foreignUid: int,
    tablenames: string,
    fieldname: string,
    pid: int)

  /** A record files get attached to: its uid, its pid and the field. */
  datatype Target = Target(uid: int, pid: int, fieldname: string)

  /** `findDemoFileObjects`: the files of the demo folder; nothing when the
      storage is missing or offline or the folder does not exist. */
  function FindDemoFiles(storage: Option<FileStorage>): (r: seq<FileEntry>)
    ensures storage.None? || !storage.value.online || DemoFolder !in storage.value.folders ==> r == []
    ensures storage.Some? && storage.value.online && DemoFolder in storage.value.folders ==>
      r == storage.value.folders[DemoFolder]
  {
    match storage
    case None => []
    case Some(st) =>
      if !st.online then []
      else if DemoFolder !in st.folders then []
      else st.folders[DemoFolder]
  }

  /** One reference per (target, file) pair, target by target, files in
      folder order; placeholders are handed out consecutively from `token`. */
  function PlanReferences(files: seq<FileEntry>, targets: seq<Target>, table: string, token: nat): (r: seq<FileReference>)
    ensures |r| == |targets| * |files|
    ensures forall i, j :: 0 <= i < |targets| && 0 <= j < |files| ==>
      PairIndex(i, j, |files|) < |r| &&
      r[PairIndex(i, j, |files|)] == FileReference(token + PairIndex(i, j, |files|), files[j].uid,
                                                  targets[i].uid, table, targets[i].fieldname, targets[i].pid)
    decreases |targets|
  {
    if |targets| == 0 then []
    else
      var head := seq(|files|, j requires 0 <= j < |files| =>
                    FileReference(token + j, files[j].uid, targets[0].uid, table, targets[0].fieldname, targets[0].pid));
      var rest := PlanReferences(files, targets[1..], table, token + |files|);
      var r := head + rest;
      assert |r| == |targets| * |files| by {
        assert |targets| * |files| == |files| + (|targets| - 1) * |files|;
      }
      assert forall i, j :: 0 <= i < |targets| && 0 <= j < |files| ==>
        PairIndex(i, j, |files|) < |r| &&
        r[PairIndex(i, j, |files|)] == FileReference(token + PairIndex(i, j, |files|), files[j].uid,
                                                   targets[i].uid, table, targets[i].fieldname, targets[i].pid) by {
        forall i, j | 0 <= i < |targets| && 0 <= j < |files|
          ensures PairIndex(i, j, |files|) < |r|
          ensures r[PairIndex(i, j, |files|)] == FileReference(token + PairIndex(i, j, |files|), files[j].uid,
                                                             targets[i].uid, table, targets[i].fieldname, targets[i].pid)
        {
          PairIndexBounds(i, j, |files|, |targets|);
          if i > 0 {
            assert targets[1..][i - 1] == targets[i];
          }
        }
      }
      r
  }

  /** Position of pair (i, j) when every target contributes `n` entries. */
  function PairIndex(i: nat, j: nat, n: nat): nat {
    i * n + j
  }

  lemma PairIndexBounds(i: nat, j: nat, n: nat, m: nat)
    requires i < m && j < n
    ensures PairIndex(i, j, n) < m * n
    ensures i > 0 ==> PairIndex(i, j, n) == n + PairIndex(i - 1, j, n)
  {
    assert i * n + n <= m * n by {
      assert (i + 1) * n <= m * n;
    }
  }

  function ContentTargets(contents: seq<ContentRow>): (r: seq<Target>)
    ensures |r| == |contents|
    ensures forall i :: 0 <= i < |contents| ==> r[i] == Target(contents[i].uid, contents[i].pid, FieldName(contents[i].ctype))
  {
    seq(|contents|, i requires 0 <= i < |contents| => Target(contents[i].uid, contents[i].pid, FieldName(contents[i].ctype)))
  }

  function PageTargets(uids: seq<int>): (r: seq<Target>)
    ensures |r| == |uids|
    ensures forall i :: 0 <= i < |uids| ==> r[i] == Target(uids[i], uids[i], "media")
  {
    seq(|uids|, i requires 0 <= i < |uids| => Target(uids[i], uids[i], "media"))
  }

  /** `getFalDataForContent`: one reference per (content element of the
      type, demo file) pair, on the element's page, in the element's field. */
  function GetFalDataForContent(s: Store, t: string): (r: seq<FileReference>)
    ensures var contents := FindTtContent(s, t, DefaultCTypes);
            var files := FindDemoFiles(s.storage);
            |r| == |contents| * |files| &&
            forall i, j :: 0 <= i < |contents| && 0 <= j < |files| ==>
              PairIndex(i, j, |files|) < |r| &&
              var ref := r[PairIndex(i, j, |files|)];
              ref.fileUid == files[j].uid && ref.foreignUid == contents[i].uid && ref.pid == contents[i].pid
              && ref.tablenames == "tt_content" && ref.fieldname == FieldName(contents[i].ctype)
    ensures FindDemoFiles(s.storage) == [] ==> r == []
  {
    var files := FindDemoFiles(s.storage);
    PlanReferences(files, ContentTargets(FindTtContent(s, t, DefaultCTypes)), "tt_content", s.nextToken)
  }

  /** `getFalDataForPages`: one `media` reference per (page with the root
      or the plain marker of the type, demo file) pair. */
  function GetFalDataForPages(s: Store, t: string): (r: seq<FileReference>)
    ensures var uids := FindUidsOfPages(s, [RootMarker(t), Identifier(t)]);
            var files := FindDemoFiles(s.storage);
            |r| == |uids| * |files| &&
            forall i, j :: 0 <= i < |uids| && 0 <= j < |files| ==>
              PairIndex(i, j, |files|) < |r| &&
              r[PairIndex(i, j, |files|)] == FileReference(s.nextToken + PairIndex(i, j, |files|), files[j].uid,
                                                          uids[i], "pages", "media", uids[i])
    ensures FindDemoFiles(s.storage) == [] ==> r == []
  {
    var files := FindDemoFiles(s.storage);
    PlanReferences(files, PageTargets(FindUidsOfPages(s, [RootMarker(t), Identifier(t)])), "pages", s.nextToken)
  }

  /** Every page reference points at a live page carrying the root or the
      plain marker of the type, never the storage marker. */
  lemma PageReferencesOnlyRootAndPlain(s: Store, t: string, ref: FileReference)
    requires ref in GetFalDataForPages(s, t)
    ensures exists k :: 0 <= k < |s.pages| && !s.pages[k].deleted && s.pages[k].uid == ref.foreignUid
                        && (s.pages[k].marker == RootMarker(t) || s.pages[k].marker == Identifier(t))
                        && s.pages[k].marker != StorageMarker(t)
  {
    var uids := FindUidsOfPages(s, [RootMarker(t), Identifier(t)]);
    var targets := PageTargets(uids);
    PlanReferencesTargets(FindDemoFiles(s.storage), targets, "pages", s.nextToken, ref);
    var i :| 0 <= i < |targets| && ref.foreignUid == targets[i].uid;
    assert uids[i] in uids;
    var valid := ValidMarkers([RootMarker(t), Identifier(t)]);
    assert RootMarker(t) in valid;
    var k :| 0 <= k < |s.pages| && PageSelected(s.pages[k], valid) && s.pages[k].uid == uids[i];
    MarkersDistinct(t);
  }

  /** Every planned reference belongs to one of the targets. */
  lemma {:induction false} PlanReferencesTargets(files: seq<FileEntry>, targets: seq<Target>, table: string, token: nat, ref: FileReference)
    requires ref in PlanReferences(files, targets, table, token)
    ensures exists i :: 0 <= i < |targets| && ref.foreignUid == targets[i].uid && ref.pid == targets[i].pid
                        && ref.fieldname == targets[i].fieldname && ref.tablenames == table
    decreases |targets|
  {
    var r := PlanReferences(files, targets, table, token);
    var head := seq(|files|, j requires 0 <= j < |files| =>
                  FileReference(token + j, files[j].uid, targets[0].uid, table, targets[0].fieldname, targets[0].pid));
    var rest := PlanReferences(files, targets[1..], table, token + |files|);
    assert r == head + rest;
    if ref in rest {
      PlanReferencesTargets(files, targets[1..], table, token + |files|, ref);
      var i :| 0 <= i < |targets[1..]| && ref.foreignUid == targets[1..][i].uid && ref.pid == targets[1..][i].pid
               && ref.fieldname == targets[1..][i].fieldname && ref.tablenames == table;
      assert targets[1..][i] == targets[i + 1];
    } else {
      assert ref in head;
    }
  }

  // ---------------------------------------------------------------------
  // Blocking references

  /** A file blocks folder deletion when anything refers to it or the soft
      reference count cannot be read. */
  predicate Blocking(f: FileEntry)
    requires f.hardRefs.Some?
  {
    f.hardRefs.value > 0 || f.softRefs.None? || f.softRefs.value > 0
  }

  /** `hasBlockingReferences`: files are checked in order; the first one
      that blocks decides `true`. A failing hard-reference count is not
      caught and ends the call. */
  function HasBlockingReferences(files: seq<FileEntry>): (r: Result<bool>)
    ensures r == Success(false) <==>
      forall k :: 0 <= k < |files| ==> files[k].hardRefs.Some? && !Blocking(files[k])
    ensures r == Success(true) <==>
      exists k :: 0 <= k < |files| && files[k].hardRefs.Some? && Blocking(files[k])
                  && forall k' :: 0 <= k' < k ==> files[k'].hardRefs.Some? && !Blocking(files[k'])
    ensures r.Failure? ==> r.error == Uncaught("DBALException")
  {
    if |files| == 0 then Success(false)
    else
      var f := files[0];
      match f.hardRefs
      case None => Failure(Uncaught("DBALException"))
      case Some(hard) =>
        if hard > 0 then Success(true)
        else if f.softRefs.None? then Success(true)
        else if f.softRefs.value > 0 then Success(true)
        else
          var rest := HasBlockingReferences(files[1..]);
          assert forall k :: 1 <= k < |files| ==> files[k] == files[1..][k - 1];
          assert rest == Success(true) ==>
            (exists k :: 1 <= k < |files| && files[k].hardRefs.Some? && Blocking(files[k])
                         && forall k' :: 0 <= k' < k ==> files[k'].hardRefs.Some? && !Blocking(files[k'])) by {
            if rest == Success(true) {
              var k :| 0 <= k < |files[1..]| && files[1..][k].hardRefs.Some? && Blocking(files[1..][k])
                  && forall k' :: 0 <= k' < k ==> files[1..][k'].hardRefs.Some? && !Blocking(files[1..][k']);
              assert files[k + 1] == files[1..][k];
              forall k' | 0 <= k' < k + 1 ensures files[k'].hardRefs.Some? && !Blocking(files[k']) {
                if k' > 0 { assert files[k'] == files[1..][k' - 1]; }
              }
            }
          }
          rest
  }

  /** `deleteFalFolder`: removes the folder (path without leading slashes)
      with everything in it, unless the storage is missing or offline, the
      folder does not exist, a file in it is still referenced, or the
      storage refuses; those cases only log. */
  function DeleteFalFolder(env: Env, s: Store, path: string): (r: Exec)
    ensures var name := LTrim(path, '/');
            r.Ok() && r.store.storage.Some? && name !in r.store.storage.value.folders
            && s.storage.Some? && name in s.storage.value.folders
            <==> r.store != s
    ensures r.store != s ==>
      var name := LTrim(path, '/');
      && s.storage.value.online
      && HasBlockingReferences(s.storage.value.folders[name]) == Success(false)
      && !env.folderDeleteFails
      && r.store == s.(storage := Some(s.storage.value.(folders := s.storage.value.folders - {name})),
                       trace := s.trace + [FolderDeleted(name)])
    ensures r.thrown.Some? ==> r.store == s && r.thrown == Some(Uncaught("DBALException"))
  {
    var name := LTrim(path, '/');
    match s.storage
    case None => Exec(s, None)
    case Some(st) =>
      if !st.online then Exec(s, None)
      else if name !in st.folders then Exec(s, None)
      else match HasBlockingReferences(st.folders[name])
        case Failure(e) => Exec(s, Some(e))
        case Success(true) => Exec(s, None)
        case Success(false) =>
          if env.folderDeleteFails then Exec(s, None)
          else
            var s' := s.(storage := Some(st.(folders := st.folders - {name})),
                         trace := s.trace + [FolderDeleted(name)]);
            assert s'.trace != s.trace;
            Exec(s', None)
  }

  /** A folder holding a referenced file survives deletion. */
  lemma ReferencedFileKeepsFolder(env: Env, s: Store, path: string, k: int)
    requires s.storage.Some? && LTrim(path, '/') in s.storage.value.folders
    requires var files := s.storage.value.folders[LTrim(path, '/')];
             0 <= k < |files| && files[k].hardRefs.Some? && Blocking(files[k])
    ensures DeleteFalFolder(env, s, path).store.storage == s.storage
  {
  }

  // ---------------------------------------------------------------------
  // Adding the demo files

  function Names(files: seq<FileEntry>): (r: seq<string>)
    ensures |r| == |files|
    ensures forall k :: 0 <= k < |files| ==> r[k] == files[k].name
  {
    seq(|files|, k requires 0 <= k < |files| => files[k].name)
  }

  /** How many of `names` can be added after `seen` before the first name
      that is already there (in `seen` or earlier in `names`). */
  function Stop(seen: seq<string>, names: seq<string>): (r: nat)
    ensures r <= |names|
    ensures forall j :: 0 <= j < r ==> names[j] !in seen + names[..j]
    ensures r < |names| ==> names[r] in seen + names[..r]
    decreases |names|
  {
    if |names| == 0 then 0
    else if names[0] in seen then
      assert names[..0] == [];
      assert seen + [] == seen;
      0
    else
      var rest := Stop(seen + [names[0]], names[1..]);
      assert forall j :: 1 <= j < 1 + rest ==> names[j] !in seen + names[..j] by {
        forall j | 1 <= j < 1 + rest
          ensures names[j] !in seen + names[..j]
        {
          assert seen + [names[0]] + names[1..][..j - 1] == seen + names[..j];
        }
      }
      assert 1 + rest < |names| ==> names[1 + rest] in seen + names[..1 + rest] by {
        if 1 + rest < |names| {
          assert seen + [names[0]] + names[1..][..rest] == seen + names[..1 + rest];
        }
      }
      assert names[..0] == [] && seen + [] == seen;
      1 + rest
  }

  function NewFile(env: Env, name: string): FileEntry {
    FileEntry(if name in env.fileUids then env.fileUids[name] else 0, name, Some(0), Some(0))
  }

  /** The `addFile` loop: stops at the first name already in the folder. */
  function AddFiles(env: Env, folder: seq<FileEntry>, names: seq<string>): seq<FileEntry>
    decreases |names|
  {
    if |names| == 0 then folder
    else if names[0] in Names(folder) then folder
    else AddFiles(env, folder + [NewFile(env, names[0])], names[1..])
  }

  /** The loop adds exactly the names before the first clash, in order. */
  lemma {:induction false} AddFilesNames(env: Env, folder: seq<FileEntry>, names: seq<string>)
    ensures Names(AddFiles(env, folder, names)) == Names(folder) + names[..Stop(Names(folder), names)]
    decreases |names|
  {
    if |names| == 0 {
      assert Names(folder) + [] == Names(folder);
    } else if names[0] in Names(folder) {
      assert Names(folder) + [] == Names(folder);
    } else {
      var folder' := folder + [NewFile(env, names[0])];
      assert Names(folder') == Names(folder) + [names[0]];
      AddFilesNames(env, folder', names[1..]);
      var n := Stop(Names(folder'), names[1..]);
      assert Names(folder) + [names[0]] + names[1..][..n] == Names(folder) + names[..1 + n];
    }
  }

  function AddedEffects(folder: string, names: seq<string>): (r: seq<Effect>)
    ensures |r| == |names|
    ensures forall k :: 0 <= k < |names| ==> r[k] == FileAdded(folder, names[k])
  {
    seq(|names|, k requires 0 <= k < |names| => FileAdded(folder, names[k]))
  }

  /** `addToFal`: creates folder `to` in the storage root and adds the files
      to it. Nothing happens when the storage is missing or offline, the
      root is not writable, or `to` already exists (then the files are
      assumed to be there). The files are added in order up to the first
      name that is already in the folder. */
  function AddToFal(env: Env, s: Store, files: seq<string>, to: string): (r: Exec)
    ensures r.thrown.None?
    ensures s.storage.None? || !s.storage.value.online || !env.folderWritable || to in s.storage.value.folders
            ==> r.store == s
    ensures s.storage.Some? && s.storage.value.online && env.folderWritable && to !in s.storage.value.folders ==>
      var added := files[..Stop([], files)];
      && r.store.storage.Some?
      && r.store.storage.value.online
      && to in r.store.storage.value.folders
      && Names(r.store.storage.value.folders[to]) == added
      && r.store.storage.value.folders - {to} == s.storage.value.folders
      && r.store.trace == s.trace + [FolderCreated(to)] + AddedEffects(to, added)
      && r.store == s.(storage := r.store.storage, trace := r.store.trace)
  {
    match s.storage
    case None => Exec(s, None)
    case Some(st) =>
      if !st.online || !env.folderWritable || to in st.folders then Exec(s, None)
      else
        var content := AddFiles(env, [], files);
        AddFilesNames(env, [], files);
        assert Names([]) == [];
        assert [] + files[..Stop([], files)] == files[..Stop([], files)];
        var added := Names(content);
        var st' := st.(folders := st.folders[to := content]);
        assert st'.folders - {to} == st.folders;
        Exec(s.(storage := Some(st'), trace := s.trace + [FolderCreated(to)] + AddedEffects(to, added)), None)
  }
}
