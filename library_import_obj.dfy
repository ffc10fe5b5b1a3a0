/** The .obj asset library menu: a top menu listing one submenu per
    folder of the library directory and one importer entry per .obj file,
    submenus whose id carries their folder's name, and the registration
    that records each folder's submenu id. */
module LibraryImportObj {
  import opened Common

  /** The library directory the add-on is configured with. */
  const LibraryRoot := "/Volumes/DataPartition/DataDocuments/Blender/_Obj"

  /** bl_idname of the base submenu class. */
  const SubmenuBase := "asset_library_submenu"

  /** os.path.join(dir, name) on POSIX: an absolute name replaces dir,
      otherwise a '/' is inserted unless dir is empty or already ends in
      one. */
  function Join(dir: string, name: string): string
  {
    if StartsWith(name, "/") then name
    else if dir == "" || EndsWith(dir, "/") then dir + name
    else dir + "/" + name
  }

  // ---------------------------------------------------------------------
  // Importer entries

  /** name[-3:] == 'obj'. */
  predicate IsObjName(name: string)
  {
    LastChars(name, 3) == "obj"
  }

  /** The filter asks only for the last three characters: no dot is needed,
      so "xobj" qualifies, and a name shorter than three never does. */
  lemma IsObjNameSpec(name: string)
    ensures IsObjName(name) <==> EndsWith(name, "obj")
    ensures IsObjName("xobj") && IsObjName("model.obj") && !IsObjName("ob")
  {
    assert LastChars("xobj", 3) == "obj";
    assert LastChars("model.obj", 3) == "obj";
  }

  datatype Item =
    | ImportEntry(filename: string, text: string)   // icon MESH_ICOSPHERE
    | SubmenuEntry(menuId: string, text: string)    // icon FILE_FOLDER

  /** The importer entries addOperatorsToLayout adds for a listing of dir. */
  function ObjEntries(dir: string, listing: seq<string>): seq<Item>
  {
    if listing == [] then []
    else
      var name := listing[|listing| - 1];
      ObjEntries(dir, listing[..|listing| - 1]) + (if IsObjName(name) then [ImportEntry(Join(dir, name), name)] else [])
  }

  /** There is an entry for each .obj name of the listing, importing that
      file of dir and labelled with its name, and for nothing else. */
  lemma {:induction false} ObjEntriesSpec(dir: string, listing: seq<string>, item: Item)
    ensures item in ObjEntries(dir, listing) <==>
      item.ImportEntry? && item.text in listing && IsObjName(item.text) && item.filename == Join(dir, item.text)
  {
    if listing != [] {
      ObjEntriesSpec(dir, listing[..|listing| - 1], item);
      assert listing == listing[..|listing| - 1] + [listing[|listing| - 1]];
    }
  }

  /** addOperatorsToLayout. */
  method AddOperators(dir: string, listing: seq<string>) returns (items: seq<Item>)
    ensures items == ObjEntries(dir, listing)
  {
    items := [];
    for k := 0 to |listing|
      invariant items == ObjEntries(dir, listing[..k])
    {
      assert listing[..k + 1][..k] == listing[..k];
      var name := listing[k];
      if IsObjName(name) {
        items := items + [ImportEntry(Join(dir, name), name)];
      }
    }
    assert listing[..|listing|] == listing;
  }

  // ---------------------------------------------------------------------
  // Submenu ids

  /** createSubMenu: the id of a folder's submenu class. */
  function SubmenuId(folder: string): string
  {
    SubmenuBase + "." + folder
  }

  /** subMenuClass.draw: the folder is the second '.'-separated field of the
      id; an id without '.' has none (IndexError). */
  function FolderOf(menuId: string): Result<string>
  {
    var parts := Split(menuId, '.');
    if |parts| < 2 then Err(IndexError) else Ok(parts[1])
  }

  /** A submenu finds its own folder again exactly when the folder's name
      holds no '.'; otherwise it reads the part before the first '.'. */
  lemma SubmenuRoundTrip(folder: string)
    ensures FolderOf(SubmenuId(folder)).Ok?
    ensures FolderOf(SubmenuId(folder)) == Ok(folder) <==> '.' !in folder
    ensures '.' !in FolderOf(SubmenuId(folder)).value
  {
    assert SubmenuId(folder) == SubmenuBase + ['.'] + folder;
    SplitAppend(SubmenuBase, '.', folder);
    if '.' !in folder {
      SplitNoSep(folder, '.');
    }
  }

  /** The base class itself, whose id has no '.', cannot draw. */
  lemma BaseSubmenuFails()
    ensures FolderOf(SubmenuBase) == Err(IndexError)
  {
    SplitNoSep(SubmenuBase, '.');
  }

  /** subMenuClass.draw for the submenu with id menuId; `listdir` gives a
      directory's entries, or None where os.listdir raises (a folder that is
      missing or cannot be read). */
  method DrawSubmenu(menuId: string, listdir: string -> Option<seq<string>>) returns (r: Result<seq<Item>>)
    ensures FolderOf(menuId).Err? ==> r == Err(FolderOf(menuId).error)
    ensures FolderOf(menuId).Ok? ==>
      var dir := Join(LibraryRoot, FolderOf(menuId).value);
      && (listdir(dir).None? ==> r == Err(OSError))
      && (listdir(dir).Some? ==> r == Ok(ObjEntries(dir, listdir(dir).value)))
  {
    var folder :- FolderOf(menuId);
    var dir := Join(LibraryRoot, folder);
    var fileList := listdir(dir);
    if fileList.None? {
      return Err(OSError);
    }
    var items := AddOperators(dir, fileList.value);
    r := Ok(items);
  }

  // ---------------------------------------------------------------------
  // Registration and the top menu

  /** The directory entries of a listing, in order; `isdir` answers for the
      entry joined to the library directory. */
  function Folders(listing: seq<string>, isdir: string -> bool): seq<string>
  {
    if listing == [] then []
    else
      var name := listing[|listing| - 1];
      Folders(listing[..|listing| - 1], isdir) + (if isdir(name) then [name] else [])
  }

  /** folderDict after register: each folder mapped to its submenu id. */
  function Recorded(d: map<string, string>, folders: seq<string>): map<string, string>
  {
    if folders == [] then d
    else Recorded(d, folders[..|folders| - 1])[folders[|folders| - 1] := SubmenuId(folders[|folders| - 1])]
  }

  lemma {:induction false} RecordedSpec(d: map<string, string>, folders: seq<string>, name: string)
    ensures name in Recorded(d, folders) <==> name in d || name in folders
    ensures name in folders ==> Recorded(d, folders)[name] == SubmenuId(name)
    ensures name !in folders && name in d ==> Recorded(d, folders)[name] == d[name]
  {
    if folders != [] {
      RecordedSpec(d, folders[..|folders| - 1], name);
      assert folders == folders[..|folders| - 1] + [folders[|folders| - 1]];
    }
  }

  lemma {:induction false} FoldersSpec(listing: seq<string>, isdir: string -> bool, name: string)
    ensures name in Folders(listing, isdir) <==> name in listing && isdir(name)
  {
    if listing != [] {
      FoldersSpec(listing[..|listing| - 1], isdir, name);
      assert listing == listing[..|listing| - 1] + [listing[|listing| - 1]];
    }
  }

  /** The add-on's module state: folderDict and the submenu classes
      registered so far. */
  class Library {
    var folderDict: map<string, string>
    var registered: seq<string>

    constructor()
      ensures folderDict == map[] && registered == []
    {
      folderDict := map[];
      registered := [];
    }

    /** register(): one submenu class per folder of the library directory,
        recorded in folderDict under the folder's name. `dirListing` is
        os.listdir of the library directory, None where it raises; then
        nothing is recorded. */
    method Register(dirListing: Option<seq<string>>, isdir: string -> bool) returns (r: Result<()>)
      modifies this
      ensures dirListing.None? ==>
        r == Err(OSError) && folderDict == old(folderDict) && registered == old(registered)
      ensures dirListing.Some? ==>
        && r == Ok(())
        && folderDict == Recorded(old(folderDict), Folders(dirListing.value, isdir))
        && registered == old(registered) + SubmenuIds(Folders(dirListing.value, isdir))
    {
      if dirListing.None? {
        return Err(OSError);
      }
      RegisterFolders(dirListing.value, isdir);
      r := Ok(());
    }

    /** The loop of register() over a listing that was read. */
    method RegisterFolders(listing: seq<string>, isdir: string -> bool)
      modifies this
      ensures folderDict == Recorded(old(folderDict), Folders(listing, isdir))
      ensures registered == old(registered) + SubmenuIds(Folders(listing, isdir))
    {
      for k := 0 to |listing|
        invariant folderDict == Recorded(old(folderDict), Folders(listing[..k], isdir))
        invariant registered == old(registered) + SubmenuIds(Folders(listing[..k], isdir))
      {
        RegisterStep(old(folderDict), listing, k, isdir);
        var name := listing[k];
        if isdir(name) {
          var menuId := SubmenuId(name);
          registered := registered + [menuId];
          folderDict := folderDict[name := menuId];
        }
      }
      assert listing[..|listing|] == listing;
    }
  }

  lemma FoldersStep(listing: seq<string>, k: nat, isdir: string -> bool)
    requires k < |listing|
    ensures Folders(listing[..k + 1], isdir) == Folders(listing[..k], isdir) + (if isdir(listing[k]) then [listing[k]] else [])
  {
    assert listing[..k + 1][..k] == listing[..k];
  }

  lemma RegisterStep(d: map<string, string>, listing: seq<string>, k: nat, isdir: string -> bool)
    requires k < |listing|
    ensures var name, fs, fs' := listing[k], Folders(listing[..k], isdir), Folders(listing[..k + 1], isdir);
      && Recorded(d, fs') == (if isdir(name) then Recorded(d, fs)[name := SubmenuId(name)] else Recorded(d, fs))
      && SubmenuIds(fs') == (if isdir(name) then SubmenuIds(fs) + [SubmenuId(name)] else SubmenuIds(fs))
  {
    FoldersStep(listing, k, isdir);
    RecordStep(d, Folders(listing[..k], isdir), listing[k]);
    if !isdir(listing[k]) {
      assert Folders(listing[..k + 1], isdir) == Folders(listing[..k], isdir);
    }
  }

  lemma RecordStep(d: map<string, string>, fs: seq<string>, name: string)
    ensures Recorded(d, fs + [name]) == Recorded(d, fs)[name := SubmenuId(name)]
    ensures SubmenuIds(fs + [name]) == SubmenuIds(fs) + [SubmenuId(name)]
  {
    assert (fs + [name])[..|fs|] == fs;
  }

  function SubmenuIds(folders: seq<string>): (ids: seq<string>)
    ensures |ids| == |folders|
    ensures forall k :: 0 <= k < |folders| ==> ids[k] == SubmenuId(folders[k])
  {
    if folders == [] then [] else SubmenuIds(folders[..|folders| - 1]) + [SubmenuId(folders[|folders| - 1])]
  }

  /** The submenu entries of customMenu.draw: KeyError for a folder that
      register did not record. */
  function FolderEntries(d: map<string, string>, folders: seq<string>): Result<seq<Item>>
  {
    if folders == [] then Ok([])
    else
      var init :- FolderEntries(d, folders[..|folders| - 1]);
      var name := folders[|folders| - 1];
      if name !in d then Err(KeyError) else Ok(init + [SubmenuEntry(d[name], name)])
  }

  /** customMenu.draw: the folder submenus first, then the root's .obj
      entries. The root is listed three times (for the unused obj_list, for
      the folders, and in addOperatorsToLayout); the model reads it once and
      uses that listing for all three, None where os.listdir raises. */
  function TopMenuSpec(d: map<string, string>, dirListing: Option<seq<string>>, isdir: string -> bool): Result<seq<Item>>
  {
    if dirListing.None? then Err(OSError)
    else
      var menus :- FolderEntries(d, Folders(dirListing.value, isdir));
      Ok(menus + ObjEntries(LibraryRoot, dirListing.value))
  }

  method DrawTopMenu(lib: Library, dirListing: Option<seq<string>>, isdir: string -> bool) returns (r: Result<seq<Item>>)
    ensures r == TopMenuSpec(lib.folderDict, dirListing, isdir)
  {
    if dirListing.None? {
      return Err(OSError);
    }
    var menus := FolderMenus(lib.folderDict, dirListing.value, isdir);
    if menus.Err? {
      return Err(menus.error);
    }
    var objs := AddOperators(LibraryRoot, dirListing.value);
    r := Ok(menus.value + objs);
  }

  /** The folder loop of customMenu.draw: one submenu per folder of the
      listing, stopping at the first folder register did not record. */
  method FolderMenus(d: map<string, string>, listing: seq<string>, isdir: string -> bool) returns (r: Result<seq<Item>>)
    ensures r == FolderEntries(d, Folders(listing, isdir))
  {
    var items: seq<Item> := [];
    for k := 0 to |listing|
      invariant FolderEntries(d, Folders(listing[..k], isdir)) == Ok(items)
    {
      FoldersStep(listing, k, isdir);
      var name := listing[k];
      if isdir(name) {
        if name !in d {
          var a := Folders(listing[..k], isdir) + [name];
          assert FolderEntries(d, a) == Err(KeyError) by {
            assert a[..|a| - 1] == Folders(listing[..k], isdir);
          }
          FolderEntriesPrefixError(d, a, Folders(listing[k + 1..], isdir));
          FoldersAppend(listing[..k + 1], listing[k + 1..], isdir);
          assert listing[..k + 1] + listing[k + 1..] == listing;
          return Err(KeyError);
        }
        ghost var a := Folders(listing[..k], isdir) + [name];
        assert a[..|a| - 1] == Folders(listing[..k], isdir);
        assert FolderEntries(d, a) == Ok(items + [SubmenuEntry(d[name], name)]);
        items := items + [SubmenuEntry(d[name], name)];
      } else {
        assert Folders(listing[..k + 1], isdir) == Folders(listing[..k], isdir);
      }
    }
    assert listing[..|listing|] == listing;
    r := Ok(items);
  }

  lemma {:induction false} FoldersAppend(a: seq<string>, b: seq<string>, isdir: string -> bool)
    ensures Folders(a + b, isdir) == Folders(a, isdir) + Folders(b, isdir)
  {
    if b != [] {
      FoldersAppend(a, b[..|b| - 1], isdir);
      assert (a + b)[..|a + b| - 1] == a + b[..|b| - 1];
    } else {
      assert a + b == a;
    }
  }

  lemma {:induction false} FolderEntriesPrefixError(d: map<string, string>, a: seq<string>, b: seq<string>)
    requires FolderEntries(d, a).Err?
    ensures FolderEntries(d, a + b) == FolderEntries(d, a)
  {
    if b != [] {
      FolderEntriesPrefixError(d, a, b[..|b| - 1]);
      assert (a + b)[..|a + b| - 1] == a + b[..|b| - 1];
    } else {
      assert a + b == a;
    }
  }

  /** Drawing the top menu right after registering with the same listing
      never fails, lists every folder's submenu (whose id gives the folder
      back when its name has no '.') before the root's .obj entries. */
  lemma RegisterThenDraw(d: map<string, string>, listing: seq<string>, isdir: string -> bool)
    ensures var r := TopMenuSpec(Recorded(d, Folders(listing, isdir)), Some(listing), isdir);
      && r.Ok?
      && |r.value| == |Folders(listing, isdir)| + |ObjEntries(LibraryRoot, listing)|
      && r.value[..|Folders(listing, isdir)|] == FolderItems(Folders(listing, isdir))
      && r.value[|Folders(listing, isdir)|..] == ObjEntries(LibraryRoot, listing)
  {
    var fs := Folders(listing, isdir);
    RecordedEntries(d, fs, fs);
  }

  /** The submenu entries for folders whose ids are recorded. */
  function FolderItems(folders: seq<string>): (items: seq<Item>)
    ensures |items| == |folders|
  {
    if folders == [] then [] else FolderItems(folders[..|folders| - 1]) + [SubmenuEntry(SubmenuId(folders[|folders| - 1]), folders[|folders| - 1])]
  }

  lemma {:induction false} RecordedEntries(d: map<string, string>, all: seq<string>, fs: seq<string>)
    requires forall name :: name in fs ==> name in all
    ensures FolderEntries(Recorded(d, all), fs) == Ok(FolderItems(fs))
  {
    if fs != [] {
      var init := fs[..|fs| - 1];
      assert forall name :: name in init ==> name in fs;
      RecordedEntries(d, all, init);
      RecordedSpec(d, all, fs[|fs| - 1]);
    }
  }
}
