/**
  The pure parts of the results visualiser (simpleaudit/visualization/server.py):
  the audit-file validity check on a decoded value, the JSON file tree over an
  abstract directory tree, and the request checks of the JSON-file endpoint,
  with POSIX path joining and normalisation written out.
 */
module Visualizer {
  import opened Common
  import opened Text
  import opened Order
  import opened JsonData

  // ---------------------------------------------------------------------------
  // Validity

  /**
    `is_valid_audit_json` on what reading and decoding the file produced;
    `None` stands for any read or decode failure.
   */
  predicate IsValidAuditJson(data: Option<Json>) {
    match data
    case None => false
    case Some(JArray(items)) => |items| > 0
    case Some(JObject(m)) => "results" in m && m["results"].JArray? && |m["results"].items| > 0
    case Some(_) => false
  }

  lemma ValidityCases(data: Option<Json>)
    ensures data.Some? && data.value.JArray? ==> (IsValidAuditJson(data) <==> data.value.items != [])
    ensures data.Some? && data.value.JObject? ==>
      (IsValidAuditJson(data) <==> "results" in data.value.members && data.value.members["results"].JArray?
                                    && data.value.members["results"].items != [])
    ensures data.None? || !(data.value.JArray? || data.value.JObject?) ==> !IsValidAuditJson(data)
  {
  }

  // ---------------------------------------------------------------------------
  // File tree

  /**
    A directory entry as the server sees it: a file with its decoded content,
    a directory with its entries (`readable` is false when listing it fails),
    or something that is neither (a dangling link, a socket).
   */
  datatype Node = File(content: Option<Json>) | Dir(readable: bool, entries: seq<Entry>) | Other
  datatype Entry = Entry(name: string, node: Node)

  datatype Item =
    | FileItem(name: string, path: string)
    | FolderItem(name: string, path: string, children: seq<Item>)

  function EntryName(e: Entry): string { e.name }
  function ItemName(x: Item): string { x.name }

  /** `os.path.join(a, b)` on POSIX. */
  function PathJoin(a: string, b: string): (r: string)
    ensures StartsWith(b, "/") ==> r == b
  {
    if StartsWith(b, "/") then b
    else if a == [] || EndsWith(a, "/") then a + b
    else a + "/" + b
  }

  /** The relative path an entry is listed under. */
  function RelPath(basePath: string, name: string): string {
    if basePath != [] then PathJoin(basePath, name) else name
  }

  /** `get_file_tree(directory, base_path)`: the listing, sorted by name, filtered. */
  function FileTree(dir: Node, basePath: string): seq<Item>
    decreases dir, 1
  {
    if dir.Dir? && dir.readable then
      SortByMembers(dir.entries, EntryName);
      Collect(dir, SortBy(dir.entries, EntryName), 0, basePath)
    else []
  }

  /** The items for `sorted[i..]`: non-empty folders and valid `.json` files, in order. */
  function Collect(dir: Node, sorted: seq<Entry>, i: nat, basePath: string): seq<Item>
    requires dir.Dir?
    requires forall e :: e in sorted ==> e in dir.entries
    decreases dir, 0, |sorted| - i
  {
    if i >= |sorted| then []
    else
      var e := sorted[i];
      var rel := RelPath(basePath, e.name);
      var rest := Collect(dir, sorted, i + 1, basePath);
      match e.node
      case Dir(_, _) =>
        assert e in dir.entries;
        var children := FileTree(e.node, rel);
        if children != [] then [FolderItem(e.name, rel, children)] + rest else rest
      case File(content) =>
        if EndsWith(e.name, ".json") && IsValidAuditJson(content) then [FileItem(e.name, rel)] + rest else rest
      case Other => rest
  }

  /** The item an entry contributes when it is kept. */
  function ItemFor(e: Entry, basePath: string): Item {
    var rel := RelPath(basePath, e.name);
    if e.node.Dir? then FolderItem(e.name, rel, FileTree(e.node, rel)) else FileItem(e.name, rel)
  }

  /** A directory is kept when it holds something to show; a file when it is a valid `.json`. */
  predicate Kept(e: Entry, basePath: string) {
    match e.node
    case Dir(_, _) => FileTree(e.node, RelPath(basePath, e.name)) != []
    case File(content) => EndsWith(e.name, ".json") && IsValidAuditJson(content)
    case Other => false
  }

  /** `Collect` keeps exactly the kept entries, each as its item. */
  lemma {:induction false} CollectExactly(dir: Node, sorted: seq<Entry>, i: nat, basePath: string)
    requires dir.Dir?
    requires forall e :: e in sorted ==> e in dir.entries
    ensures forall x :: x in Collect(dir, sorted, i, basePath) ==>
      exists j :: i <= j < |sorted| && Kept(sorted[j], basePath) && x == ItemFor(sorted[j], basePath)
    ensures forall j :: i <= j < |sorted| && Kept(sorted[j], basePath) ==>
      ItemFor(sorted[j], basePath) in Collect(dir, sorted, i, basePath)
    decreases |sorted| - i
  {
    if i < |sorted| {
      CollectExactly(dir, sorted, i + 1, basePath);
    }
  }

  /** Items come out in the order of the sorted listing. */
  lemma {:induction false} CollectSorted(dir: Node, sorted: seq<Entry>, i: nat, basePath: string)
    requires dir.Dir?
    requires forall e :: e in sorted ==> e in dir.entries
    requires SortedBy(sorted, EntryName)
    ensures SortedBy(Collect(dir, sorted, i, basePath), ItemName)
    decreases |sorted| - i
  {
    if i < |sorted| {
      CollectSorted(dir, sorted, i + 1, basePath);
      CollectExactly(dir, sorted, i + 1, basePath);
      var rest := Collect(dir, sorted, i + 1, basePath);
      forall k | 0 <= k < |rest|
        ensures StrLe(sorted[i].name, rest[k].name)
      {
        assert rest[k] in rest;
        var j :| i + 1 <= j < |sorted| && Kept(sorted[j], basePath) && rest[k] == ItemFor(sorted[j], basePath);
      }
    }
  }

  /**
    The tree of a directory: its entries in name order, keeping exactly the
    folders whose own tree is non-empty and the valid `.json` files; a listing
    that fails gives no items.
   */
  lemma FileTreeSpec(dir: Node, basePath: string)
    ensures SortedBy(FileTree(dir, basePath), ItemName)
    ensures forall x :: x in FileTree(dir, basePath) ==>
      exists e :: e in dir.entries && Kept(e, basePath) && x == ItemFor(e, basePath)
    ensures dir.Dir? && dir.readable ==>
      forall e :: e in dir.entries && Kept(e, basePath) ==> ItemFor(e, basePath) in FileTree(dir, basePath)
    ensures !(dir.Dir? && dir.readable) ==> FileTree(dir, basePath) == []
  {
    if dir.Dir? && dir.readable {
      var es := dir.entries;
      var sorted := SortBy(es, EntryName);
      SortByMembers(es, EntryName);
      assert FileTree(dir, basePath) == Collect(dir, sorted, 0, basePath);
      CollectExactly(dir, sorted, 0, basePath);
      CollectSorted(dir, sorted, 0, basePath);
      forall x | x in FileTree(dir, basePath)
        ensures exists e :: e in dir.entries && Kept(e, basePath) && x == ItemFor(e, basePath)
      {
        assert x in Collect(dir, sorted, 0, basePath);
        var j :| 0 <= j < |sorted| && Kept(sorted[j], basePath) && x == ItemFor(sorted[j], basePath);
        assert sorted[j] in sorted;
      }
    }
  }

  /** At the root an entry is listed under its own name; below, under its parent's path. */
  lemma RelPathRule(basePath: string, name: string)
    ensures basePath == [] ==> RelPath(basePath, name) == name
    ensures basePath != [] && !StartsWith(name, "/") && !EndsWith(basePath, "/") ==>
      RelPath(basePath, name) == basePath + "/" + name
  {
  }

  // ---------------------------------------------------------------------------
  // Endpoints

  datatype Response<T> = Served(body: T) | HttpError(status: nat, detail: string)

  /** `GET /api/files`. */
  function GetFiles(resultsDir: Option<string>, rootExists: bool, root: Node): (r: Response<seq<Item>>)
    ensures !Truthy(resultsDir) ==> r == HttpError(500, "Results directory not set")
    ensures Truthy(resultsDir) && !rootExists ==> r == HttpError(404, "Results directory not found")
    ensures r.Served? ==> r.body == FileTree(root, "")
    ensures Truthy(resultsDir) && rootExists ==> r == Served(FileTree(root, ""))
  {
    if !Truthy(resultsDir) then HttpError(500, "Results directory not set")
    else if !rootExists then HttpError(404, "Results directory not found")
    else Served(FileTree(root, ""))
  }

  /** A path component that normalisation keeps as it is. */
  predicate PlainComponent(c: string) {
    c != [] && c != "." && c != ".." && '/' !in c
  }

  /** The component loop of `posixpath.normpath`. */
  function NormComponents(comps: seq<string>, acc: seq<string>, absolute: bool): seq<string>
    decreases |comps|
  {
    if comps == [] then acc
    else
      var c := comps[0];
      var next :=
        if c == [] || c == "." then acc
        else if c != ".." || (!absolute && acc == []) || (acc != [] && acc[|acc| - 1] == "..") then acc + [c]
        else if acc != [] then acc[..|acc| - 1]
        else acc;
      NormComponents(comps[1..], next, absolute)
  }

  /** `os.path.normpath` on POSIX: exactly two leading slashes are kept, more collapse to one. */
  function NormPath(path: string): string {
    if path == [] then "."
    else
      var initial: nat :=
        if !StartsWith(path, "/") then 0
        else if StartsWith(path, "//") && !StartsWith(path, "///") then 2
        else 1;
      var comps := NormComponents(Split(path, '/'), [], initial > 0);
      var p := seq(initial, _ => '/') + Join("/", comps);
      if p == [] then "." else p
  }

  /** The file system as the endpoint uses it. */
  datatype FileSystem = FileSystem(
    present: string -> bool,
    read: string -> Result<string>,
    decode: string -> Option<Json>)

  /** The path a request names: the normalised join of the results directory and the request. */
  function RequestedPath(root: string, filePath: string): string {
    NormPath(PathJoin(root, filePath))
  }

  /** The containment test as written: a string-prefix test. */
  predicate AllowedAsWritten(root: string, filePath: string) {
    StartsWith(RequestedPath(root, filePath), NormPath(root))
  }

  /** The evident intent: the path is the directory itself or lies below it. */
  predicate Within(full: string, dir: string) {
    full == dir || StartsWith(full, if EndsWith(dir, "/") then dir else dir + "/")
  }

  predicate Allowed(root: string, filePath: string) {
    Within(RequestedPath(root, filePath), NormPath(root))
  }

  /**
    `GET /api/json/{file_path}` with the check as written: 500 without a results
    directory, 403 outside it, 404 for a missing path, 400 for a name not
    ending in `.json`, then read (500 on failure) and decode (400 on failure).
   */
  function GetJsonFileAsWritten(resultsDir: Option<string>, filePath: string, fs: FileSystem): (r: Response<Json>)
    ensures !Truthy(resultsDir) ==> r == HttpError(500, "Results directory not set")
    ensures Truthy(resultsDir) && !AllowedAsWritten(resultsDir.value, filePath) ==> r == HttpError(403, "Access denied")
    ensures Truthy(resultsDir) && AllowedAsWritten(resultsDir.value, filePath) ==>
      r == Fetch(RequestedPath(resultsDir.value, filePath), fs)
  {
    if !Truthy(resultsDir) then HttpError(500, "Results directory not set")
    else if !AllowedAsWritten(resultsDir.value, filePath) then HttpError(403, "Access denied")
    else Fetch(RequestedPath(resultsDir.value, filePath), fs)
  }

  /** The steps after the access check, shared by both versions. */
  function Fetch(full: string, fs: FileSystem): (r: Response<Json>)
    ensures !fs.present(full) ==> r == HttpError(404, "File not found")
    ensures fs.present(full) && !EndsWith(full, ".json") ==> r == HttpError(400, "Not a JSON file")
    ensures r.Served? ==> fs.read(full).Ok? && fs.decode(fs.read(full).value) == Some(r.body)
    ensures fs.present(full) && EndsWith(full, ".json") && fs.read(full).Ok? && fs.decode(fs.read(full).value).None? ==>
      r.HttpError? && r.status == 400
    ensures fs.present(full) && EndsWith(full, ".json") && fs.read(full).Err? ==> r.HttpError? && r.status == 500
    ensures fs.present(full) && EndsWith(full, ".json") && fs.read(full).Ok? && fs.decode(fs.read(full).value).Some? ==>
      r == Served(fs.decode(fs.read(full).value).value)
  {
    if !fs.present(full) then HttpError(404, "File not found")
    else if !EndsWith(full, ".json") then HttpError(400, "Not a JSON file")
    else
      match fs.read(full)
      case Err(_) => HttpError(500, "Error reading file")
      case Ok(text) =>
        match fs.decode(text)
        case None => HttpError(400, "Invalid JSON")
        case Some(data) => Served(data)
  }

  /** `GET /api/json/{file_path}` with the containment test the comment asks for. */
  function GetJsonFile(resultsDir: Option<string>, filePath: string, fs: FileSystem): (r: Response<Json>)
    ensures !Truthy(resultsDir) ==> r == HttpError(500, "Results directory not set")
    ensures Truthy(resultsDir) && !Allowed(resultsDir.value, filePath) ==> r == HttpError(403, "Access denied")
    ensures r.Served? ==> Truthy(resultsDir) && Allowed(resultsDir.value, filePath)
    ensures Truthy(resultsDir) && Allowed(resultsDir.value, filePath) ==>
      r == Fetch(RequestedPath(resultsDir.value, filePath), fs)
  {
    if !Truthy(resultsDir) then HttpError(500, "Results directory not set")
    else if !Allowed(resultsDir.value, filePath) then HttpError(403, "Access denied")
    else Fetch(RequestedPath(resultsDir.value, filePath), fs)
  }

  /** The component list of `dir` is a prefix of that of `full`. */
  predicate ComponentsUnder(full: string, dir: string) {
    var d := Split(dir, '/');
    var f := Split(full, '/');
    |d| <= |f| && f[..|d|] == d
  }

  /** The corrected test admits only paths whose components extend the directory's. */
  lemma WithinMeansComponentsUnder(full: string, dir: string)
    requires !EndsWith(dir, "/")
    requires Within(full, dir)
    ensures ComponentsUnder(full, dir)
  {
    if full != dir {
      var rest := full[|dir| + 1..];
      assert full == dir + ['/'] + rest;
      SplitConcat(dir, '/', rest);
    }
  }

  /** One step of the component loop on an empty component. */
  lemma NormSkipEmpty(rest: seq<string>, acc: seq<string>, absolute: bool)
    ensures NormComponents([""] + rest, acc, absolute) == NormComponents(rest, acc, absolute)
  {
    assert ([""] + rest)[1..] == rest;
  }

  /** One step of the component loop on a plain component: it is kept. */
  lemma NormPush(c: string, rest: seq<string>, acc: seq<string>, absolute: bool)
    requires PlainComponent(c)
    ensures NormComponents([c] + rest, acc, absolute) == NormComponents(rest, acc + [c], absolute)
  {
    assert ([c] + rest)[1..] == rest;
  }

  /** One step of the component loop on ".." after a plain component: both go. */
  lemma NormPop(rest: seq<string>, acc: seq<string>, c: string, absolute: bool)
    requires PlainComponent(c)
    ensures NormComponents([".."] + rest, acc + [c], absolute) == NormComponents(rest, acc, absolute)
  {
    assert ([".."] + rest)[1..] == rest;
    assert (acc + [c])[..|acc + [c]| - 1] == acc;
  }

  /** A plain component has no slash, so a path starting "/" then it has one leading slash. */
  lemma OneLeadingSlash(c: string, tail: string)
    requires PlainComponent(c)
    ensures StartsWith("/" + c + tail, "/") && !StartsWith("/" + c + tail, "//")
  {
    assert ("/" + c + tail)[1] == c[0];
    assert c[0] in c;
  }

  /** Normalising `/dir` for one plain component gives it back. */
  lemma NormPathOneComponent(dirName: string)
    requires PlainComponent(dirName)
    ensures NormPath("/" + dirName) == "/" + dirName
  {
    var root := "/" + dirName;
    JoinCons("/", "", [dirName]);
    assert root == Join("/", ["", dirName]);
    SplitJoin(["", dirName], '/');
    NormSkipEmpty([dirName], [], true);
    NormPush(dirName, [], [], true);
    assert [""] + [dirName] == ["", dirName];
    assert [dirName] + [] == [dirName];
    OneLeadingSlash(dirName, "");
    assert root + "" == root;
    assert seq(1, _ => '/') == "/";
  }

  /** `normpath` of an absolute path with one leading slash, in terms of its components. */
  lemma NormPathAbsolute(c: string, tail: string)
    requires PlainComponent(c)
    ensures var path := "/" + c + tail;
      NormPath(path) == "/" + Join("/", NormComponents(Split(path, '/'), [], true))
  {
    OneLeadingSlash(c, tail);
    assert seq(1, _ => '/') == "/";
  }

  /** The joined sibling request, as its components. */
  lemma SiblingJoin(dirName: string, sib: string, name: string)
    requires PlainComponent(dirName)
    ensures PathJoin("/" + dirName, "../" + sib + "/" + name) == "/" + dirName + ("/" + ("../" + sib + "/" + name))
    ensures PathJoin("/" + dirName, "../" + sib + "/" + name) == Join("/", ["", dirName, "..", sib, name])
  {
    var root := "/" + dirName;
    var req := "../" + sib + "/" + name;
    assert !StartsWith(req, "/") by { assert req[0] == '.'; }
    assert !EndsWith(root, "/") by {
      assert root[|root| - 1] == dirName[|dirName| - 1];
      assert dirName[|dirName| - 1] in dirName;
    }
    var parts := ["", dirName, "..", sib, name];
    JoinCons("/", sib, [name]);
    assert req == ".." + "/" + Join("/", [sib, name]);
    JoinCons("/", "..", [sib, name]);
    assert [dirName] + ["..", sib, name] == parts[1..];
    JoinCons("/", dirName, ["..", sib, name]);
    assert [""] + parts[1..] == parts;
    JoinCons("/", "", parts[1..]);
  }

  /** The component loop drops the empty head and cancels the directory against "..". */
  lemma SiblingComponents(dirName: string, sib: string, name: string)
    requires PlainComponent(dirName) && PlainComponent(sib) && PlainComponent(name)
    ensures NormComponents(["", dirName, "..", sib, name], [], true) == [sib, name]
  {
    var tail := [sib, name];
    assert ["", dirName, "..", sib, name] == [""] + ([dirName] + ([".."] + tail));
    NormSkipEmpty([dirName] + ([".."] + tail), [], true);
    NormPush(dirName, [".."] + tail, [], true);
    assert [] + [dirName] == [dirName];
    NormPop(tail, [], dirName, true);
    assert tail == [sib] + [name];
    NormPush(sib, [name], [], true);
    assert [] + [sib] == [sib];
    assert [name] == [name] + [];
    NormPush(name, [], [sib], true);
  }

  /**
    The path a sibling request names: `../<sibling>/<name>` from the results
    directory `/<dirName>` normalises to `/<sibling>/<name>`.
   */
  lemma SiblingRequestPath(dirName: string, sib: string, name: string)
    requires PlainComponent(dirName) && PlainComponent(sib) && PlainComponent(name)
    ensures RequestedPath("/" + dirName, "../" + sib + "/" + name) == "/" + sib + "/" + name
  {
    var req := "../" + sib + "/" + name;
    var joined := PathJoin("/" + dirName, req);
    SiblingJoin(dirName, sib, name);
    NormPathAbsolute(dirName, "/" + req);
    assert NormPath(joined) == "/" + Join("/", NormComponents(Split(joined, '/'), [], true));
    SiblingSplit(dirName, sib, name);
    SiblingComponents(dirName, sib, name);
    JoinCons("/", sib, [name]);
    assert Join("/", [sib, name]) == sib + "/" + name;
  }

  /** The joined sibling request splits into its five components. */
  lemma SiblingSplit(dirName: string, sib: string, name: string)
    requires PlainComponent(dirName) && PlainComponent(sib) && PlainComponent(name)
    ensures Split(PathJoin("/" + dirName, "../" + sib + "/" + name), '/') == ["", dirName, "..", sib, name]
  {
    SiblingJoin(dirName, sib, name);
    SplitJoin(["", dirName, "..", sib, name], '/');
  }

  /** A sibling whose name strictly extends the directory's: `data2` next to `data`. */
  predicate ExtendsName(sib: string, dirName: string) {
    |sib| > |dirName| && sib[..|dirName|] == dirName
  }

  /** The sibling's path passes the prefix test but is not the directory or below it. */
  lemma SiblingPathOutside(dirName: string, sib: string, name: string)
    requires PlainComponent(dirName) && PlainComponent(sib) && ExtendsName(sib, dirName)
    ensures var root := "/" + dirName;
      var full := "/" + sib + "/" + name;
      StartsWith(full, root) && !Within(full, root)
  {
    var root := "/" + dirName;
    var full := "/" + sib + "/" + name;
    assert full[..|root|] == root by {
      forall k | 0 <= k < |root| ensures full[k] == root[k] {
        if k > 0 { assert full[k] == sib[k - 1]; }
      }
    }
    assert !EndsWith(root, "/") by {
      assert root[|root| - 1] == dirName[|dirName| - 1];
      assert dirName[|dirName| - 1] in dirName;
    }
    assert full[|root|] == sib[|dirName|];
    assert sib[|dirName|] in sib;
    assert (root + "/")[|root|] == '/';
    assert |full| > |root|;
  }

  /** The sibling's components do not extend the directory's. */
  lemma SiblingComponentsOutside(dirName: string, sib: string, name: string)
    requires PlainComponent(dirName) && PlainComponent(sib) && PlainComponent(name) && ExtendsName(sib, dirName)
    ensures !ComponentsUnder("/" + sib + "/" + name, "/" + dirName)
  {
    var root := "/" + dirName;
    var full := "/" + sib + "/" + name;
    JoinCons("/", "", [dirName]);
    assert [""] + [dirName] == ["", dirName];
    assert root == Join("/", ["", dirName]);
    SplitJoin(["", dirName], '/');
    JoinCons("/", sib, [name]);
    JoinCons("/", "", [sib, name]);
    assert [""] + [sib, name] == ["", sib, name];
    assert full == Join("/", ["", sib, name]);
    SplitJoin(["", sib, name], '/');
    assert sib != dirName;
    assert Split(full, '/')[..2] != Split(root, '/') by {
      assert Split(full, '/')[..2][1] == sib;
    }
  }

  /**
    The prefix test as written lets a request reach a sibling directory whose
    name extends the results directory's (`/srv/data` admits `/srv/data2/...`),
    which the corrected test refuses.
   */
  lemma SiblingEscapes(dirName: string, sib: string, name: string)
    requires PlainComponent(dirName) && PlainComponent(sib) && PlainComponent(name)
    requires ExtendsName(sib, dirName)
    ensures var req := "../" + sib + "/" + name;
      && RequestedPath("/" + dirName, req) == "/" + sib + "/" + name
      && AllowedAsWritten("/" + dirName, req)
      && !Allowed("/" + dirName, req)
      && !ComponentsUnder(RequestedPath("/" + dirName, req), NormPath("/" + dirName))
  {
    SiblingRequestPath(dirName, sib, name);
    NormPathOneComponent(dirName);
    SiblingPathOutside(dirName, sib, name);
    SiblingComponentsOutside(dirName, sib, name);
  }

  /**
    For that sibling request, the endpoint as written serves the file whenever
    it exists and decodes, while the corrected endpoint answers 403.
   */
  lemma SiblingFileServed(dirName: string, sib: string, name: string, fs: FileSystem)
    requires PlainComponent(dirName) && PlainComponent(sib) && PlainComponent(name)
    requires ExtendsName(sib, dirName) && EndsWith(name, ".json")
    requires var full := "/" + sib + "/" + name;
      fs.present(full) && fs.read(full).Ok? && fs.decode(fs.read(full).value).Some?
    ensures var req := "../" + sib + "/" + name;
      && GetJsonFileAsWritten(Some("/" + dirName), req, fs).Served?
      && GetJsonFile(Some("/" + dirName), req, fs) == HttpError(403, "Access denied")
  {
    var full := "/" + sib + "/" + name;
    SiblingEscapes(dirName, sib, name);
    assert EndsWith(full, ".json") by {
      assert full[|full| - |name|..] == name;
    }
  }

  /** A served file under the corrected endpoint lies inside the results directory. */
  lemma ServedFileIsInside(resultsDir: Option<string>, filePath: string, fs: FileSystem)
    requires GetJsonFile(resultsDir, filePath, fs).Served?
    requires !EndsWith(NormPath(resultsDir.value), "/")
    ensures ComponentsUnder(RequestedPath(resultsDir.value, filePath), NormPath(resultsDir.value))
  {
    WithinMeansComponentsUnder(RequestedPath(resultsDir.value, filePath), NormPath(resultsDir.value));
  }
}
