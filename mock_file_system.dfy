/** The web front end's node store (services/mockFileSystem.ts): a module-level
    list of nodes that starts with the root alone, a listing operation that
    routes between that list and the Google Drive API, a lookup by id, the
    breadcrumb walk up `parentId` links, and the simulated mounting of a cloud
    drive. The Drive API call and the two display formatters are parameters;
    timers are taken to fire at once. */
module MockFileSystem {
  import opened Common
  import opened Types

  const RootId := "root"
  const RealDriveRootId := "real-drive-root"
  const FolderMime := "application/vnd.google-apps.folder"

  /** `CLIENT_ID` and whether the gapi client finished initialising. The
      shipped build has an empty client id, so it always takes the mock path. */
  datatype Config = Config(clientId: string, gapiInited: bool)

  const Shipped := Config("", false)

  /** The only node present at start-up. */
  function RootNode(): FileData
  {
    Plain(RootId, "Network", Folder, None)
  }

  /** Where the demo videos are hosted. */
  const SampleBucket := "https://storage.googleapis.com/gtv-videos-bucket/sample/"

  /** The entries of the canned demo Google Drive (`cloudDriveTemplates['gdrive']`). */
  function DemoDriveRoot(): FileData
  {
    FileData("gd-root", "Google Drive (Demo)", Folder, Some("15GB"), Some("Synced"), None,
             Some(RootId), None, Some("100 GB"), Some("45 GB"), Some(45))
  }

  function MoviesFolder(): FileData
  {
    FileData("gd-movies", "Movies", Folder, None, Some("2023-11-10"), None,
             Some("gd-root"), None, None, None, None)
  }

  function TvFolder(): FileData
  {
    FileData("gd-tv", "TV Shows", Folder, None, Some("2023-11-12"), None,
             Some("gd-root"), None, None, None, None)
  }

  function BigBuckBunny(): FileData
  {
    FileData("mov-1", "Big Buck Bunny.mp4", Video, Some("150MB"), Some("2023-11-01"),
             Some(SampleBucket + "BigBuckBunny.mp4"),
             Some("gd-movies"), None, None, None, None)
  }

  function ElephantDreams(): FileData
  {
    FileData("mov-2", "Elephant Dreams.mp4", Video, Some("120MB"), Some("2023-11-02"),
             Some(SampleBucket + "ElephantsDream.mp4"),
             Some("gd-movies"), None, None, None, None)
  }

  function Sintel(): FileData
  {
    FileData("mov-3", "Sintel (4K).mp4", Video, Some("210MB"), Some("2023-11-03"),
             Some(SampleBucket + "Sintel.mp4"),
             Some("gd-movies"), None, None, None, None)
  }

  function ReviewEpisode(): FileData
  {
    FileData("tv-1", "Review_S01E01.mp4", Video, Some("450MB"), Some("2023-12-01"),
             Some(SampleBucket + "VolkswagenGTIReview.mp4"),
             Some("gd-tv"), None, None, None, None)
  }

  /** The canned subtree in template order. */
  function GDriveTemplate(): seq<FileData>
  {
    [DemoDriveRoot(), MoviesFolder(), TvFolder(), BigBuckBunny(), ElephantDreams(), Sintel(), ReviewEpisode()]
  }

  /** `cloudDriveTemplates[serviceType]`: only Google Drive has a template. */
  function Template(serviceType: string): (t: Option<seq<FileData>>)
    ensures t.Some? <==> serviceType == "gdrive"
  {
    if serviceType == "gdrive" then Some(GDriveTemplate()) else None
  }

  /** The virtual folder that stands for the real Drive root once the API is up. */
  function RealDriveRoot(): FileData
  {
    FileData(RealDriveRootId, "Google Drive (Real)", Folder, None, None, None,
             Some(RootId), None, Some("Unknown"), Some("Unknown"), Some(50))
  }

  // ---------------------------------------------------------------------------
  // Listing the mock store

  /** `mockFiles.filter(f => f.parentId === parentId)`. */
  function ChildrenOf(files: seq<FileData>, parentId: string): (r: seq<FileData>)
    ensures forall f :: f in r <==> f in files && f.parentId == Some(parentId)
    ensures |r| <= |files|
  {
    if files == [] then []
    else
      var rest := ChildrenOf(files[1..], parentId);
      if files[0].parentId == Some(parentId) then [files[0]] + rest else rest
  }

  /** Filtering commutes with concatenation, so the children keep store order. */
  lemma {:induction false} ChildrenOfAppend(a: seq<FileData>, b: seq<FileData>, parentId: string)
    ensures ChildrenOf(a + b, parentId) == ChildrenOf(a, parentId) + ChildrenOf(b, parentId)
  {
    if a != [] {
      assert (a + b)[0] == a[0] && (a + b)[1..] == a[1..] + b;
      ChildrenOfAppend(a[1..], b, parentId);
      var x, y := ChildrenOf(a[1..], parentId), ChildrenOf(b, parentId);
      if a[0].parentId == Some(parentId) {
        assert ChildrenOf(a + b, parentId) == [a[0]] + (x + y) == ([a[0]] + x) + y;
      }
    } else {
      assert a + b == b;
    }
  }

  /** A single entry is listed under `parentId` exactly when that is its parent. */
  lemma ChildrenOfSingle(f: FileData, parentId: string)
    ensures ChildrenOf([f], parentId) == if f.parentId == Some(parentId) then [f] else []
  {
  }

  /** An id that no entry names as its parent lists as the empty sequence. */
  lemma {:induction false} ChildrenOfChildless(files: seq<FileData>, parentId: string)
    requires forall f :: f in files ==> f.parentId != Some(parentId)
    ensures ChildrenOf(files, parentId) == []
  {
    if files != [] {
      assert files[0] in files;
      ChildrenOfChildless(files[1..], parentId);
    }
  }

  // ---------------------------------------------------------------------------
  // Lookup

  /** `mockFiles.find(f => f.id === id)`: an entry carrying `id`, or none
      when no entry does. */
  function FindById(files: seq<FileData>, id: string): (r: Option<FileData>)
    ensures r.None? <==> forall f :: f in files ==> f.id != id
    ensures r.Some? ==> r.value.id == id && r.value in files
  {
    if files == [] then None
    else if files[0].id == id then Some(files[0])
    else
      assert forall f :: f in files ==> f == files[0] || f in files[1..];
      FindById(files[1..], id)
  }

  /** The entry found is the first one carrying `id`. */
  lemma {:induction false} FindByIdFirst(files: seq<FileData>, id: string)
    requires FindById(files, id).Some?
    ensures exists k :: 0 <= k < |files| && files[k] == FindById(files, id).value &&
                        forall j :: 0 <= j < k ==> files[j].id != id
  {
    if files[0].id != id {
      FindByIdFirst(files[1..], id);
      var k :| 0 <= k < |files[1..]| && files[1..][k] == FindById(files[1..], id).value &&
               forall j :: 0 <= j < k ==> files[1..][j].id != id;
      assert files[k + 1] == FindById(files, id).value;
      assert forall j :: 0 <= j < k + 1 ==> files[j].id != id;
    } else {
      assert files[0] == FindById(files, id).value;
    }
  }

  /** Entries added behind a store never change what an id already present resolves to. */
  lemma {:induction false} FindByIdAppend(a: seq<FileData>, b: seq<FileData>, id: string)
    requires FindById(a, id).Some?
    ensures FindById(a + b, id) == FindById(a, id)
  {
    if a[0].id != id {
      assert (a + b)[1..] == a[1..] + b;
      FindByIdAppend(a[1..], b, id);
    }
  }

  // ---------------------------------------------------------------------------
  // Remote (Google Drive API v3) listing

  /** One entry of `response.result.files`; `mimeType` is always sent by the API. */
  datatype RawFile = RawFile(
    id: string,
    name: string,
    mimeType: string,
    size: Option<string>,
    createdTime: Option<string>,
    webContentLink: Option<string>,
    iconLink: Option<string>)

  /** Outcome of `gapi.client.drive.files.list`: the files, or a thrown error. */
  datatype ListResponse = Listed(files: seq<RawFile>) | ApiError

  /** The size label (`(parseInt(size)/1024/1024).toFixed(1) + " MB"`) and the
      locale date label, kept opaque. */
  datatype Labels = Labels(size: string -> string, date: string -> string)

  /** Maps a MIME type onto the four node kinds; the folder test comes first. */
  function Classify(mimeType: string): FileType
  {
    if mimeType == FolderMime then Folder
    else if "video/" <= mimeType then Video
    else if "image/" <= mimeType then Image
    else Unknown
  }

  /** Every MIME type gets exactly one kind, decided by its prefix. */
  lemma ClassifyByPrefix(mimeType: string)
    ensures Classify(mimeType) == Folder <==> mimeType == FolderMime
    ensures "video/" <= mimeType ==> Classify(mimeType) == Video
    ensures "image/" <= mimeType ==> Classify(mimeType) == Image
    ensures Classify(mimeType) == Unknown <==>
              mimeType != FolderMime && !("video/" <= mimeType) && !("image/" <= mimeType)
  {
    if "video/" <= mimeType || "image/" <= mimeType {
      assert mimeType[0] != FolderMime[0];
    }
  }

  /** One API entry as a node under the caller's virtual parent. `size` and
      `createdTime` are tested for JavaScript truthiness, so an empty string
      counts as absent; a missing date becomes the empty label. */
  function ToFileData(f: RawFile, parentId: string, labels: Labels): FileData
  {
    FileData(
      f.id, f.name, Classify(f.mimeType),
      if f.size.Some? && f.size.value != "" then Some(labels.size(f.size.value)) else None,
      Some(if f.createdTime.Some? && f.createdTime.value != "" then labels.date(f.createdTime.value) else ""),
      f.webContentLink,
      Some(parentId),
      f.iconLink,
      None, None, None)
  }

  /** The folder the API is asked about: the virtual real-drive root stands for Drive's own root. */
  function SearchId(parentId: string): string
  {
    if parentId == RealDriveRootId then RootId else parentId
  }

  /** The API path of getFiles: one node per entry in API order, every one
      under `parentId` (not the searched id); any error lists nothing. */
  function RemoteListing(parentId: string, query: string -> ListResponse, labels: Labels): (r: seq<FileData>)
    ensures query(SearchId(parentId)).ApiError? ==> r == []
    ensures query(SearchId(parentId)).Listed? ==>
              var raw := query(SearchId(parentId)).files;
              |r| == |raw| &&
              forall i :: 0 <= i < |r| ==>
                r[i].id == raw[i].id && r[i].name == raw[i].name &&
                r[i].kind == Classify(raw[i].mimeType) &&
                r[i].url == raw[i].webContentLink && r[i].thumbnail == raw[i].iconLink
    ensures query(SearchId(parentId)).Listed? ==>
              var raw := query(SearchId(parentId)).files;
              forall i :: 0 <= i < |r| ==>
                (r[i].size.None? <==> raw[i].size.None? || raw[i].size.value == "") &&
                (r[i].size.Some? ==> r[i].size.value == labels.size(raw[i].size.value)) &&
                (raw[i].createdTime.None? || raw[i].createdTime.value == "" ==> r[i].date == Some("")) &&
                (raw[i].createdTime.Some? && raw[i].createdTime.value != "" ==>
                   r[i].date == Some(labels.date(raw[i].createdTime.value))) &&
                r[i].storageTotal.None? && r[i].storageUsed.None? && r[i].usagePct.None?
    ensures forall f :: f in r ==> f.parentId == Some(parentId)
  {
    match query(SearchId(parentId))
    case ApiError => []
    case Listed(raw) => seq(|raw|, i requires 0 <= i < |raw| => ToFileData(raw[i], parentId, labels))
  }

  /** Listing the virtual real-drive root asks the API about "root" and files
      the answers under the virtual id. */
  lemma RealDriveRootQueriesRoot(query: string -> ListResponse, labels: Labels)
    requires query(RootId).Listed?
    ensures var r := RemoteListing(RealDriveRootId, query, labels);
            |r| == |query(RootId).files| &&
            forall i :: 0 <= i < |r| ==>
              r[i].id == query(RootId).files[i].id && r[i].parentId == Some(RealDriveRootId)
  {
    var r := RemoteListing(RealDriveRootId, query, labels);
    forall i | 0 <= i < |r|
      ensures r[i].parentId == Some(RealDriveRootId)
    {
      assert r[i] in r;
    }
  }

  /** getFiles takes the mock path when there is no client id, for the root,
      and for ids of the demo drive. */
  predicate UsesMockPath(config: Config, parentId: string)
  {
    config.clientId == "" || parentId == RootId || "gd-" <= parentId || "mov-" <= parentId
  }

  // ---------------------------------------------------------------------------
  // Breadcrumbs

  /** The next node getBreadcrumbs visits: none when `parentId` is missing or
      empty (falsy), otherwise the lookup of the parent id. */
  function ParentOf(files: seq<FileData>, node: FileData): Option<FileData>
  {
    if node.parentId.None? || node.parentId.value == "" then None
    else FindById(files, node.parentId.value)
  }

  /** The nodes the walk from `current` visits within `fuel` steps, top-most first. */
  function Ancestors(files: seq<FileData>, current: Option<FileData>, fuel: nat): seq<FileData>
    decreases fuel
  {
    if current.None? || fuel == 0 then []
    else Ancestors(files, ParentOf(files, current.value), fuel - 1) + [current.value]
  }

  function Crumb(f: FileData): Breadcrumb
  {
    Breadcrumb(f.id, f.name)
  }

  function Crumbs(chain: seq<FileData>): (r: seq<Breadcrumb>)
    ensures |r| == |chain| && forall i :: 0 <= i < |r| ==> r[i] == Crumb(chain[i])
  {
    seq(|chain|, i requires 0 <= i < |chain| => Crumb(chain[i]))
  }

  /** One step of the walk: the node visited moves from the pending walk to
      the front of the visited part, and its crumb to the front of the trail. */
  lemma WalkStep(files: seq<FileData>, node: FileData, fuel: nat, visited: seq<FileData>, whole: seq<FileData>)
    requires fuel > 0 && Ancestors(files, Some(node), fuel) + visited == whole
    ensures Ancestors(files, ParentOf(files, node), fuel - 1) + ([node] + visited) == whole
    ensures Crumbs([node] + visited) == [Crumb(node)] + Crumbs(visited)
  {
    var up := Ancestors(files, ParentOf(files, node), fuel - 1);
    assert (up + [node]) + visited == up + ([node] + visited);
  }

  /** What getBreadcrumbs returns: the walk of at most |files| steps from the
      node, or, for an id not in the store, a fixed fallback trail. */
  function Breadcrumbs(files: seq<FileData>, currentId: string): seq<Breadcrumb>
  {
    var chain := Ancestors(files, FindById(files, currentId), |files|);
    if chain != [] then Crumbs(chain)
    else if currentId == RootId then [Breadcrumb(RootId, "Network")]
    else if currentId == RealDriveRootId then
      [Breadcrumb(RootId, "Network"), Breadcrumb(RealDriveRootId, "Google Drive")]
    else
      [Breadcrumb(RootId, "Network"), Breadcrumb(RealDriveRootId, "Google Drive"),
       Breadcrumb(currentId, "Current Folder")]
  }

  /** The walk from a node found by lookup: it ends at that node, each node is
      the looked-up parent of the next, every node is the one its id resolves
      to, and it stops at a node without a resolvable parent unless the step
      bound ran out. */
  lemma {:induction false} AncestorsShape(files: seq<FileData>, current: Option<FileData>, fuel: nat)
    requires current.Some? && fuel > 0
    requires FindById(files, current.value.id) == current
    decreases fuel
    ensures var c := Ancestors(files, current, fuel);
            1 <= |c| <= fuel && c[|c| - 1] == current.value &&
            (forall i :: 0 <= i < |c| ==> FindById(files, c[i].id) == Some(c[i])) &&
            (forall i :: 0 <= i < |c| - 1 ==> ParentOf(files, c[i + 1]) == Some(c[i])) &&
            (ParentOf(files, c[0]).None? || |c| == fuel)
  {
    var next := ParentOf(files, current.value);
    var c := Ancestors(files, current, fuel);
    var up := Ancestors(files, next, fuel - 1);
    assert c == up + [current.value];
    if up != [] {
      assert next.Some? && fuel - 1 > 0;
      assert FindById(files, next.value.id) == next;
      AncestorsShape(files, next, fuel - 1);
      assert up[|up| - 1] == next.value;
    }
  }

  /** For an id in the store, the trail runs from the top-most reachable
      ancestor down to the node itself, each crumb copied from its node and
      each crumb the parent of the next. */
  lemma BreadcrumbsOfStoredNode(files: seq<FileData>, id: string)
    requires FindById(files, id).Some?
    ensures var b := Breadcrumbs(files, id);
            1 <= |b| <= |files| &&
            b[|b| - 1] == Crumb(FindById(files, id).value) &&
            (forall i :: 0 <= i < |b| ==>
               FindById(files, b[i].id).Some? && FindById(files, b[i].id).value.name == b[i].name) &&
            (forall i :: 0 <= i < |b| - 1 ==>
               FindById(files, b[i + 1].id).value.parentId == Some(b[i].id)) &&
            (ParentOf(files, FindById(files, b[0].id).value).None? || |b| == |files|)
  {
    var node := FindById(files, id);
    AncestorsShape(files, node, |files|);
    var c := Ancestors(files, node, |files|);
    var b := Breadcrumbs(files, id);
    assert b == Crumbs(c);
    forall i | 0 <= i < |b| - 1
      ensures FindById(files, b[i + 1].id).value.parentId == Some(b[i].id)
    {
      assert ParentOf(files, c[i + 1]) == Some(c[i]);
    }
  }

  /** Every resolvable parent is stored before its child, so parent links
      cannot form a cycle. */
  ghost predicate ParentsPrecede(files: seq<FileData>)
  {
    forall k :: 0 <= k < |files| && ParentOf(files, files[k]).Some? ==>
      exists j :: 0 <= j < k && files[j] == ParentOf(files, files[k]).value
  }

  /** When parents precede children, the walk from the node at index `k`
      reaches a node without a resolvable parent within `k + 1` steps. */
  lemma {:induction false} WalkReachesTop(files: seq<FileData>, k: int, fuel: nat)
    requires ParentsPrecede(files) && 0 <= k < |files| && fuel > k
    decreases k
    ensures var c := Ancestors(files, Some(files[k]), fuel);
            c != [] && |c| <= k + 1 && ParentOf(files, c[0]).None?
  {
    var up := Ancestors(files, ParentOf(files, files[k]), fuel - 1);
    assert Ancestors(files, Some(files[k]), fuel) == up + [files[k]];
    if ParentOf(files, files[k]).Some? {
      var j :| 0 <= j < k && files[j] == ParentOf(files, files[k]).value;
      WalkReachesTop(files, j, fuel - 1);
    }
  }

  /** When parents precede children, the trail of a stored id starts at a
      node without a resolvable parent, and the step bound never cuts it short. */
  lemma BreadcrumbsReachTop(files: seq<FileData>, id: string)
    requires ParentsPrecede(files) && FindById(files, id).Some?
    ensures var b := Breadcrumbs(files, id);
            b != [] && |b| <= |files| && FindById(files, b[0].id).Some? &&
            ParentOf(files, FindById(files, b[0].id).value).None?
  {
    FindByIdFirst(files, id);
    var k :| 0 <= k < |files| && files[k] == FindById(files, id).value &&
             forall j :: 0 <= j < k ==> files[j].id != id;
    WalkReachesTop(files, k, |files|);
    AncestorsShape(files, FindById(files, id), |files|);
    var c := Ancestors(files, FindById(files, id), |files|);
    assert Breadcrumbs(files, id) == Crumbs(c);
    assert FindById(files, c[0].id) == Some(c[0]);
  }

  /** In any store that starts with the root node, "root" is just Network. */
  lemma RootBreadcrumbs(files: seq<FileData>)
    requires |files| > 0 && files[0] == RootNode()
    ensures Breadcrumbs(files, RootId) == [Breadcrumb(RootId, "Network")]
  {
    assert FindById(files, RootId) == Some(RootNode());
    assert Ancestors(files, Some(RootNode()), |files|) == [RootNode()];
  }

  /** Ids missing from the store get the fixed trails: the root alone for
      "root", Network › Google Drive for the virtual real-drive root, and that
      followed by the id as "Current Folder" for anything else. */
  lemma BreadcrumbsOfUnknownId(files: seq<FileData>, id: string)
    requires FindById(files, id).None?
    ensures id == RootId ==> Breadcrumbs(files, id) == [Breadcrumb(RootId, "Network")]
    ensures id == RealDriveRootId ==>
              Breadcrumbs(files, id) == [Breadcrumb(RootId, "Network"), Breadcrumb(RealDriveRootId, "Google Drive")]
    ensures id != RootId && id != RealDriveRootId ==>
              Breadcrumbs(files, id) == [Breadcrumb(RootId, "Network"), Breadcrumb(RealDriveRootId, "Google Drive"),
                                         Breadcrumb(id, "Current Folder")]
  {
  }

  // ---------------------------------------------------------------------------
  // Mounting

  /** Some child of the root already has "Drive" in its name. */
  predicate HasDriveMount(files: seq<FileData>)
  {
    exists i :: 0 <= i < |files| && files[i].parentId == Some(RootId) && Contains(files[i].name, "Drive")
  }

  /** The store after mountMockDrive: the template appended behind the existing
      entries, only when no drive is mounted yet and a template exists. */
  function Mounted(files: seq<FileData>, serviceType: string): (r: seq<FileData>)
    ensures |files| <= |r| && r[..|files|] == files
    ensures r != files <==> !HasDriveMount(files) && serviceType == "gdrive"
    ensures r != files ==> r[|files|..] == GDriveTemplate()
  {
    if !HasDriveMount(files) && Template(serviceType).Some? then files + Template(serviceType).value
    else files
  }

  /** The demo drive's top folder is itself a drive mount under the root. */
  lemma TemplateIsDriveMount(files: seq<FileData>)
    ensures HasDriveMount(files + GDriveTemplate())
  {
    var name := "Google Drive (Demo)";
    assert OccursAt(name, "Drive", 7) by { assert name[7..12] == "Drive"; }
    assert (files + GDriveTemplate())[|files|] == DemoDriveRoot();
  }

  /** A second mount of any kind changes nothing. */
  lemma MountIdempotent(files: seq<FileData>, serviceType: string)
    ensures Mounted(Mounted(files, serviceType), serviceType) == Mounted(files, serviceType)
  {
    if Mounted(files, serviceType) != files {
      TemplateIsDriveMount(files);
    }
  }

  /** Mounting a provider without a template leaves the store as it was. */
  lemma MountWithoutTemplateIsNoOp(files: seq<FileData>)
    ensures Mounted(files, "dropbox") == files
    ensures Mounted(files, "onedrive") == files
  {
  }

  /** No two entries share an id. */
  ghost predicate UniqueIds(files: seq<FileData>)
  {
    forall i, j :: 0 <= i < j < |files| ==> files[i].id != files[j].id
  }

  /** In a store with unique ids, every stored node is what its id resolves to. */
  lemma {:induction false} FindByIdUnique(files: seq<FileData>, k: int)
    requires UniqueIds(files) && 0 <= k < |files|
    ensures FindById(files, files[k].id) == Some(files[k])
  {
    if k > 0 {
      assert files[0].id != files[k].id;
      assert files[1..][k - 1] == files[k];
      FindByIdUnique(files[1..], k - 1);
    }
  }

  /** The store holding the root and the demo drive. */
  function MountedStore(): seq<FileData>
  {
    [RootNode(), DemoDriveRoot(), MoviesFolder(), TvFolder(), BigBuckBunny(), ElephantDreams(), Sintel(),
     ReviewEpisode()]
  }

  /** That store has unique ids. */
  lemma MountedStoreUniqueIds()
    ensures [RootNode()] + GDriveTemplate() == MountedStore()
    ensures UniqueIds(MountedStore())
  {
  }

  /** Mounting Google Drive on a fresh store appends the whole template. */
  lemma MountFresh()
    ensures Mounted([RootNode()], "gdrive") == MountedStore()
  {
    assert !HasDriveMount([RootNode()]);
    MountedStoreUniqueIds();
  }

  /** Lookups along the path to "Big Buck Bunny.mp4" in the mounted store. */
  lemma MovieLookups()
    ensures FindById(MountedStore(), "mov-1") == Some(BigBuckBunny())
    ensures FindById(MountedStore(), "gd-movies") == Some(MoviesFolder())
    ensures FindById(MountedStore(), "gd-root") == Some(DemoDriveRoot())
    ensures FindById(MountedStore(), RootId) == Some(RootNode())
  {
    MountedStoreUniqueIds();
    var files := MountedStore();
    FindByIdUnique(files, 4);
    FindByIdUnique(files, 2);
    FindByIdUnique(files, 1);
  }

  /** A walk of four nodes, each the looked-up parent of the next, ending at
      a node without a parent. */
  lemma ChainOfFour(files: seq<FileData>, a: FileData, b: FileData, c: FileData, d: FileData, fuel: nat)
    requires fuel >= 4
    requires d.parentId == Some(c.id) && c.parentId == Some(b.id) && b.parentId == Some(a.id)
    requires a.parentId == None && a.id != "" && b.id != "" && c.id != ""
    requires FindById(files, a.id) == Some(a) && FindById(files, b.id) == Some(b)
    requires FindById(files, c.id) == Some(c)
    ensures Ancestors(files, Some(d), fuel) == [a, b, c, d]
  {
    assert Ancestors(files, Some(a), fuel - 3) == [a];
    assert Ancestors(files, Some(b), fuel - 2) == [a, b];
    assert Ancestors(files, Some(c), fuel - 1) == [a, b, c];
  }

  lemma CrumbsOfFour(a: FileData, b: FileData, c: FileData, d: FileData)
    ensures Crumbs([a, b, c, d]) == [Crumb(a), Crumb(b), Crumb(c), Crumb(d)]
  {
  }

  /** The walk from "Big Buck Bunny.mp4" up to the root in the mounted store. */
  lemma MovieWalk()
    ensures Ancestors(MountedStore(), FindById(MountedStore(), "mov-1"), |MountedStore()|) ==
              [RootNode(), DemoDriveRoot(), MoviesFolder(), BigBuckBunny()]
  {
    MovieLookups();
    ChainOfFour(MountedStore(), RootNode(), DemoDriveRoot(), MoviesFolder(), BigBuckBunny(), 8);
  }

  /** After a Google Drive mount, the trail to "Big Buck Bunny.mp4" is
      Network › Google Drive (Demo) › Movies › Big Buck Bunny.mp4. */
  lemma MountedMovieBreadcrumbs()
    ensures Breadcrumbs(Mounted([RootNode()], "gdrive"), "mov-1") ==
              [Breadcrumb(RootId, "Network"), Breadcrumb("gd-root", "Google Drive (Demo)"),
               Breadcrumb("gd-movies", "Movies"), Breadcrumb("mov-1", "Big Buck Bunny.mp4")]
  {
    MountFresh();
    MovieWalk();
    CrumbsOfFour(RootNode(), DemoDriveRoot(), MoviesFolder(), BigBuckBunny());
  }

  /** In the start-up store and the mounted store, every parent precedes its child. */
  lemma StartStoreParentsPrecede()
    ensures ParentsPrecede([RootNode()])
  {
  }

  lemma MountedStoreParentsPrecede()
    ensures ParentsPrecede(MountedStore())
  {
    var files := MountedStore();
    MountedStoreUniqueIds();
    MountedStoreParentIdsPrecede();
    forall k | 0 <= k < |files| && ParentOf(files, files[k]).Some?
      ensures exists j :: 0 <= j < k && files[j] == ParentOf(files, files[k]).value
    {
      var j :| 0 <= j < k && files[j].id == files[k].parentId.value;
      FindByIdUnique(files, j);
    }
  }

  /** Every stored parent id names a node stored earlier. */
  lemma MountedStoreParentIdsPrecede()
    ensures var files := MountedStore();
            forall k :: 0 <= k < |files| && files[k].parentId.Some? ==>
              exists j :: 0 <= j < k && files[j].id == files[k].parentId.value
  {
    var files := MountedStore();
    forall k | 0 <= k < |files| && files[k].parentId.Some?
      ensures exists j :: 0 <= j < k && files[j].id == files[k].parentId.value
    {
      var j := if k == 1 then 0 else if k <= 3 then 1 else if k <= 6 then 2 else 3;
      assert files[j].id == files[k].parentId.value;
    }
  }

  // ---------------------------------------------------------------------------
  // The store

  /** The module-level `mockFiles` list and the operations over it. */
  class FileSystem {
    var mockFiles: seq<FileData>

    /** The store only ever holds the root, or the root and the demo drive. */
    ghost predicate Valid()
      reads this
    {
      mockFiles == [RootNode()] || mockFiles == [RootNode()] + GDriveTemplate()
    }

    constructor ()
      ensures Valid() && mockFiles == [RootNode()]
    {
      mockFiles := [RootNode()];
    }

    /** getFiles: every node it returns is filed under `parentId`. The mock
        store answers unless a client id is set and the id is neither the
        root nor a demo-drive id; the root with the API ready is the single
        real-drive folder. */
    function GetFiles(config: Config, parentId: string, query: string -> ListResponse, labels: Labels): (r: seq<FileData>)
      reads this
      ensures forall f :: f in r ==> f.parentId == Some(parentId)
      ensures config.clientId == "" ==> r == ChildrenOf(mockFiles, parentId)
      ensures parentId == RootId ==>
                r == if config.clientId != "" && config.gapiInited then [RealDriveRoot()]
                     else ChildrenOf(mockFiles, RootId)
      ensures ("gd-" <= parentId || "mov-" <= parentId) ==> r == ChildrenOf(mockFiles, parentId)
      ensures !UsesMockPath(config, parentId) ==> r == RemoteListing(parentId, query, labels)
    {
      assert RootId[0] != "gd-"[0] && RootId[0] != "mov-"[0];
      if UsesMockPath(config, parentId) then
        if config.clientId != "" && config.gapiInited && parentId == RootId then [RealDriveRoot()]
        else ChildrenOf(mockFiles, parentId)
      else RemoteListing(parentId, query, labels)
    }

    /** getFileById: the first stored node carrying `id`, or none when no
        stored node does. */
    function GetFileById(id: string): (r: Option<FileData>)
      reads this
      ensures r.None? <==> forall f :: f in mockFiles ==> f.id != id
      ensures r.Some? ==>
                r.value.id == id &&
                exists k :: 0 <= k < |mockFiles| && mockFiles[k] == r.value &&
                            forall j :: 0 <= j < k ==> mockFiles[j].id != id
    {
      var found := FindById(mockFiles, id);
      if found.Some? then FindByIdFirst(mockFiles, id); found else found
    }

    /** getBreadcrumbs. The source loop follows parent links with no bound;
        here it stops after |mockFiles| steps, which only matters for a store
        whose links form a cycle. */
    method GetBreadcrumbs(currentId: string) returns (crumbs: seq<Breadcrumb>)
      ensures crumbs == Breadcrumbs(mockFiles, currentId)
    {
      var n := |mockFiles|;
      ghost var whole := Ancestors(mockFiles, FindById(mockFiles, currentId), n);
      ghost var visited: seq<FileData> := [];
      crumbs := [];
      var current := GetFileById(currentId);
      var steps := 0;
      while current.Some? && steps < n
        invariant 0 <= steps <= n
        invariant Ancestors(mockFiles, current, n - steps) + visited == whole
        invariant crumbs == Crumbs(visited)
        decreases n - steps
      {
        var node := current.value;
        WalkStep(mockFiles, node, n - steps, visited, whole);
        crumbs := [Crumb(node)] + crumbs;
        visited := [node] + visited;
        steps := steps + 1;
        if node.parentId.None? || node.parentId.value == "" {
          current := None;
        } else {
          current := GetFileById(node.parentId.value);
        }
      }
      assert visited == whole;
      if |crumbs| == 0 && currentId != RootId {
        if currentId == RealDriveRootId {
          crumbs := crumbs + [Breadcrumb(RootId, "Network")];
          crumbs := crumbs + [Breadcrumb(RealDriveRootId, "Google Drive")];
        } else {
          crumbs := crumbs + [Breadcrumb(RootId, "Network")];
          crumbs := crumbs + [Breadcrumb(RealDriveRootId, "Google Drive")];
          crumbs := crumbs + [Breadcrumb(currentId, "Current Folder")];
        }
      } else if |crumbs| == 0 && currentId == RootId {
        crumbs := crumbs + [Breadcrumb(RootId, "Network")];
      }
    }

    /** mountMockDrive: grafts the provider's canned subtree under the root. */
    method MountMockDrive(serviceType: string)
      requires Valid()
      modifies this
      ensures Valid()
      ensures mockFiles == Mounted(old(mockFiles), serviceType)
    {
      TemplateIsDriveMount([RootNode()]);
      var mounted := HasDriveMount(mockFiles);
      if !mounted && Template(serviceType).Some? {
        mockFiles := mockFiles + Template(serviceType).value;
      }
    }
  }

  /** Both stores the program can reach have unique ids, so every stored node
      is what getFileById returns for its own id, and parents precede children. */
  lemma ValidStoreLookups(fs: FileSystem)
    requires fs.Valid()
    ensures UniqueIds(fs.mockFiles) && ParentsPrecede(fs.mockFiles)
    ensures forall k :: 0 <= k < |fs.mockFiles| ==>
              fs.GetFileById(fs.mockFiles[k].id) == Some(fs.mockFiles[k])
  {
    if fs.mockFiles == [RootNode()] {
      StartStoreParentsPrecede();
    } else {
      MountedStoreUniqueIds();
      MountedStoreParentsPrecede();
    }
    forall k | 0 <= k < |fs.mockFiles|
      ensures fs.GetFileById(fs.mockFiles[k].id) == Some(fs.mockFiles[k])
    {
      FindByIdUnique(fs.mockFiles, k);
    }
  }

  /** In a reachable store, the trail of a stored id always starts at a node
      with no resolvable parent: the step bound never applies. */
  lemma ValidStoreTrailsReachTop(fs: FileSystem, id: string)
    requires fs.Valid() && fs.GetFileById(id).Some?
    ensures var b := Breadcrumbs(fs.mockFiles, id);
            b != [] && b[|b| - 1] == Crumb(fs.GetFileById(id).value) &&
            fs.GetFileById(b[0].id).Some? && ParentOf(fs.mockFiles, fs.GetFileById(b[0].id).value).None?
  {
    ValidStoreLookups(fs);
    BreadcrumbsReachTop(fs.mockFiles, id);
    BreadcrumbsOfStoredNode(fs.mockFiles, id);
  }

  /** The shipped configuration has no client id, so every listing comes from
      the mock store. */
  lemma ShippedListsMockStore(fs: FileSystem, parentId: string, query: string -> ListResponse, labels: Labels)
    ensures fs.GetFiles(Shipped, parentId, query, labels) == ChildrenOf(fs.mockFiles, parentId)
  {
  }
}
