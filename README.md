# CX Network Explorer: a Dafny model of the file tree and the MX Player hand-off

CX Network Explorer is a media browser. The web front end keeps an in-memory
tree of nodes. The tree starts as a single "Network" root. A demo Google
Drive can be mounted under the root, and a real Drive account can be listed
through the Drive API. The Android client, whose Kotlin sources are embedded
in `App.tsx`, lists a Drive folder. When a video is tapped, it writes an
extended-M3U playlist of the folder's videos and launches MX Player on it.

The model has six modules:

- `Common`: an optional value, plus JavaScript's `String.prototype.includes` as `Contains`.
- `Types`: the node record (`FileData`) and the breadcrumb record from `types.ts`.
- `MockFileSystem`: `services/mockFileSystem.ts`, covering:
  - the mutable node list, as class `FileSystem` with field `mockFiles`, and the demo-drive template;
  - `getFiles`, with its mock/API routing, the mock filter and the mapping of API entries;
  - `getFileById` and `getBreadcrumbs` (an imperative loop proved against the `Breadcrumbs` function);
  - `mountMockDrive`.
- `DriveService`: `DriveFile` with `isFolder`/`isVideo`, and the mapping in `listFiles`.
- `MxPlayerHelper`: `launchWithPlaylist`.
  - Its StringBuilder loop is proved against `PlaylistText`.
  - `ParsePlaylist` reads the text back (`PlaylistRoundTrip`).
- `MainActivity`: the screen's state, as class `Activity`, with `loadFolder`, `onFileClicked` and `initializeDrive`.

External effects become parameters:

- The Drive API call is `query`/`api`, a function from a folder id to a listing or an error.
- `CLIENT_ID`/`gapiInited` form a `Config`. The shipped value `Shipped` has an empty client id, so every listing comes from the mock store (`ShippedListsMockStore`).
- The size and date display formatters are `Labels`.
- The OAuth token is `authToken`.

Timers (`setTimeout` delays) are taken to fire at once. A tap on a video returns the `Launch` value: the playlist text and the intent that would be started.

Behaviour of the code that the lemmas pin down:

- The playlist is written in listing order (App.tsx:254-259), and the tapped file sets only the title (App.tsx:286). A tapped file missing from the listing still launches as long as the listing holds a video (`LaunchFor`, `PlaylistKeepsListingOrder`).
- A failed web listing yields an empty list (services/mockFileSystem.ts:196-199, `RemoteListing`).
- A failed Android listing leaves the screen unchanged (App.tsx:141-145, `Activity.LoadFolder`).
- In both stores the program can reach, parent links never loop, so every breadcrumb trail climbs to a node without a parent (`ValidStoreTrailsReachTop`).

## Model

| member | source | states |
|---|---|---|
| MockFileSystem.Template | services/mockFileSystem.ts:20-72 | A provider has a canned subtree exactly when it is "gdrive". |
| MockFileSystem.MountedStoreUniqueIds | services/mockFileSystem.ts:16-72 | The root followed by the demo-drive template is the eight-node store, and no two of its nodes share an id. |
| MockFileSystem.ValidStoreLookups | services/mockFileSystem.ts:202-206 | In a store the `FileSystem` can reach (root alone, or root plus demo drive), ids are unique, parents precede children, and `getFileById` returns every stored node for its own id. |
| MockFileSystem.StartStoreParentsPrecede | services/mockFileSystem.ts:16-18 | In the start-up store the root is the only node and has no parent, so parents trivially precede children. |
| MockFileSystem.MountedStoreParentsPrecede | services/mockFileSystem.ts:16-72 | In the mounted store, every resolvable parent is stored before its child. |
| MockFileSystem.MountedStoreParentIdsPrecede | services/mockFileSystem.ts:16-72 | In the mounted store, every parent id names a node stored earlier. |
| MockFileSystem.FileSystem.constructor | services/mockFileSystem.ts:16-18 | The store starts as the single "Network" root with no parent. |
| MockFileSystem.ChildrenOf | services/mockFileSystem.ts:157 | A node is listed under a parent id exactly when it is stored with that parent id; the listing is no longer than the store. |
| MockFileSystem.ChildrenOfAppend | services/mockFileSystem.ts:157 | Filtering distributes over concatenation, so children come out in store order. |
| MockFileSystem.ChildrenOfSingle | services/mockFileSystem.ts:157 | A single node is listed exactly when its parent id matches. |
| MockFileSystem.ChildrenOfChildless | services/mockFileSystem.ts:157 | An id no node names as parent lists as empty. |
| MockFileSystem.ClassifyByPrefix | services/mockFileSystem.ts:175-179 | The folder MIME type is exactly the folder kind. "video/" and "image/" prefixes give video and image. Everything else is unknown. |
| MockFileSystem.RemoteListing | services/mockFileSystem.ts:162-199 | On an API error, the listing is empty. Otherwise there is one node per API entry, in API order, with id, name, kind, url and thumbnail carried over. The size label is absent exactly when the raw size is absent or empty, and is the formatted size otherwise. The date is the empty label when `createdTime` is absent or empty, and the formatted date otherwise. No storage fields are set. Every node is filed under the requested id, not the searched one. |
| MockFileSystem.RealDriveRootQueriesRoot | services/mockFileSystem.ts:164 | Listing "real-drive-root" asks the API about "root" and files the answers under "real-drive-root". |
| MockFileSystem.ShippedListsMockStore | services/mockFileSystem.ts:8 | With the shipped empty `CLIENT_ID`, every `getFiles` call answers from the mock store. |
| MockFileSystem.FileSystem.GetFiles | services/mockFileSystem.ts:136-200 | Every node returned is filed under the requested id. Without a client id, the mock filter answers. "root" gives the single real-drive folder once the API is ready, and the mock root's children otherwise. "gd-"/"mov-" ids use the mock filter. Any other id goes to the API listing. |
| MockFileSystem.FindById | services/mockFileSystem.ts:205 | The lookup fails exactly when no stored node has the id; a found node has the id and is stored. |
| MockFileSystem.FindByIdFirst | services/mockFileSystem.ts:205 | The node found is the first stored node with that id. |
| MockFileSystem.FindByIdAppend | services/mockFileSystem.ts:205 | Appending nodes (as a mount does) never changes what an id already present resolves to. |
| MockFileSystem.FindByIdUnique | services/mockFileSystem.ts:205 | In a store with unique ids, every stored node is what its own id resolves to. |
| MockFileSystem.FileSystem.GetFileById | services/mockFileSystem.ts:202-206 | No node exactly when no stored node has the id; otherwise the first stored node with that id. |
| MockFileSystem.AncestorsShape | services/mockFileSystem.ts:210-216 | The walk from a node ends at that node, and each step is the looked-up parent of the next. It stops at a node whose parent is missing or unresolvable, or when the step bound runs out. |
| MockFileSystem.BreadcrumbsOfStoredNode | services/mockFileSystem.ts:208-217 | For a stored id, the trail ends with that node's crumb. Every crumb names a stored node with the same name, each crumb's node is the parent of the next, and the first crumb has no resolvable parent (unless the step bound ran out). |
| MockFileSystem.WalkReachesTop | services/mockFileSystem.ts:210-216 | When parents precede children, the walk from the node at index k reaches a node without a resolvable parent within k + 1 steps. |
| MockFileSystem.BreadcrumbsReachTop | services/mockFileSystem.ts:208-217 | When parents precede children, a stored id's trail is non-empty and no longer than the store, and its first crumb names a node without a resolvable parent. |
| MockFileSystem.ValidStoreTrailsReachTop | services/mockFileSystem.ts:208-217 | In a store the `FileSystem` can reach, a stored id's trail ends with that node, and its first crumb is a node without a resolvable parent: the step bound never applies. |
| MockFileSystem.RootBreadcrumbs | services/mockFileSystem.ts:229-231 | In any store that starts with the root, the trail of "root" is just Network. |
| MockFileSystem.BreadcrumbsOfUnknownId | services/mockFileSystem.ts:220-232 | An id not in the store gets a fixed trail. "root" gets Network. "real-drive-root" gets Network › Google Drive. Any other id gets those two followed by itself as "Current Folder". |
| MockFileSystem.FileSystem.GetBreadcrumbs | services/mockFileSystem.ts:208-235 | The loop (prepend, stop at a missing parent, then the fallbacks) returns exactly `Breadcrumbs`, whose properties are the lemmas above. |
| MockFileSystem.MovieLookups | services/mockFileSystem.ts:202-206 | In the mounted store, "mov-1", "gd-movies", "gd-root" and "root" resolve to their template nodes. |
| MockFileSystem.MovieWalk | services/mockFileSystem.ts:210-216 | The walk from Big Buck Bunny.mp4 visits root, demo drive, Movies, then the video. |
| MockFileSystem.MountedMovieBreadcrumbs | services/mockFileSystem.ts:208-235 | After mounting Google Drive on a fresh store, the trail of "mov-1" is Network › Google Drive (Demo) › Movies › Big Buck Bunny.mp4. |
| Common.Contains | services/mockFileSystem.ts:241 | `includes` holds exactly when the substring occurs at some position. |
| MockFileSystem.Mounted | services/mockFileSystem.ts:238-248 | Mounting keeps the existing nodes as a prefix. The store changes exactly when no root child's name contains "Drive" and the provider is "gdrive", and then the template is appended. |
| MockFileSystem.TemplateIsDriveMount | services/mockFileSystem.ts:241 | After the template is appended, a root child's name contains "Drive". |
| MockFileSystem.MountIdempotent | services/mockFileSystem.ts:241-243 | Mounting twice is the same as mounting once. |
| MockFileSystem.MountWithoutTemplateIsNoOp | services/mockFileSystem.ts:242 | Mounting "dropbox" or "onedrive" leaves the store unchanged. |
| MockFileSystem.MountFresh | services/mockFileSystem.ts:238-248 | Mounting "gdrive" on the start-up store gives the root followed by the whole template. |
| MockFileSystem.FileSystem.MountMockDrive | services/mockFileSystem.ts:238-248 | The new store is `Mounted` of the old one, and the store stays one of the two reachable shapes. |
| DriveService.KindTestsAgreeWithClassify | App.tsx:180-181 | `isFolder` and `isVideo` never both hold, and each agrees with the web client's classification of the same MIME type. |
| DriveService.ListFiles | App.tsx:198-218 | A failed request is a failure. Otherwise there is one `DriveFile` per API entry, in order, with fields carried over, a missing size stored as 0 and the icon link as thumbnail. |
| MxPlayerHelper.Videos | App.tsx:236 | A file is kept exactly when it is in the listing and is a video. |
| MxPlayerHelper.VideosAppend | App.tsx:236 | The video filter distributes over concatenation, so videos keep listing order. |
| MxPlayerHelper.PlayableMembers | App.tsx:254-259 | Each playlist entry comes from a video with a non-empty link, and each such video gives an entry. |
| MxPlayerHelper.PlayableOfUnlinked | App.tsx:254-259 | Videos without a non-empty link give no entries. |
| MxPlayerHelper.AppendVideoLines | App.tsx:254-259 | One pass of the loop appends the `#EXTINF` line and the link line for a linked video, and nothing otherwise. |
| MxPlayerHelper.WritePlaylist | App.tsx:245-259 | The StringBuilder holds the `#EXTM3U` header followed by the two lines of every linked video, in order. |
| MxPlayerHelper.LaunchFor | App.tsx:235-287 | There is no launch exactly when the listing holds no video. Otherwise the launch carries the playlist text and a VIEW intent of type "audio/x-mpegurl" for "com.mxtech.videoplayer.ad", with read permission granted. The title is the tapped file's name. A `headers` pair "Authorization", "Bearer <token>" is present exactly when a token is given. |
| MxPlayerHelper.LaunchWithPlaylist | App.tsx:235-287 | The method returns exactly `LaunchFor`. |
| MxPlayerHelper.PlaylistKeepsListingOrder | App.tsx:239-252 | With two linked videos, tapping either one writes both in listing order, titled with the tapped one. |
| MxPlayerHelper.HeaderOnlyPlaylist | App.tsx:236-259 | A listing with videos but no linked video still launches, with a header-only playlist. |
| MxPlayerHelper.EmptyLinkSkipped | App.tsx:255-258 | A video with an empty link contributes nothing after a linked one. |
| MxPlayerHelper.EmptyLinkSkippedExample | App.tsx:245-259 | A.mp4 with a link and B.mp4 with an empty link give exactly `#EXTM3U`, `#EXTINF:-1, A.mp4`, `http://x/a`. |
| MxPlayerHelper.PlaylistRoundTrip | App.tsx:245-259 | If names and links hold no newline, reading the written playlist back gives exactly the entries of the linked videos, in order. |
| MainActivity.Activity.constructor | App.tsx:88-89 | The screen starts at folder "root" with an empty breadcrumb list. |
| MainActivity.Activity.LoadFolder | App.tsx:133-147 | On a successful listing, the folder becomes current and its files are shown. On a failed one, nothing changes. Breadcrumbs are untouched. |
| MainActivity.Activity.InitializeDrive | App.tsx:128-131 | Once a Drive service exists, the root folder is loaded. |
| MainActivity.Activity.OnFileClicked | App.tsx:149-157 | A folder pushes (previous folder id, folder name) and loads the folder. A video leaves the state alone and launches `LaunchFor` on the rows shown. Anything else does nothing. |
| MainActivity.TappedVideoLaunches | App.tsx:149-157 | Tapping a video that is one of the rows shown always launches, titled with that video, with the playlist of those rows. |

## Left out

- MockFileSystem.FileSystem.GetBreadcrumbs: the source loop follows parent links with no bound. The model stops after as many steps as there are stored nodes. The two agree unless the parent links form a cycle, where the source never returns. Neither store the program can reach has such a cycle (`ValidStoreTrailsReachTop`).
- MockFileSystem.Template: `cloudDriveTemplates[serviceType]` is a plain object lookup. Inherited keys such as "toString" are not modelled; only "gdrive" yields a template.
- MockFileSystem.RemoteListing:
  - The size label (`parseInt`, `toFixed`) and the locale date label are opaque functions. The contract states when each is applied and to what, but not the text they produce.
  - A response entry without `mimeType` makes the source throw and list nothing. The model takes `mimeType` as always present.
  - The request's `pageSize` of 100 and its field list are left out.
- DriveService.ListFiles: the server-side ordering `orderBy "folder, name"` and the query string are not modelled. The API's answer is taken as given.
- `initGoogleDrive` and `loginToGoogleDrive` (script loading, the OAuth token client, the simulated login) are outside this model. Their outcome enters only as `Config`.
- The `setTimeout` delays in `getFiles` and `mountMockDrive` are taken as immediate, so the ordering of overlapping calls is not modelled.
- MainActivity.Activity.LoadFolder: the coroutine is treated as running to completion at the call. The source applies a listing whenever it arrives, even after the user has tapped elsewhere; that interleaving of several in-flight listings is not modelled. The error toast is left out.
- MxPlayerHelper.LaunchWithPlaylist: writing `playlist.m3u8`, the FileProvider content URI and `startActivity` are not modelled. The launch carries the playlist text instead of a URI, and a missing MX Player is swallowed by the source.
- `DriveService.authToken`, Google sign-in (`onCreate`, `requestSignIn`, `onActivityResult`) and the RecyclerView adapter are outside this model. The token and the rows shown are plain values.
- `usagePct` is an integer. Floating point is not modelled.
- `services/geminiService.ts` and the React components are not part of this model.
