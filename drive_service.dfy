/** The Android client's view of Google Drive (DriveService.kt, embedded in
    App.tsx): a file record with its two kind tests, and the mapping of one
    page of API results onto those records. The HTTP request itself is a
    parameter: it answers a folder id with the API's entries, or fails. */
module DriveService {
  import opened Common
  import MockFileSystem
  import Types

  /** `DriveFile`: an absent size is stored as 0. */
  datatype DriveFile = DriveFile(
    id: string,
    name: string,
    mimeType: string,
    size: int,
    webContentLink: Option<string>,
    thumbnailLink: Option<string>)

  /** `DriveFile.isFolder`. */
  predicate IsFolder(f: DriveFile)
  {
    f.mimeType == MockFileSystem.FolderMime
  }

  /** `DriveFile.isVideo`. */
  predicate IsVideo(f: DriveFile)
  {
    "video/" <= f.mimeType
  }

  /** The two kind tests never both hold, and they agree with the web client's
      classification of the same MIME type. */
  lemma KindTestsAgreeWithClassify(f: DriveFile)
    ensures !(IsFolder(f) && IsVideo(f))
    ensures IsFolder(f) <==> MockFileSystem.Classify(f.mimeType) == Types.Folder
    ensures IsVideo(f) <==> MockFileSystem.Classify(f.mimeType) == Types.Video
  {
    MockFileSystem.ClassifyByPrefix(f.mimeType);
    if IsVideo(f) {
      assert f.mimeType[0] != MockFileSystem.FolderMime[0];
    }
  }

  /** One entry of `result.files` as the Java client returns it. */
  datatype ApiFile = ApiFile(
    id: string,
    name: string,
    mimeType: string,
    size: Option<int>,
    webContentLink: Option<string>,
    iconLink: Option<string>)

  function ToDriveFile(f: ApiFile): DriveFile
  {
    DriveFile(f.id, f.name, f.mimeType, if f.size.Some? then f.size.value else 0,
              f.webContentLink, f.iconLink)
  }

  /** `listFiles(folderId)`: asks the API for the folder's children; a failed
      request (an exception in the source) is `None`, otherwise one record per
      entry, in the API's order. */
  function ListFiles(folderId: string, api: string -> Option<seq<ApiFile>>): (r: Option<seq<DriveFile>>)
    ensures r.None? <==> api(folderId).None?
    ensures r.Some? ==>
              var raw := api(folderId).value;
              |r.value| == |raw| &&
              forall i :: 0 <= i < |raw| ==>
                r.value[i].id == raw[i].id && r.value[i].name == raw[i].name &&
                r.value[i].mimeType == raw[i].mimeType &&
                r.value[i].size == (if raw[i].size.Some? then raw[i].size.value else 0) &&
                r.value[i].webContentLink == raw[i].webContentLink &&
                r.value[i].thumbnailLink == raw[i].iconLink
  {
    match api(folderId)
    case None => None
    case Some(raw) => Some(seq(|raw|, i requires 0 <= i < |raw| => ToDriveFile(raw[i])))
  }
}
