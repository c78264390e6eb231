/** The Android client's screen (MainActivity.kt, embedded in App.tsx): the
    folder it shows, the trail of folders it came through, and what a tap on
    a row does. The Drive request is the `api` parameter and the signed-in
    account's token the `authToken` parameter; toasts, sign-in and starting
    the player are not part of this model. */
module MainActivity {
  import opened Common
  import opened DriveService
  import opened MxPlayerHelper

  class Activity {
    /** `currentFolderId`: the folder whose listing is shown. */
    var currentFolderId: string
    /** `breadcrumbs`: (folder id, name of the folder opened from it), oldest first. */
    var breadcrumbs: seq<(string, string)>
    /** `adapter.currentList`: the rows on screen. */
    var currentList: seq<DriveFile>

    constructor()
      ensures currentFolderId == "root" && breadcrumbs == [] && currentList == []
    {
      currentFolderId := "root";
      breadcrumbs := [];
      currentList := [];
    }

    /** `initializeDrive`: once signed in, the root folder is loaded. */
    method InitializeDrive(api: string -> Option<seq<ApiFile>>)
      modifies this
      ensures breadcrumbs == old(breadcrumbs)
      ensures ListFiles("root", api).Some? ==>
                currentFolderId == "root" && currentList == ListFiles("root", api).value
      ensures ListFiles("root", api).None? ==>
                currentFolderId == old(currentFolderId) && currentList == old(currentList)
    {
      LoadFolder("root", api);
    }

    /** `loadFolder`: on a successful listing the folder becomes current and its
        files are shown; on a failed one nothing on screen changes. */
    method LoadFolder(folderId: string, api: string -> Option<seq<ApiFile>>)
      modifies this
      ensures breadcrumbs == old(breadcrumbs)
      ensures ListFiles(folderId, api).Some? ==>
                currentFolderId == folderId && currentList == ListFiles(folderId, api).value
      ensures ListFiles(folderId, api).None? ==>
                currentFolderId == old(currentFolderId) && currentList == old(currentList)
    {
      var files := ListFiles(folderId, api);
      if files.Some? {
        currentFolderId := folderId;
        currentList := files.value;
      }
    }

    /** `onFileClicked`: a folder pushes a breadcrumb and is loaded; a video
        launches the player on the rows currently shown; anything else is
        ignored. The returned launch is the one handed to the player. */
    method OnFileClicked(file: DriveFile, api: string -> Option<seq<ApiFile>>, authToken: Option<string>)
      returns (launch: Option<Launch>)
      modifies this
      ensures IsFolder(file) ==>
                launch.None? &&
                breadcrumbs == old(breadcrumbs) + [(old(currentFolderId), file.name)] &&
                (ListFiles(file.id, api).Some? ==>
                   currentFolderId == file.id && currentList == ListFiles(file.id, api).value) &&
                (ListFiles(file.id, api).None? ==>
                   currentFolderId == old(currentFolderId) && currentList == old(currentList))
      ensures !IsFolder(file) ==>
                currentFolderId == old(currentFolderId) && breadcrumbs == old(breadcrumbs) &&
                currentList == old(currentList) &&
                launch == (if IsVideo(file) then LaunchFor(file, currentList, authToken) else None)
    {
      launch := None;
      if IsFolder(file) {
        breadcrumbs := breadcrumbs + [(currentFolderId, file.name)];
        LoadFolder(file.id, api);
      } else if IsVideo(file) {
        launch := LaunchWithPlaylist(file, currentList, authToken);
      }
    }
  }

  /** Tapping a video that is one of the rows shown always starts the player,
      titled with that video, and its playlist is written from those rows. */
  lemma TappedVideoLaunches(file: DriveFile, rows: seq<DriveFile>, authToken: Option<string>)
    requires file in rows && IsVideo(file)
    ensures LaunchFor(file, rows, authToken).Some?
    ensures LaunchFor(file, rows, authToken).value.intent.title == file.name
    ensures LaunchFor(file, rows, authToken).value.playlist == PlaylistText(rows)
  {
    assert file in Videos(rows);
  }
}
