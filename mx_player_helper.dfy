/** Handing a folder's videos to MX Player (MXPlayerHelper.kt, embedded in
    App.tsx): the folder listing is filtered to videos, written out as an
    extended-M3U playlist in listing order, and wrapped in a launch request
    naming the playlist's MIME type, the player's package, a title and, when a
    token is at hand, an `Authorization: Bearer` header (section 2.1 of
    RFC 6750). Writing the file, the content URI and starting the activity
    are not modelled: the launch carries the playlist text itself. */
module MxPlayerHelper {
  import opened Common
  import opened DriveService

  const Header := "#EXTM3U\n"
  const InfoPrefix := "#EXTINF:-1, "
  const PlaylistMime := "audio/x-mpegurl"
  const PlayerPackage := "com.mxtech.videoplayer.ad"
  const ActionView := "android.intent.action.VIEW"

  /** One playable item: the name on its `#EXTINF` line and the URL line. */
  datatype Entry = Entry(name: string, url: string)

  /** The intent handed to the player. `headers` is the name/value array of
      the `headers` extra, absent without a token. */
  datatype Intent = Intent(
    action: string,
    mimeType: string,
    package: string,
    grantReadUri: bool,
    headers: Option<seq<string>>,
    title: string)

  datatype Launch = Launch(playlist: string, intent: Intent)

  // ---------------------------------------------------------------------------
  // The playlist as data

  /** `allFiles.filter { it.isVideo }`. */
  function Videos(files: seq<DriveFile>): (r: seq<DriveFile>)
    ensures forall f :: f in r <==> f in files && IsVideo(f)
  {
    if files == [] then []
    else
      assert forall f :: f in files ==> f == files[0] || f in files[1..];
      if IsVideo(files[0]) then [files[0]] + Videos(files[1..]) else Videos(files[1..])
  }

  /** A video is written to the playlist only with a non-empty link. */
  predicate HasLink(f: DriveFile)
  {
    f.webContentLink.Some? && f.webContentLink.value != ""
  }

  /** The entries the playlist lists, in the order of `videos`. */
  function Playable(videos: seq<DriveFile>): (r: seq<Entry>)
    ensures |r| <= |videos|
  {
    if videos == [] then []
    else
      var f := videos[0];
      if HasLink(f) then [Entry(f.name, f.webContentLink.value)] + Playable(videos[1..])
      else Playable(videos[1..])
  }

  /** Exactly the videos with a non-empty link contribute an entry. */
  lemma {:induction false} PlayableMembers(videos: seq<DriveFile>)
    ensures forall e :: e in Playable(videos) ==>
              exists f :: f in videos && HasLink(f) && e == Entry(f.name, f.webContentLink.value)
    ensures forall f :: f in videos && HasLink(f) ==> Entry(f.name, f.webContentLink.value) in Playable(videos)
  {
    if videos != [] {
      PlayableMembers(videos[1..]);
      assert forall g :: g in videos[1..] ==> g in videos;
      assert forall g :: g in videos ==> g == videos[0] || g in videos[1..];
    }
  }

  /** Playable entries of a listing extended by one video. */
  lemma {:induction false} PlayableSnoc(videos: seq<DriveFile>, f: DriveFile)
    ensures Playable(videos + [f]) ==
              Playable(videos) + (if HasLink(f) then [Entry(f.name, f.webContentLink.value)] else [])
  {
    if videos == [] {
      assert videos + [f] == [f];
    } else {
      assert (videos + [f])[0] == videos[0] && (videos + [f])[1..] == videos[1..] + [f];
      PlayableSnoc(videos[1..], f);
    }
  }

  // ---------------------------------------------------------------------------
  // The playlist as text

  /** The two lines written for one entry. */
  function EntryText(e: Entry): string
  {
    (InfoPrefix + e.name + "\n") + (e.url + "\n")
  }

  function Render(entries: seq<Entry>): string
  {
    if entries == [] then "" else EntryText(entries[0]) + Render(entries[1..])
  }

  lemma {:induction false} RenderAppend(a: seq<Entry>, b: seq<Entry>)
    ensures Render(a + b) == Render(a) + Render(b)
  {
    if a == [] {
      assert a + b == b;
    } else {
      assert (a + b)[0] == a[0] && (a + b)[1..] == a[1..] + b;
      RenderAppend(a[1..], b);
    }
  }

  /** The playlist text written for a folder listing. */
  function PlaylistText(allFiles: seq<DriveFile>): string
  {
    Header + Render(Playable(Videos(allFiles)))
  }

  /** The launch the helper produces: none when the listing holds no video;
      otherwise the playlist of every linked video in listing order, typed as
      an M3U playlist for MX Player, titled with the clicked file's name and
      carrying a bearer header exactly when a token is given. */
  function LaunchFor(startFile: DriveFile, allFiles: seq<DriveFile>, authToken: Option<string>): (r: Option<Launch>)
    ensures r.None? <==> forall f :: f in allFiles ==> !IsVideo(f)
    ensures r.Some? ==>
              r.value.playlist == PlaylistText(allFiles) &&
              r.value.intent.action == ActionView &&
              r.value.intent.mimeType == PlaylistMime &&
              r.value.intent.package == PlayerPackage &&
              r.value.intent.grantReadUri &&
              r.value.intent.title == startFile.name &&
              (r.value.intent.headers.Some? <==> authToken.Some?) &&
              (authToken.Some? ==> r.value.intent.headers.value == ["Authorization", "Bearer " + authToken.value])
  {
    var videos := Videos(allFiles);
    if videos == [] then None
    else
      assert videos[0] in allFiles;
      var headers := if authToken.Some? then Some(["Authorization", "Bearer " + authToken.value]) else None;
      Some(Launch(PlaylistText(allFiles), Intent(ActionView, PlaylistMime, PlayerPackage, true, headers, startFile.name)))
  }

  /** The text one video adds to the playlist. */
  function Lines(f: DriveFile): string
  {
    if HasLink(f) then EntryText(Entry(f.name, f.webContentLink.value)) else ""
  }

  /** The text the loop appends for one more video. */
  lemma AppendVideo(done: seq<DriveFile>, f: DriveFile)
    ensures Render(Playable(done + [f])) == Render(Playable(done)) + Lines(f)
  {
    PlayableSnoc(done, f);
    if HasLink(f) {
      var e := Entry(f.name, f.webContentLink.value);
      RenderAppend(Playable(done), [e]);
      assert Render([e]) == EntryText(e) + Render([]);
    } else {
      assert Playable(done) + [] == Playable(done);
    }
  }

  /** One pass of the loop over the videos: the `#EXTINF` line and the link
      line when the video has a non-empty link, nothing otherwise. */
  method AppendVideoLines(sb: string, video: DriveFile) returns (out: string)
    ensures out == sb + Lines(video)
  {
    out := sb;
    if video.webContentLink.Some? && video.webContentLink.value != "" {
      out := out + (InfoPrefix + video.name + "\n");
      out := out + (video.webContentLink.value + "\n");
    }
  }

  /** Appending one more video's lines keeps the text equal to the playlist
      of the videos seen so far. */
  lemma WriteStep(videos: seq<DriveFile>, i: int, sb: string)
    requires 0 <= i < |videos| && sb == Header + Render(Playable(videos[..i]))
    ensures sb + Lines(videos[i]) == Header + Render(Playable(videos[..i + 1]))
  {
    assert videos[..i + 1] == videos[..i] + [videos[i]];
    AppendVideo(videos[..i], videos[i]);
  }

  /** The StringBuilder pass of `launchWithPlaylist`: the header, then the
      lines of every linked video in order. */
  method WritePlaylist(videos: seq<DriveFile>) returns (sb: string)
    ensures sb == Header + Render(Playable(videos))
  {
    sb := Header;
    var i := 0;
    while i < |videos|
      invariant 0 <= i <= |videos|
      invariant sb == Header + Render(Playable(videos[..i]))
    {
      WriteStep(videos, i, sb);
      sb := AppendVideoLines(sb, videos[i]);
      i := i + 1;
    }
    assert videos[..i] == videos;
  }

  /** `launchWithPlaylist`: nothing when the folder holds no video; otherwise
      the playlist and the intent for the player. */
  method LaunchWithPlaylist(startFile: DriveFile, allFiles: seq<DriveFile>, authToken: Option<string>)
    returns (launch: Option<Launch>)
    ensures launch == LaunchFor(startFile, allFiles, authToken)
  {
    var videos := Videos(allFiles);
    if |videos| == 0 {
      return None;
    }
    var sb := WritePlaylist(videos);
    var headers := None;
    if authToken.Some? {
      headers := Some(["Authorization", "Bearer " + authToken.value]);
    }
    var intent := Intent(ActionView, PlaylistMime, PlayerPackage, true, headers, startFile.name);
    launch := Some(Launch(sb, intent));
  }

  /** Filtering to videos commutes with concatenation: videos keep listing order. */
  lemma {:induction false} VideosAppend(a: seq<DriveFile>, b: seq<DriveFile>)
    ensures Videos(a + b) == Videos(a) + Videos(b)
  {
    if a == [] {
      assert a + b == b;
    } else {
      assert (a + b)[0] == a[0] && (a + b)[1..] == a[1..] + b;
      VideosAppend(a[1..], b);
      if IsVideo(a[0]) {
        assert Videos(a + b) == [a[0]] + (Videos(a[1..]) + Videos(b));
      }
    }
  }

  /** The clicked video is not moved to the front: with two linked videos,
      clicking either one writes them in listing order. */
  lemma PlaylistKeepsListingOrder(first: DriveFile, second: DriveFile, clicked: DriveFile, authToken: Option<string>)
    requires IsVideo(first) && IsVideo(second) && HasLink(first) && HasLink(second)
    requires clicked == first || clicked == second
    ensures var launch := LaunchFor(clicked, [first, second], authToken);
            launch.Some? &&
            launch.value.playlist ==
              Header + EntryText(Entry(first.name, first.webContentLink.value))
                     + EntryText(Entry(second.name, second.webContentLink.value)) &&
            launch.value.intent.title == clicked.name
  {
    var files := [first, second];
    assert Videos(files) == [first] + Videos([second]) == [first, second];
    var a := Entry(first.name, first.webContentLink.value);
    var b := Entry(second.name, second.webContentLink.value);
    assert Playable(files) == [a] + Playable([second]) == [a, b];
    assert Render([a, b]) == EntryText(a) + Render([b]) == EntryText(a) + (EntryText(b) + "");
  }

  lemma {:induction false} PlayableOfUnlinked(videos: seq<DriveFile>)
    requires forall f :: f in videos ==> !HasLink(f)
    ensures Playable(videos) == []
  {
    if videos != [] {
      assert videos[0] in videos;
      assert forall g :: g in videos[1..] ==> g in videos;
      PlayableOfUnlinked(videos[1..]);
    }
  }

  /** A folder whose videos all lack links still launches, with a playlist
      holding only the header. */
  lemma HeaderOnlyPlaylist(startFile: DriveFile, allFiles: seq<DriveFile>, authToken: Option<string>)
    requires exists f :: f in allFiles && IsVideo(f)
    requires forall f :: f in allFiles && IsVideo(f) ==> !HasLink(f)
    ensures LaunchFor(startFile, allFiles, authToken).Some?
    ensures LaunchFor(startFile, allFiles, authToken).value.playlist == Header
  {
    PlayableOfUnlinked(Videos(allFiles));
  }

  /** A linked video followed by a video whose link is empty: only the first
      is written. */
  lemma EmptyLinkSkipped(a: DriveFile, b: DriveFile)
    requires IsVideo(a) && IsVideo(b) && HasLink(a) && b.webContentLink == Some("")
    ensures PlaylistText([a, b]) == Header + EntryText(Entry(a.name, a.webContentLink.value))
  {
    assert Videos([a, b]) == [a] + Videos([b]) == [a, b];
    var e := Entry(a.name, a.webContentLink.value);
    assert Playable([a, b]) == [e] + Playable([b]) == [e];
    assert Render([e]) == EntryText(e) + "";
  }

  /** The same with concrete files: the playlist is the header, the
      `#EXTINF` line for A.mp4 and its link. */
  lemma EmptyLinkSkippedExample()
    ensures var a := DriveFile("a", "A.mp4", "video/mp4", 0, Some("http://x/a"), None);
            var b := DriveFile("b", "B.mp4", "video/mp4", 0, Some(""), None);
            PlaylistText([a, b]) == "#EXTM3U\n" + "#EXTINF:-1, A.mp4\n" + "http://x/a\n"
  {
    var a := DriveFile("a", "A.mp4", "video/mp4", 0, Some("http://x/a"), None);
    var b := DriveFile("b", "B.mp4", "video/mp4", 0, Some(""), None);
    assert "video/" <= a.mimeType by { assert a.mimeType[..6] == "video/"; }
    EmptyLinkSkipped(a, b);
    assert InfoPrefix + "A.mp4" + "\n" == "#EXTINF:-1, A.mp4\n";
  }

  // ---------------------------------------------------------------------------
  // Reading the playlist back

  /** Splits off the first line: the text before the first newline and the
      text after it; `None` when there is no newline. */
  function SplitLine(s: string): (r: Option<(string, string)>)
    ensures r.Some? ==> |r.value.1| < |s|
    decreases |s|
  {
    if s == [] then None
    else if s[0] == '\n' then Some(("", s[1..]))
    else match SplitLine(s[1..])
      case None => None
      case Some((line, rest)) => Some(([s[0]] + line, rest))
  }

  lemma {:induction false} SplitLineOf(line: string, rest: string)
    requires '\n' !in line
    ensures SplitLine(line + "\n" + rest) == Some((line, rest))
  {
    var s := line + "\n" + rest;
    if line == [] {
      assert s[0] == '\n' && s[1..] == rest;
    } else {
      assert s[0] == line[0] && s[1..] == line[1..] + "\n" + rest;
      SplitLineOf(line[1..], rest);
      assert [line[0]] + line[1..] == line;
    }
  }

  /** Reads `#EXTINF`/URL line pairs until the text runs out. */
  function ParseEntries(s: string): Option<seq<Entry>>
    decreases |s|
  {
    if s == [] then Some([])
    else match SplitLine(s)
      case None => None
      case Some((info, afterInfo)) =>
        if !(InfoPrefix <= info) then None
        else match SplitLine(afterInfo)
          case None => None
          case Some((url, afterUrl)) =>
            match ParseEntries(afterUrl)
            case None => None
            case Some(more) => Some([Entry(info[|InfoPrefix|..], url)] + more)
  }

  /** An M3U reader: the header line, then the entries. */
  function ParsePlaylist(s: string): Option<seq<Entry>>
  {
    if Header <= s then ParseEntries(s[|Header|..]) else None
  }

  /** Names and links without line breaks keep each entry on its two lines. */
  predicate SingleLine(e: Entry)
  {
    '\n' !in e.name && '\n' !in e.url
  }

  lemma {:induction false} ParseRender(entries: seq<Entry>)
    requires forall e :: e in entries ==> SingleLine(e)
    ensures ParseEntries(Render(entries)) == Some(entries)
  {
    if entries != [] {
      var e := entries[0];
      assert e in entries;
      var tail := Render(entries[1..]);
      var info := InfoPrefix + e.name;
      assert '\n' !in info by {
        assert '\n' !in InfoPrefix;
        assert forall k :: 0 <= k < |info| ==> info[k] == (if k < |InfoPrefix| then InfoPrefix[k] else e.name[k - |InfoPrefix|]);
      }
      assert Render(entries) == info + "\n" + (e.url + "\n" + tail);
      SplitLineOf(info, e.url + "\n" + tail);
      SplitLineOf(e.url, tail);
      assert forall x :: x in entries[1..] ==> x in entries;
      ParseRender(entries[1..]);
      assert info[|InfoPrefix|..] == e.name;
      assert [e] + entries[1..] == entries;
    }
  }

  /** Reading the written playlist back gives exactly the linked videos of the
      listing, in listing order. */
  lemma PlaylistRoundTrip(allFiles: seq<DriveFile>)
    requires forall f :: f in allFiles && HasLink(f) ==> '\n' !in f.name && '\n' !in f.webContentLink.value
    ensures ParsePlaylist(PlaylistText(allFiles)) == Some(Playable(Videos(allFiles)))
  {
    var entries := Playable(Videos(allFiles));
    PlayableMembers(Videos(allFiles));
    assert forall e :: e in entries ==> SingleLine(e);
    ParseRender(entries);
    var s := PlaylistText(allFiles);
    assert s[|Header|..] == Render(entries);
  }
}
