/** Loading the four bundled camera clips (ViewModels/CCTVViewModel.swift):
    each fixed file name is split and looked up as in the alert detail
    screen; invalid or missing names are skipped, and the list of found
    urls replaces `videos`. */
module Cctv {
  import opened Base
  import opened AlertDetail

  /** `videoFiles`. */
  const VideoFiles: seq<string> := ["cctv1.mp4", "cctv2.mp4", "cctv3.mp4", "cctv4.mp4"]

  /** What one name contributes: its url when the name is well formed and
      the bundle has it, nothing otherwise. */
  function LookUp(name: string, bundle: Bundle): (found: seq<Url>)
    ensures ParseFileName(name).None? ==> found == []
    ensures ParseFileName(name).Some? ==>
              var (resource, extension) := ParseFileName(name).value;
              found == if bundle(resource, extension).Some? then [bundle(resource, extension).value] else []
  {
    match ParseFileName(name)
    case None => []
    case Some((resource, extension)) =>
      match bundle(resource, extension)
      case None => []
      case Some(url) => [url]
  }

  /** The urls the loop collects for `names`, in order. */
  function LoadedUrls(names: seq<string>, bundle: Bundle): (urls: seq<Url>)
    ensures |urls| <= |names|
    decreases |names|
  {
    if names == [] then []
    else LoadedUrls(names[..|names| - 1], bundle) + LookUp(names[|names| - 1], bundle)
  }

  /** Skipping is local: the urls for a concatenation of name lists are
      the urls for each list, in order, so a skipped name never stops the
      names after it. */
  lemma {:induction false} LoadedUrlsConcat(front: seq<string>, back: seq<string>, bundle: Bundle)
    ensures LoadedUrls(front + back, bundle) == LoadedUrls(front, bundle) + LoadedUrls(back, bundle)
    decreases |back|
  {
    if back == [] {
      assert front + back == front;
    } else {
      var n := |back| - 1;
      assert front + back == (front + back[..n]) + [back[n]];
      assert back == back[..n] + [back[n]];
      LoadedUrlsAppend(front + back[..n], back[n], bundle);
      LoadedUrlsAppend(back[..n], back[n], bundle);
      LoadedUrlsConcat(front, back[..n], bundle);
    }
  }

  /** One more name at the end adds its url, if any, at the end. */
  lemma LoadedUrlsAppend(names: seq<string>, name: string, bundle: Bundle)
    ensures LoadedUrls(names + [name], bundle) == LoadedUrls(names, bundle) + LookUp(name, bundle)
  {
    assert (names + [name])[..|names|] == names;
  }

  /** Every collected url is what the bundle returned for the two pieces
      of some well-formed name of the list. */
  lemma {:induction false} LoadedUrlsProvenance(names: seq<string>, bundle: Bundle, url: Url)
    requires url in LoadedUrls(names, bundle)
    ensures exists k, resource, extension ::
              0 <= k < |names| && ParseFileName(names[k]) == Some((resource, extension)) &&
              bundle(resource, extension) == Some(url)
    decreases |names|
  {
    var n := |names| - 1;
    if url in LoadedUrls(names[..n], bundle) {
      LoadedUrlsProvenance(names[..n], bundle, url);
      var k, resource, extension :| 0 <= k < n && ParseFileName(names[..n][k]) == Some((resource, extension)) &&
                                    bundle(resource, extension) == Some(url);
      assert names[..n][k] == names[k];
    } else {
      var (resource, extension) := ParseFileName(names[n]).value;
      assert bundle(resource, extension) == Some(url);
    }
  }

  /** A clip name made of a dot-free resource name and `.mp4`. */
  lemma Mp4NameWellFormed(resource: string)
    requires resource != [] && '.' !in resource
    ensures ParseFileName(resource + ".mp4") == Some((resource, "mp4"))
  {
    assert '.' !in "mp4";
    ParseFileNameRoundTrip(resource, "mp4");
    assert resource + "." + "mp4" == resource + ".mp4";
  }

  /** All four fixed names split into exactly a name and `mp4`, so only a
      missing resource can drop one. */
  lemma FixedNamesWellFormed()
    ensures ParseFileName(VideoFiles[0]) == Some(("cctv1", "mp4"))
    ensures ParseFileName(VideoFiles[1]) == Some(("cctv2", "mp4"))
    ensures ParseFileName(VideoFiles[2]) == Some(("cctv3", "mp4"))
    ensures ParseFileName(VideoFiles[3]) == Some(("cctv4", "mp4"))
  {
    assert VideoFiles[0] == "cctv1" + ".mp4";
    assert VideoFiles[1] == "cctv2" + ".mp4";
    assert VideoFiles[2] == "cctv3" + ".mp4";
    assert VideoFiles[3] == "cctv4" + ".mp4";
    Mp4NameWellFormed("cctv1");
    Mp4NameWellFormed("cctv2");
    Mp4NameWellFormed("cctv3");
    Mp4NameWellFormed("cctv4");
  }

  /** What the bundle finds for one fixed clip. */
  function Found(resource: string, bundle: Bundle): seq<Url>
  {
    match bundle(resource, "mp4")
    case None => []
    case Some(url) => [url]
  }

  /** A one-name list contributes what that name does. */
  lemma LoadedSingleton(name: string, bundle: Bundle)
    ensures LoadedUrls([name], bundle) == LookUp(name, bundle)
  {
    assert [name][..0] == [];
  }

  /** A four-name list contributes what each name does, in order. */
  lemma LoadedFour(n1: string, n2: string, n3: string, n4: string, bundle: Bundle)
    ensures LoadedUrls([n1, n2, n3, n4], bundle) ==
              LookUp(n1, bundle) + LookUp(n2, bundle) + LookUp(n3, bundle) + LookUp(n4, bundle)
  {
    assert [n1, n2, n3, n4] == [n1, n2, n3] + [n4];
    assert [n1, n2, n3] == [n1, n2] + [n3];
    assert [n1, n2] == [n1] + [n2];
    LoadedUrlsConcat([n1, n2, n3], [n4], bundle);
    LoadedUrlsConcat([n1, n2], [n3], bundle);
    LoadedUrlsConcat([n1], [n2], bundle);
    LoadedSingleton(n1, bundle);
    LoadedSingleton(n2, bundle);
    LoadedSingleton(n3, bundle);
    LoadedSingleton(n4, bundle);
  }

  /** With the fixed names, `videos` holds, in order, the url of each of
      the four clips that the bundle has. */
  lemma FixedNamesLoad(bundle: Bundle)
    ensures LoadedUrls(VideoFiles, bundle) ==
              Found("cctv1", bundle) + Found("cctv2", bundle) + Found("cctv3", bundle) + Found("cctv4", bundle)
  {
    LoadedFour(VideoFiles[0], VideoFiles[1], VideoFiles[2], VideoFiles[3], bundle);
    assert VideoFiles == [VideoFiles[0], VideoFiles[1], VideoFiles[2], VideoFiles[3]];
    FixedNamesWellFormed();
  }

  class CctvViewModel {
    var videos: seq<Url>
    const videoFiles: seq<string>

    constructor ()
      ensures videos == [] && videoFiles == VideoFiles
    {
      videos := [];
      videoFiles := VideoFiles;
    }

    /** `loadVideos()`: the result does not depend on the old `videos`,
        so loading twice with the same bundle gives the same list. */
    method LoadVideos(bundle: Bundle)
      modifies this
      ensures videos == LoadedUrls(videoFiles, bundle)
      ensures |videos| <= |videoFiles|
    {
      var loaded: seq<Url> := [];
      for i := 0 to |videoFiles|
        invariant loaded == LoadedUrls(videoFiles[..i], bundle)
      {
        assert videoFiles[..i + 1][..i] == videoFiles[..i];
        var name := videoFiles[i];
        var pieces := Split(name, '.');
        if |pieces| != 2 {
          continue;
        }
        var resource, extension := pieces[0], pieces[|pieces| - 1];
        var url := bundle(resource, extension);
        if url.Some? {
          loaded := loaded + [url.value];
        }
      }
      assert videoFiles[..|videoFiles|] == videoFiles;
      videos := loaded;
    }
  }
}
