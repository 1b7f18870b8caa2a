// main.go's audio store: `downloadFile`, `downloadMp3` and the `path.Base`
// naming rule. The filesystem is a map from path to content; the network
// fetch and the file operations that can fail are one `Transfer` value
// saying how far the download got.

module AssetStore {
  import opened Dict
  import opened Strings

  /** How one download attempt ends once it has started: `os.Create` of the
      temporary file fails; `http.Get` fails (the temporary file stays,
      empty); `io.Copy` fails after writing `partial`; the copy completes
      but `os.Rename` fails; or everything succeeds with `body`. */
  datatype Transfer =
    | CreateFailed(reason: string)
    | GetFailed(reason: string)
    | CopyFailed(partial: string, reason: string)
    | RenameFailed(body: string, reason: string)
    | Fetched(body: string)

  /** `(cached bool, err error)` of `downloadFile`, with the files after. */
  datatype FetchResult = FetchResult(cached: bool, err: Option<string>, files: map<string, string>)

  function TmpPath(target: string): string {
    target + ".tmp"
  }

  /** The outcome of `downloadFile(url, target)` on the filesystem `files`. */
  function Fetch(files: map<string, string>, url: string, target: string, t: Transfer): FetchResult {
    if url == "" then FetchResult(false, None, files)
    else if target in files then FetchResult(true, None, files)
    else
      var tmp := TmpPath(target);
      match t
      case CreateFailed(e) => FetchResult(false, Some(e), files)
      case GetFailed(e) => FetchResult(false, Some(e), files[tmp := ""])
      case CopyFailed(partial, e) => FetchResult(false, Some(e), files[tmp := partial])
      case RenameFailed(body, e) => FetchResult(false, Some(e), files[tmp := body])
      case Fetched(body) => FetchResult(false, None, (files - {tmp})[target := body])
  }

  /** The result is cached exactly when there was a URL and its file was
      already there; then nothing is fetched or written. An empty URL is
      never cached and changes nothing. */
  lemma CachedIffPresent(files: map<string, string>, url: string, target: string, t: Transfer)
    ensures Fetch(files, url, target, t).cached <==> url != "" && target in files
    ensures Fetch(files, url, target, t).cached ==> Fetch(files, url, target, t) == FetchResult(true, None, files)
    ensures url == "" ==> Fetch(files, url, target, t) == FetchResult(false, None, files)
  {
  }

  /** The target only ever appears by renaming a completely copied body, and
      on every error path it is left as it was. */
  lemma TargetOnlyFromCompleteCopy(files: map<string, string>, url: string, target: string, t: Transfer)
    ensures var r := Fetch(files, url, target, t);
      && (r.err.Some? ==> (target in r.files <==> target in files))
      && (target in r.files && target !in files ==> t.Fetched? && r.files[target] == t.body && r.err.None?)
      && (target in files ==> target in r.files && r.files[target] == files[target])
  {
    if url != "" && target !in files {
      assert TmpPath(target) != target by {
        assert |TmpPath(target)| == |target| + 4;
      }
    }
  }

  /** Nothing but the target and its temporary file is touched. */
  lemma OtherFilesUntouched(files: map<string, string>, url: string, target: string, t: Transfer, p: string)
    requires p != target && p != TmpPath(target)
    ensures var r := Fetch(files, url, target, t);
      && (p in r.files <==> p in files)
      && (p in files ==> r.files[p] == files[p])
  {
  }

  /** Once a download has succeeded, asking again is answered from the
      store, whatever the network would do. */
  lemma RefetchIsCached(files: map<string, string>, url: string, target: string, t: Transfer, t2: Transfer)
    requires url != ""
    requires Fetch(files, url, target, t).err.None?
    ensures var r := Fetch(files, url, target, t);
      Fetch(r.files, url, target, t2) == FetchResult(true, None, r.files)
  {
  }

  /** The directory and files of one dictionary. */
  class FileStore {
    var files: map<string, string>

    constructor (files: map<string, string>)
      ensures this.files == files
    {
      this.files := files;
    }

    /** `Downloader.downloadFile`, step by step. */
    method DownloadFile(url: string, target: string, t: Transfer) returns (cached: bool, err: Option<string>)
      modifies this
      ensures FetchResult(cached, err, files) == Fetch(old(files), url, target, t)
    {
      if url == "" {
        return false, None;
      }
      if target in files {
        return true, None;
      }
      var tmp := TmpPath(target);
      if t.CreateFailed? {
        return false, Some(t.reason);
      }
      files := files[tmp := ""];
      if t.GetFailed? {
        return false, Some(t.reason);
      }
      if t.CopyFailed? {
        files := files[tmp := t.partial];
        return false, Some(t.reason);
      }
      files := files[tmp := t.body];
      if t.RenameFailed? {
        return false, Some(t.reason);
      }
      files := files - {tmp};
      files := files[target := t.body];
      cached, err := false, None;
    }

    /** `Downloader.downloadMp3`: the recording is stored under the last
        element of its URL, in the dictionary's audio directory. */
    method DownloadMp3(dictDir: string, url: string, t: Transfer) returns (cached: bool, err: Option<string>)
      modifies this
      ensures FetchResult(cached, err, files) == Fetch(old(files), url, Mp3Path(dictDir, url), t)
    {
      cached, err := DownloadFile(url, Mp3Path(dictDir, url), t);
    }
  }

  // ---------------------------------------------------------------------
  // Naming.

  /** `p` without its trailing slashes. */
  function StripTrailingSlashes(p: string): (r: string)
    ensures |r| <= |p| && r == p[..|r|]
    ensures r == [] || r[|r| - 1] != '/'
  {
    if p != [] && p[|p| - 1] == '/' then StripTrailingSlashes(p[..|p| - 1]) else p
  }

  /** The position of the last slash of `p`, or -1. */
  function LastSlash(p: string): (r: int)
    ensures -1 <= r < |p|
    ensures r >= 0 ==> p[r] == '/'
    ensures forall i :: r < i < |p| ==> p[i] != '/'
  {
    if p == [] then -1 else if p[|p| - 1] == '/' then |p| - 1 else LastSlash(p[..|p| - 1])
  }

  /** The part of `s` after its last slash. */
  function LastElement(s: string): (r: string)
    requires s != [] && s[|s| - 1] != '/'
    ensures r != [] && '/' !in r
  {
    var i := LastSlash(s);
    var r := s[i + 1..];
    assert forall k :: 0 <= k < |r| ==> r[k] == s[i + 1 + k];
    r
  }

  /** Go's `path.Base`: "." for the empty path, "/" for a path of slashes
      only, and otherwise the last element once trailing slashes are
      dropped. */
  function Base(p: string): (r: string)
    ensures r != []
    ensures r == "/" || '/' !in r
    ensures p == "" ==> r == "."
  {
    if p == "" then "."
    else
      var s := StripTrailingSlashes(p);
      if s == "" then "/" else LastElement(s)
  }

  /** A URL whose last element is a slash-free name is stored under that
      name. */
  lemma BaseOfName(dir: string, name: string)
    requires name != [] && '/' !in name
    ensures Base(dir + "/" + name) == name
  {
    var p := dir + "/" + name;
    assert p[|p| - 1] == name[|name| - 1];
    assert StripTrailingSlashes(p) == p;
    assert p[|dir|] == '/';
    assert forall i :: |dir| < i < |p| ==> p[i] == name[i - |dir| - 1];
    assert LastSlash(p) == |dir|;
    assert p[|dir| + 1..] == name;
  }

  /** `filepath.Join(audioDir, name)` with `audioDir` the dictionary's
      directory joined with "audio": `path.Base` yields a single element,
      "." or "/", so joining only has to resolve those and "..". */
  function StorePath(dictDir: string, name: string): string {
    var audioDir := dictDir + "/audio";
    if name == "." || name == "/" then audioDir
    else if name == ".." then dictDir
    else audioDir + "/" + name
  }

  function Mp3Path(dictDir: string, url: string): string {
    StorePath(dictDir, Base(url))
  }

  /** A recording named by a plain file name lands in the audio directory
      under that name. */
  lemma Mp3PathOfName(dictDir: string, host: string, name: string)
    requires name != [] && '/' !in name && name != "." && name != ".."
    ensures Mp3Path(dictDir, host + "/" + name) == dictDir + "/audio/" + name
  {
    BaseOfName(host, name);
    assert dictDir + "/audio" + "/" + name == dictDir + "/audio/" + name;
  }
}
