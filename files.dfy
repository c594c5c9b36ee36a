/**
 * The iOS file adapter (`iosFileUtils.ts`): storage roots, existence check,
 * permission-gated pick and save, share, read and write, over an abstract
 * file system keyed by path.
 */
module IosFiles {
  import opened Native
  import opened Uris
  import opened IosPermissions

  /**
   * The file-system service, as state: its two root directories (null when
   * unavailable), the files by path, and the paths whose every call rejects.
   */
  class FileSystem {
    var documentDirectory: Option<string>
    var cacheDirectory: Option<string>
    var files: map<string, string>
    var faulty: set<string>

    constructor (documentDirectory: Option<string>, cacheDirectory: Option<string>, files: map<string, string>, faulty: set<string>)
      ensures this.documentDirectory == documentDirectory && this.cacheDirectory == cacheDirectory
      ensures this.files == files && this.faulty == faulty
    {
      this.documentDirectory := documentDirectory;
      this.cacheDirectory := cacheDirectory;
      this.files := files;
      this.faulty := faulty;
    }

    /** `getInfoAsync(path).exists`; `None` when the call rejects. */
    function Info(path: string): Option<bool>
      reads this
    {
      if path in faulty then None else Some(path in files)
    }

    /** `readAsStringAsync(path)`; `None` when the call rejects. */
    function ReadAsString(path: string): Option<string>
      reads this
    {
      if path in faulty || path !in files then None else Some(files[path])
    }

    /** `deleteAsync(path)`: rejects for a missing file. */
    method Delete(path: string) returns (ok: bool)
      modifies this
      ensures ok == (path !in faulty && path in old(files))
      ensures files == if ok then old(files) - {path} else old(files)
      ensures documentDirectory == old(documentDirectory) && cacheDirectory == old(cacheDirectory) && faulty == old(faulty)
    {
      ok := path !in faulty && path in files;
      if ok {
        files := files - {path};
      }
    }

    /** `copyAsync({from, to})`: rejects for a missing source or an occupied destination. */
    method Copy(from: string, to: string) returns (ok: bool)
      modifies this
      ensures ok == (from !in faulty && to !in faulty && from in old(files) && to !in old(files))
      ensures files == if ok then old(files)[to := old(files)[from]] else old(files)
      ensures documentDirectory == old(documentDirectory) && cacheDirectory == old(cacheDirectory) && faulty == old(faulty)
    {
      ok := from !in faulty && to !in faulty && from in files && to !in files;
      if ok {
        files := files[to := files[from]];
      }
    }

    /** `writeAsStringAsync(path, content)`: replaces the file's content. */
    method WriteAsString(path: string, content: string) returns (ok: bool)
      modifies this
      ensures ok == (path !in faulty)
      ensures files == if ok then old(files)[path := content] else old(files)
      ensures documentDirectory == old(documentDirectory) && cacheDirectory == old(cacheDirectory) && faulty == old(faulty)
    {
      ok := path !in faulty;
      if ok {
        files := files[path := content];
      }
    }
  }

  /** `getIOSDocumentsPath`: the documents directory, or "" when it is unavailable. */
  function DocumentsRoot(fs: FileSystem): (root: string)
    reads fs
    ensures fs.documentDirectory.None? ==> root == ""
    ensures fs.documentDirectory.Some? ==> root == fs.documentDirectory.value
  {
    fs.documentDirectory.GetOr("")
  }

  /** `getIOSCachePath`: the cache directory, or "" when it is unavailable. */
  function CacheRoot(fs: FileSystem): (root: string)
    reads fs
    ensures fs.cacheDirectory.None? ==> root == ""
    ensures fs.cacheDirectory.Some? ==> root == fs.cacheDirectory.value
  {
    fs.cacheDirectory.GetOr("")
  }

  /** `checkFileExists`: true iff on iOS the file is present and its lookup does not reject. */
  function FileExists(os: Os, path: string, fs: FileSystem): (exists_: bool)
    reads fs
    ensures exists_ <==> os == IOS && path !in fs.faulty && path in fs.files
  {
    if os != IOS then false
    else match fs.Info(path)
      case None => false
      case Some(present) => present
  }

  /** A picked document. */
  datatype Asset = Asset(uri: string, name: string, mimeType: Option<string>, size: Option<int>)

  /** How the document picker settles. */
  datatype PickResult = Canceled | Picked(assets: seq<Asset>) | PickerRejects

  /** The default `type` filter of `pickIOSFile`. */
  const DefaultPickTypes: seq<string> := ["audio/*", "application/javascript"]

  /**
   * `pickIOSFile`: null off iOS, on permission denial, on cancellation and on
   * a picker error; otherwise the first asset. A cancelled pick is silent, a
   * denied pick shows the gate's one denial notice, and a picker error shows
   * the pick-failed notice.
   */
  method PickFile(os: Os, types: seq<string>, picker: seq<string> -> PickResult, broker: Broker, toasts: Toasts)
    returns (asset: Option<Asset>)
    modifies broker, toasts
    ensures os != IOS ==> asset.None? && unchanged(broker) && unchanged(toasts)
    ensures os == IOS ==> Ensured(os, Files, broker)
    ensures asset.Some? <==> os == IOS && old(EnsureGrants(os, Files, broker)) && picker(types).Picked? && picker(types).assets != []
    ensures asset.Some? ==> asset.value == picker(types).assets[0]
    ensures toasts.shown == old(toasts.shown) +
              (if os != IOS then []
               else old(GateNotices(os, Files, broker)) +
                    (if old(EnsureGrants(os, Files, broker)) && picker(types).PickerRejects? then [PickFileFailed] else []))
  {
    if os != IOS {
      return None;
    }
    var hasPermission := EnsurePermission(os, Files, broker, toasts);
    if !hasPermission {
      return None;
    }
    match picker(types)
    case PickerRejects =>
      toasts.Show(PickFileFailed);
      asset := None;
    case Canceled =>
      asset := None;
    case Picked(assets) =>
      asset := if assets == [] then None else Some(assets[0]);
  }

  /** `pickIOSFile()` with its default filter: audio and JavaScript files. */
  method PickFileWithDefaultTypes(os: Os, picker: seq<string> -> PickResult, broker: Broker, toasts: Toasts)
    returns (asset: Option<Asset>)
    modifies broker, toasts
    ensures os != IOS ==> asset.None? && unchanged(broker) && unchanged(toasts)
    ensures os == IOS ==> Ensured(os, Files, broker)
    ensures asset.Some? <==> os == IOS && old(EnsureGrants(os, Files, broker)) && picker(DefaultPickTypes).Picked? && picker(DefaultPickTypes).assets != []
    ensures asset.Some? ==> asset.value == picker(DefaultPickTypes).assets[0]
    ensures toasts.shown == old(toasts.shown) +
              (if os != IOS then []
               else old(GateNotices(os, Files, broker)) +
                    (if old(EnsureGrants(os, Files, broker)) && picker(DefaultPickTypes).PickerRejects? then [PickFileFailed] else []))
  {
    asset := PickFile(os, DefaultPickTypes, picker, broker, toasts);
  }

  /** The save destination: the documents root and the file name, concatenated with no separator. */
  function SaveDestination(root: string, fileName: string): (dest: string)
    ensures |dest| == |root| + |fileName|
    ensures dest[..|root|] == root && dest[|root|..] == fileName
  {
    root + fileName
  }

  /** A permitted save succeeds iff the source can be copied to a destination that is neither faulty nor the source itself. */
  function SaveSucceeds(os: Os, uri: string, fileName: string, fs: FileSystem, broker: Broker): bool
    reads fs, broker
  {
    var dest := SaveDestination(DocumentsRoot(fs), fileName);
    os == IOS && EnsureGrants(os, Files, broker) &&
    uri in fs.files && uri !in fs.faulty && dest !in fs.faulty && uri != dest
  }

  /** The whole effect of `saveFileToIOSDocuments`. */
  twostate predicate Saved(os: Os, uri: string, fileName: string, fs: FileSystem, broker: Broker, toasts: Toasts, new saved: Option<string>)
    reads fs, broker, toasts
  {
    var dest := SaveDestination(old(DocumentsRoot(fs)), fileName);
    var granted := os == IOS && old(EnsureGrants(os, Files, broker));
    && (os != IOS ==> unchanged(broker) && unchanged(toasts))
    && (os == IOS ==> Ensured(os, Files, broker))
    && fs.documentDirectory == old(fs.documentDirectory) && fs.cacheDirectory == old(fs.cacheDirectory)
    && fs.faulty == old(fs.faulty)
    && (saved.Some? <==> old(SaveSucceeds(os, uri, fileName, fs, broker)))
    && (saved.Some? ==> uri in old(fs.files) && saved.value == dest && fs.files == old(fs.files)[dest := old(fs.files)[uri]])
    && (saved.None? && !granted ==> fs.files == old(fs.files))
    && (saved.None? && granted ==>
          fs.files == if old(dest in fs.files && dest !in fs.faulty) then old(fs.files) - {dest} else old(fs.files))
    && toasts.shown == old(toasts.shown) +
         (if os == IOS then old(GateNotices(os, Files, broker)) else []) +
         (if granted && saved.None? then [SaveFileFailed] else [])
  }

  /**
   * `saveFileToIOSDocuments`: null with the file system untouched off iOS or
   * without files permission; otherwise an existing destination is deleted
   * before the copy, so a successful save leaves exactly the source's content
   * at the destination and every other path as it was. A failed save shows one
   * notice, and loses a destination it had already deleted.
   */
  method SaveToDocuments(os: Os, uri: string, fileName: string, fs: FileSystem, broker: Broker, toasts: Toasts)
    returns (saved: Option<string>)
    modifies fs, broker, toasts
    ensures Saved(os, uri, fileName, fs, broker, toasts, saved)
  {
    if os != IOS {
      return None;
    }
    var hasPermission := EnsurePermission(os, Files, broker, toasts);
    if !hasPermission {
      return None;
    }
    var destinationPath := SaveDestination(DocumentsRoot(fs), fileName);
    var fileExists := FileExists(os, destinationPath, fs);
    if fileExists {
      var deleted := fs.Delete(destinationPath);
      // a file whose lookup succeeded can be deleted, so the catch is not reached here
      assert deleted;
    }
    var copied := fs.Copy(uri, destinationPath);
    if !copied {
      toasts.Show(SaveFileFailed);
      return None;
    }
    saved := Some(destinationPath);
  }

  /** The options handed to the share sheet. */
  datatype ShareRequest = ShareRequest(title: string, url: string)

  /** The share sheet, as state: every request requests, and whether opening rejects. */
  class ShareSheet {
    var requests: seq<ShareRequest>
    var rejects: bool

    constructor (rejects: bool)
      ensures requests == [] && this.rejects == rejects
    {
      requests := [];
      this.rejects := rejects;
    }

    /** `Share.open(options)`. */
    method Open(r: ShareRequest) returns (ok: bool)
      modifies this
      ensures requests == old(requests) + [r] && rejects == old(rejects)
      ensures ok == !rejects
    {
      requests := requests + [r];
      ok := !rejects;
    }
  }

  /** The default title of a share. */
  const DefaultShareTitle: string := "分享文件"

  /** The whole effect of `shareIOSFile`. */
  twostate predicate Shared(os: Os, filePath: string, title: string, sheet: ShareSheet, toasts: Toasts, ok: bool)
    reads sheet, toasts
  {
    && ok == (os == IOS && !old(sheet.rejects))
    && (os != IOS ==> unchanged(sheet) && unchanged(toasts))
    && (os == IOS ==>
          && sheet.requests == old(sheet.requests) + [ShareRequest(title, FormatFileUri(filePath))]
          && sheet.rejects == old(sheet.rejects)
          && toasts.shown == old(toasts.shown) + (if ok then [] else [ShareFileFailed]))
  }

  /** `shareIOSFile`: opens the sheet once with the `file://`-normalised path. */
  method ShareFile(os: Os, filePath: string, title: string, sheet: ShareSheet, toasts: Toasts) returns (ok: bool)
    modifies sheet, toasts
    ensures Shared(os, filePath, title, sheet, toasts, ok)
  {
    if os != IOS {
      return false;
    }
    ok := sheet.Open(ShareRequest(title, FormatFileUri(filePath)));
    if !ok {
      toasts.Show(ShareFileFailed);
    }
  }

  /** `shareIOSFile(filePath)` with its default title. */
  method ShareFileWithDefaultTitle(os: Os, filePath: string, sheet: ShareSheet, toasts: Toasts) returns (ok: bool)
    modifies sheet, toasts
    ensures Shared(os, filePath, DefaultShareTitle, sheet, toasts, ok)
    ensures os == IOS ==> sheet.requests == old(sheet.requests) + [ShareRequest("分享文件", FormatFileUri(filePath))]
  {
    ok := ShareFile(os, filePath, DefaultShareTitle, sheet, toasts);
  }

  /** `readIOSFileContent`: the file's content on iOS; null off iOS or when the read rejects. */
  function ReadFileContent(os: Os, path: string, fs: FileSystem): (content: Option<string>)
    reads fs
    ensures content.Some? <==> os == IOS && path in fs.files && path !in fs.faulty
    ensures content.Some? ==> content.value == fs.files[path]
  {
    if os != IOS then None else fs.ReadAsString(path)
  }

  /**
   * `writeIOSFileContent`: replaces the file's content, so that reading it back
   * gives what was written; false with nothing changed off iOS or when the
   * write rejects.
   */
  method WriteFileContent(os: Os, path: string, content: string, fs: FileSystem) returns (ok: bool)
    modifies fs
    ensures ok == (os == IOS && path !in old(fs.faulty))
    ensures fs.files == if ok then old(fs.files)[path := content] else old(fs.files)
    ensures ok ==> ReadFileContent(os, path, fs) == Some(content)
    ensures fs.documentDirectory == old(fs.documentDirectory) && fs.cacheDirectory == old(fs.cacheDirectory)
    ensures fs.faulty == old(fs.faulty)
  {
    if os != IOS {
      return false;
    }
    ok := fs.WriteAsString(path, content);
  }
}
