/**
 * The platform facade (`platformUtils.ts`): the single entry point the
 * application calls. It maps Android permission names to the iOS gate's
 * kinds and dispatches every operation on the platform. Off iOS, the
 * permission calls go to the Android module, the root lookups read the same
 * directory as on iOS, and setup, add and share return true.
 */
module PlatformFacade {
  import opened Native
  import opened IosPermissions
  import IosAudio
  import IosFiles

  const ReadExternalStorage: string := "android.permission.READ_EXTERNAL_STORAGE"
  const WriteExternalStorage: string := "android.permission.WRITE_EXTERNAL_STORAGE"
  const RecordAudio: string := "android.permission.RECORD_AUDIO"

  /**
   * The `switch` on an Android permission name: both storage permissions map
   * to files, audio recording to the microphone, anything else to no kind.
   * Photo and media-library are never produced.
   */
  function KindForName(name: string): (kind: Option<PermissionKind>)
    ensures kind == Some(Files) <==> name == ReadExternalStorage || name == WriteExternalStorage
    ensures kind == Some(Microphone) <==> name == RecordAudio
    ensures kind.None? <==> name != ReadExternalStorage && name != WriteExternalStorage && name != RecordAudio
    ensures kind != Some(Photo) && kind != Some(MediaLibrary)
  {
    if name == ReadExternalStorage || name == WriteExternalStorage then Some(Files)
    else if name == RecordAudio then Some(Microphone)
    else None
  }

  /** Where a permission call goes. */
  datatype Route = AndroidModule | IosGate(kind: PermissionKind) | FailOpen

  /** The routing shared by the check and the request. */
  function RoutePermission(os: Os, name: string): (route: Route)
    ensures route == AndroidModule <==> os != IOS
    ensures os == IOS ==> (route == FailOpen <==> KindForName(name).None?)
    ensures route.IosGate? ==> os == IOS && KindForName(name) == Some(route.kind)
  {
    if os != IOS then AndroidModule
    else match KindForName(name)
      case None => FailOpen
      case Some(kind) => IosGate(kind)
  }

  /**
   * `checkPlatformPermission`: off iOS the Android checker's answer unchanged;
   * on iOS the storage names and audio recording consult the gate for files
   * and the microphone, and every other name is granted without it. The
   * source's `kind ? … : true` fallback is left out: a kind is never falsy
   * (`IosPermissions.TagsTruthy`).
   */
  function CheckPlatformPermission(os: Os, name: string, androidCheck: string -> bool, broker: Broker): (granted: bool)
    reads broker
    ensures os != IOS ==> granted == androidCheck(name)
    ensures os == IOS && KindForName(name).None? ==> granted
    ensures os == IOS && (name == ReadExternalStorage || name == WriteExternalStorage) ==>
              (granted <==> Authorizes(broker.current(IosDocuments)))
    ensures os == IOS && name == RecordAudio ==> (granted <==> Authorizes(broker.current(IosMicrophone)))
  {
    var route := RoutePermission(os, name);
    if route.AndroidModule? then androidCheck(name)
    else if route.FailOpen? then true
    else CheckPermission(os, route.kind, broker)
  }

  /**
   * `requestPlatformPermission`: off iOS the Android requester's answer
   * unchanged; on iOS an unknown name is granted without a prompt, and a known
   * one is exactly the gate's request for its kind.
   */
  method RequestPlatformPermission(os: Os, name: string, androidRequest: string -> bool, broker: Broker, toasts: Toasts)
    returns (granted: bool)
    modifies broker, toasts
    ensures os != IOS ==> granted == androidRequest(name) && unchanged(broker) && unchanged(toasts)
    ensures os == IOS && KindForName(name).None? ==> granted && unchanged(broker) && unchanged(toasts)
    ensures os == IOS && KindForName(name).Some? ==> Requested(os, KindForName(name).value, broker, toasts, granted)
  {
    match RoutePermission(os, name)
    case AndroidModule =>
      granted := androidRequest(name);
    case FailOpen =>
      granted := true;
    case IosGate(kind) =>
      granted := RequestPermission(os, kind, broker, toasts);
  }

  /** `getDocumentsPath`: the same root on every platform, "" when unavailable. */
  function DocumentsPath(os: Os, fs: IosFiles.FileSystem): (path: string)
    reads fs
    ensures path == IosFiles.DocumentsRoot(fs)
    ensures fs.documentDirectory.None? ==> path == ""
  {
    if os == IOS then IosFiles.DocumentsRoot(fs) else fs.documentDirectory.GetOr("")
  }

  /** `getCachePath`: the same root on every platform, "" when unavailable. */
  function CachePath(os: Os, fs: IosFiles.FileSystem): (path: string)
    reads fs
    ensures path == IosFiles.CacheRoot(fs)
    ensures fs.cacheDirectory.None? ==> path == ""
  {
    if os == IOS then IosFiles.CacheRoot(fs) else fs.cacheDirectory.GetOr("")
  }

  /** `setupAudioPlayer`: true off iOS with nothing touched; the iOS setup on iOS. */
  method SetupAudioPlayer(os: Os, engine: IosAudio.Engine, broker: Broker, toasts: Toasts) returns (ok: bool)
    modifies engine, broker, toasts
    ensures os != IOS ==> ok && unchanged(engine) && unchanged(broker) && unchanged(toasts)
    ensures os == IOS ==> IosAudio.PlayerSetUp(os, engine, broker, toasts, ok)
  {
    if os == IOS {
      ok := IosAudio.SetupIosAudioPlayer(os, engine, broker, toasts);
    } else {
      ok := true;
    }
  }

  /** `addLocalAudioToPlatformQueue`: true off iOS with nothing touched; the iOS add on iOS. */
  method AddLocalAudioToQueue(os: Os, filePath: string, metadata: Option<IosAudio.Metadata>, engine: IosAudio.Engine, toasts: Toasts)
    returns (ok: bool)
    modifies engine, toasts
    ensures os != IOS ==> ok && unchanged(engine) && unchanged(toasts)
    ensures os == IOS ==> IosAudio.Enqueued(os, IosAudio.LocalTrack(filePath, metadata), engine, toasts, ok)
  {
    if os == IOS {
      ok := IosAudio.AddLocalAudio(os, filePath, metadata, engine, toasts);
    } else {
      ok := true;
    }
  }

  /** `addStreamingAudioToPlatformQueue`: true off iOS with nothing touched; the iOS add on iOS. */
  method AddStreamingAudioToQueue(os: Os, url: string, metadata: Option<IosAudio.Metadata>, engine: IosAudio.Engine, toasts: Toasts)
    returns (ok: bool)
    modifies engine, toasts
    ensures os != IOS ==> ok && unchanged(engine) && unchanged(toasts)
    ensures os == IOS ==> IosAudio.Enqueued(os, IosAudio.BuildTrack(url, metadata), engine, toasts, ok)
  {
    if os == IOS {
      ok := IosAudio.AddStreamingAudio(os, url, metadata, engine, toasts);
    } else {
      ok := true;
    }
  }

  /** `sharePlatformFile`: true off iOS with nothing touched; the iOS share on iOS. */
  method SharePlatformFile(os: Os, filePath: string, title: string, sheet: IosFiles.ShareSheet, toasts: Toasts)
    returns (ok: bool)
    modifies sheet, toasts
    ensures os != IOS ==> ok && unchanged(sheet) && unchanged(toasts)
    ensures os == IOS ==> IosFiles.Shared(os, filePath, title, sheet, toasts, ok)
  {
    if os == IOS {
      ok := IosFiles.ShareFile(os, filePath, title, sheet, toasts);
    } else {
      ok := true;
    }
  }

  /** `sharePlatformFile(filePath)` with its default title, passed on to the iOS share. */
  method SharePlatformFileWithDefaultTitle(os: Os, filePath: string, sheet: IosFiles.ShareSheet, toasts: Toasts)
    returns (ok: bool)
    modifies sheet, toasts
    ensures os != IOS ==> ok && unchanged(sheet) && unchanged(toasts)
    ensures os == IOS ==> IosFiles.Shared(os, filePath, IosFiles.DefaultShareTitle, sheet, toasts, ok)
  {
    ok := SharePlatformFile(os, filePath, IosFiles.DefaultShareTitle, sheet, toasts);
  }
}
