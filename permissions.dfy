/**
 * The iOS permission gate (`iosPermissions.ts`): a closed table from the four
 * permission kinds to the permission library's native identifiers and to the
 * capability names used in notices, and the check / request / ensure
 * operations over an abstract permission broker.
 */
module IosPermissions {
  import opened Native

  /** `IOSPermissionType`. */
  datatype PermissionKind = Photo | Microphone | MediaLibrary | Files

  /** The string value of each enum member. */
  function Tag(kind: PermissionKind): string {
    match kind
    case Photo => "photo"
    case Microphone => "microphone"
    case MediaLibrary => "mediaLibrary"
    case Files => "files"
  }

  /** Every enum value is a non-empty string, so a kind is always truthy. */
  lemma TagsTruthy(kind: PermissionKind)
    ensures Tag(kind) != ""
  {
  }

  /** The entries of the library's `PERMISSIONS.IOS` table that the gate names. */
  datatype NativeId = IosPhotoLibrary | IosMicrophone | IosMediaLibrary | IosDocuments

  /** `permissionMap`, as its source text declares it. */
  const PermissionMap: map<PermissionKind, NativeId> :=
    map[Photo := IosPhotoLibrary, Microphone := IosMicrophone,
        MediaLibrary := IosMediaLibrary, Files := IosDocuments]

  /** `permissionDescMap`: the capability a notice names. */
  function Description(kind: PermissionKind): string {
    match kind
    case Photo => "照片库"
    case Microphone => "麦克风"
    case MediaLibrary => "媒体库"
    case Files => "文件访问"
  }

  /** The kind a native identifier stands for. */
  function KindOf(id: NativeId): PermissionKind {
    match id
    case IosPhotoLibrary => Photo
    case IosMicrophone => Microphone
    case IosMediaLibrary => MediaLibrary
    case IosDocuments => Files
  }

  /** The table is total on the closed enum and gives each kind its own identifier. */
  lemma PermissionMapClosed(kind: PermissionKind)
    ensures kind in PermissionMap
    ensures KindOf(PermissionMap[kind]) == kind
  {
  }

  /** The library's `RESULTS`. */
  datatype PermissionStatus = Unavailable | Denied | Limited | Granted | Blocked

  /** How a call into the broker settles: with a status, or by rejecting. */
  datatype BrokerReply = Settles(status: PermissionStatus) | Rejects

  /** A broker reply authorises iff it settles with GRANTED or LIMITED. */
  predicate Authorizes(reply: BrokerReply): (authorized: bool)
    ensures authorized <==> reply == Settles(Granted) || reply == Settles(Limited)
    ensures reply.Rejects? ==> !authorized
  {
    reply.Settles? && (reply.status == Granted || reply.status == Limited)
  }

  /** The status function after a request settled with `reply`. */
  function Settle(current: NativeId -> BrokerReply, id: NativeId, reply: BrokerReply): NativeId -> BrokerReply {
    if reply.Rejects? then current else (q => if q == id then reply else current(q))
  }

  /**
   * The native permission broker, as state: what `check(id)` settles with now,
   * what `request(id)` (the system prompt) would settle with, and the log of
   * every request issued.
   */
  class Broker {
    var current: NativeId -> BrokerReply
    var prompt: NativeId -> BrokerReply
    var requested: seq<NativeId>

    constructor (current: NativeId -> BrokerReply, prompt: NativeId -> BrokerReply)
      ensures this.current == current && this.prompt == prompt && requested == []
    {
      this.current := current;
      this.prompt := prompt;
      requested := [];
    }

    /** `request(id)`: the prompt's outcome becomes the current status unless the call rejects. */
    method Request(id: NativeId) returns (reply: BrokerReply)
      modifies this
      ensures reply == old(prompt(id))
      ensures requested == old(requested) + [id]
      ensures prompt == old(prompt)
      ensures current == Settle(old(current), id, reply)
    {
      reply := prompt(id);
      requested := requested + [id];
      current := Settle(current, id, reply);
    }
  }

  /** `checkIOSPermission` against a given identifier table. */
  function CheckIn(table: map<PermissionKind, NativeId>, os: Os, kind: PermissionKind, broker: Broker): (granted: bool)
    reads broker
    ensures os != IOS ==> granted
    ensures os == IOS && kind !in table ==> !granted
    ensures os == IOS && kind in table ==> (granted <==> Authorizes(broker.current(table[kind])))
  {
    if os != IOS then true
    else if kind !in table then false
    else Authorizes(broker.current(table[kind]))
  }

  /**
   * `checkIOSPermission`: never prompts and never shows a notice; true off iOS;
   * on iOS true iff the broker currently reports GRANTED or LIMITED for the
   * mapped identifier (a rejected check is false). The missing-identifier
   * branch cannot be taken.
   */
  function CheckPermission(os: Os, kind: PermissionKind, broker: Broker): (granted: bool)
    reads broker
    ensures os != IOS ==> granted
    ensures os == IOS ==> kind in PermissionMap && (granted <==> Authorizes(broker.current(PermissionMap[kind])))
  {
    PermissionMapClosed(kind);
    CheckIn(PermissionMap, os, kind, broker)
  }

  /**
   * The table as the application bundle evaluates it: the permission library
   * publishes no `PERMISSIONS.IOS.DOCUMENTS`, so the `files` entry is undefined.
   */
  const BundledPermissionMap: map<PermissionKind, NativeId> := PermissionMap - {Files}

  /** With the bundled table, the files check is denied whatever the broker says; other kinds are unaffected. */
  lemma BundledTableDeniesFiles(broker: Broker, kind: PermissionKind)
    ensures !CheckIn(BundledPermissionMap, IOS, Files, broker)
    ensures Authorizes(broker.current(IosDocuments)) ==> CheckPermission(IOS, Files, broker)
    ensures kind != Files ==> CheckIn(BundledPermissionMap, IOS, kind, broker) == CheckPermission(IOS, kind, broker)
  {
    PermissionMapClosed(kind);
  }

  /** The notices a request shows: one naming the capability iff it does not authorise. */
  function DenialNotices(kind: PermissionKind, reply: BrokerReply): (notices: seq<Notice>)
    ensures notices == [] <==> Authorizes(reply)
    ensures |notices| <= 1
    ensures forall n <- notices :: (n.PermissionNeeded? || n.PermissionRequestFailed?) && n.capability == Description(kind)
    ensures reply.Rejects? ==> notices == [PermissionRequestFailed(Description(kind))]
  {
    match reply
    case Rejects => [PermissionRequestFailed(Description(kind))]
    case Settles(_) => if Authorizes(reply) then [] else [PermissionNeeded(Description(kind))]
  }

  /** The broker after one `request` for `kind`'s identifier. */
  twostate predicate Prompted(kind: PermissionKind, broker: Broker)
    reads broker
  {
    kind in PermissionMap &&
    broker.requested == old(broker.requested) + [PermissionMap[kind]] &&
    broker.prompt == old(broker.prompt) &&
    broker.current == Settle(old(broker.current), PermissionMap[kind], old(broker.prompt(PermissionMap[kind])))
  }

  /**
   * The whole effect of `requestIOSPermission`: true off iOS without touching
   * the broker; on iOS one request, authorised iff it settles GRANTED or
   * LIMITED, and exactly one notice iff it is not authorised (including when
   * the broker rejects).
   */
  twostate predicate Requested(os: Os, kind: PermissionKind, broker: Broker, toasts: Toasts, granted: bool)
    reads broker, toasts
  {
    if os != IOS then granted && unchanged(broker) && unchanged(toasts)
    else
      && kind in PermissionMap && Prompted(kind, broker)
      && granted == Authorizes(old(broker.prompt(PermissionMap[kind])))
      && toasts.shown == old(toasts.shown) + DenialNotices(kind, old(broker.prompt(PermissionMap[kind])))
  }

  /** `requestIOSPermission`. */
  method RequestPermission(os: Os, kind: PermissionKind, broker: Broker, toasts: Toasts) returns (granted: bool)
    modifies broker, toasts
    ensures Requested(os, kind, broker, toasts, granted)
  {
    if os != IOS {
      return true;
    }
    PermissionMapClosed(kind);
    if kind !in PermissionMap {
      assert false;
      return false;
    }
    var reply := broker.Request(PermissionMap[kind]);
    if reply.Rejects? {
      // the catch block
      toasts.Show(PermissionRequestFailed(Description(kind)));
      return false;
    }
    granted := Authorizes(reply);
    if !granted {
      toasts.Show(PermissionNeeded(Description(kind)));
    }
  }

  /** What `ensure` grants: authorised now, or authorised by the prompt it falls back to. */
  function EnsureGrants(os: Os, kind: PermissionKind, broker: Broker): bool
    reads broker
  {
    PermissionMapClosed(kind);
    CheckPermission(os, kind, broker) || Authorizes(broker.prompt(PermissionMap[kind]))
  }

  /** The notices `ensure` shows: none when the check passes, else the request's. */
  function GateNotices(os: Os, kind: PermissionKind, broker: Broker): (notices: seq<Notice>)
    reads broker
    ensures |notices| <= 1
    ensures notices == [] <==> EnsureGrants(os, kind, broker)
  {
    PermissionMapClosed(kind);
    if CheckPermission(os, kind, broker) then [] else DenialNotices(kind, broker.prompt(PermissionMap[kind]))
  }

  /**
   * `ensureIOSPermission`'s result and notices against a given identifier
   * table: the check, then the request, whose missing-identifier branch
   * returns false without prompting and without a notice.
   */
  function EnsureIn(table: map<PermissionKind, NativeId>, os: Os, kind: PermissionKind, broker: Broker): (outcome: (bool, seq<Notice>))
    reads broker
    ensures os != IOS ==> outcome == (true, [])
    ensures os == IOS && kind !in table ==> outcome == (false, [])
    ensures |outcome.1| <= 1
    ensures os == IOS && kind in table ==> (outcome.1 == [] <==> outcome.0)
    ensures os == IOS && kind in table ==>
              outcome.0 == (CheckIn(table, os, kind, broker) || Authorizes(broker.prompt(table[kind])))
    ensures forall n <- outcome.1 :: (n.PermissionNeeded? || n.PermissionRequestFailed?) && n.capability == Description(kind)
  {
    if CheckIn(table, os, kind, broker) then (true, [])
    else if kind !in table then (false, [])
    else (Authorizes(broker.prompt(table[kind])), DenialNotices(kind, broker.prompt(table[kind])))
  }

  /** Over the declared table, the table-parametric `ensure` is exactly `EnsureGrants` with `GateNotices`. */
  lemma EnsureInDeclaredTable(os: Os, kind: PermissionKind, broker: Broker)
    ensures EnsureIn(PermissionMap, os, kind, broker) == (EnsureGrants(os, kind, broker), GateNotices(os, kind, broker))
  {
    PermissionMapClosed(kind);
  }

  /**
   * With the bundled table, `ensure(files)` on iOS is false and silent, whatever
   * the broker would say: no notice explains the denial.
   */
  lemma BundledEnsureFilesSilent(broker: Broker)
    ensures EnsureIn(BundledPermissionMap, IOS, Files, broker) == (false, [])
    ensures forall kind :: kind != Files ==> EnsureIn(BundledPermissionMap, IOS, kind, broker) == EnsureIn(PermissionMap, IOS, kind, broker)
    ensures Authorizes(broker.prompt(IosDocuments)) ==> EnsureGrants(IOS, Files, broker)
  {
  }

  /** The broker after `ensure`: untouched when the check passes, else one request. */
  twostate predicate Ensured(os: Os, kind: PermissionKind, broker: Broker)
    reads broker
  {
    if old(CheckPermission(os, kind, broker)) then unchanged(broker) else Prompted(kind, broker)
  }

  /**
   * `ensureIOSPermission`: check first and request only if the check fails, so
   * an authorised kind is never prompted for again; otherwise the result is
   * the request's.
   */
  method EnsurePermission(os: Os, kind: PermissionKind, broker: Broker, toasts: Toasts) returns (granted: bool)
    modifies broker, toasts
    ensures granted == old(EnsureGrants(os, kind, broker))
    ensures Ensured(os, kind, broker)
    ensures toasts.shown == old(toasts.shown) + old(GateNotices(os, kind, broker))
  {
    if os != IOS {
      return true;
    }
    var hasPermission := CheckPermission(os, kind, broker);
    if hasPermission {
      return true;
    }
    granted := RequestPermission(os, kind, broker, toasts);
  }
}
