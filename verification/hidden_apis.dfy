/** `HiddenAPIsImpl`: the compatibility shim between the daemon's handlers and the
    platform's service interfaces. Every binder transaction is answered by an oracle
    (`Binder`) whose Java throwables arrive as `Threw(Unchecked(cause))`; the shim
    decides which service and which signature to use for the SDK level, turns the
    causes it catches into `HiddenAPIsException` or `HiddenAPIsError`, and converts
    the platform's structures into the daemon's own. */
module HiddenApis {
  import opened Java

  /** Android SDK levels the shim branches on. */
  const O: int := 26
  const P: int := 28
  const Q: int := 29
  const R: int := 30

  datatype Service =
    | AppOpsService
    | PackageManager
    | PermissionManager
    | UserManager
    | ActivityManager

  /** Which service handles the constructor obtained (`false` stands for `null`). */
  datatype Handles = Handles(
    appOps: bool,
    packageManager: bool,
    permissionManager: bool,
    userManager: bool,
    activityManager: bool)

  function Has(h: Handles, svc: Service): bool {
    match svc
    case AppOpsService => h.appOps
    case PackageManager => h.packageManager
    case PermissionManager => h.permissionManager
    case UserManager => h.userManager
    case ActivityManager => h.activityManager
  }

  /** The constructor: each handle is kept when its lookup succeeded; the permission
      manager is only looked up from R on. */
  function Probe(sdk: int, obtained: Service -> bool): (h: Handles)
    ensures forall svc :: Has(h, svc) ==> obtained(svc)
    ensures h.permissionManager <==> sdk >= R && obtained(PermissionManager)
    ensures forall svc :: svc != PermissionManager ==> (Has(h, svc) <==> obtained(svc))
  {
    Handles(
      obtained(AppOpsService),
      obtained(PackageManager),
      sdk >= R && obtained(PermissionManager),
      obtained(UserManager),
      obtained(ActivityManager))
  }

  /** The three `startService` signatures, newest first. */
  datatype StartServiceSignature = StartServiceR | StartServiceO | StartServiceLegacy

  /** One binder transaction, with the arguments the shim passes. */
  datatype Invocation =
    | AppOpsSetMode(op: int, uid: int, pkg: string, mode: int)
    | AppOpsSetUidMode(op: int, uid: int, mode: int)
    | AppOpsResetAllModes(userId: int, pkg: string)
    | AppOpsGetOpsForPackage(uid: int, pkg: string, ops: Option<seq<int>>)
    | AppOpsGetUidOps(uid: int, ops: Option<seq<int>>)
    | AllPermissionGroups(svc: Service)
    | PermissionsByGroup(svc: Service, group: Option<string>)
    | PermissionFlags(svc: Service, perm: string, pkg: string, userId: int)
    | GrantPermission(svc: Service, pkg: string, perm: string, userId: int)
    | RevokePermission(svc: Service, pkg: string, perm: string, userId: int)
    | EnabledSetting(pkg: string, state: int, flags: int, userId: int, callingPkg: string)
    | InstalledPackages(flags: int, userId: int)
    | PackageInfoOf(pkg: string, flags: int, userId: int)
    | StartActivityAsUser(pkg: string, userId: int)
    | StartService(signature: StartServiceSignature, action: string, target: string, codeWord: string, userId: int)
    | UserList(qPlusSignature: bool)

  /** The service whose handle carries a transaction. */
  function ServiceOf(inv: Invocation): Service {
    match inv
    case AppOpsSetMode(_, _, _, _) => AppOpsService
    case AppOpsSetUidMode(_, _, _) => AppOpsService
    case AppOpsResetAllModes(_, _) => AppOpsService
    case AppOpsGetOpsForPackage(_, _, _) => AppOpsService
    case AppOpsGetUidOps(_, _) => AppOpsService
    case AllPermissionGroups(svc) => svc
    case PermissionsByGroup(svc, _) => svc
    case PermissionFlags(svc, _, _, _) => svc
    case GrantPermission(svc, _, _, _) => svc
    case RevokePermission(svc, _, _, _) => svc
    case EnabledSetting(_, _, _, _, _) => PackageManager
    case InstalledPackages(_, _) => PackageManager
    case PackageInfoOf(_, _, _) => PackageManager
    case StartActivityAsUser(_, _) => ActivityManager
    case StartService(_, _, _, _, _) => ActivityManager
    case UserList(_) => UserManager
  }

  /** Platform records, reduced to the fields the shim reads. */
  datatype OpEntry = OpEntry(op: int, mode: int, time: int, lastAccessAll: int)
  datatype PackageOps = PackageOps(packageName: string, ops: seq<OpEntry>)
  datatype PermGroupInfo = PermGroupInfo(name: string)
  datatype PermInfo = PermInfo(name: string, packageName: string)
  datatype ApplicationInfo = ApplicationInfo(uid: int, enabled: bool)
  datatype PackageInfo = PackageInfo(
    packageName: string,
    versionName: Option<string>,
    requestedPermissions: Option<seq<string>>,
    requestedPermissionsFlags: Option<seq<int>>,
    applicationInfo: ApplicationInfo)
  datatype UserInfo = UserInfo(id: int, name: Option<string>)

  /** A `ParceledListSlice`, whose list may itself be `null`. */
  datatype Slice<+T> = Slice(list: Option<seq<T>>)

  /** The daemon's own op records, as handed to the client. */
  datatype MyOpEntry = MyOpEntry(op: int, opMode: int, lastAccessTime: int)
  datatype MyPackageOps = MyPackageOps(packageName: string, entries: seq<MyOpEntry>)

  /** The answers of the platform services, one oracle per result shape. */
  datatype Binder = Binder(
    void: Invocation -> Call<()>,
    number: Invocation -> Call<int>,
    packageOps: Invocation -> Call<Option<seq<PackageOps>>>,
    permGroups: Invocation -> Call<Option<Slice<PermGroupInfo>>>,
    perms: Invocation -> Call<Option<Slice<PermInfo>>>,
    packages: Invocation -> Call<Option<Slice<PackageInfo>>>,
    packageInfo: Invocation -> Call<Option<PackageInfo>>,
    component: Invocation -> Call<Option<string>>,
    users: Invocation -> Call<Option<seq<UserInfo>>>)

  /** Calls the shim makes on its `HiddenAPIsCallback`. */
  datatype Callback =
    | OnGetUidOpsNpException
    | OnInvalidOpCode(op: int, pkg: string)
    | LogError

  /** What one shim call did: the transactions it sent, the callbacks it made, and
      its outcome. */
  datatype Out<+T> = Out(calls: seq<Invocation>, events: seq<Callback>, out: Call<T>)

  /** A transaction on the handle of its service; a missing handle throws
      `NullPointerException` before anything is sent. */
  function Transact<T>(h: Handles, inv: Invocation, answer: Invocation -> Call<T>): (o: Out<T>)
    ensures o.events == []
    ensures Has(h, ServiceOf(inv)) ==> o.calls == [inv] && o.out == answer(inv)
    ensures !Has(h, ServiceOf(inv)) ==> o.calls == [] && o.out == Threw(Unchecked(NullPointerException))
  {
    if Has(h, ServiceOf(inv)) then Out([inv], [], answer(inv))
    else Out([], [], Threw(Unchecked(NullPointerException)))
  }

  /** The shim's `catch` clauses: `RemoteException` (and `SecurityException` when
      `security` is set) become `HiddenAPIsException`; `NoSuchMethodError` becomes
      `HiddenAPIsError` when `missing` is set; anything else passes through. */
  function Translate<T>(raw: Call<T>, security: bool, missing: bool): (c: Call<T>)
    ensures raw.Ok? ==> c == raw
    ensures raw == Threw(Unchecked(RemoteException)) ==> c == Threw(HiddenApisException(RemoteException))
    ensures raw == Threw(Unchecked(SecurityException)) ==>
      c == if security then Threw(HiddenApisException(SecurityException)) else raw
    ensures raw == Threw(Unchecked(NoSuchMethodError)) ==>
      c == if missing then Threw(HiddenApisError(NoSuchMethodError)) else raw
    ensures (raw.Threw? && raw.thrown.Unchecked? && raw.thrown.cause != RemoteException
      && raw.thrown.cause != SecurityException && raw.thrown.cause != NoSuchMethodError) ==> c == raw
  {
    match raw
    case Threw(Unchecked(RemoteException)) => Threw(HiddenApisException(RemoteException))
    case Threw(Unchecked(SecurityException)) =>
      if security then Threw(HiddenApisException(SecurityException)) else raw
    case Threw(Unchecked(NoSuchMethodError)) =>
      if missing then Threw(HiddenApisError(NoSuchMethodError)) else raw
    case _ => raw
  }

  /** The transaction failures the shim turns into `HiddenAPIsException` where it
      catches both: a `RemoteException` or a `SecurityException`. */
  predicate Refused<T>(c: Call<T>) {
    c.Threw? && c.thrown.Unchecked? && (c.thrown.cause == RemoteException || c.thrown.cause == SecurityException)
  }

  /** An answer a platform service can give: a value or an unchecked throwable
      (the shim's own exception types never come out of a binder call). */
  predicate Native<T>(c: Call<T>) {
    c.Ok? || c.thrown.Unchecked?
  }

  /** A call under `catch (RemoteException | SecurityException e)`: on a missing
      handle, a `NullPointerException` and no transaction; otherwise exactly the one
      transaction, whose value is returned, whose remote or security failure becomes
      a `HiddenAPIsException` with that cause, and whose other unchecked throwables
      pass through. No callback is made. */
  ghost predicate RemoteAndSecurityCaught<T>(h: Handles, inv: Invocation, answer: Call<T>, o: Out<T>) {
    && o.events == []
    && (!Has(h, ServiceOf(inv)) ==> o.calls == [] && o.out == Threw(Unchecked(NullPointerException)))
    && (Has(h, ServiceOf(inv)) ==>
         && o.calls == [inv]
         && (answer.Ok? ==> o.out == answer)
         && (Refused(answer) ==> o.out == Threw(HiddenApisException(answer.thrown.cause)))
         && (answer.Threw? && answer.thrown.Unchecked? && !Refused(answer) ==> o.out == answer))
  }

  /** A transaction followed by the shim's `catch` clauses. */
  function Guarded<T>(h: Handles, inv: Invocation, answer: Invocation -> Call<T>, security: bool, missing: bool): (o: Out<T>)
    ensures security && !missing ==> RemoteAndSecurityCaught(h, inv, answer(inv), o)
  {
    var t := Transact(h, inv, answer);
    Out(t.calls, [], Translate(t.out, security, missing))
  }

  //////////////////////////////////////////////////////////////////
  //////////////////////////// APP OPS /////////////////////////////
  //////////////////////////////////////////////////////////////////

  function SetMode(b: Binder, h: Handles, op: int, uid: int, pkg: string, mode: int): (o: Out<()>)
    ensures RemoteAndSecurityCaught(h, AppOpsSetMode(op, uid, pkg, mode), b.void(AppOpsSetMode(op, uid, pkg, mode)), o)
  {
    Guarded(h, AppOpsSetMode(op, uid, pkg, mode), b.void, true, false)
  }

  function SetUidMode(b: Binder, h: Handles, op: int, uid: int, mode: int): (o: Out<()>)
    ensures RemoteAndSecurityCaught(h, AppOpsSetUidMode(op, uid, mode), b.void(AppOpsSetUidMode(op, uid, mode)), o)
  {
    Guarded(h, AppOpsSetUidMode(op, uid, mode), b.void, true, false)
  }

  function ResetAllModes(b: Binder, h: Handles, userId: int, pkg: string): (o: Out<()>)
    ensures RemoteAndSecurityCaught(h, AppOpsResetAllModes(userId, pkg), b.void(AppOpsResetAllModes(userId, pkg)), o)
  {
    Guarded(h, AppOpsResetAllModes(userId, pkg), b.void, true, false)
  }

  /** The access time the shim reports for an entry: from Q on, the time over all
      flags, or -1 when the flags constant could not be read; before Q, `getTime()`. */
  function LastAccessTime(e: OpEntry, sdk: int, opFlagsAll: Option<int>): int {
    if sdk >= Q then (if opFlagsAll.None? then -1 else e.lastAccessAll) else e.time
  }

  function ToMyEntry(e: OpEntry, sdk: int, opFlagsAll: Option<int>): (m: MyOpEntry)
    ensures m.op == e.op && m.opMode == e.mode
    ensures sdk >= Q && opFlagsAll.None? ==> m.lastAccessTime == -1
  {
    MyOpEntry(e.op, e.mode, LastAccessTime(e, sdk, opFlagsAll))
  }

  /** The loop over one package's entries: an entry whose op code is not below
      `opNum` is reported through `onInvalidOpCode` and dropped, the others are
      converted; both keep their order. */
  function ConvertOps(pkg: string, ops: seq<OpEntry>, opNum: int, sdk: int, opFlagsAll: Option<int>): (r: (seq<MyOpEntry>, seq<Callback>))
    ensures forall i :: 0 <= i < |r.0| ==> r.0[i].op < opNum
    ensures |r.0| + |r.1| == |ops|
    ensures forall i :: 0 <= i < |r.1| ==> r.1[i].OnInvalidOpCode? && r.1[i].pkg == pkg && r.1[i].op >= opNum
    decreases |ops|
  {
    if |ops| == 0 then ([], [])
    else
      var rest := ConvertOps(pkg, ops[1..], opNum, sdk, opFlagsAll);
      if ops[0].op >= opNum then (rest.0, [OnInvalidOpCode(ops[0].op, pkg)] + rest.1)
      else ([ToMyEntry(ops[0], sdk, opFlagsAll)] + rest.0, rest.1)
  }

  /** The entries whose op code is below `opNum`, in order. */
  function InRange(ops: seq<OpEntry>, opNum: int): seq<OpEntry> {
    if |ops| == 0 then [] else (if ops[0].op < opNum then [ops[0]] else []) + InRange(ops[1..], opNum)
  }

  /** The entries whose op code is at or beyond `opNum`, in order. */
  function OutOfRange(ops: seq<OpEntry>, opNum: int): seq<OpEntry> {
    if |ops| == 0 then [] else (if ops[0].op >= opNum then [ops[0]] else []) + OutOfRange(ops[1..], opNum)
  }

  /** The two filters split the entries by op code: an entry is in-range exactly
      when it is below `opNum`, out of range exactly when it is not. */
  lemma {:induction false} RangeMembers(ops: seq<OpEntry>, opNum: int)
    ensures forall e :: e in InRange(ops, opNum) <==> e in ops && e.op < opNum
    ensures forall e :: e in OutOfRange(ops, opNum) <==> e in ops && e.op >= opNum
    decreases |ops|
  {
    if |ops| > 0 {
      RangeMembers(ops[1..], opNum);
      assert forall e :: e in ops <==> e == ops[0] || e in ops[1..];
    }
  }

  /** The entries the conversion keeps are the in-range ones, converted, in order. */
  lemma {:induction false} ConvertOpsKeeps(pkg: string, ops: seq<OpEntry>, opNum: int, sdk: int, opFlagsAll: Option<int>)
    ensures var r := ConvertOps(pkg, ops, opNum, sdk, opFlagsAll);
      && var kept := InRange(ops, opNum);
      && |r.0| == |kept|
      && (forall i :: 0 <= i < |kept| ==> r.0[i] == ToMyEntry(kept[i], sdk, opFlagsAll))
    decreases |ops|
  {
    if |ops| > 0 {
      ConvertOpsKeeps(pkg, ops[1..], opNum, sdk, opFlagsAll);
      var r := ConvertOps(pkg, ops, opNum, sdk, opFlagsAll).0;
      var rest := ConvertOps(pkg, ops[1..], opNum, sdk, opFlagsAll).0;
      var kept := InRange(ops[1..], opNum);
      if ops[0].op < opNum {
        assert r == [ToMyEntry(ops[0], sdk, opFlagsAll)] + rest;
        assert InRange(ops, opNum) == [ops[0]] + kept;
      } else {
        assert r == rest;
        assert InRange(ops, opNum) == kept;
      }
    }
  }

  /** The reports are the out-of-range entries, once each, in order. */
  lemma {:induction false} ConvertOpsReports(pkg: string, ops: seq<OpEntry>, opNum: int, sdk: int, opFlagsAll: Option<int>)
    ensures var r := ConvertOps(pkg, ops, opNum, sdk, opFlagsAll);
      && var dropped := OutOfRange(ops, opNum);
      && |r.1| == |dropped|
      && (forall i :: 0 <= i < |dropped| ==> r.1[i] == OnInvalidOpCode(dropped[i].op, pkg))
    decreases |ops|
  {
    if |ops| > 0 {
      ConvertOpsReports(pkg, ops[1..], opNum, sdk, opFlagsAll);
      var r := ConvertOps(pkg, ops, opNum, sdk, opFlagsAll).1;
      var rest := ConvertOps(pkg, ops[1..], opNum, sdk, opFlagsAll).1;
      var dropped := OutOfRange(ops[1..], opNum);
      if ops[0].op >= opNum {
        assert r == [OnInvalidOpCode(ops[0].op, pkg)] + rest;
        assert OutOfRange(ops, opNum) == [ops[0]] + dropped;
      } else {
        assert r == rest;
        assert OutOfRange(ops, opNum) == dropped;
      }
    }
  }

  /** The outer loop over packages: one converted package per input package, in
      order, with the reports of all packages concatenated in the same order. */
  function ConvertPackages(list: seq<PackageOps>, opNum: int, sdk: int, opFlagsAll: Option<int>): (r: (seq<MyPackageOps>, seq<Callback>))
    ensures |r.0| == |list|
    ensures forall i :: 0 <= i < |list| ==>
      && r.0[i].packageName == list[i].packageName
      && r.0[i].entries == ConvertOps(list[i].packageName, list[i].ops, opNum, sdk, opFlagsAll).0
    ensures forall i, j :: 0 <= i < |r.0| && 0 <= j < |r.0[i].entries| ==> r.0[i].entries[j].op < opNum
    decreases |list|
  {
    if |list| == 0 then ([], [])
    else
      var p := list[0];
      var c := ConvertOps(p.packageName, p.ops, opNum, sdk, opFlagsAll);
      var rest := ConvertPackages(list[1..], opNum, sdk, opFlagsAll);
      ([MyPackageOps(p.packageName, c.0)] + rest.0, c.1 + rest.1)
  }

  /** The number of reports is the number of out-of-range entries over all
      packages. */
  function OutOfRangeCount(list: seq<PackageOps>, opNum: int): nat {
    if |list| == 0 then 0 else |OutOfRange(list[0].ops, opNum)| + OutOfRangeCount(list[1..], opNum)
  }

  lemma {:induction false} ReportsCountOutOfRange(list: seq<PackageOps>, opNum: int, sdk: int, opFlagsAll: Option<int>)
    ensures |ConvertPackages(list, opNum, sdk, opFlagsAll).1| == OutOfRangeCount(list, opNum)
    decreases |list|
  {
    if |list| > 0 {
      ConvertOpsReports(list[0].packageName, list[0].ops, opNum, sdk, opFlagsAll);
      ReportsCountOutOfRange(list[1..], opNum, sdk, opFlagsAll);
    }
  }

  /** The op filter passed to the service: `null` for the text "null", otherwise
      the single parsed op code. */
  function OpFilter(op: string): (f: Call<Option<seq<int>>>)
    ensures f.Ok? && f.value.Some? ==> op != "null" && |f.value.value| == 1 && ParseInt(op) == Some(f.value.value[0])
    ensures f.Ok? <==> op == "null" || ParseInt(op).Some?
    ensures f.Threw? ==> f.thrown == Unchecked(NumberFormatException)
  {
    if op == "null" then Ok(None)
    else match ParseInt(op)
      case Some(v) => Ok(Some([v]))
      case None => Threw(Unchecked(NumberFormatException))
  }

  /** The list handed to the conversion loop: `null` becomes an empty result. */
  function ConvertList(list: Option<seq<PackageOps>>, opNum: int, sdk: int, opFlagsAll: Option<int>): (r: (seq<MyPackageOps>, seq<Callback>))
    ensures list.None? ==> r == ([], [])
  {
    if list.None? then ([], []) else ConvertPackages(list.value, opNum, sdk, opFlagsAll)
  }

  /** `getMyPackageOpsList`. A package name other than "null" asks `getOpsForPackage`;
      "null" asks `getUidOps` from O on, and nothing before O (empty result). A
      `NullPointerException` from `getUidOps` is handed to the callback and the
      result is `null`. `RemoteException` becomes `HiddenAPIsException` and
      `NoSuchMethodError` becomes `HiddenAPIsError`. */
  function GetMyPackageOpsList(b: Binder, h: Handles, sdk: int, opFlagsAll: Option<int>, uid: int, pkg: string, op: string, opNum: int): (o: Out<Option<seq<MyPackageOps>>>)
    ensures pkg == "null" && sdk < O && OpFilter(op).Ok? ==> o == Out([], [], Ok(Some([])))
    ensures OpFilter(op).Threw? ==> o.calls == [] && o.events == [] && o.out == Threw(OpFilter(op).thrown)
    ensures OpFilter(op).Ok? && pkg != "null" && h.appOps ==>
      o.calls == [AppOpsGetOpsForPackage(uid, pkg, OpFilter(op).value)]
    ensures OpFilter(op).Ok? && pkg == "null" && sdk >= O && h.appOps ==>
      o.calls == [AppOpsGetUidOps(uid, OpFilter(op).value)]
    ensures o.out.Ok? && o.out.value.Some? ==>
      forall i, j :: 0 <= i < |o.out.value.value| && 0 <= j < |o.out.value.value[i].entries| ==>
        o.out.value.value[i].entries[j].op < opNum
    ensures OpFilter(op).Ok? && (pkg != "null" || sdk >= O) ==>
      var inv := if pkg != "null" then AppOpsGetOpsForPackage(uid, pkg, OpFilter(op).value) else AppOpsGetUidOps(uid, OpFilter(op).value);
      var raw := if h.appOps then b.packageOps(inv) else Threw(Unchecked(NullPointerException));
      && (raw.Ok? ==> var c := ConvertList(raw.value, opNum, sdk, opFlagsAll); o.out == Ok(Some(c.0)) && o.events == c.1)
      && (raw == Threw(Unchecked(NullPointerException)) ==>
            if pkg == "null" then o.out == Ok(None) && o.events == [OnGetUidOpsNpException] else o.out == Threw(Unchecked(NullPointerException)) && o.events == [])
      && (raw == Threw(Unchecked(RemoteException)) ==> o.out == Threw(HiddenApisException(RemoteException)))
      && (raw == Threw(Unchecked(NoSuchMethodError)) ==> o.out == Threw(HiddenApisError(NoSuchMethodError)))
      && (raw.Threw? && raw != Threw(Unchecked(NullPointerException)) ==> o.events == [])
      && (raw.Threw? && raw.thrown.Unchecked? && raw.thrown.cause != RemoteException
          && raw.thrown.cause != NoSuchMethodError && raw.thrown.cause != NullPointerException ==>
            o.out == Threw(raw.thrown))
  {
    match OpFilter(op)
    case Threw(t) => Out([], [], Threw(t))
    case Ok(ops) =>
      if pkg != "null" then
        var t := Transact(h, AppOpsGetOpsForPackage(uid, pkg, ops), b.packageOps);
        match Translate(t.out, false, true)
        case Threw(e) => Out(t.calls, [], Threw(e))
        case Ok(list) =>
          var c := ConvertList(list, opNum, sdk, opFlagsAll);
          Out(t.calls, c.1, Ok(Some(c.0)))
      else if sdk >= O then
        var t := Transact(h, AppOpsGetUidOps(uid, ops), b.packageOps);
        if t.out == Threw(Unchecked(NullPointerException)) then Out(t.calls, [OnGetUidOpsNpException], Ok(None))
        else match Translate(t.out, false, true)
          case Threw(e) => Out(t.calls, [], Threw(e))
          case Ok(list) =>
            var c := ConvertList(list, opNum, sdk, opFlagsAll);
            Out(t.calls, c.1, Ok(Some(c.0)))
      else Out([], [], Ok(Some([])))
  }

  //////////////////////////////////////////////////////////////////
  ////////////////////// MANIFEST PERMISSIONS //////////////////////
  //////////////////////////////////////////////////////////////////

  /** Where permission queries, flag reads and revokes go: the permission manager
      from R on, the package manager before. */
  function PermissionRoute(sdk: int): Service {
    if sdk >= R then PermissionManager else PackageManager
  }

  /** A `null` slice or a `null` list inside it both read as an empty list. */
  function SliceList<T>(s: Option<Slice<T>>): (l: seq<T>)
    ensures s.Some? && s.value.list.Some? ==> l == s.value.list.value
    ensures s.None? || s.value.list.None? ==> l == []
  {
    match s
    case None => []
    case Some(Slice(None)) => []
    case Some(Slice(Some(l))) => l
  }

  /** A permission list query under `catch (RemoteException)` and
      `catch (NoSuchMethodError)`: on a missing handle a `NullPointerException` and
      no transaction; otherwise exactly the one transaction, whose slice is
      returned as a list (`null` read as empty), whose `RemoteException` becomes a
      `HiddenAPIsException` and whose `NoSuchMethodError` becomes a
      `HiddenAPIsError`; a `SecurityException` is not caught. */
  ghost predicate ListQueried<E>(h: Handles, inv: Invocation, answer: Call<Option<Slice<E>>>, o: Out<seq<E>>) {
    && o.events == []
    && (!Has(h, ServiceOf(inv)) ==> o.calls == [] && o.out == Threw(Unchecked(NullPointerException)))
    && (Has(h, ServiceOf(inv)) ==>
         && o.calls == [inv]
         && (answer.Ok? ==> o.out == Ok(SliceList(answer.value)))
         && (answer == Threw(Unchecked(RemoteException)) ==> o.out == Threw(HiddenApisException(RemoteException)))
         && (answer == Threw(Unchecked(NoSuchMethodError)) ==> o.out == Threw(HiddenApisError(NoSuchMethodError)))
         && (answer == Threw(Unchecked(SecurityException)) ==> o.out == Threw(Unchecked(SecurityException))))
  }

  function GetPermGroupInfoList(b: Binder, h: Handles, sdk: int): (o: Out<seq<PermGroupInfo>>)
    ensures Has(h, PermissionRoute(sdk)) ==> o.calls == [AllPermissionGroups(PermissionRoute(sdk))]
    ensures o.out.Ok? ==> exists s :: b.permGroups(AllPermissionGroups(PermissionRoute(sdk))) == Ok(s) && o.out.value == SliceList(s)
    ensures ListQueried(h, AllPermissionGroups(PermissionRoute(sdk)), b.permGroups(AllPermissionGroups(PermissionRoute(sdk))), o)
  {
    var t := Transact(h, AllPermissionGroups(PermissionRoute(sdk)), b.permGroups);
    match Translate(t.out, false, true)
    case Threw(e) => Out(t.calls, [], Threw(e))
    case Ok(s) => Out(t.calls, [], Ok(SliceList(s)))
  }

  function GetPermInfoList(b: Binder, h: Handles, sdk: int, group: Option<string>): (o: Out<seq<PermInfo>>)
    ensures Has(h, PermissionRoute(sdk)) ==> o.calls == [PermissionsByGroup(PermissionRoute(sdk), group)]
    ensures o.out.Ok? ==> exists s :: b.perms(PermissionsByGroup(PermissionRoute(sdk), group)) == Ok(s) && o.out.value == SliceList(s)
    ensures ListQueried(h, PermissionsByGroup(PermissionRoute(sdk), group), b.perms(PermissionsByGroup(PermissionRoute(sdk), group)), o)
  {
    var t := Transact(h, PermissionsByGroup(PermissionRoute(sdk), group), b.perms);
    match Translate(t.out, false, true)
    case Threw(e) => Out(t.calls, [], Threw(e))
    case Ok(s) => Out(t.calls, [], Ok(SliceList(s)))
  }

  function GetPermissionFlags(b: Binder, h: Handles, sdk: int, perm: string, pkg: string, userId: int): (o: Out<int>)
    ensures var inv := PermissionFlags(PermissionRoute(sdk), perm, pkg, userId);
      RemoteAndSecurityCaught(h, inv, b.number(inv), o)
  {
    Guarded(h, PermissionFlags(PermissionRoute(sdk), perm, pkg, userId), b.number, true, false)
  }

  /** Grants always go to the package manager, whatever the SDK level. */
  function GrantRuntimePermission(b: Binder, h: Handles, pkg: string, perm: string, userId: int): (o: Out<()>)
    ensures var inv := GrantPermission(PackageManager, pkg, perm, userId);
      RemoteAndSecurityCaught(h, inv, b.void(inv), o)
  {
    Guarded(h, GrantPermission(PackageManager, pkg, perm, userId), b.void, true, false)
  }

  function RevokeRuntimePermission(b: Binder, h: Handles, sdk: int, pkg: string, perm: string, userId: int): (o: Out<()>)
    ensures var inv := RevokePermission(PermissionRoute(sdk), pkg, perm, userId);
      RemoteAndSecurityCaught(h, inv, b.void(inv), o)
  {
    Guarded(h, RevokePermission(PermissionRoute(sdk), pkg, perm, userId), b.void, true, false)
  }

  //////////////////////////////////////////////////////////////////
  //////////////////////////// PACKAGES ////////////////////////////
  //////////////////////////////////////////////////////////////////

  function SetApplicationEnabledSetting(b: Binder, h: Handles, pkg: string, state: int, flags: int, userId: int, callingPkg: string): (o: Out<()>)
    ensures var inv := EnabledSetting(pkg, state, flags, userId, callingPkg);
      RemoteAndSecurityCaught(h, inv, b.void(inv), o)
  {
    Guarded(h, EnabledSetting(pkg, state, flags, userId, callingPkg), b.void, true, false)
  }

  /** `getInstalledPackages(...).getList()`: a `null` slice throws
      `NullPointerException`; a `null` list is returned as is. */
  function GetInstalledPackages(b: Binder, h: Handles, flags: int, userId: int): (o: Out<Option<seq<PackageInfo>>>)
    ensures h.packageManager ==> o.calls == [InstalledPackages(flags, userId)]
    ensures b.packages(InstalledPackages(flags, userId)) == Ok(None) ==> o.out.Threw?
    ensures !h.packageManager ==> o.calls == [] && o.out == Threw(Unchecked(NullPointerException))
    ensures h.packageManager ==>
      var answer := b.packages(InstalledPackages(flags, userId));
      && (answer == Ok(None) ==> o.out == Threw(Unchecked(NullPointerException)))
      && (answer.Ok? && answer.value.Some? ==> o.out == Ok(answer.value.value.list))
      && (Refused(answer) ==> o.out == Threw(HiddenApisException(answer.thrown.cause)))
      && (answer.Threw? && answer.thrown.Unchecked? && !Refused(answer) ==> o.out == Threw(answer.thrown))
    ensures o.events == []
  {
    var t := Transact(h, InstalledPackages(flags, userId), b.packages);
    var c: Call<Option<Slice<PackageInfo>>> := Translate(t.out, true, false);
    match c
    case Threw(e) => Out(t.calls, [], Threw(e))
    case Ok(None) => Out(t.calls, [], Threw(Unchecked(NullPointerException)))
    case Ok(Some(Slice(l))) => Out(t.calls, [], Ok(l))
  }

  function GetPkgInfo(b: Binder, h: Handles, pkg: string, flags: int, userId: int): (o: Out<Option<PackageInfo>>)
    ensures RemoteAndSecurityCaught(h, PackageInfoOf(pkg, flags, userId), b.packageInfo(PackageInfoOf(pkg, flags, userId)), o)
  {
    Guarded(h, PackageInfoOf(pkg, flags, userId), b.packageInfo, true, false)
  }

  //////////////////////////////////////////////////////////////////
  ////////////////////////////// OTHERS ////////////////////////////
  //////////////////////////////////////////////////////////////////

  /** `openAppInfo` refuses with a `HiddenAPIsException` before any transaction when
      the activity manager handle is missing. */
  function OpenAppInfo(b: Binder, h: Handles, pkg: string, userId: int): (o: Out<int>)
    ensures !h.activityManager ==> o.calls == [] && o.out.IsHiddenApisException()
    ensures h.activityManager ==> o.calls == [StartActivityAsUser(pkg, userId)]
    ensures h.activityManager ==> RemoteAndSecurityCaught(h, StartActivityAsUser(pkg, userId), b.number(StartActivityAsUser(pkg, userId)), o)
  {
    if !h.activityManager then Out([], [], Threw(HiddenApisException(Message("Could not initialize IActivityManager"))))
    else Guarded(h, StartActivityAsUser(pkg, userId), b.number, true, false)
  }

  /** The `startService` signature for an SDK level: R, then O, then older. */
  function StartServiceSignatureFor(sdk: int): (s: StartServiceSignature)
    ensures s == StartServiceR <==> sdk >= R
    ensures s == StartServiceO <==> O <= sdk < R
    ensures s == StartServiceLegacy <==> sdk < O
  {
    if sdk >= R then StartServiceR else if sdk >= O then StartServiceO else StartServiceLegacy
  }

  /** `sendRequest`: starts the receiver service of the client app and succeeds only
      when the component the platform resolved belongs to the client's package. */
  function SendRequest(b: Binder, h: Handles, sdk: int, appPkg: string, command: string, userId: int, codeWord: string): (o: Out<()>)
    ensures var inv := StartService(StartServiceSignatureFor(sdk), command, appPkg, codeWord, userId);
      && (h.activityManager ==> o.calls == [inv])
      && (o.out.Ok? <==> h.activityManager && b.component(inv) == Ok(Some(appPkg)))
    ensures !h.activityManager ==> o.calls == [] && o.out == Threw(Unchecked(NullPointerException))
    ensures var inv := StartService(StartServiceSignatureFor(sdk), command, appPkg, codeWord, userId);
      var answer := b.component(inv);
      && o.events == []
      && (h.activityManager && answer.Ok? && answer.value != Some(appPkg) ==> o.out.IsHiddenApisException())
      && (h.activityManager && Refused(answer) ==> o.out == Threw(HiddenApisException(answer.thrown.cause)))
      && (h.activityManager && answer.Threw? && answer.thrown.Unchecked? && !Refused(answer) ==> o.out == Threw(answer.thrown))
  {
    var t := Transact(h, StartService(StartServiceSignatureFor(sdk), command, appPkg, codeWord, userId), b.component);
    match Translate(t.out, true, false)
    case Threw(e) => Out(t.calls, [], Threw(e))
    case Ok(cn) =>
      if cn.Some? && cn.value == appPkg then Out(t.calls, [], Ok(()))
      else Out(t.calls, [], Threw(HiddenApisException(Message("Could not start DaemonToastSvc"))))
  }

  /** The text `getUsers` returns for one user: its id, a bar, and its name (empty
      when the name is `null`). */
  function UserName(u: UserInfo): string {
    if u.name.Some? then u.name.value else ""
  }

  function UserLine(u: UserInfo): string {
    IntToString(u.id) + "|" + UserName(u)
  }

  function UserLines(users: seq<UserInfo>): (lines: seq<string>)
    ensures |lines| == |users|
    ensures forall i :: 0 <= i < |users| ==> lines[i] == UserLine(users[i])
  {
    seq(|users|, i requires 0 <= i < |users| => UserLine(users[i]))
  }

  /** `getUsers`. From Q on it first tries the three-argument signature; a
      `NoSuchMethodError` there is logged once, switches the shim to the older
      signature for good, and the call is retried. A `NoSuchMethodError` once
      switched becomes a `HiddenAPIsException`. The first component of the result
      is the new value of `isQPlus`. */
  function GetUsers(b: Binder, h: Handles, sdk: int, isQPlus: bool): (r: (bool, Out<seq<string>>))
    ensures r.0 ==> isQPlus
    ensures !h.userManager ==> r.0 == isQPlus && r.1.calls == [] && r.1.events == [] && r.1.out.IsHiddenApisException()
    ensures h.userManager && !isQPlus ==> r.1.calls == [UserList(false)] && r.1.events == [] && !r.0
    ensures h.userManager && !isQPlus && b.users(UserList(false)) == Threw(Unchecked(NoSuchMethodError)) ==>
      r.1.out == Threw(HiddenApisException(NoSuchMethodError))
    ensures r.1.events == [] || r.1.events == [LogError]
    ensures r.1.events == [LogError] <==> isQPlus && !r.0
    ensures |r.1.calls| <= 2
    ensures h.userManager ==> |r.1.calls| >= 1 && r.1.calls[0] == UserList(sdk >= Q && isQPlus)
    ensures h.userManager && isQPlus && b.users(UserList(sdk >= Q)) == Threw(Unchecked(NoSuchMethodError)) ==>
      !r.0 && r.1.calls == [UserList(sdk >= Q), UserList(false)] && r.1.events == [LogError]
    ensures h.userManager && b.users(UserList(sdk >= Q && isQPlus)) != Threw(Unchecked(NoSuchMethodError)) ==>
      r.0 == isQPlus && r.1.calls == [UserList(sdk >= Q && isQPlus)] && r.1.events == []
    ensures h.userManager ==>
      var last := b.users(r.1.calls[|r.1.calls| - 1]);
      && (r.1.out.Ok? <==> last.Ok? && last.value.Some?)
      && (last.Ok? && last.value.Some? ==> r.1.out == Ok(UserLines(last.value.value)))
      && (last == Ok(None) ==> r.1.out == Threw(Unchecked(NullPointerException)))
      && (Refused(last) ==> r.1.out == Threw(HiddenApisException(last.thrown.cause)))
      && (last == Threw(Unchecked(NoSuchMethodError)) ==> r.1.out == Threw(HiddenApisException(NoSuchMethodError)))
      && (last.Threw? && last.thrown.Unchecked? && !Refused(last) && last.thrown.cause != NoSuchMethodError ==>
            r.1.out == Threw(last.thrown))
    decreases if isQPlus then 1 else 0
  {
    if !h.userManager then
      (isQPlus, Out([], [], Threw(HiddenApisException(Message("Could not initialize mIUserManager")))))
    else
      var inv := UserList(sdk >= Q && isQPlus);
      var raw := b.users(inv);
      if raw == Threw(Unchecked(NoSuchMethodError)) then
        if isQPlus then
          var retry := GetUsers(b, h, sdk, false);
          (retry.0, Out([inv] + retry.1.calls, [LogError] + retry.1.events, retry.1.out))
        else (false, Out([inv], [], Threw(HiddenApisException(NoSuchMethodError))))
      else
        var c: Call<Option<seq<UserInfo>>> := Translate(raw, true, false);
        match c
        case Threw(e) => (isQPlus, Out([inv], [], Threw(e)))
        case Ok(None) => (isQPlus, Out([inv], [], Threw(Unchecked(NullPointerException))))
        case Ok(Some(users)) => (isQPlus, Out([inv], [], Ok(UserLines(users))))
  }

  /** The index of the first bar in `s`, or `|s|` when there is none. */
  function BarIndex(s: string): (k: nat)
    ensures k <= |s|
    ensures k < |s| ==> s[k] == '|'
    ensures forall j :: 0 <= j < k ==> s[j] != '|'
  {
    if |s| == 0 then 0 else if s[0] == '|' then 0 else 1 + BarIndex(s[1..])
  }

  /** How a client reads one line of `getUsers` back: the id before the first bar,
      the name after it. */
  function ParseUserLine(s: string): Option<(int, string)> {
    var k := BarIndex(s);
    if k == |s| then None
    else match ParseInt(s[..k])
      case Some(id) => Some((id, s[k + 1..]))
      case None => None
  }

  /** Every line `getUsers` produces reads back as the user's id and name. */
  lemma UserLineRoundTrip(u: UserInfo)
    requires IsInt32(u.id)
    ensures ParseUserLine(UserLine(u)) == Some((u.id, UserName(u)))
  {
    var a := IntToString(u.id);
    var line := UserLine(u);
    assert line[|a|] == '|';
    assert forall j :: 0 <= j < |a| ==> line[j] == a[j];
    assert BarIndex(line) == |a|;
    assert line[..|a|] == a;
    assert line[|a| + 1..] == UserName(u);
    ParseIntToString(u.id);
  }

  //////////////////////////////////////////////////////////////////
  ///////////////////////// COMMON METHODS /////////////////////////
  //////////////////////////////////////////////////////////////////

  /** `canUseIAppOpsService`: the app-ops service handle was obtained. */
  function CanUseIAppOpsService(h: Handles): (ok: bool)
    ensures ok <==> Has(h, AppOpsService)
  {
    h.appOps
  }

  /** `canUseIPm`: the handle of the service the permission queries are routed to
      was obtained. */
  function CanUseIPm(h: Handles, sdk: int): (ok: bool)
    ensures ok <==> Has(h, PermissionRoute(sdk))
  {
    if sdk >= R then h.permissionManager else h.packageManager
  }

  /** `canUseIPm` holds exactly when the service the permission queries are routed
      to is available, so none of those queries fails on a missing handle. */
  lemma CanUseIPmCoversRoutedCalls(b: Binder, h: Handles, sdk: int, group: Option<string>, perm: string, pkg: string, userId: int)
    ensures CanUseIPm(h, sdk) <==> Has(h, PermissionRoute(sdk))
    ensures CanUseIPm(h, sdk) ==>
      && GetPermGroupInfoList(b, h, sdk).calls != []
      && GetPermInfoList(b, h, sdk, group).calls != []
      && GetPermissionFlags(b, h, sdk, perm, pkg, userId).calls != []
      && RevokeRuntimePermission(b, h, sdk, pkg, perm, userId).calls != []
    ensures !CanUseIPm(h, sdk) ==>
      GetPermissionFlags(b, h, sdk, perm, pkg, userId).out == Threw(Unchecked(NullPointerException))
  {
  }

  /** Grants are not covered by `canUseIPm` from R on: with only the permission
      manager available, a grant still fails on the missing package manager
      handle, and the failure is not a `HiddenAPIsException`. */
  lemma GrantBypassesPermissionManager(b: Binder, h: Handles, sdk: int, pkg: string, perm: string, userId: int)
    requires sdk >= R && h.permissionManager && !h.packageManager
    ensures CanUseIPm(h, sdk)
    ensures GrantRuntimePermission(b, h, pkg, perm, userId) == Out([], [], Threw(Unchecked(NullPointerException)))
  {
  }

  /** `canUseIAppOpsService` holds exactly when app-op changes reach the service. */
  lemma CanUseIAppOpsServiceCoversModes(b: Binder, h: Handles, op: int, uid: int, pkg: string, mode: int)
    ensures CanUseIAppOpsService(h) <==> SetMode(b, h, op, uid, pkg, mode).calls == [AppOpsSetMode(op, uid, pkg, mode)]
    ensures CanUseIAppOpsService(h) <==> SetUidMode(b, h, op, uid, mode).calls == [AppOpsSetUidMode(op, uid, mode)]
  {
  }
}
