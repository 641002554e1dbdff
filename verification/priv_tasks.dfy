/** `PrivTasks`: the daemon's command handlers and their fault policy. Each handler
    takes the daemon state, the host it runs on, the current time and the command's
    argument vector (element 0 is the command name), and returns the new state, the
    framework lookups and binder transactions it made, what it emitted, and its
    outcome (`Ok(None)` for a `null` result). */
module PrivTasks {
  import opened Java
  import opened Effects
  import opened RateLimit
  import opened OpTables
  import HiddenApis

  /** The three op tables. */
  datatype Table = DefaultModes | Switches | Names

  /** A framework lookup reached through `HiddenAPIs` rather than through a binder
      transaction. */
  datatype Lookup =
    | NumOps
    | TableLookup(table: Table, op: int)
    | ModeNamesSize
    | ModeName(mode: int)
    | DebugOpToOp(name: string)
    | PermissionToOp(perm: string)
    | OpNoneValue
    | PermFlagsUpdate(pkg: string, perm: string, flags: int, flagValues: int, userId: int)
    | AmSuccessCode

  /** The answers of those lookups: `HiddenAPIs` members backed by `AppOpsManager`
      statics or implemented outside `HiddenAPIsImpl`. A failing lookup answers with
      a `HiddenAPIsException` or a `HiddenAPIsError`, as the handlers expect. */
  datatype Statics = Statics(
    numOps: Call<int>,
    opToDefaultMode: int -> Call<int>,
    opToSwitch: int -> Call<int>,
    opToName: int -> Call<string>,
    modeDefault: int,
    opModeNamesSize: Call<int>,
    modeToName: int -> Call<string>,
    strDebugOpToOp: string -> Call<int>,
    permissionToOpCode: string -> Call<int>,
    opNone: Call<int>,
    updatePermFlags: (string, string, int, int, int) -> Call<()>,
    amSuccessCode: Call<int>)

  /** The lookups that `HiddenAPIsImpl` declares as throwing only `HiddenAPIsError`
      (and that the handlers call outside any `catch (HiddenAPIsException)`) never
      answer with a `HiddenAPIsException`: Java's checked exceptions rule it out. */
  ghost predicate Declared(st: Statics) {
    && !st.numOps.IsHiddenApisException()
    && !st.opModeNamesSize.IsHiddenApisException()
    && !st.opNone.IsHiddenApisException()
    && (forall m :: !st.modeToName(m).IsHiddenApisException())
    && (forall p :: !st.permissionToOpCode(p).IsHiddenApisException())
    && (forall name :: !st.strDebugOpToOp(name).IsHiddenApisException())
  }

  /** Everything fixed for the life of the daemon process. */
  datatype Host = Host(
    debug: bool,
    isDaemon: bool,
    sdk: int,
    myUid: int,
    appPkg: string,
    appUserId: int,
    handles: HiddenApis.Handles,
    binder: HiddenApis.Binder,
    statics: Statics,
    opFlagsAll: Option<int>)

  /** The daemon's mutable state: the cached op count (-1 until known), the three
      rate-limit clocks, and the shim's `isQPlus` flag. */
  datatype Daemon = Daemon(numOp: int, clocks: Clocks, isQPlus: bool)

  const Fresh: Daemon := Daemon(-1, Start, true)

  datatype Reply<+T> = Reply(
    d: Daemon,
    lookups: seq<Lookup>,
    calls: seq<HiddenApis.Invocation>,
    effects: seq<Effect>,
    out: Call<T>)

  const COMPONENT_ENABLED_STATE_ENABLED: int := 1
  const COMPONENT_ENABLED_STATE_DISABLED_USER: int := 3

  //////////////////////////////////////////////////////////////////
  ///////////////////////// COMMON METHODS /////////////////////////
  //////////////////////////////////////////////////////////////////

  datatype Gate = Gate(wrong: bool, clocks: Clocks, effects: seq<Effect>)

  /** `haveWrongArgs`: the command must carry exactly `count` arguments after its
      name. A rejection sends `WRONG_ARGS_RECEIVED` (through the one-minute limiter
      when `rateLimitToast` is set) and logs the bad command once. */
  function HaveWrongArgs(c: Clocks, now: int, args: seq<string>, count: nat, rateLimitToast: bool): (g: Gate)
    ensures g.wrong <==> |args| != count + 1
    ensures !g.wrong ==> g.clocks == c && g.effects == []
    ensures g.wrong ==> multiset(g.effects)[LogE] == 1 && g.effects[|g.effects| - 1] == LogE
    ensures g.wrong ==> Notices(g.effects) == [] || Notices(g.effects) == [WrongArgsReceived]
    ensures g.wrong ==>
      (Notify(WrongArgsReceived) in g.effects <==> !rateLimitToast || now - c.lastRequest >= REQUEST_SPACING_MS)
    ensures g.wrong && !rateLimitToast ==> g.clocks == c
    ensures g.clocks.lastThrowable == c.lastThrowable && g.clocks.lastLog == c.lastLog
  {
    if |args| == count + 1 then Gate(false, c, [])
    else if rateLimitToast then
      var e := RateLimitSendRequest(c, now, WrongArgsReceived);
      Gate(true, e.clocks, e.effects + [LogE])
    else Gate(true, c, [Notify(WrongArgsReceived), LogE])
  }

  /** What every handler does when it rejects its argument count: no lookup, no
      binder call, normal completion, and exactly the gate's effects: the
      wrong-argument notice (unless it is toast-limited and the last notice is under
      a minute old) followed by one log line. Only the notification clock can move,
      and only when a toast-limited notice goes out. */
  ghost predicate RejectionOf<T>(d: Daemon, now: int, toast: bool, r: Reply<T>) {
    var sends := !toast || now - d.clocks.lastRequest >= REQUEST_SPACING_MS;
    && r.lookups == [] && r.calls == [] && r.out.Ok?
    && r.effects == (if sends then [Notify(WrongArgsReceived), LogE] else [LogE])
    && r.d == (if toast && sends then d.(clocks := d.clocks.(lastRequest := now)) else d)
  }

  /** What an accepted handler call emits: nothing, or its own failure notice and
      one stack trace. */
  predicate FailureOnly(effects: seq<Effect>, notice: Notice) {
    effects == [] || effects == [Notify(notice), StackTrace]
  }

  /** The reply of a handler whose arguments were rejected. */
  function Rejected<T>(d: Daemon, g: Gate, v: T): Reply<T> {
    Reply(d.(clocks := g.clocks), [], [], g.effects, Ok(v))
  }

  /** A handler's `catch (HiddenAPIsException e)` that notifies the client: the
      notice and a stack trace, and normal completion. Other throwables escape. */
  function Reported(d: Daemon, lookups: seq<Lookup>, o: HiddenApis.Out<()>, notice: Notice): (r: Reply<()>)
    ensures r.d == d && r.lookups == lookups && r.calls == o.calls
    ensures o.out.IsHiddenApisException() ==> r.out == Ok(()) && r.effects == [Notify(notice), StackTrace]
    ensures !o.out.IsHiddenApisException() ==> r.out == o.out && r.effects == []
    ensures o.out.Ok? ==> r.out == Ok(())
  {
    if o.out.IsHiddenApisException() then Reply(d, lookups, o.calls, [Notify(notice), StackTrace], Ok(()))
    else
      assert o.out.Ok? ==> o.out.value == ();
      Reply(d, lookups, o.calls, [], o.out)
  }

  /** How a handler settles one void transaction whose raw answer was `a`: a value
      completes quietly, a remote or security refusal completes normally after the
      notice and a stack trace, and any other unchecked throwable escapes as it is. */
  ghost predicate SettledBy(a: Call<()>, notice: Notice, r: Reply<()>) {
    && (a.Ok? ==> r.out == Ok(()) && r.effects == [])
    && (HiddenApis.Refused(a) ==> r.out == Ok(()) && r.effects == [Notify(notice), StackTrace])
    && (a.Threw? && a.thrown.Unchecked? && !HiddenApis.Refused(a) ==> r.out == a && r.effects == [])
  }

  /** `HiddenAPIsCallbackImpl`: what the daemon does when the shim calls back. */
  function OnCallback(c: Clocks, debug: bool, now: int, cb: HiddenApis.Callback): Emission {
    match cb
    case OnGetUidOpsNpException =>
      if debug then Emission(c, [LogE]) else RateLimitLog(c, debug, now)
    case OnInvalidOpCode(_, _) =>
      var s := RateLimitSendRequest(c, now, OpNumInconsistency);
      var l := RateLimitLog(s.clocks, debug, now);
      Emission(l.clocks, s.effects + l.effects)
    case LogError => Emission(c, [LogE])
  }

  function OnCallbacks(c: Clocks, debug: bool, now: int, cbs: seq<HiddenApis.Callback>): (e: Emission)
    ensures e.clocks.lastThrowable == c.lastThrowable
    decreases |cbs|
  {
    if |cbs| == 0 then Emission(c, [])
    else
      var first := OnCallback(c, debug, now, cbs[0]);
      var rest := OnCallbacks(first.clocks, debug, now, cbs[1..]);
      Emission(rest.clocks, first.effects + rest.effects)
  }

  /** `onGetUidOpsNpException` behaves exactly like `rateLimitLog`: its own debug
      branch logs unconditionally, as `rateLimitLog` does in debug mode. */
  lemma UidOpsNpeIsRateLimitedLog(c: Clocks, debug: bool, now: int)
    ensures OnCallback(c, debug, now, HiddenApis.OnGetUidOpsNpException) == RateLimitLog(c, debug, now)
  {
  }

  /** No callback sends a notice while the notification clock is within a minute of
      `now`. */
  lemma {:induction false} CallbacksQuiet(c: Clocks, debug: bool, now: int, cbs: seq<HiddenApis.Callback>)
    requires now - c.lastRequest < REQUEST_SPACING_MS
    ensures Notices(OnCallbacks(c, debug, now, cbs).effects) == []
    ensures OnCallbacks(c, debug, now, cbs).clocks.lastRequest == c.lastRequest
    decreases |cbs|
  {
    if |cbs| > 0 {
      var first := OnCallback(c, debug, now, cbs[0]);
      CallbacksQuiet(first.clocks, debug, now, cbs[1..]);
      NoticesConcat(first.effects, OnCallbacks(first.clocks, debug, now, cbs[1..]).effects);
    }
  }

  lemma {:induction false} NoticesConcat(a: seq<Effect>, b: seq<Effect>)
    ensures Notices(a + b) == Notices(a) + Notices(b)
    decreases |a|
  {
    if |a| == 0 {
      assert a + b == b;
    } else {
      assert (a + b)[0] == a[0];
      assert (a + b)[1..] == a[1..] + b;
      NoticesConcat(a[1..], b);
      match a[0]
      case Notify(n) =>
        assert Notices(a + b) == [n] + Notices(a[1..] + b);
        assert Notices(a) == [n] + Notices(a[1..]);
      case _ =>
        assert Notices(a + b) == Notices(a[1..] + b);
        assert Notices(a) == Notices(a[1..]);
    }
  }

  /** However many invalid op codes one command reports, the client hears about it
      at most once (`OP_NUM_INCONSISTENCY`). */
  lemma {:induction false} CallbacksNotifyAtMostOnce(c: Clocks, debug: bool, now: int, cbs: seq<HiddenApis.Callback>)
    ensures var ns := Notices(OnCallbacks(c, debug, now, cbs).effects);
      ns == [] || ns == [OpNumInconsistency]
    decreases |cbs|
  {
    if |cbs| > 0 {
      var first := OnCallback(c, debug, now, cbs[0]);
      var rest := OnCallbacks(first.clocks, debug, now, cbs[1..]);
      NoticesConcat(first.effects, rest.effects);
      if Notices(first.effects) == [] {
        CallbacksNotifyAtMostOnce(first.clocks, debug, now, cbs[1..]);
      } else {
        assert first.clocks.lastRequest == now;
        CallbacksQuiet(first.clocks, debug, now, cbs[1..]);
      }
    }
  }

  //////////////////////////////////////////////////////////////////
  //////////////////////////// APP OPS /////////////////////////////
  //////////////////////////////////////////////////////////////////

  /** `getNumOps`: the framework is asked only while the cache holds -1. */
  function GetNumOps(d: Daemon, st: Statics): (r: Reply<int>)
    ensures r.calls == [] && r.effects == []
    ensures r.d.clocks == d.clocks && r.d.isQPlus == d.isQPlus
    ensures d.numOp != -1 ==> r.lookups == [] && r.d == d && r.out == Ok(d.numOp)
    ensures d.numOp == -1 ==> r.lookups == [NumOps] && r.out == st.numOps
    ensures d.numOp == -1 && st.numOps.Ok? ==> r.d.numOp == st.numOps.value
    ensures d.numOp == -1 && st.numOps.Threw? ==> r.d == d
  {
    if d.numOp != -1 then Reply(d, [], [], [], Ok(d.numOp))
    else match st.numOps
      case Ok(n) => Reply(d.(numOp := n), [NumOps], [], [], Ok(n))
      case Threw(t) => Reply(d, [NumOps], [], [], Threw(t))
  }

  /** The op count is computed once and reused: after a query that answered, no
      later call asks again, whatever the framework would answer now. */
  lemma NumOpsComputedOnce(d: Daemon, st: Statics, later: Statics)
    requires GetNumOps(d, st).out.Ok? && GetNumOps(d, st).out.value != -1
    ensures var d1 := GetNumOps(d, st).d;
      GetNumOps(d1, later) == Reply(d1, [], [], [], GetNumOps(d, st).out)
  {
  }

  function Probes(table: Table, count: nat): (s: seq<Lookup>)
    ensures |s| == count
    ensures forall i :: 0 <= i < count ==> s[i] == TableLookup(table, i)
  {
    seq(count, i requires 0 <= i < count => TableLookup(table, i))
  }

  function Identity(i: int): int {
    i
  }

  function Constant<T>(v: T): int -> T {
    (_: int) => v
  }

  /** The default-mode builder also survives a missing `opToDefaultMode`, but only
      in daemon mode. */
  function MissingNotice(isDaemon: bool): Option<Notice> {
    if isDaemon then Some(OpToDefModeNotFound) else None
  }

  /** A builder's reply: the op count (whose failure escapes), then the table loop. */
  function TableReply<T>(n: Reply<int>, table: Table, lookup: int -> Call<T>, onMissing: Option<Notice>, placeholder: int -> T): Reply<seq<T>> {
    match n.out
    case Threw(t) => Reply(n.d, n.lookups, [], [], Threw(t))
    case Ok(count) =>
      var e := Expected(count, lookup, onMissing, placeholder);
      Reply(n.d, n.lookups + Probes(table, e.queried), [], e.effects, e.out)
  }

  method BuildOpToDefaultModeList(d: Daemon, host: Host) returns (r: Reply<seq<int>>)
    ensures r == TableReply(GetNumOps(d, host.statics), DefaultModes, host.statics.opToDefaultMode,
                            MissingNotice(host.isDaemon), Constant(host.statics.modeDefault))
  {
    var n := GetNumOps(d, host.statics);
    if n.out.Threw? {
      return Reply(n.d, n.lookups, [], [], Threw(n.out.thrown));
    }
    var b := BuildTable(n.out.value, host.statics.opToDefaultMode, MissingNotice(host.isDaemon), Constant(host.statics.modeDefault));
    r := Reply(n.d, n.lookups + Probes(DefaultModes, b.queried), [], b.effects, b.out);
  }

  method BuildOpToSwitchList(d: Daemon, host: Host) returns (r: Reply<seq<int>>)
    ensures r == TableReply(GetNumOps(d, host.statics), Switches, host.statics.opToSwitch, None, Identity)
  {
    var n := GetNumOps(d, host.statics);
    if n.out.Threw? {
      return Reply(n.d, n.lookups, [], [], Threw(n.out.thrown));
    }
    var b := BuildTable(n.out.value, host.statics.opToSwitch, None, Identity);
    r := Reply(n.d, n.lookups + Probes(Switches, b.queried), [], b.effects, b.out);
  }

  method BuildOpToNameList(d: Daemon, host: Host) returns (r: Reply<seq<string>>)
    ensures r == TableReply(GetNumOps(d, host.statics), Names, host.statics.opToName, None, Constant("UNKNOWN"))
  {
    var n := GetNumOps(d, host.statics);
    if n.out.Threw? {
      return Reply(n.d, n.lookups, [], [], Threw(n.out.thrown));
    }
    var b := BuildTable(n.out.value, host.statics.opToName, None, Constant("UNKNOWN"));
    r := Reply(n.d, n.lookups + Probes(Names, b.queried), [], b.effects, b.out);
  }

  /** With an op count that answered, cached or freshly asked, and every lookup
      answering, the three tables have the same length, the op count. */
  lemma TablesAgreeWhenAllAnswer(d: Daemon, host: Host, n: int)
    requires GetNumOps(d, host.statics).out == Ok(n) && n >= 0
    requires forall i :: 0 <= i < n ==>
      host.statics.opToDefaultMode(i).Ok? && host.statics.opToSwitch(i).Ok? && host.statics.opToName(i).Ok?
    ensures var c := GetNumOps(d, host.statics);
      && var m := TableReply(c, DefaultModes, host.statics.opToDefaultMode, MissingNotice(host.isDaemon), Constant(host.statics.modeDefault));
      && var s := TableReply(c, Switches, host.statics.opToSwitch, None, Identity);
      && var t := TableReply(c, Names, host.statics.opToName, None, Constant("UNKNOWN"));
      && m.out.Ok? && s.out.Ok? && t.out.Ok?
      && |m.out.value| == |s.out.value| == |t.out.value| == n
      && m.effects == s.effects == t.effects == []
  {
    NoFaultFullTable(host.statics.opToDefaultMode, MissingNotice(host.isDaemon), n);
    NoFaultFullTable(host.statics.opToSwitch, None, n);
    NoFaultFullTable(host.statics.opToName, None, n);
  }

  /** After an out-of-range fault at `k` the switch table is shifted: list position
      `j >= k` holds `j + 1`, and the table is one entry short. */
  lemma SwitchTableAfterFault(d: Daemon, host: Host, n: int, k: int)
    requires GetNumOps(d, host.statics).out == Ok(n) && 0 <= k < n
    requires forall j :: 0 <= j < k ==> host.statics.opToSwitch(j).Ok?
    requires host.statics.opToSwitch(k) == Threw(HiddenApisException(ArrayIndexOutOfBoundsException))
    ensures var r := TableReply(GetNumOps(d, host.statics), Switches, host.statics.opToSwitch, None, Identity);
      && r.out.Ok? && |r.out.value| == n - 1
      && (forall j :: 0 <= j < k ==> r.out.value[j] == host.statics.opToSwitch(j).value)
      && (forall j :: k <= j < n - 1 ==> r.out.value[j] == j + 1)
      && r.lookups == GetNumOps(d, host.statics).lookups + Probes(Switches, k + 1)
      && r.effects == [Notify(OpNumInconsistency), StackTrace]
  {
    SingleFaultShape(host.statics.opToSwitch, None, Identity, k, n);
  }

  /** After an out-of-range fault at `k` the default-mode table holds `MODE_DEFAULT`
      from position `k` on; outside daemon mode a missing `opToDefaultMode` escapes. */
  lemma DefaultModeTableAfterFault(d: Daemon, host: Host, n: int, k: int)
    requires GetNumOps(d, host.statics).out == Ok(n) && 0 <= k < n
    requires forall j :: 0 <= j < k ==> host.statics.opToDefaultMode(j).Ok?
    requires host.statics.opToDefaultMode(k) == Threw(HiddenApisException(ArrayIndexOutOfBoundsException))
    ensures var r := TableReply(GetNumOps(d, host.statics), DefaultModes, host.statics.opToDefaultMode,
                                MissingNotice(host.isDaemon), Constant(host.statics.modeDefault));
      && r.out.Ok? && |r.out.value| == n - 1
      && (forall j :: 0 <= j < k ==> r.out.value[j] == host.statics.opToDefaultMode(j).value)
      && (forall j :: k <= j < n - 1 ==> r.out.value[j] == host.statics.modeDefault)
      && r.effects == [Notify(OpNumInconsistency), StackTrace]
  {
    SingleFaultShape(host.statics.opToDefaultMode, MissingNotice(host.isDaemon), Constant(host.statics.modeDefault), k, n);
  }

  /** After an out-of-range fault at `k` the name table holds "UNKNOWN" from
      position `k` on. */
  lemma NameTableAfterFault(d: Daemon, host: Host, n: int, k: int)
    requires GetNumOps(d, host.statics).out == Ok(n) && 0 <= k < n
    requires forall j :: 0 <= j < k ==> host.statics.opToName(j).Ok?
    requires host.statics.opToName(k) == Threw(HiddenApisException(ArrayIndexOutOfBoundsException))
    ensures var r := TableReply(GetNumOps(d, host.statics), Names, host.statics.opToName, None, Constant("UNKNOWN"));
      && r.out.Ok? && |r.out.value| == n - 1
      && (forall j :: 0 <= j < k ==> r.out.value[j] == host.statics.opToName(j).value)
      && (forall j :: k <= j < n - 1 ==> r.out.value[j] == "UNKNOWN")
      && r.effects == [Notify(OpNumInconsistency), StackTrace]
  {
    SingleFaultShape(host.statics.opToName, None, Constant("UNKNOWN"), k, n);
  }

  /** The lookups of `k` completed steps of the mode-name loop: the size, then for
      each mode its name followed by the size again (the loop bound is re-read). */
  function NameProbes(k: nat): (s: seq<Lookup>)
    ensures |s| == 2 * k + 1 && s[0] == ModeNamesSize
    ensures forall j :: 0 <= j < k ==> s[2 * j + 1] == ModeName(j) && s[2 * j + 2] == ModeNamesSize
  {
    if k == 0 then [ModeNamesSize] else NameProbes(k - 1) + [ModeName(k - 1), ModeNamesSize]
  }

  /** `buildModeToNameList`: from P on, one name per mode, the size being asked
      again before every step; before P, the four fixed names. */
  method BuildModeToNameList(d: Daemon, host: Host) returns (r: Reply<seq<string>>)
    ensures r.d == d && r.calls == [] && r.effects == []
    ensures host.sdk < HiddenApis.P ==> r.lookups == [] && r.out == Ok(["allow", "ignore", "deny", "default"])
    ensures host.sdk >= HiddenApis.P && host.statics.opModeNamesSize.Threw? ==>
      r.lookups == [ModeNamesSize] && r.out == Threw(host.statics.opModeNamesSize.thrown)
    ensures host.sdk >= HiddenApis.P && r.out.Ok? ==>
      && host.statics.opModeNamesSize.Ok?
      && |r.out.value| == (if host.statics.opModeNamesSize.value < 0 then 0 else host.statics.opModeNamesSize.value)
      && forall i :: 0 <= i < |r.out.value| ==>
           host.statics.modeToName(i).Ok? && r.out.value[i] == host.statics.modeToName(i).value
    ensures host.sdk >= HiddenApis.P && r.out.Ok? ==> r.lookups == NameProbes(|r.out.value|)
    ensures host.sdk >= HiddenApis.P && host.statics.opModeNamesSize.Ok? && r.out.Threw? ==>
      exists j :: 0 <= j < host.statics.opModeNamesSize.value
        && host.statics.modeToName(j) == Threw(r.out.thrown)
        && (forall i :: 0 <= i < j ==> host.statics.modeToName(i).Ok?)
        && r.lookups == NameProbes(j) + [ModeName(j)]
  {
    if host.sdk < HiddenApis.P {
      return Reply(d, [], [], [], Ok(["allow", "ignore", "deny", "default"]));
    }
    var lookups := [ModeNamesSize];
    if host.statics.opModeNamesSize.Threw? {
      return Reply(d, lookups, [], [], Threw(host.statics.opModeNamesSize.thrown));
    }
    var size := host.statics.opModeNamesSize.value;
    var names: seq<string> := [];
    var i := 0;
    while i < size
      invariant 0 <= i && (i <= size || i == 0)
      invariant |names| == i
      invariant forall j :: 0 <= j < i ==> host.statics.modeToName(j).Ok? && names[j] == host.statics.modeToName(j).value
      invariant lookups == NameProbes(i)
      decreases size - i
    {
      lookups := lookups + [ModeName(i)];
      match host.statics.modeToName(i) {
        case Threw(t) =>
          assert lookups == NameProbes(i) + [ModeName(i)];
          return Reply(d, lookups, [], [], Threw(t));
        case Ok(name) =>
          names := names + [name];
      }
      lookups := lookups + [ModeNamesSize];
      i := i + 1;
    }
    r := Reply(d, lookups, [], [], Ok(names));
  }

  /** The group names handed to the permission queries: those the service listed,
      then `null` for ungrouped permissions. */
  function GroupsToQuery(groups: seq<HiddenApis.PermGroupInfo>): (gs: seq<Option<string>>)
    ensures |gs| == |groups| + 1 && gs[|groups|] == None
    ensures forall i :: 0 <= i < |groups| ==> gs[i] == Some(groups[i].name)
  {
    seq(|groups|, i requires 0 <= i < |groups| => Some(groups[i].name)) + [None]
  }

  /** The service's answer to the permission query for `group`. */
  function PermAnswer(b: HiddenApis.Binder, sdk: int, group: Option<string>): Call<Option<HiddenApis.Slice<HiddenApis.PermInfo>>> {
    b.perms(HiddenApis.PermissionsByGroup(HiddenApis.PermissionRoute(sdk), group))
  }

  /** A query answer the table can be built past: a value, or a failure the shim
      turns into `HiddenAPIsException`. */
  predicate Tolerated<T>(c: Call<T>) {
    c.Ok? || HiddenApis.Translate(c, false, true).IsHiddenApisException()
  }

  /** Every group query is answered with a tolerated answer. */
  predicate AllTolerated(b: HiddenApis.Binder, sdk: int, groups: seq<Option<string>>)
    decreases |groups|
  {
    |groups| == 0 || (Tolerated(PermAnswer(b, sdk, groups[0])) && AllTolerated(b, sdk, groups[1..]))
  }

  /** The permissions the service lists for each group, concatenated in query
      order; a group whose query fails contributes nothing. */
  function AllGroupPerms(b: HiddenApis.Binder, sdk: int, groups: seq<Option<string>>): seq<HiddenApis.PermInfo>
    decreases |groups|
  {
    if |groups| == 0 then []
    else
      var a := PermAnswer(b, sdk, groups[0]);
      (if a.Ok? then HiddenApis.SliceList(a.value) else []) + AllGroupPerms(b, sdk, groups[1..])
  }

  /** The permission loop of `buildPermToOpCodeList` (no app-side package manager):
      every group is queried in order and the answers accumulate; a failed query
      prints a stack trace and adds nothing. */
  function CollectPerms(b: HiddenApis.Binder, h: HiddenApis.Handles, sdk: int, groups: seq<Option<string>>): (r: (seq<HiddenApis.Invocation>, seq<Effect>, Call<seq<HiddenApis.PermInfo>>))
    ensures forall e :: e in r.1 ==> e == StackTrace
    ensures |r.1| <= |groups|
    ensures !r.2.IsHiddenApisException()
    ensures HiddenApis.Has(h, HiddenApis.PermissionRoute(sdk)) && r.2.Ok? ==>
      r.0 == seq(|groups|, i requires 0 <= i < |groups| => HiddenApis.PermissionsByGroup(HiddenApis.PermissionRoute(sdk), groups[i]))
    ensures HiddenApis.Has(h, HiddenApis.PermissionRoute(sdk)) ==> (r.2.Ok? <==> AllTolerated(b, sdk, groups))
    ensures HiddenApis.Has(h, HiddenApis.PermissionRoute(sdk)) && r.2.Ok? ==> r.2.value == AllGroupPerms(b, sdk, groups)
    ensures !HiddenApis.Has(h, HiddenApis.PermissionRoute(sdk)) && |groups| > 0 ==> r.2 == Threw(Unchecked(NullPointerException))
    decreases |groups|
  {
    if |groups| == 0 then ([], [], Ok([]))
    else
      var o := HiddenApis.GetPermInfoList(b, h, sdk, groups[0]);
      var rest := CollectPerms(b, h, sdk, groups[1..]);
      match o.out
      case Ok(l) =>
        (o.calls + rest.0, rest.1, if rest.2.Ok? then Ok(l + rest.2.value) else rest.2)
      case Threw(HiddenApisException(_)) =>
        (o.calls + rest.0, [StackTrace] + rest.1, rest.2)
      case Threw(t) => (o.calls, [], Threw(t))
  }

  /** The text of one table entry: permission name, colon, op code. */
  function OpCodeEntry(perm: string, code: int): string {
    perm + ":" + IntToString(code)
  }

  /** `e` is the table entry of the platform permission `p`: its op code is known
      and is not `OP_NONE`. */
  ghost predicate EntryFrom(st: Statics, p: HiddenApis.PermInfo, e: string) {
    && p.packageName == "android"
    && st.permissionToOpCode(p.name).Ok? && st.opNone.Ok?
    && st.permissionToOpCode(p.name).value != st.opNone.value
    && e == OpCodeEntry(p.name, st.permissionToOpCode(p.name).value)
  }

  /** The op-code loop of `buildPermToOpCodeList`: platform ("android") permissions
      whose op code is not `OP_NONE`, in order. */
  function PermOpCodes(st: Statics, perms: seq<HiddenApis.PermInfo>): (r: (seq<Lookup>, Call<seq<string>>))
    ensures r.1.Ok? ==> |r.1.value| <= |perms|
    ensures Declared(st) ==> !r.1.IsHiddenApisException()
    decreases |perms|
  {
    if |perms| == 0 then ([], Ok([]))
    else
      var p := perms[0];
      if p.packageName != "android" then PermOpCodes(st, perms[1..])
      else match st.permissionToOpCode(p.name)
        case Threw(t) => ([PermissionToOp(p.name)], Threw(t))
        case Ok(code) =>
          match st.opNone
          case Threw(t) => ([PermissionToOp(p.name), OpNoneValue], Threw(t))
          case Ok(none) =>
            var rest := PermOpCodes(st, perms[1..]);
            var lk := [PermissionToOp(p.name), OpNoneValue] + rest.0;
            match rest.1
            case Threw(t) => (lk, Threw(t))
            case Ok(entries) =>
              (lk, Ok(if code != none then [OpCodeEntry(p.name, code)] + entries else entries))
  }

  /** `e` is the table entry of some platform permission in `perms`. */
  ghost predicate ListedEntry(st: Statics, perms: seq<HiddenApis.PermInfo>, e: string) {
    exists p :: p in perms && EntryFrom(st, p, e)
  }

  /** Every entry of the table comes from a platform permission of the list whose
      op code is not `OP_NONE`... */
  lemma {:induction false} PermOpCodesSound(st: Statics, perms: seq<HiddenApis.PermInfo>)
    ensures var r := PermOpCodes(st, perms);
      r.1.Ok? ==> forall i :: 0 <= i < |r.1.value| ==> ListedEntry(st, perms, r.1.value[i])
    decreases |perms|
  {
    if |perms| > 0 {
      PermOpCodesSound(st, perms[1..]);
      assert forall q :: q in perms[1..] ==> q in perms;
      var p := perms[0];
      if p.packageName == "android" && st.permissionToOpCode(p.name).Ok? && st.opNone.Ok? {
        assert EntryFrom(st, p, OpCodeEntry(p.name, st.permissionToOpCode(p.name).value))
          <== st.permissionToOpCode(p.name).value != st.opNone.value;
      }
    }
  }

  /** `e` is the table entry of some platform permission. */
  ghost predicate IsTableEntry(st: Statics, e: string) {
    exists p :: EntryFrom(st, p, e)
  }

  /** Every entry of the table is the entry of some platform permission. */
  lemma {:induction false} PermOpCodesWitnessed(st: Statics, perms: seq<HiddenApis.PermInfo>)
    ensures var r := PermOpCodes(st, perms);
      r.1.Ok? ==> forall i :: 0 <= i < |r.1.value| ==> IsTableEntry(st, r.1.value[i])
    decreases |perms|
  {
    if |perms| > 0 {
      PermOpCodesWitnessed(st, perms[1..]);
      var p := perms[0];
      if p.packageName == "android" && st.permissionToOpCode(p.name).Ok? && st.opNone.Ok?
         && st.permissionToOpCode(p.name).value != st.opNone.value {
        assert EntryFrom(st, p, OpCodeEntry(p.name, st.permissionToOpCode(p.name).value));
      }
    }
  }

  /** Every platform permission in `perms` whose op code is not `OP_NONE` has its
      entry in `table`. */
  ghost predicate AllEntriesIn(st: Statics, perms: seq<HiddenApis.PermInfo>, table: seq<string>) {
    forall p, e :: p in perms && EntryFrom(st, p, e) ==> e in table
  }

  /** ...and every such permission has its entry in the table. */
  lemma {:induction false} PermOpCodesComplete(st: Statics, perms: seq<HiddenApis.PermInfo>)
    ensures var r := PermOpCodes(st, perms);
      r.1.Ok? ==> forall p, e :: p in perms && EntryFrom(st, p, e) ==> e in r.1.value
    decreases |perms|
  {
    if |perms| > 0 {
      PermOpCodesComplete(st, perms[1..]);
    }
  }

  /** The groups whose permissions go into the table: those the service listed
      when it answered, and in any case `null` for ungrouped permissions. */
  function TableGroups(host: Host): seq<Option<string>> {
    var ga := host.binder.permGroups(HiddenApis.AllPermissionGroups(HiddenApis.PermissionRoute(host.sdk)));
    GroupsToQuery(if ga.Ok? then HiddenApis.SliceList(ga.value) else [])
  }

  /** `buildPermToOpCodeList` with no app-side package manager. */
  function BuildPermToOpCodeList(d: Daemon, host: Host): (r: Reply<seq<string>>)
    ensures r.d == d
    ensures Notices(r.effects) == [] || Notices(r.effects) == [GetPermGrpInfoListFailed]
    ensures Declared(host.statics) ==> !r.out.IsHiddenApisException()
    ensures r.out.Ok? ==> r.out == PermOpCodes(host.statics, AllGroupPerms(host.binder, host.sdk, TableGroups(host))).1
    ensures !HiddenApis.Has(host.handles, HiddenApis.PermissionRoute(host.sdk)) ==> r.out == Threw(Unchecked(NullPointerException))
    ensures HiddenApis.Has(host.handles, HiddenApis.PermissionRoute(host.sdk)) ==>
      var ga := host.binder.permGroups(HiddenApis.AllPermissionGroups(HiddenApis.PermissionRoute(host.sdk)));
      var groups := GroupsToQuery(if ga.Ok? then HiddenApis.SliceList(ga.value) else []);
      && (Notices(r.effects) == [GetPermGrpInfoListFailed] <==> ga.Threw? && Tolerated(ga))
      && (!Tolerated(ga) ==> r.out.Threw? && r.lookups == [])
      && (Tolerated(ga) && !AllTolerated(host.binder, host.sdk, groups) ==> r.out.Threw? && r.lookups == [])
      && (Tolerated(ga) && AllTolerated(host.binder, host.sdk, groups) ==>
            var codes := PermOpCodes(host.statics, AllGroupPerms(host.binder, host.sdk, groups));
            r.lookups == codes.0 && r.out == codes.1)
  {
    var g := HiddenApis.GetPermGroupInfoList(host.binder, host.handles, host.sdk);
    var failed := g.out.IsHiddenApisException();
    if g.out.Threw? && !failed then Reply(d, [], g.calls, [], Threw(g.out.thrown))
    else
      var groups := if failed then [] else g.out.value;
      var head: seq<Effect> := if failed then [Notify(GetPermGrpInfoListFailed), StackTrace] else [];
      var c := CollectPerms(host.binder, host.handles, host.sdk, GroupsToQuery(groups));
      NoticesOfStackTraces(c.1);
      NoticesConcat(head, c.1);
      match c.2
      case Threw(t) => Reply(d, [], g.calls + c.0, head + c.1, Threw(t))
      case Ok(perms) =>
        var codes := PermOpCodes(host.statics, perms);
        Reply(d, codes.0, g.calls + c.0, head + c.1, codes.1)
  }

  /** The table end to end, first half: every entry of a built table is the entry
      of a platform permission the service lists for the queried groups... */
  lemma BuildPermToOpCodeListSound(d: Daemon, host: Host)
    ensures var r := BuildPermToOpCodeList(d, host);
      var perms := AllGroupPerms(host.binder, host.sdk, TableGroups(host));
      r.out.Ok? ==> forall i :: 0 <= i < |r.out.value| ==> ListedEntry(host.statics, perms, r.out.value[i])
  {
    PermOpCodesSound(host.statics, AllGroupPerms(host.binder, host.sdk, TableGroups(host)));
  }

  /** ...and every such permission with an op code other than `OP_NONE` has its
      entry in it. */
  lemma BuildPermToOpCodeListComplete(d: Daemon, host: Host)
    ensures var r := BuildPermToOpCodeList(d, host);
      var perms := AllGroupPerms(host.binder, host.sdk, TableGroups(host));
      r.out.Ok? ==> AllEntriesIn(host.statics, perms, r.out.value)
  {
    PermOpCodesComplete(host.statics, AllGroupPerms(host.binder, host.sdk, TableGroups(host)));
  }

  /** In particular, every entry of a built table is a table entry. */
  lemma BuildPermToOpCodeListEntries(d: Daemon, host: Host)
    ensures var r := BuildPermToOpCodeList(d, host);
      r.out.Ok? ==> forall i :: 0 <= i < |r.out.value| ==> IsTableEntry(host.statics, r.out.value[i])
  {
    PermOpCodesWitnessed(host.statics, AllGroupPerms(host.binder, host.sdk, TableGroups(host)));
  }

  lemma {:induction false} NoticesOfStackTraces(effects: seq<Effect>)
    requires forall e :: e in effects ==> e == StackTrace
    ensures Notices(effects) == []
    decreases |effects|
  {
    if |effects| > 0 {
      assert effects[0] in effects;
      assert forall e :: e in effects[1..] ==> e in effects;
      NoticesOfStackTraces(effects[1..]);
    }
  }

  /** How a client reads an entry of the table back: the name before the last
      colon, the op code after it. */
  function LastColon(s: string): (k: int)
    ensures -1 <= k < |s|
    ensures k >= 0 ==> s[k] == ':'
    ensures forall j :: k < j < |s| ==> s[j] != ':'
    decreases |s|
  {
    if |s| == 0 then -1 else if s[|s| - 1] == ':' then |s| - 1 else LastColon(s[..|s| - 1])
  }

  function ParseOpCodeEntry(s: string): Option<(string, int)> {
    var k := LastColon(s);
    if k < 0 then None
    else match ParseInt(s[k + 1..])
      case Some(code) => Some((s[..k], code))
      case None => None
  }

  /** Every entry of the table reads back as its permission and op code. */
  lemma OpCodeEntryRoundTrip(perm: string, code: int)
    requires IsInt32(code)
    ensures ParseOpCodeEntry(OpCodeEntry(perm, code)) == Some((perm, code))
  {
    var s := OpCodeEntry(perm, code);
    var digits := IntToString(code);
    assert s[|perm|] == ':';
    assert forall j :: |perm| < j < |s| ==> s[j] == digits[j - |perm| - 1];
    assert LastColon(s) == |perm|;
    assert s[..|perm|] == perm;
    assert s[|perm| + 1..] == digits;
    ParseIntToString(code);
  }

  /** `setAppOpsMode`: the op is resolved by name first; the text "null" as package
      sets the mode for the whole uid, any other package sets it for that package.
      A `HiddenAPIsException` becomes `SET_APP_OPS_MODE_FAILED`. */
  function SetAppOpsMode(d: Daemon, host: Host, now: int, args: seq<string>): (r: Reply<()>)
    ensures |args| != 5 ==> RejectionOf(d, now, false, r)
    ensures |args| == 5 ==> r.d == d && r.lookups == [DebugOpToOp(args[1])] && FailureOnly(r.effects, SetAppOpsModeFailed)
    ensures (|args| == 5 && host.statics.strDebugOpToOp(args[1]).Ok?
             && ParseInt(args[2]).Some? && ParseInt(args[4]).Some? && host.handles.appOps) ==>
      var op := host.statics.strDebugOpToOp(args[1]).value;
      var inv := if args[3] == "null"
                 then HiddenApis.AppOpsSetUidMode(op, ParseInt(args[2]).value, ParseInt(args[4]).value)
                 else HiddenApis.AppOpsSetMode(op, ParseInt(args[2]).value, args[3], ParseInt(args[4]).value);
      && r.calls == [inv]
      && (HiddenApis.Native(host.binder.void(inv)) ==> (r.effects != [] <==> HiddenApis.Refused(host.binder.void(inv))))
      && SettledBy(host.binder.void(inv), SetAppOpsModeFailed, r)
    ensures Declared(host.statics) ==> !r.out.IsHiddenApisException()
  {
    var g := HaveWrongArgs(d.clocks, now, args, 4, false);
    if g.wrong then Rejected(d, g, ())
    else
      var lk := [DebugOpToOp(args[1])];
      match host.statics.strDebugOpToOp(args[1])
      case Threw(t) => Reply(d, lk, [], [], Threw(t))
      case Ok(op) =>
        match (ParseInt(args[2]), ParseInt(args[4]))
        case (Some(uid), Some(mode)) =>
          var o := if args[3] == "null" then HiddenApis.SetUidMode(host.binder, host.handles, op, uid, mode)
                   else HiddenApis.SetMode(host.binder, host.handles, op, uid, args[3], mode);
          Reported(d, lk, o, SetAppOpsModeFailed)
        case _ => Reply(d, lk, [], [], Threw(Unchecked(NumberFormatException)))
  }

  function ResetAppOps(d: Daemon, host: Host, now: int, args: seq<string>): (r: Reply<()>)
    ensures |args| != 3 ==> RejectionOf(d, now, false, r)
    ensures |args| == 3 ==> r.d == d && r.lookups == [] && FailureOnly(r.effects, ResetAppOpsFailed)
    ensures |args| == 3 && ParseInt(args[1]).Some? && host.handles.appOps ==>
      var inv := HiddenApis.AppOpsResetAllModes(ParseInt(args[1]).value, args[2]);
      && r.calls == [inv]
      && (HiddenApis.Native(host.binder.void(inv)) ==> (r.effects != [] <==> HiddenApis.Refused(host.binder.void(inv))))
      && SettledBy(host.binder.void(inv), ResetAppOpsFailed, r)
    ensures !r.out.IsHiddenApisException()
  {
    var g := HaveWrongArgs(d.clocks, now, args, 2, false);
    if g.wrong then Rejected(d, g, ())
    else match ParseInt(args[1])
      case None => Reply(d, [], [], [], Threw(Unchecked(NumberFormatException)))
      case Some(userId) =>
        Reported(d, [], HiddenApis.ResetAllModes(host.binder, host.handles, userId, args[2]), ResetAppOpsFailed)
  }

  /** `getMyPackageOpsList`: the op count (a failure escapes), the shim's query and
      conversion, the callbacks it made, and a rate-limited stack trace with a
      `null` result on a `HiddenAPIsException`. */
  function GetMyPackageOpsList(d: Daemon, host: Host, now: int, uid: int, pkg: string, op: string): (r: Reply<Option<seq<HiddenApis.MyPackageOps>>>)
    ensures r.out.Ok? && r.out.value.Some? ==>
      forall i, j :: 0 <= i < |r.out.value.value| && 0 <= j < |r.out.value.value[i].entries| ==>
        r.out.value.value[i].entries[j].op < r.d.numOp
    ensures Notices(r.effects) == [] || Notices(r.effects) == [OpNumInconsistency]
    ensures !r.out.IsHiddenApisException()
    ensures r.d.isQPlus == d.isQPlus
    ensures var n := GetNumOps(d, host.statics);
      && r.lookups == n.lookups
      && (n.out.IsHiddenApisException() ==> r.calls == [] && r.out == Ok(None))
      && (n.out.Ok? ==>
            var o := HiddenApis.GetMyPackageOpsList(host.binder, host.handles, host.sdk, host.opFlagsAll, uid, pkg, op, n.out.value);
            && r.calls == o.calls
            && (o.out.IsHiddenApisException() ==> r.out == Ok(None))
            && (!o.out.IsHiddenApisException() ==> r.out == o.out))
    ensures var n := GetNumOps(d, host.statics);
      var e := RateLimitThrowable(n.d.clocks, host.debug, now);
      && (n.out.IsHiddenApisException() ==> r.effects == e.effects && r.d == n.d.(clocks := e.clocks))
      && (n.out.Threw? && !n.out.IsHiddenApisException() ==>
            r.out == Threw(n.out.thrown) && r.calls == [] && r.effects == [] && r.d == n.d)
      && (n.out.Ok? ==>
            var o := HiddenApis.GetMyPackageOpsList(host.binder, host.handles, host.sdk, host.opFlagsAll, uid, pkg, op, n.out.value);
            var cb := OnCallbacks(n.d.clocks, host.debug, now, o.events);
            && (!o.out.IsHiddenApisException() ==> r.effects == cb.effects && r.d == n.d.(clocks := cb.clocks))
            && (o.out.IsHiddenApisException() ==>
                  r.effects == cb.effects + RateLimitThrowable(cb.clocks, host.debug, now).effects
                  && r.d == n.d.(clocks := RateLimitThrowable(cb.clocks, host.debug, now).clocks)))
  {
    var n := GetNumOps(d, host.statics);
    match n.out
    case Threw(HiddenApisException(_)) =>
      var e := RateLimitThrowable(n.d.clocks, host.debug, now);
      Reply(n.d.(clocks := e.clocks), n.lookups, [], e.effects, Ok(None))
    case Threw(t) => Reply(n.d, n.lookups, [], [], Threw(t))
    case Ok(count) =>
      var o := HiddenApis.GetMyPackageOpsList(host.binder, host.handles, host.sdk, host.opFlagsAll, uid, pkg, op, count);
      CallbacksNotifyAtMostOnce(n.d.clocks, host.debug, now, o.events);
      OpsListReply(n.d, host.debug, now, n.lookups, o)
  }

  /** The daemon's side of `getMyPackageOpsList` once the shim has answered `o`: its
      callbacks are dispatched, and a `HiddenAPIsException` becomes `null` with a
      rate-limited stack trace. */
  function OpsListReply(d: Daemon, debug: bool, now: int, lookups: seq<Lookup>, o: HiddenApis.Out<Option<seq<HiddenApis.MyPackageOps>>>): (r: Reply<Option<seq<HiddenApis.MyPackageOps>>>)
    ensures r.d.numOp == d.numOp && r.d.isQPlus == d.isQPlus
    ensures r.lookups == lookups && r.calls == o.calls
    ensures o.out.IsHiddenApisException() ==> r.out == Ok(None)
    ensures !o.out.IsHiddenApisException() ==> r.out == o.out
    ensures Notices(r.effects) == Notices(OnCallbacks(d.clocks, debug, now, o.events).effects)
    ensures var cb := OnCallbacks(d.clocks, debug, now, o.events);
      var e := RateLimitThrowable(cb.clocks, debug, now);
      && (!o.out.IsHiddenApisException() ==> r.effects == cb.effects && r.d == d.(clocks := cb.clocks))
      && (o.out.IsHiddenApisException() ==> r.effects == cb.effects + e.effects && r.d == d.(clocks := e.clocks))
  {
    var cb := OnCallbacks(d.clocks, debug, now, o.events);
    match o.out
    case Ok(v) => Reply(d.(clocks := cb.clocks), lookups, o.calls, cb.effects, Ok(v))
    case Threw(HiddenApisException(_)) =>
      var e := RateLimitThrowable(cb.clocks, debug, now);
      NoticesConcat(cb.effects, e.effects);
      Reply(d.(clocks := e.clocks), lookups, o.calls, cb.effects + e.effects, Ok(None))
    case Threw(t) => Reply(d.(clocks := cb.clocks), lookups, o.calls, cb.effects, Threw(t))
  }

  /** `getOpsForPackage`: three arguments (uid, package or "null", op or "null"); a
      wrong count is answered with `null` and a rate-limited notice. */
  function GetOpsForPackage(d: Daemon, host: Host, now: int, args: seq<string>): (r: Reply<Option<seq<HiddenApis.MyPackageOps>>>)
    ensures |args| != 4 ==> RejectionOf(d, now, true, r) && r.out == Ok(None)
    ensures |args| == 4 && ParseInt(args[1]).Some? ==> r == GetMyPackageOpsList(d, host, now, ParseInt(args[1]).value, args[2], args[3])
    ensures |args| == 4 && ParseInt(args[1]).None? ==> r.d == d && r.effects == [] && r.out == Threw(Unchecked(NumberFormatException))
    ensures !r.out.IsHiddenApisException()
  {
    var g := HaveWrongArgs(d.clocks, now, args, 3, true);
    if g.wrong then Rejected(d, g, None)
    else match ParseInt(args[1])
      case None => Reply(d, [], [], [], Threw(Unchecked(NumberFormatException)))
      case Some(uid) => GetMyPackageOpsList(d, host, now, uid, args[2], args[3])
  }

  //////////////////////////////////////////////////////////////////
  ////////////////////// MANIFEST PERMISSIONS //////////////////////
  //////////////////////////////////////////////////////////////////

  /** `getPermissionFlags`: a `HiddenAPIsException` gives `null` and a rate-limited
      stack trace, never a notice. */
  function GetPermissionFlags(d: Daemon, host: Host, now: int, args: seq<string>): (r: Reply<Option<int>>)
    ensures |args| != 4 ==> RejectionOf(d, now, true, r) && r.out == Ok(None)
    ensures |args| == 4 ==>
      && r.lookups == []
      && (r.effects == [] ==> r.d == d)
      && (r.effects != [] ==> r.effects == [StackTrace] && r.d == d.(clocks := d.clocks.(lastThrowable := now)))
    ensures |args| == 4 && ParseInt(args[3]).Some? ==>
      var o := HiddenApis.GetPermissionFlags(host.binder, host.handles, host.sdk, args[1], args[2], ParseInt(args[3]).value);
      var e := RateLimitThrowable(d.clocks, host.debug, now);
      && r.calls == o.calls
      && (o.out.Ok? ==> r.out == Ok(Some(o.out.value)) && r.effects == [] && r.d == d)
      && (o.out.IsHiddenApisException() ==> r.out == Ok(None) && r.effects == e.effects && r.d == d.(clocks := e.clocks))
      && (o.out.Threw? && !o.out.IsHiddenApisException() ==> r.out == Threw(o.out.thrown) && r.effects == [] && r.d == d)
    ensures |args| == 4 && ParseInt(args[3]).Some? && !HiddenApis.Has(host.handles, HiddenApis.PermissionRoute(host.sdk)) ==>
      r.calls == [] && r.out == Threw(Unchecked(NullPointerException)) && r.effects == []
    ensures !r.out.IsHiddenApisException()
  {
    var g := HaveWrongArgs(d.clocks, now, args, 3, true);
    if g.wrong then Rejected(d, g, None)
    else if ParseInt(args[3]).None? then Reply(d, [], [], [], Threw(Unchecked(NumberFormatException)))
    else
      var o := HiddenApis.GetPermissionFlags(host.binder, host.handles, host.sdk, args[1], args[2], ParseInt(args[3]).value);
      if o.out.Ok? then Reply(d, [], o.calls, [], Ok(Some(o.out.value)))
      else if o.out.IsHiddenApisException() then
        var e := RateLimitThrowable(d.clocks, host.debug, now);
        Reply(d.(clocks := e.clocks), [], o.calls, e.effects, Ok(None))
      else Reply(d, [], o.calls, [], Threw(o.out.thrown))
  }

  /** The flags are read from the permission manager from R on and from the
      package manager before; the service's answer is returned as is, and a
      refused read gives `null`. */
  lemma GetPermissionFlagsRouting(d: Daemon, host: Host, now: int, args: seq<string>)
    requires |args| == 4 && ParseInt(args[3]).Some?
    requires HiddenApis.Has(host.handles, HiddenApis.PermissionRoute(host.sdk))
    ensures var r := GetPermissionFlags(d, host, now, args);
      && var inv := HiddenApis.PermissionFlags(HiddenApis.PermissionRoute(host.sdk), args[1], args[2], ParseInt(args[3]).value);
      && r.calls == [inv]
      && (host.binder.number(inv).Ok? ==> r.out == Ok(Some(host.binder.number(inv).value)) && r.effects == [])
      && (HiddenApis.Refused(host.binder.number(inv)) ==> r.out == Ok(None))
  {
  }

  function GrantNotice(grant: bool): Notice {
    if grant then GrantPermFailed else RevokePermFailed
  }

  /** `grantRevokePermission`: grants go to the package manager, revokes follow the
      SDK routing; the failure notice is picked by the flag. */
  function GrantRevokePermission(d: Daemon, host: Host, now: int, grant: bool, args: seq<string>): (r: Reply<()>)
    ensures |args| != 4 ==> RejectionOf(d, now, false, r)
    ensures |args| == 4 ==> r.d == d && r.lookups == [] && FailureOnly(r.effects, if grant then GrantPermFailed else RevokePermFailed)
    ensures |args| == 4 && ParseInt(args[3]).Some? ==>
      var svc := if grant then HiddenApis.PackageManager else HiddenApis.PermissionRoute(host.sdk);
      var userId := ParseInt(args[3]).value;
      var inv := if grant then HiddenApis.GrantPermission(svc, args[1], args[2], userId)
                 else HiddenApis.RevokePermission(svc, args[1], args[2], userId);
      && (HiddenApis.Has(host.handles, svc) ==> r.calls == [inv] && (HiddenApis.Native(host.binder.void(inv)) ==> (r.effects != [] <==> HiddenApis.Refused(host.binder.void(inv)))))
      && (HiddenApis.Has(host.handles, svc) ==> SettledBy(host.binder.void(inv), if grant then GrantPermFailed else RevokePermFailed, r))
      && (!HiddenApis.Has(host.handles, svc) ==> r.calls == [] && r.out == Threw(Unchecked(NullPointerException)))
    ensures !r.out.IsHiddenApisException()
  {
    var g := HaveWrongArgs(d.clocks, now, args, 3, false);
    if g.wrong then Rejected(d, g, ())
    else match ParseInt(args[3])
      case None => Reply(d, [], [], [], Threw(Unchecked(NumberFormatException)))
      case Some(userId) =>
        var o := if grant then HiddenApis.GrantRuntimePermission(host.binder, host.handles, args[1], args[2], userId)
                 else HiddenApis.RevokeRuntimePermission(host.binder, host.handles, host.sdk, args[1], args[2], userId);
        Reported(d, [], o, GrantNotice(grant))
  }

  function UpdatePermFlags(d: Daemon, host: Host, now: int, args: seq<string>): (r: Reply<()>)
    ensures |args| != 6 ==> RejectionOf(d, now, false, r)
    ensures |args| == 6 ==> r.d == d && r.calls == [] && FailureOnly(r.effects, SetPermFlagsFailed)
    ensures |args| == 6 && ParseInt(args[3]).Some? && ParseInt(args[4]).Some? && ParseInt(args[5]).Some? ==>
      var flags, values, userId := ParseInt(args[3]).value, ParseInt(args[4]).value, ParseInt(args[5]).value;
      && r.lookups == [PermFlagsUpdate(args[1], args[2], flags, values, userId)]
      && (r.effects != [] <==> host.statics.updatePermFlags(args[1], args[2], flags, values, userId).IsHiddenApisException())
      && var u := host.statics.updatePermFlags(args[1], args[2], flags, values, userId);
      && (u.Ok? || u.IsHiddenApisException() <==> r.out == Ok(()))
      && (u.Threw? && !u.IsHiddenApisException() ==> r.out == u)
    ensures !r.out.IsHiddenApisException()
  {
    var g := HaveWrongArgs(d.clocks, now, args, 5, false);
    if g.wrong then Rejected(d, g, ())
    else match (ParseInt(args[3]), ParseInt(args[4]), ParseInt(args[5]))
      case (Some(flags), Some(values), Some(userId)) =>
        var lk := [PermFlagsUpdate(args[1], args[2], flags, values, userId)];
        Reported(d, lk, HiddenApis.Out([], [], host.statics.updatePermFlags(args[1], args[2], flags, values, userId)), SetPermFlagsFailed)
      case _ => Reply(d, [], [], [], Threw(Unchecked(NumberFormatException)))
  }

  //////////////////////////////////////////////////////////////////
  //////////////////////////// PACKAGES ////////////////////////////
  //////////////////////////////////////////////////////////////////

  /** The daemon's package snapshot: exactly four fields of the native record. */
  datatype MyPackageInfo = MyPackageInfo(
    packageName: string,
    requestedPermissionsFlags: Option<seq<int>>,
    uid: int,
    enabled: bool)

  /** The snapshot of a native package record: its name and requested-permission
      flags, and the uid and enabled bit of its application record. */
  function ToMyPackageInfo(p: HiddenApis.PackageInfo): (m: MyPackageInfo)
    ensures m.packageName == p.packageName && m.requestedPermissionsFlags == p.requestedPermissionsFlags
    ensures m.uid == p.applicationInfo.uid && m.enabled == p.applicationInfo.enabled
  {
    MyPackageInfo(p.packageName, p.requestedPermissionsFlags, p.applicationInfo.uid, p.applicationInfo.enabled)
  }

  /** Two native records give the same snapshot exactly when they agree on the four
      copied fields; nothing else of the native record leaks through. */
  lemma SnapshotCopiesExactlyFourFields(p: HiddenApis.PackageInfo, q: HiddenApis.PackageInfo)
    ensures ToMyPackageInfo(p) == ToMyPackageInfo(q) <==>
      && p.packageName == q.packageName
      && p.requestedPermissionsFlags == q.requestedPermissionsFlags
      && p.applicationInfo.uid == q.applicationInfo.uid
      && p.applicationInfo.enabled == q.applicationInfo.enabled
  {
  }

  function ToMyPackageInfos(list: seq<HiddenApis.PackageInfo>): (infos: seq<MyPackageInfo>)
    ensures |infos| == |list|
    ensures forall i :: 0 <= i < |list| ==> infos[i] == ToMyPackageInfo(list[i])
  {
    seq(|list|, i requires 0 <= i < |list| => ToMyPackageInfo(list[i]))
  }

  function EnabledState(enable: bool): int {
    if enable then COMPONENT_ENABLED_STATE_ENABLED else COMPONENT_ENABLED_STATE_DISABLED_USER
  }

  function EnableNotice(enable: bool): Notice {
    if enable then EnablePkgFailed else DisablePkgFailed
  }

  /** `setAppEnabledState`: state ENABLED or DISABLED_USER by the flag, the calling
      package "shell:<uid>", and the failure notice picked by the flag. */
  function SetAppEnabledState(d: Daemon, host: Host, now: int, enable: bool, args: seq<string>): (r: Reply<()>)
    ensures |args| != 3 ==> RejectionOf(d, now, false, r)
    ensures |args| == 3 ==> r.d == d && r.lookups == [] && FailureOnly(r.effects, if enable then EnablePkgFailed else DisablePkgFailed)
    ensures |args| == 3 && ParseInt(args[2]).Some? && host.handles.packageManager ==>
      var state := if enable then COMPONENT_ENABLED_STATE_ENABLED else COMPONENT_ENABLED_STATE_DISABLED_USER;
      var inv := HiddenApis.EnabledSetting(args[1], state, 0, ParseInt(args[2]).value, "shell:" + IntToString(host.myUid));
      && r.calls == [inv]
      && (HiddenApis.Native(host.binder.void(inv)) ==> (r.effects != [] <==> HiddenApis.Refused(host.binder.void(inv))))
      && SettledBy(host.binder.void(inv), if enable then EnablePkgFailed else DisablePkgFailed, r)
    ensures !r.out.IsHiddenApisException()
  {
    var g := HaveWrongArgs(d.clocks, now, args, 2, false);
    if g.wrong then Rejected(d, g, ())
    else match ParseInt(args[2])
      case None => Reply(d, [], [], [], Threw(Unchecked(NumberFormatException)))
      case Some(userId) =>
        var state := EnabledState(enable);
        var o := HiddenApis.SetApplicationEnabledSetting(host.binder, host.handles, args[1], state, 0, userId, "shell:" + IntToString(host.myUid));
        Reported(d, [], o, EnableNotice(enable))
  }

  /** `getInstalledPackages`: one snapshot per native record, in order; a failure
      gives `null` and `GET_INSTALLED_PKGS_FAILED`. */
  function GetInstalledPackages(d: Daemon, host: Host, now: int, args: seq<string>): (r: Reply<Option<seq<MyPackageInfo>>>)
    ensures |args| != 3 ==> RejectionOf(d, now, false, r) && r.out == Ok(None)
    ensures |args| == 3 ==> r.d == d && r.lookups == [] && FailureOnly(r.effects, GetInstalledPkgsFailed)
    ensures |args| == 3 && ParseInt(args[1]).Some? && ParseInt(args[2]).Some? ==>
      var o := HiddenApis.GetInstalledPackages(host.binder, host.handles, ParseInt(args[1]).value, ParseInt(args[2]).value);
      && r.calls == o.calls
      && (o.out.Ok? && o.out.value.Some? ==> r.out == Ok(Some(ToMyPackageInfos(o.out.value.value))))
      && (r.effects != [] <==> o.out.IsHiddenApisException())
      && (o.out.IsHiddenApisException() ==> r.out == Ok(None))
      && (r.out == Ok(None) <==> o.out.IsHiddenApisException())
      && (o.out.IsHiddenApisException() ==> r.effects == [Notify(GetInstalledPkgsFailed), StackTrace])
      && (o.out == Ok(None) ==> r.out == Threw(Unchecked(NullPointerException)) && r.effects == [])
      && (o.out.Threw? && !o.out.IsHiddenApisException() ==> r.out == Threw(o.out.thrown) && r.effects == [])
    ensures |args| == 3 && ParseInt(args[1]).Some? && ParseInt(args[2]).Some? && !host.handles.packageManager ==>
      r.calls == [] && r.out == Threw(Unchecked(NullPointerException)) && r.effects == []
    ensures !r.out.IsHiddenApisException()
  {
    var g := HaveWrongArgs(d.clocks, now, args, 2, false);
    if g.wrong then Rejected(d, g, None)
    else match (ParseInt(args[1]), ParseInt(args[2]))
      case (Some(flags), Some(userId)) =>
        var o := HiddenApis.GetInstalledPackages(host.binder, host.handles, flags, userId);
        if o.out.IsHiddenApisException() then
          Reply(d, [], o.calls, [Notify(GetInstalledPkgsFailed), StackTrace], Ok(None))
        else (match o.out
          case Ok(Some(list)) => Reply(d, [], o.calls, [], Ok(Some(ToMyPackageInfos(list))))
          case Ok(None) => Reply(d, [], o.calls, [], Threw(Unchecked(NullPointerException)))
          case Threw(t) => Reply(d, [], o.calls, [], Threw(t)))
      case _ => Reply(d, [], [], [], Threw(Unchecked(NumberFormatException)))
  }

  /** `getPkgInfo`: a `null` native record gives `null`; a failure gives `null` and
      `GET_PKG_INFO_FAILED`. */
  function GetPkgInfo(d: Daemon, host: Host, now: int, args: seq<string>): (r: Reply<Option<MyPackageInfo>>)
    ensures |args| != 4 ==> RejectionOf(d, now, false, r) && r.out == Ok(None)
    ensures |args| == 4 ==> r.d == d && r.lookups == [] && FailureOnly(r.effects, GetPkgInfoFailed)
    ensures |args| == 4 && ParseInt(args[2]).Some? && ParseInt(args[3]).Some? ==>
      var o := HiddenApis.GetPkgInfo(host.binder, host.handles, args[1], ParseInt(args[2]).value, ParseInt(args[3]).value);
      && r.calls == o.calls
      && (o.out == Ok(None) ==> r.out == Ok(None))
      && (o.out.Ok? && o.out.value.Some? ==> r.out == Ok(Some(ToMyPackageInfo(o.out.value.value))))
      && (r.effects != [] <==> o.out.IsHiddenApisException())
      && (o.out.IsHiddenApisException() ==> r.out == Ok(None))
      && (o.out.IsHiddenApisException() ==> r.effects == [Notify(GetPkgInfoFailed), StackTrace])
      && (o.out.Threw? && !o.out.IsHiddenApisException() ==> r.out == Threw(o.out.thrown) && r.effects == [])
    ensures |args| == 4 && ParseInt(args[2]).Some? && ParseInt(args[3]).Some? && !host.handles.packageManager ==>
      r.calls == [] && r.out == Threw(Unchecked(NullPointerException)) && r.effects == []
    ensures !r.out.IsHiddenApisException()
  {
    var g := HaveWrongArgs(d.clocks, now, args, 3, false);
    if g.wrong then Rejected(d, g, None)
    else match (ParseInt(args[2]), ParseInt(args[3]))
      case (Some(flags), Some(userId)) =>
        var o := HiddenApis.GetPkgInfo(host.binder, host.handles, args[1], flags, userId);
        if o.out.IsHiddenApisException() then
          Reply(d, [], o.calls, [Notify(GetPkgInfoFailed), StackTrace], Ok(None))
        else (match o.out
          case Ok(None) => Reply(d, [], o.calls, [], Ok(None))
          case Ok(Some(p)) => Reply(d, [], o.calls, [], Ok(Some(ToMyPackageInfo(p))))
          case Threw(t) => Reply(d, [], o.calls, [], Threw(t)))
      case _ => Reply(d, [], [], [], Threw(Unchecked(NumberFormatException)))
  }

  //////////////////////////////////////////////////////////////////
  ////////////////////////////// OTHERS ////////////////////////////
  //////////////////////////////////////////////////////////////////

  /** `openAppInfo`: a result code other than the activity manager's success code
      is logged; `getAmSuccessCode` falls back to 0 (with a log line) when the
      constant is missing. */
  function OpenAppInfo(d: Daemon, host: Host, now: int, args: seq<string>): (r: Reply<()>)
    ensures |args| != 3 ==> RejectionOf(d, now, false, r)
    ensures |args| == 3 ==> r.d == d
    ensures |args| == 3 && ParseInt(args[2]).Some? && !host.handles.activityManager ==>
      r.calls == [] && r.out == Ok(()) && r.effects == [Notify(OpenAppInfoFailed), StackTrace]
    ensures (|args| == 3 && ParseInt(args[2]).Some? && host.handles.activityManager
             && host.statics.amSuccessCode.Ok?) ==>
      var o := HiddenApis.OpenAppInfo(host.binder, host.handles, args[1], ParseInt(args[2]).value);
      o.out.Ok? ==> (r.effects == [] <==> o.out.value == host.statics.amSuccessCode.value)
    ensures (|args| == 3 && ParseInt(args[2]).Some? && host.handles.activityManager
             && host.statics.amSuccessCode.Threw? && host.statics.amSuccessCode.thrown.HiddenApisError?) ==>
      var o := HiddenApis.OpenAppInfo(host.binder, host.handles, args[1], ParseInt(args[2]).value);
      o.out.Ok? ==> (r.effects == [LogE] <==> o.out.value == 0) && (r.effects == [LogE, LogE] <==> o.out.value != 0)
    ensures |args| == 3 && ParseInt(args[2]).Some? ==>
      var o := HiddenApis.OpenAppInfo(host.binder, host.handles, args[1], ParseInt(args[2]).value);
      var code := host.statics.amSuccessCode;
      && r.calls == o.calls
      && (o.out.IsHiddenApisException() ==>
            r.lookups == [] && r.out == Ok(()) && r.effects == [Notify(OpenAppInfoFailed), StackTrace])
      && (o.out.Threw? && !o.out.IsHiddenApisException() ==> r.lookups == [] && r.out == Threw(o.out.thrown) && r.effects == [])
      && (o.out.Ok? ==> r.lookups == [AmSuccessCode])
      && (o.out.Ok? && code.Ok? ==> r.out == Ok(()) && (o.out.value != code.value ==> r.effects == [LogE]))
      && (o.out.Ok? && code.Threw? && code.thrown.HiddenApisError? ==> r.out == Ok(()))
      && (o.out.Ok? && code.IsHiddenApisException() ==>
            r.out == Ok(()) && r.effects == [Notify(OpenAppInfoFailed), StackTrace])
    ensures |args| == 3 && ParseInt(args[2]).Some? && host.handles.activityManager ==>
      var answer := host.binder.number(HiddenApis.StartActivityAsUser(args[1], ParseInt(args[2]).value));
      HiddenApis.Refused(answer) ==> r.out == Ok(()) && r.effects == [Notify(OpenAppInfoFailed), StackTrace]
    ensures |args| == 3 ==> FailureOnly(r.effects, OpenAppInfoFailed) || r.effects == [LogE] || r.effects == [LogE, LogE]
    ensures !r.out.IsHiddenApisException()
  {
    var g := HaveWrongArgs(d.clocks, now, args, 2, false);
    if g.wrong then Rejected(d, g, ())
    else match ParseInt(args[2])
      case None => Reply(d, [], [], [], Threw(Unchecked(NumberFormatException)))
      case Some(userId) =>
        var o := HiddenApis.OpenAppInfo(host.binder, host.handles, args[1], userId);
        match o.out
        case Threw(HiddenApisException(_)) => Reply(d, [], o.calls, [Notify(OpenAppInfoFailed), StackTrace], Ok(()))
        case Threw(t) => Reply(d, [], o.calls, [], Threw(t))
        case Ok(res) =>
          var lk := [AmSuccessCode];
          match host.statics.amSuccessCode
          case Ok(code) => Reply(d, lk, o.calls, if res != code then [LogE] else [], Ok(()))
          case Threw(HiddenApisError(_)) => Reply(d, lk, o.calls, [LogE] + (if res != 0 then [LogE] else []), Ok(()))
          case Threw(HiddenApisException(_)) => Reply(d, lk, o.calls, [Notify(OpenAppInfoFailed), StackTrace], Ok(()))
          case Threw(t) => Reply(d, lk, o.calls, [], Threw(t))
  }

  /** `sendRequest`: a failure is only printed. */
  function SendRequest(d: Daemon, host: Host, command: string, codeWord: string): (r: Reply<()>)
    ensures r.d == d && Notices(r.effects) == []
    ensures var o := HiddenApis.SendRequest(host.binder, host.handles, host.sdk, host.appPkg, command, host.appUserId, codeWord);
      && (r.out.Ok? <==> o.out.Ok? || o.out.IsHiddenApisException())
      && r.calls == o.calls
      && (r.effects == [StackTrace] <==> o.out.IsHiddenApisException())
    ensures var inv := HiddenApis.StartService(HiddenApis.StartServiceSignatureFor(host.sdk), command, host.appPkg, codeWord, host.appUserId);
      var answer := host.binder.component(inv);
      && (!host.handles.activityManager ==> r.out == Threw(Unchecked(NullPointerException)) && r.effects == [])
      && (host.handles.activityManager && answer == Ok(Some(host.appPkg)) ==> r.out == Ok(()) && r.effects == [])
      && (host.handles.activityManager && answer.Ok? && answer.value != Some(host.appPkg) ==>
            r.out == Ok(()) && r.effects == [StackTrace])
      && (host.handles.activityManager && HiddenApis.Refused(answer) ==> r.out == Ok(()) && r.effects == [StackTrace])
  {
    var o := HiddenApis.SendRequest(host.binder, host.handles, host.sdk, host.appPkg, command, host.appUserId, codeWord);
    if o.out.IsHiddenApisException() then Reply(d, [], o.calls, [StackTrace], Ok(()))
    else Reply(d, [], o.calls, [], o.out)
  }

  /** The daemon's side of `getUsers` once the shim has answered `u`: the downgraded
      signature is kept, the shim's log line is logged, and a `HiddenAPIsException`
      becomes `null` with the "get users failed" notice and a stack trace. */
  function UsersReply(d: Daemon, u: (bool, HiddenApis.Out<seq<string>>)): (r: Reply<Option<seq<string>>>)
    ensures r.d == d.(isQPlus := u.0) && r.lookups == [] && r.calls == u.1.calls
    ensures u.1.out.Ok? ==> r.out == Ok(Some(u.1.out.value))
    ensures u.1.out.IsHiddenApisException() <==> r.out == Ok(None)
    ensures u.1.out.Threw? && !u.1.out.IsHiddenApisException() ==> r.out == Threw(u.1.out.thrown)
    ensures u.1.out.IsHiddenApisException() ==> Notices(r.effects) == [GetUsersFailed]
    ensures !u.1.out.IsHiddenApisException() ==> Notices(r.effects) == []
    ensures var logs: seq<Effect> := if u.1.events == [] then [] else [LogE];
      && (u.1.out.IsHiddenApisException() ==> r.effects == logs + [Notify(GetUsersFailed), StackTrace])
      && (!u.1.out.IsHiddenApisException() ==> r.effects == logs)
  {
    var logs: seq<Effect> := if u.1.events == [] then [] else [LogE];
    var d1 := d.(isQPlus := u.0);
    match u.1.out
    case Ok(lines) => Reply(d1, [], u.1.calls, logs, Ok(Some(lines)))
    case Threw(HiddenApisException(_)) =>
      NoticesConcat(logs, [Notify(GetUsersFailed), StackTrace]);
      Reply(d1, [], u.1.calls, logs + [Notify(GetUsersFailed), StackTrace], Ok(None))
    case Threw(t) => Reply(d1, [], u.1.calls, logs, Threw(t))
  }

  /** `getUsers`: the shim's downgrade is kept in the daemon state; a failure gives
      `null` and `GET_USERS_FAILED`. */
  function GetUsers(d: Daemon, host: Host, now: int): (r: Reply<Option<seq<string>>>)
    ensures r.d.isQPlus ==> d.isQPlus
    ensures r.d.numOp == d.numOp && r.d.clocks == d.clocks
    ensures !d.isQPlus && host.handles.userManager ==> r.calls == [HiddenApis.UserList(false)]
    ensures Notices(r.effects) == [] || Notices(r.effects) == [GetUsersFailed]
    ensures !r.out.IsHiddenApisException()
    ensures var u := HiddenApis.GetUsers(host.binder, host.handles, host.sdk, d.isQPlus);
      && r.d.isQPlus == u.0 && r.calls == u.1.calls
      && (u.1.out.Ok? ==> r.out == Ok(Some(u.1.out.value)))
      && (u.1.out.IsHiddenApisException() <==> r.out == Ok(None))
      && (u.1.out.IsHiddenApisException() ==> Notices(r.effects) == [GetUsersFailed])
      && (!u.1.out.IsHiddenApisException() ==> Notices(r.effects) == [])
    ensures var u := HiddenApis.GetUsers(host.binder, host.handles, host.sdk, d.isQPlus);
      var logs: seq<Effect> := if d.isQPlus && !u.0 then [LogE] else [];
      && (u.1.out.IsHiddenApisException() ==> r.effects == logs + [Notify(GetUsersFailed), StackTrace])
      && (!u.1.out.IsHiddenApisException() ==> r.effects == logs)
  {
    UsersReply(d, HiddenApis.GetUsers(host.binder, host.handles, host.sdk, d.isQPlus))
  }

}
