# PermissionManagerX privileged tasks, in Dafny

This project models the privileged-task layer of PermissionManagerX. That layer is
the code that runs inside the root or ADB daemon and serves the client app's
commands. It has two parts.

- `PrivTasks` (module `PrivTasks`, file `priv_tasks.dfy`) holds the command handlers:
  - the argument-count gate `haveWrongArgs`;
  - the cached op count;
  - the op-table builders and their placeholder backfill;
  - the mode-name and permission-to-op-code tables;
  - the app-op, permission, package, app-info, user and request handlers;
  - the callback object the shim reports through.
- `HiddenAPIsImpl` (module `HiddenApis`, file `hidden_apis.dfy`) is the shim over the
  platform services:
  - which service and signature is used at each SDK level;
  - which Java throwables become `HiddenAPIsException` or `HiddenAPIsError`;
  - the `null` handle guards;
  - the op-list filter and conversion;
  - the `isQPlus` downgrade of `getUsers`;
  - the `sendRequest` ownership check;
  - the two capability predicates.

Four smaller modules support them:

- `java.dfy` (`Java`) has Java's outcomes (a value, or one of three kinds of throwable) and `Integer.parseInt` / `Integer.toString`.
- `effects.dfy` (`Effects`) has what the daemon emits: notices pushed to the client, error log lines and stack traces.
- `rate_limit.dfy` (`RateLimit`) has the three rate limiters.
- `op_tables.dfy` (`OpTables`) has the loop shared by the three op-table builders.

Everything is a pure function or a method over immutable values:

- A handler takes the daemon state, the host it runs on, the current time and the argument vector.
  - The daemon state is the cached op count, the three limiter timestamps and `isQPlus`.
  - The host is the debug and daemon flags, the SDK level, the available service handles, and oracles for the platform.
- It returns a `Reply`:
  - the new daemon state;
  - the framework lookups and binder transactions it made, in order;
  - what it emitted;
  - its outcome: a value, or the throwable that escapes.

## Model

| member | source | states |
|---|---|---|
| PrivTasks.HaveWrongArgs | priv_library/src/main/java/com/mirfatif/privtasks/PrivTasks.java:438-453 | a command is rejected exactly when it does not carry `count` arguments after its name; a rejection logs once as its last effect and sends `WRONG_ARGS_RECEIVED` unless toast limiting is on and the last notice is under a minute old; an accepted command changes nothing |
| PrivTasks.GetPermissionFlagsRouting | priv_library/src/main/java/com/mirfatif/privtasks/PrivTasks.java:252-262 | the flags are read from the service the SDK level routes to; the service's answer is returned as is with nothing emitted, and a refused read gives `null` |
| PrivTasks.GetNumOps | priv_library/src/main/java/com/mirfatif/privtasks/PrivTasks.java:42-49 | the framework is asked for the op count only while the cache holds -1; a successful answer is cached, a failure leaves the cache at -1 and escapes |
| PrivTasks.NumOpsComputedOnce | priv_library/src/main/java/com/mirfatif/privtasks/PrivTasks.java:42-49 | once the op count has been cached, every later query returns it without any lookup, whatever the framework would answer now |
| OpTables.BuildTable | priv_library/src/main/java/com/mirfatif/privtasks/PrivTasks.java:51-84 | the builders' loop computes the reference build: real answers up to the first halting lookup; at an out-of-range fault, one notice, one stack trace and placeholders for the rest; at an uncaught throwable, that throwable; in every case it makes exactly the lookups up to the halting index |
| OpTables.AtMostOneNoticePerBuild | priv_library/src/main/java/com/mirfatif/privtasks/PrivTasks.java:86-110 | a build sends at most one notice and makes at most `n` lookups; a build that completes after fewer than `n` lookups has sent its notice, and a build that throws has sent none |
| OpTables.MissingMethod | priv_library/src/main/java/com/mirfatif/privtasks/PrivTasks.java:51-84 | a missing `opToDefaultMode` method escapes at once from a builder that does not catch it; a builder that catches it (the default-mode builder in daemon mode) sends its own notice and completes one entry short |
| OpTables.NoFaultFullTable | priv_library/src/main/java/com/mirfatif/privtasks/PrivTasks.java:86-110 | when every lookup answers, the table holds exactly the `n` answers in op-code order |
| OpTables.SingleFaultShape | priv_library/src/main/java/com/mirfatif/privtasks/PrivTasks.java:86-110 | after one out-of-range fault at `k`, the table is one entry shorter than the op count: it keeps the answers before `k`, and from position `k` on it holds the placeholder of the next index |
| PrivTasks.BuildOpToDefaultModeList | priv_library/src/main/java/com/mirfatif/privtasks/PrivTasks.java:51-84 | the default-mode table is the op count's failure, or the reference build over the op count with `MODE_DEFAULT` as placeholder; a missing method is tolerated only in daemon mode |
| PrivTasks.BuildOpToSwitchList | priv_library/src/main/java/com/mirfatif/privtasks/PrivTasks.java:86-110 | the switch table is the op count's failure, or the reference build with the op code itself as placeholder |
| PrivTasks.BuildOpToNameList | priv_library/src/main/java/com/mirfatif/privtasks/PrivTasks.java:112-136 | the name table is the op count's failure, or the reference build with "UNKNOWN" as placeholder |
| PrivTasks.TablesAgreeWhenAllAnswer | priv_library/src/main/java/com/mirfatif/privtasks/PrivTasks.java:51-136 | with an op count that answered, whether cached or freshly asked, and every lookup answering, the three tables all have exactly op-count entries and send nothing |
| PrivTasks.SwitchTableAfterFault | priv_library/src/main/java/com/mirfatif/privtasks/PrivTasks.java:86-110 | after an out-of-range fault at `k`, list position `j >= k` of the switch table holds `j + 1`; the table is one short; the lookups are the op count's own followed by those up to `k`; and `OP_NUM_INCONSISTENCY` is sent once |
| PrivTasks.DefaultModeTableAfterFault | priv_library/src/main/java/com/mirfatif/privtasks/PrivTasks.java:51-84 | after an out-of-range fault at `k`, the default-mode table holds `MODE_DEFAULT` from position `k` on, keeps the real modes before `k`, and is one short |
| PrivTasks.NameTableAfterFault | priv_library/src/main/java/com/mirfatif/privtasks/PrivTasks.java:112-136 | after an out-of-range fault at `k`, the name table holds "UNKNOWN" from position `k` on, keeps the real names before `k`, and is one short |
| PrivTasks.BuildModeToNameList | priv_library/src/main/java/com/mirfatif/privtasks/PrivTasks.java:138-148 | before P the table is the four fixed names; from P on it holds one name per mode up to the mode-names size, in order; a failure escapes at the first mode that failed, after all earlier modes answered; the lookups are the size, then for each mode its name and the size again, ending at the name that failed |
| PrivTasks.BuildPermToOpCodeList | priv_library/src/main/java/com/mirfatif/privtasks/PrivTasks.java:150-198 | a missing routed service throws `NullPointerException`; a group-list failure the shim turns into `HiddenAPIsException` sends `GET_PERM_GRP_INFO_LIST_FAILED` (and only that sends it) and leaves only the ungrouped query; any other failure of the group list or of a group query escapes with no op-code lookup; when every query answers or fails tolerably, the result and the lookups are exactly those of the op-code loop over all listed permissions in query order |
| PrivTasks.BuildPermToOpCodeListSound | priv_library/src/main/java/com/mirfatif/privtasks/PrivTasks.java:150-198 | every entry of a built table is the "name:code" entry of a platform permission that the service lists for one of the queried groups |
| PrivTasks.BuildPermToOpCodeListComplete | priv_library/src/main/java/com/mirfatif/privtasks/PrivTasks.java:150-198 | every platform permission the service lists for a queried group, with an op code other than `OP_NONE`, has its entry in a built table |
| PrivTasks.BuildPermToOpCodeListEntries | priv_library/src/main/java/com/mirfatif/privtasks/PrivTasks.java:150-198 | every entry of a built table is the entry of some platform permission whose op code is not `OP_NONE` |
| PrivTasks.CollectPerms | priv_library/src/main/java/com/mirfatif/privtasks/PrivTasks.java:169-185 | a failed group query only prints a stack trace and never escapes as `HiddenAPIsException`; with the routed service available, the loop completes exactly when every answer is a value or a remote failure, and then it has queried every group in order and holds the concatenation of their permissions; with the service missing, any query throws `NullPointerException` |
| PrivTasks.GroupsToQuery | priv_library/src/main/java/com/mirfatif/privtasks/PrivTasks.java:157-167 | the groups queried are the listed group names in order, then `null` for the ungrouped permissions |
| PrivTasks.PermOpCodesSound | priv_library/src/main/java/com/mirfatif/privtasks/PrivTasks.java:187-196 | every table entry comes from a permission of the list that belongs to "android" and whose op code differs from `OP_NONE` |
| PrivTasks.PermOpCodesComplete | priv_library/src/main/java/com/mirfatif/privtasks/PrivTasks.java:187-196 | every platform permission of the list with an op code other than `OP_NONE` has its entry in the table |
| PrivTasks.PermOpCodesWitnessed | priv_library/src/main/java/com/mirfatif/privtasks/PrivTasks.java:187-196 | every table entry is the entry of some platform permission |
| PrivTasks.PermOpCodes | priv_library/src/main/java/com/mirfatif/privtasks/PrivTasks.java:187-196 | the table has no more entries than there are permissions, and the loop lets no `HiddenAPIsException` escape when the lookups honour their `throws` clauses |
| PrivTasks.OpCodeEntryRoundTrip | priv_library/src/main/java/com/mirfatif/privtasks/PrivTasks.java:192-194 | an entry read back at its last colon gives the permission name and the op code it was built from |
| PrivTasks.Reported | priv_library/src/main/java/com/mirfatif/privtasks/PrivTasks.java:213-216 | the handlers' `catch (HiddenAPIsException e)`: such an exception becomes normal completion with the handler's notice and one stack trace; any other outcome is passed on unchanged with no effect; the transactions and lookups are kept |
| PrivTasks.SetAppOpsMode | priv_library/src/main/java/com/mirfatif/privtasks/PrivTasks.java:200-218 | a wrong count is the gate's rejection alone (no lookup or transaction, `WRONG_ARGS_RECEIVED` and one log line); the op is resolved by name first; the package text "null" sets the uid mode, anything else the package mode; `SET_APP_OPS_MODE_FAILED` and a stack trace are emitted exactly when the app-ops service refused the call with a remote or security exception, and nothing otherwise; a value or a refusal ends in normal completion, and any other unchecked throwable of the service escapes unchanged |
| PrivTasks.ResetAppOps | priv_library/src/main/java/com/mirfatif/privtasks/PrivTasks.java:220-229 | a wrong count is the gate's rejection alone (no lookup or transaction, `WRONG_ARGS_RECEIVED` and one log line); with a valid user id the reset goes to the app-ops service with that user and package; `RESET_APP_OPS_FAILED` and a stack trace are sent exactly when the service refused it; a value or a refusal ends in normal completion, and any other unchecked throwable escapes unchanged |
| PrivTasks.GetOpsForPackage | priv_library/src/main/java/com/mirfatif/privtasks/PrivTasks.java:231-236 | a wrong count answers `null`, logs once and sends the notice only if the last one is over a minute old, moving the notice clock only then; otherwise it answers what `getMyPackageOpsList` answers for the parsed uid, and a malformed uid escapes untouched |
| PrivTasks.GetMyPackageOpsList | priv_library/src/main/java/com/mirfatif/privtasks/PrivTasks.java:238-246 | every returned op code is below the cached op count; however many invalid op codes are reported, the client hears `OP_NUM_INCONSISTENCY` at most once; with a known op count it makes exactly the shim's transactions and returns the shim's answer, except that a `HiddenAPIsException` from the op count or the shim gives `null` and goes through the throwable limiter, whose effects and clock it keeps; the effects are exactly those of the shim's callbacks, followed by that limited stack trace; any other failure of the op count escapes with no transaction and no effect |
| PrivTasks.OpsListReply | priv_library/src/main/java/com/mirfatif/privtasks/PrivTasks.java:238-246 | the shim's transactions are kept, its answer returned unchanged unless it is a `HiddenAPIsException`, which becomes `null`; the effects and clocks are exactly those of dispatching the shim's callbacks, and on a `HiddenAPIsException` they are followed by the throwable limiter's stack trace and clock move |
| PrivTasks.GetPermissionFlags | priv_library/src/main/java/com/mirfatif/privtasks/PrivTasks.java:252-262 | a wrong count answers `null` through the toast-limited gate; past the gate it never sends a notice, and its only possible effect is one stack trace, which moves only the throwable clock; a value is returned with no effect; a `HiddenAPIsException` gives `null` and exactly the throwable limiter's effects and clock move; a missing handle's `NullPointerException` and every other throwable escape unchanged, with no effect |
| PrivTasks.GrantRevokePermission | priv_library/src/main/java/com/mirfatif/privtasks/PrivTasks.java:264-277 | a wrong count is the gate's rejection alone (no lookup or transaction, `WRONG_ARGS_RECEIVED` and one log line); grants go to the package manager and revokes follow the SDK routing; a missing handle throws `NullPointerException` uncaught; the grant or revoke failure notice, picked by the flag, and a stack trace are sent exactly when the service refused the call; a value or a refusal ends in normal completion, and any other unchecked throwable escapes unchanged |
| PrivTasks.UpdatePermFlags | priv_library/src/main/java/com/mirfatif/privtasks/PrivTasks.java:279-291 | a wrong count is the gate's rejection alone (no lookup or transaction, `WRONG_ARGS_RECEIVED` and one log line); the update is passed the parsed flags, values and user; `SET_PERM_FLAGS_FAILED` is sent exactly when the update threw `HiddenAPIsException`; the handler completes normally exactly when the update succeeded or threw `HiddenAPIsException`, and any other throwable escapes unchanged |
| PrivTasks.SetAppEnabledState | priv_library/src/main/java/com/mirfatif/privtasks/PrivTasks.java:297-317 | a wrong count is the gate's rejection alone (no lookup or transaction, `WRONG_ARGS_RECEIVED` and one log line); the state is ENABLED (1) or DISABLED_USER (3) according to the flag, with flags 0 and calling package "shell:" followed by the daemon's uid; the enable or disable notice, picked by the flag, and a stack trace are sent exactly when the package manager refused the call; a value or a refusal ends in normal completion, and any other unchecked throwable escapes unchanged |
| PrivTasks.GetInstalledPackages | priv_library/src/main/java/com/mirfatif/privtasks/PrivTasks.java:319-343 | a wrong count is the gate's rejection alone (no lookup or transaction, `WRONG_ARGS_RECEIVED` and one log line); the answer is one snapshot per native record, in order; `GET_INSTALLED_PKGS_FAILED`, one stack trace and `null` come exactly with a `HiddenAPIsException`; a `null` list throws `NullPointerException` from the loop; a missing package manager's `NullPointerException` and every other throwable escape unchanged, with no effect |
| PrivTasks.ToMyPackageInfo | priv_library/src/main/java/com/mirfatif/privtasks/PrivTasks.java:325-339 | a snapshot carries the record's package name and permission flags, and its application's uid and enabled bit |
| PrivTasks.ToMyPackageInfos | priv_library/src/main/java/com/mirfatif/privtasks/PrivTasks.java:325-339 | the snapshot list has one element per native record, each that record's snapshot |
| PrivTasks.SnapshotCopiesExactlyFourFields | priv_library/src/main/java/com/mirfatif/privtasks/PrivTasks.java:325-339 | two native records give the same snapshot exactly when they agree on the package name, the permission flags, the uid and the enabled bit |
| PrivTasks.GetPkgInfo | priv_library/src/main/java/com/mirfatif/privtasks/PrivTasks.java:345-372 | a wrong count is the gate's rejection alone (no lookup or transaction, `WRONG_ARGS_RECEIVED` and one log line); a `null` record gives `null` silently, a record gives its snapshot, and `GET_PKG_INFO_FAILED`, one stack trace and `null` come exactly with a `HiddenAPIsException`; a missing package manager's `NullPointerException` and every other throwable escape unchanged, with no effect |
| PrivTasks.OpenAppInfo | priv_library/src/main/java/com/mirfatif/privtasks/PrivTasks.java:382-406 | a wrong count is the gate's rejection alone (no lookup or transaction, `WRONG_ARGS_RECEIVED` and one log line); the only effects are nothing, one or two log lines, or `OPEN_APP_INFO_FAILED` with a stack trace; a `HiddenAPIsException` from the shim (a missing activity manager, or a refused start) sends `OPEN_APP_INFO_FAILED` and a stack trace, reads no success code and completes normally, while other throwables escape unchanged; after a start the success code is read once; a start result is logged, with one line, exactly when it differs from the success code, and the code falls back to 0, with one more log line, when it cannot be read; a `HiddenAPIsException` from that read sends the failure notice; in each of these cases the handler completes normally |
| PrivTasks.SendRequest | priv_library/src/main/java/com/mirfatif/privtasks/PrivTasks.java:408-414 | a request never notifies the client; it completes normally exactly when the shim succeeded or failed with a `HiddenAPIsException`, and prints a stack trace exactly in the latter case; a missing activity manager throws `NullPointerException` uncaught; a start that resolves a foreign or `null` component, or that the platform refused, only prints a stack trace |
| PrivTasks.GetUsers | priv_library/src/main/java/com/mirfatif/privtasks/PrivTasks.java:416-425 | the shim's `isQPlus` downgrade is kept in the daemon state and never undone; the transactions are the shim's; the shim's lines are returned; a `HiddenAPIsException` gives `null` and exactly the notice `GET_USERS_FAILED`, and nothing else gives `null` or any notice; the effects are one log line exactly when the shim downgraded `isQPlus`, followed on a `HiddenAPIsException` by the notice and one stack trace |
| PrivTasks.UsersReply | priv_library/src/main/java/com/mirfatif/privtasks/PrivTasks.java:416-425 | the answer is the shim's lines; a `HiddenAPIsException` and only that gives `null` with the notice `GET_USERS_FAILED`; other throwables pass through with no notice; the effects are one log line exactly when the shim logged, followed on a `HiddenAPIsException` by the notice and one stack trace |
| PrivTasks.OnCallbacks | priv_library/src/main/java/com/mirfatif/privtasks/PrivTasks.java:485-509 | handling the shim's callbacks never touches the throwable clock |
| PrivTasks.UidOpsNpeIsRateLimitedLog | priv_library/src/main/java/com/mirfatif/privtasks/PrivTasks.java:488-496 | `onGetUidOpsNpException` behaves exactly like the rate-limited log, debug bypass included |
| PrivTasks.CallbacksQuiet | priv_library/src/main/java/com/mirfatif/privtasks/PrivTasks.java:498-503 | while the last notice is under a minute old, no callback sends a notice or moves the notice clock |
| PrivTasks.CallbacksNotifyAtMostOnce | priv_library/src/main/java/com/mirfatif/privtasks/PrivTasks.java:498-503 | one batch of callbacks sends `OP_NUM_INCONSISTENCY` at most once and no other notice |
| RateLimit.RateLimitThrowable | priv_library/src/main/java/com/mirfatif/privtasks/PrivTasks.java:455-463 | a throwable is printed exactly when debugging or a second after the last print; every print moves the throwable clock to now, and a suppressed print changes no clock |
| RateLimit.RateLimitLog | priv_library/src/main/java/com/mirfatif/privtasks/PrivTasks.java:465-474 | a line is logged exactly when debugging or a second after the last non-debug log; a non-debug log moves the log clock to now, while a debug log or a suppressed one changes no clock |
| RateLimit.RateLimitSendRequest | priv_library/src/main/java/com/mirfatif/privtasks/PrivTasks.java:476-483 | a notice is sent exactly when a minute has passed since the last one, with no debug bypass; a send moves the notice clock to now, and a suppressed send changes no clock |
| RateLimit.QuietAfterEmission | priv_library/src/main/java/com/mirfatif/privtasks/PrivTasks.java:455-483 | after an emission at `t0`, a limiter without debug bypass stays silent for every request before `t0` plus its spacing |
| RateLimit.AtMostOnePerWindow | priv_library/src/main/java/com/mirfatif/privtasks/PrivTasks.java:455-483 | among requests that all fall in one window shorter than the spacing, a limiter without debug bypass emits at most once |
| RateLimit.DebugEmitsEveryTime | priv_library/src/main/java/com/mirfatif/privtasks/PrivTasks.java:455-474 | in debug mode the throwable and log limiters emit on every request |
| RateLimit.RequestsIgnoreDebug | priv_library/src/main/java/com/mirfatif/privtasks/PrivTasks.java:476-483 | the notice limiter behaves the same with and without the debug flag, over any sequence of requests |
| RateLimit.DebugTimestamps | priv_library/src/main/java/com/mirfatif/privtasks/PrivTasks.java:455-474 | a debug-mode log leaves the log clock where it was, while a debug-mode throwable moves the throwable clock to the time of the print |
| HiddenApis.Probe | priv_library/src/main/java/com/mirfatif/privtasks/hiddenapis/HiddenAPIsImpl.java:41-82 | a handle is available exactly when its lookup succeeded; the permission manager is only looked up from R on |
| HiddenApis.Transact | priv_library/src/main/java/com/mirfatif/privtasks/hiddenapis/HiddenAPIsImpl.java:153-175 | a transaction on a missing handle throws `NullPointerException` before anything is sent; otherwise exactly that transaction is sent and answered |
| HiddenApis.Translate | priv_library/src/main/java/com/mirfatif/privtasks/hiddenapis/HiddenAPIsImpl.java:295-306 | `RemoteException` always becomes `HiddenAPIsException`, `SecurityException` only where caught, and `NoSuchMethodError` becomes `HiddenAPIsError` only where caught; values and every other throwable pass through unchanged |
| HiddenApis.SetMode | priv_library/src/main/java/com/mirfatif/privtasks/hiddenapis/HiddenAPIsImpl.java:153-159 | the mode is set by one transaction to the app-ops service; a remote or security failure becomes `HiddenAPIsException` with that cause; a missing handle throws `NullPointerException` |
| HiddenApis.SetUidMode | priv_library/src/main/java/com/mirfatif/privtasks/hiddenapis/HiddenAPIsImpl.java:161-167 | the uid mode is set by one transaction to the app-ops service, with the same catches |
| HiddenApis.ResetAllModes | priv_library/src/main/java/com/mirfatif/privtasks/hiddenapis/HiddenAPIsImpl.java:169-175 | the reset is one transaction to the app-ops service, with the same catches |
| HiddenApis.GetPermissionFlags | priv_library/src/main/java/com/mirfatif/privtasks/hiddenapis/HiddenAPIsImpl.java:295-306 | the flags are read by one transaction to the permission manager from R on and to the package manager before; the answer is returned; a remote or security failure becomes `HiddenAPIsException` |
| HiddenApis.GrantRuntimePermission | priv_library/src/main/java/com/mirfatif/privtasks/hiddenapis/HiddenAPIsImpl.java:308-315 | a grant is one transaction to the package manager at every SDK level, with the same catches |
| HiddenApis.RevokeRuntimePermission | priv_library/src/main/java/com/mirfatif/privtasks/hiddenapis/HiddenAPIsImpl.java:317-328 | a revoke follows the SDK routing, with the same catches |
| HiddenApis.SetApplicationEnabledSetting | priv_library/src/main/java/com/mirfatif/privtasks/hiddenapis/HiddenAPIsImpl.java:334-341 | the enabled setting is one transaction to the package manager with the arguments as given, with the same catches |
| HiddenApis.GetPkgInfo | priv_library/src/main/java/com/mirfatif/privtasks/hiddenapis/HiddenAPIsImpl.java:353-359 | the record is read by one transaction to the package manager and returned as answered, `null` included, with the same catches |
| HiddenApis.CanUseIAppOpsService | priv_library/src/main/java/com/mirfatif/privtasks/hiddenapis/HiddenAPIsImpl.java:442-444 | holds exactly when the app-ops service handle was obtained |
| HiddenApis.CanUseIPm | priv_library/src/main/java/com/mirfatif/privtasks/hiddenapis/HiddenAPIsImpl.java:446-451 | holds exactly when the handle of the service permission queries are routed to was obtained |
| HiddenApis.ToMyEntry | priv_library/src/main/java/com/mirfatif/privtasks/hiddenapis/HiddenAPIsImpl.java:218-240 | a converted entry keeps its op and mode; from Q on, with the flags constant missing, its access time is -1 |
| HiddenApis.ConvertOps | priv_library/src/main/java/com/mirfatif/privtasks/hiddenapis/HiddenAPIsImpl.java:211-243 | every entry is either kept with an op code below the op count or reported as invalid for its package |
| HiddenApis.RangeMembers | priv_library/src/main/java/com/mirfatif/privtasks/hiddenapis/HiddenAPIsImpl.java:218-223 | an entry is kept exactly when its op code is below the op count and dropped exactly when it is not |
| HiddenApis.ConvertOpsKeeps | priv_library/src/main/java/com/mirfatif/privtasks/hiddenapis/HiddenAPIsImpl.java:218-240 | the converted entries are the in-range entries, converted, in their original order |
| HiddenApis.ConvertOpsReports | priv_library/src/main/java/com/mirfatif/privtasks/hiddenapis/HiddenAPIsImpl.java:218-223 | the reports are the out-of-range entries, one `onInvalidOpCode` each with the package name, in their original order |
| HiddenApis.ConvertPackages | priv_library/src/main/java/com/mirfatif/privtasks/hiddenapis/HiddenAPIsImpl.java:211-243 | one converted package per input package, in order, with the same name and the filtered entries; no returned op code reaches the op count |
| HiddenApis.ReportsCountOutOfRange | priv_library/src/main/java/com/mirfatif/privtasks/hiddenapis/HiddenAPIsImpl.java:211-243 | the number of invalid-op reports is the number of out-of-range entries over all packages |
| HiddenApis.ConvertList | priv_library/src/main/java/com/mirfatif/privtasks/hiddenapis/HiddenAPIsImpl.java:207-209 | a `null` list from the service gives an empty result with no report |
| HiddenApis.GetMyPackageOpsList | priv_library/src/main/java/com/mirfatif/privtasks/hiddenapis/HiddenAPIsImpl.java:177-245 | a package name asks `getOpsForPackage` and "null" asks `getUidOps` from O on, each with the parsed op filter; "null" before O gives an empty result with no transaction; a malformed op escapes before any transaction; a list answer is converted (`null` as empty) with its invalid-op callbacks; a `NullPointerException` from `getUidOps`, a missing handle included, gives `null` and `onGetUidOpsNpException`, while from `getOpsForPackage` it escapes; `RemoteException` becomes `HiddenAPIsException` and `NoSuchMethodError` `HiddenAPIsError`; a `SecurityException` and any other unchecked throwable pass through unchanged; no failed query makes a callback other than the `getUidOps` one |
| HiddenApis.OpFilter | priv_library/src/main/java/com/mirfatif/privtasks/hiddenapis/HiddenAPIsImpl.java:190 | "null" means no filter; any other text is a one-element filter holding its parsed value, and text that does not parse throws `NumberFormatException` |
| HiddenApis.SliceList | priv_library/src/main/java/com/mirfatif/privtasks/hiddenapis/HiddenAPIsImpl.java:255-273 | a `null` slice and a slice with a `null` list both read as empty; otherwise the slice's list |
| HiddenApis.GetPermGroupInfoList | priv_library/src/main/java/com/mirfatif/privtasks/hiddenapis/HiddenAPIsImpl.java:255-273 | the group list is asked of the permission manager from R on and of the package manager before, in one transaction; an answer is returned with `null` read as empty; `RemoteException` becomes `HiddenAPIsException`, `NoSuchMethodError` `HiddenAPIsError`, and `SecurityException` is not caught; a missing handle throws `NullPointerException` |
| HiddenApis.GetPermInfoList | priv_library/src/main/java/com/mirfatif/privtasks/hiddenapis/HiddenAPIsImpl.java:275-293 | the per-group query follows the same routing and catches, with the group passed as given and `null` read as empty |
| HiddenApis.GetInstalledPackages | priv_library/src/main/java/com/mirfatif/privtasks/hiddenapis/HiddenAPIsImpl.java:343-350 | the query goes to the package manager; an answer gives its slice's list; a `null` slice or a missing handle throws `NullPointerException`; a remote or security failure becomes `HiddenAPIsException` with that cause; other unchecked throwables pass through; no callback is made |
| HiddenApis.OpenAppInfo | priv_library/src/main/java/com/mirfatif/privtasks/hiddenapis/HiddenAPIsImpl.java:369-385 | a missing activity manager throws `HiddenAPIsException` before any transaction; otherwise exactly one start-activity transaction is sent, its result is returned, a remote or security failure becomes `HiddenAPIsException`, and other unchecked throwables pass through |
| HiddenApis.StartServiceSignatureFor | priv_library/src/main/java/com/mirfatif/privtasks/hiddenapis/HiddenAPIsImpl.java:387-406 | the R signature exactly from R on, the O signature exactly from O up to R, and the legacy one exactly before O |
| HiddenApis.SendRequest | priv_library/src/main/java/com/mirfatif/privtasks/hiddenapis/HiddenAPIsImpl.java:387-406 | the request succeeds exactly when the activity manager is available and the component the platform resolved belongs to the client's package; a missing activity manager throws `NullPointerException` before any transaction; a `null` or foreign component throws `HiddenAPIsException`; a remote or security failure becomes `HiddenAPIsException` with that cause; other unchecked throwables pass through |
| HiddenApis.UserLines | priv_library/src/main/java/com/mirfatif/privtasks/hiddenapis/HiddenAPIsImpl.java:431-435 | one line per user, in order |
| HiddenApis.GetUsers | priv_library/src/main/java/com/mirfatif/privtasks/hiddenapis/HiddenAPIsImpl.java:408-440 | the first transaction uses the Q signature exactly when `isQPlus` holds from Q on; a missing method there downgrades `isQPlus`, logs once and retries once with the legacy signature, and otherwise nothing is downgraded, logged or retried; the result is the lines of the last answer's users, a `null` list throws `NullPointerException`, a remote or security failure becomes `HiddenAPIsException`, a missing method on the last call (a legacy retry included) becomes `HiddenAPIsException`, and other unchecked throwables pass through; a missing user manager throws `HiddenAPIsException` |
| HiddenApis.UserLineRoundTrip | priv_library/src/main/java/com/mirfatif/privtasks/hiddenapis/HiddenAPIsImpl.java:431-435 | a user line split at its first bar reads back as the user's id and name, a `null` name as empty |
| HiddenApis.CanUseIPmCoversRoutedCalls | priv_library/src/main/java/com/mirfatif/privtasks/hiddenapis/HiddenAPIsImpl.java:446-451 | `canUseIPm` holds exactly when the service the permission queries are routed to is available, and then each of those queries reaches it |
| HiddenApis.GrantBypassesPermissionManager | priv_library/src/main/java/com/mirfatif/privtasks/hiddenapis/HiddenAPIsImpl.java:308-315 | from R on, `canUseIPm` can hold while a grant still fails uncaught on the missing package manager |
| HiddenApis.CanUseIAppOpsServiceCoversModes | priv_library/src/main/java/com/mirfatif/privtasks/hiddenapis/HiddenAPIsImpl.java:442-444 | `canUseIAppOpsService` holds exactly when mode changes reach the app-ops service |
| Effects.Notices | priv_library/src/main/java/com/mirfatif/privtasks/PrivTasks.java:511-519 | a notice is among those of a run of effects exactly when the run sends it |

## Left out

- **Source files and boundaries**
  - Commands.java is not part of this model. The notice identifiers are an enumeration, and the client's package name is a host parameter.
  - The `HiddenAPIs` base class is not part of this model. Its members are answered by the `Statics` oracle: the op count, the op tables, mode names, op lookups by name, `OP_NONE`, the permission-flag update and the activity manager's success code.
  - `Declared` assumes that those members honour their Java `throws` clauses.
- **Intentionally outside the model**
  - The daemon's command loop, which picks a handler by command name, is not part of this model. Each handler's own contract states the argument-count gate, its notices and that no `HiddenAPIsException` escapes.
  - Binder transactions and the constructor's service lookups are oracles. The constructor is modelled only as which handles it obtained (`Probe`). Android's own behaviour is not specified.
  - The `pm != null` branch of `buildPermToOpCodeList` is left out because it depends on the app-side package manager. That branch overwrites the permission list per group instead of accumulating.
  - `getPidsForCommands` is a thin pass-through and is left out.
  - The intent that `openAppInfo` builds is left out; only the transaction's arguments are recorded.
  - The text of log lines and of printed stack traces is left out; only their count and order are kept.
  - `MainActivity` and the rest of the app are left out.
- **Simplifications of runtime behaviour**
  - One `now` is read per handler call. The source reads the clock at each limiter. Within one call that difference is at most the call's own duration.
  - `Integer.parseInt` is modelled for ASCII digits with an optional sign. A malformed numeral escapes as an unchecked `NumberFormatException`, as in the source. Unicode digits are not modelled.
  - `applicationInfo` of a package record is assumed non-null. The source dereferences it unguarded.
  - `buildModeToNameList` asks for the mode-names size before every step. The oracle answers the same size each time, so a size that changes between steps is not modelled.
  - Concurrency between handler calls is not modelled: each call sees the state the previous one returned.
- PrivTasks.GetMyPackageOpsList: hands the shim's list through unchanged. Which entries that list keeps is stated by `HiddenApis.GetMyPackageOpsList` together with `HiddenApis.ConvertOpsKeeps`, `HiddenApis.ConvertOpsReports` and `HiddenApis.ConvertPackages`.
- PrivTasks.SendRequest: passes the daemon's `mAppId` nowhere. `PrivTasks.java:410` calls `sendRequest(command, mAppId, mAppUserId, codeWord)`, while `HiddenAPIsImpl.java:387` takes no package argument and always addresses `APP_PKG_NAME`. The model addresses the host's package name, which assumes `mAppId` equals `APP_PKG_NAME`.
- PrivTasks.BuildOpToDefaultModeList: reads `MODE_DEFAULT` once. `PrivTasks.java:60` reads it by reflection again at each backfill step. The model assumes that the field is constant, so every read gives the same value.

### Behaviour of the code worth knowing

- An op table does not keep its length after an out-of-range fault. In the builders, the index that faulted adds no entry, and backfill starts at the next index. A table with one fault is therefore one entry short, and from the fault on, position `j` holds the placeholder of index `j + 1` (`OpTables.SingleFaultShape`, `PrivTasks.SwitchTableAfterFault`). A `HiddenAPIsException` with another cause is swallowed and skips its index, so such a table can shrink further.
- A grant never depends on the permission manager, even from R on: grants always go to the package manager. A missing package-manager handle raises a `NullPointerException` that no handler catches (`HiddenApis.GrantBypassesPermissionManager`).
- `HiddenAPIsImpl`'s op-table lookups catch only `NoSuchMethodError`. The builders expect an out-of-range op code to arrive as a `HiddenAPIsException` caused by `ArrayIndexOutOfBoundsException`. The model takes that conversion as given: the `Statics` oracle answers the lookups in that form.
