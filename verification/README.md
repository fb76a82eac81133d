# App-start guard service and foreground-notification hook, modelled in Dafny

This project models two pieces of X-APM, an Android app manager built on Xposed.

**The app-start guard service** (`AppService`, module `Service` in
`app_service.dfy`). Clients ask the service whether a package may start.
A request for a package outside the guard set is answered at once with
`MODE_IGNORED`. A request for a guarded package is registered as a
`Transaction` under the next id of a counter that starts at 2017. The user's
answer later comes back through `onTransactionRes`. That call delivers the
answer to the client's callback, unless a death notice has marked the
transaction dead. It then
releases the death watch and removes the transaction in every case. A null
callback makes `noteAppStart` throw a `NullPointerException` that its
`RemoteException` handlers do not catch. For an unguarded package no reply is
sent. For a guarded one the id is used up, but no transaction is added. The
model passes the callback as an `Option` and reports the throw. The guard
set is rebuilt from the stored package list by clearing it and adding every
package whose `guard` flag is set.

The service is a class whose fields are the transaction map, the guard set and
the id counter (a separate `TransactionFactory` object). A ghost log records
every `onRes` call the service makes. `AppService.Valid()` states the
registry invariant:
- every pending transaction sits under its own id;
- it was created by an earlier registration and has not been answered;
- no transaction was ever answered twice.

Every method preserves it. The counter wraps around like Java's
`AtomicInteger` (module `JavaInt`, `java_int.dfy`). Ids are therefore
fresh for the first 2^32 registrations. After that they repeat, and a
registration can overwrite a pending entry, as `SparseArray.put` does. "At
most one delivery" is stated per registration, which holds even after the
counter wraps. Lemma `OncePerTransactionIsOncePerId` turns it into "per id"
for as long as the counter has not come back round.

**The foreground-notification hook** (module `Submodules`,
`foreground_notification.dfy`). When a package loads, the sub-module hooks
`ActiveServices.cancelForegroundNotificationLocked`. If the installed hooks
classify as `ERROR`, it tries once more under the misspelt name
`cancelForegroudNotificationLocked`. It then records the classification of
the last attempt. An `Exception` in either attempt records `ERROR` and the
exception text instead. The method catches only `Exception`. Any other
throwable, such as the `Error` that `XposedHelpers.findClass` throws for a
missing class, leaves the method with neither field written; the model reports
that case as `escaped`. Hook installation and the classifier are parameters:
`hook` gives, for each method name, the installed hooks, a thrown `Exception`
or an escaping throwable, and `classify` stands for `unhooksToStatus`. `HookResult` states what one
run ends with, and the imperative method is proved to record exactly that.

The fallback is not a general retry. An exception from the primary attempt
goes straight to the `catch` block, so the fallback is never tried and the
status is `ERROR`, even when the misspelt name would have hooked fully.
`PrimaryThrowSkipsFallback` states this.

`Service.EndToEndScenarios` is not a member of the Java service. It is a
client that replays two runs through the contracts alone, to show how much
they pin down. In the first run a request is answered once and a repeated
answer does nothing. In the second the client dies before the answer, so
nothing is delivered and the entry is still removed.

## Model

| member | source | states |
|---|---|---|
| JavaInt.Wrap | app/src/main/java/github/tornaco/xposedmoduletest/service/AppService.java:165 | the result is a 32-bit int, equal to the input when that already fits, and differs from the input by a multiple of 2^32 (two's-complement wrap-around) |
| JavaInt.WrapIncrement | app/src/main/java/github/tornaco/xposedmoduletest/service/AppService.java:165 | incrementing an already wrapped value gives the same int as wrapping the exact sum |
| JavaInt.WrapInjectiveWithinPeriod | app/src/main/java/github/tornaco/xposedmoduletest/service/AppService.java:165 | two integers less than 2^32 apart never wrap to the same int |
| Service.IdAt | app/src/main/java/github/tornaco/xposedmoduletest/service/AppService.java:162-166 | the n-th id handed out is always a Java int, and is exactly 2017 + n as long as that does not overflow |
| Service.IdAtNext | app/src/main/java/github/tornaco/xposedmoduletest/service/AppService.java:164-166 | each id handed out is the previous one plus one, with Java int wrap-around |
| Service.IdsDistinct | app/src/main/java/github/tornaco/xposedmoduletest/service/AppService.java:162-166 | the first 2^32 ids handed out are pairwise distinct, so none is issued twice |
| Service.IdsRepeatAfterWrap | app/src/main/java/github/tornaco/xposedmoduletest/service/AppService.java:162-166 | after 2^32 calls the counter repeats an id, and the id after Integer.MAX_VALUE is Integer.MIN_VALUE |
| Service.TransactionFactory.constructor | app/src/main/java/github/tornaco/xposedmoduletest/service/AppService.java:162 | the counter starts at 2017 with no id handed out |
| Service.TransactionFactory.TransactionId | app/src/main/java/github/tornaco/xposedmoduletest/service/AppService.java:164-166 | returns the counter's current value (the next id of the sequence IdAt) and advances the counter by one, with wrap-around |
| Service.Transaction.constructor | app/src/main/java/github/tornaco/xposedmoduletest/service/AppService.java:230-239 | a new transaction holds its id, package and callback, is not dead, and is linked to its binder exactly when linkToDeath succeeded |
| Service.Transaction.BinderDied | app/src/main/java/github/tornaco/xposedmoduletest/service/AppService.java:246-248 | sets dead and changes nothing else: the transaction is not unlinked and stays in the service's map |
| Service.Transaction.UnLinkToDeath | app/src/main/java/github/tornaco/xposedmoduletest/service/AppService.java:241-243 | releases the death watch and changes nothing else |
| Service.GuardedNames | app/src/main/java/github/tornaco/xposedmoduletest/service/AppService.java:145-150 | a package is in the result exactly when some entry of the loaded list has that name and its guard flag set |
| Service.OncePerTransactionIsOncePerId | app/src/main/java/github/tornaco/xposedmoduletest/service/AppService.java:91-111 | while fewer than 2^32 ids have been issued, a log that answers each registration at most once answers each transaction id at most once |
| Service.AppService.constructor | app/src/main/java/github/tornaco/xposedmoduletest/service/AppService.java:40-41 | the service starts with no transactions, an empty guard set, an empty reply log and a counter at 2017 |
| Service.AppService.Bypass | app/src/main/java/github/tornaco/xposedmoduletest/service/AppService.java:134-136 | a request is bypassed exactly when its package is not in the guard set |
| Service.AppService.NoteAppStart | app/src/main/java/github/tornaco/xposedmoduletest/service/AppService.java:51-85 | an unguarded package gets one MODE_IGNORED reply and nothing else changes; a null callback throws (reported), sending no reply and adding no entry, though a guarded request still uses up an id; a guarded one with a callback gets the counter's id and one new live entry holding that package and callback, the id is not already pending while the counter has not wrapped, the other entries and the reply log are unchanged, and the request reaches the user prompt (returned id) only from LOLLIPOP on; the registry invariant is kept |
| Service.AppService.OnTransactionRes | app/src/main/java/github/tornaco/xposedmoduletest/service/AppService.java:91-112 | an unknown id changes nothing; a known id is unlinked and removed and every other entry is kept; a live one appends exactly one delivery of res to its callback, and a dead one appends none; the invariant, including at most one delivery per registration, is kept |
| Service.AppService.LoadGuardPackages | app/src/main/java/github/tornaco/xposedmoduletest/service/AppService.java:138-153 | without a session the guard set is untouched; with one, the guard set becomes exactly GuardedNames of the loaded list (clear, then add each guarded name in turn) |
| Submodules.HookResult | x-apm-framework/src/main/java/github/tornaco/xposedmoduletest/xposed/submodules/ActiveServiceForegroundNotificationCancellationSubModule.java:33-50 | the first attempt targets cancelForegroundNotificationLocked; the misspelt name is tried second exactly when the first returned hooks classifying as ERROR, so there are at most two attempts; without a throwable the status is the classification of the last attempt (of the first, when that is not ERROR) and no message is written; an Exception gives ERROR with its text; any other throwable escapes the catch and nothing is recorded |
| Submodules.PrimaryThrowSkipsFallback | x-apm-framework/src/main/java/github/tornaco/xposedmoduletest/xposed/submodules/ActiveServiceForegroundNotificationCancellationSubModule.java:34-48 | when the first attempt throws, only one attempt is made and the status is ERROR with that exception's text, whatever the fallback would return |
| Submodules.ActiveServiceForegroundNotificationCancellationSubModule.NeedMinSdk | x-apm-framework/src/main/java/github/tornaco/xposedmoduletest/xposed/submodules/ActiveServiceForegroundNotificationCancellationSubModule.java:24-26 | the minimum API level is N_MR1, 25 |
| Submodules.ActiveServiceForegroundNotificationCancellationSubModule.HandleLoadingPackage | x-apm-framework/src/main/java/github/tornaco/xposedmoduletest/xposed/submodules/ActiveServiceForegroundNotificationCancellationSubModule.java:29-31 | loading a package runs one installation: at most two hook attempts, with the status and message HookResult gives; a non-Exception throwable escapes (reported as escaped) and leaves status and message as they were |
| Submodules.ActiveServiceForegroundNotificationCancellationSubModule.HookCancelForegroundNotificationLocked | x-apm-framework/src/main/java/github/tornaco/xposedmoduletest/xposed/submodules/ActiveServiceForegroundNotificationCancellationSubModule.java:33-50 | makes exactly the attempts HookResult lists and records its status; the error message is written only on a caught Exception and otherwise keeps its old value; a throwable that catch (Exception e) does not handle escapes (reported as escaped) with status and message unwritten |

## Left out

- The Android service lifecycle (`onCreate`, `onStartCommand`, `onBind`, `onDestroy`) is framework plumbing. That `onStartCommand` triggers `loadGuardPackages` is not modelled.
- Threads and locks are not modelled. This covers the thread pool that runs `loadGuardPackages`, the `synchronized` blocks and the atomicity of `AtomicInteger`. Each operation is one atomic step. In the Java code only the `put` in `noteAppStart` and the body of `onTransactionRes` hold the lock on the transaction map. The guard check, the id counter and `loadGuardPackages` run outside it, so a concurrent request could see a half-filled guard set. `binderDied` writes `dead` without the lock, so a resolve running at the same moment may miss a death and deliver to a dead client. The model captures none of these interleavings.
- Binder death plumbing is reduced to two flags. `linkToDeath` and `unlinkToDeath` become the `linked` flag, and the system's death notification is a call of `BinderDied`. A `RemoteException` from `linkToDeath`, which the constructor ignores, is the input `linkSucceeds`.
- A `RemoteException` from `ICallback.onRes` is caught and logged and changes no state. The reply log records the call whatever its outcome, so the model has no input for it.
- Storage (`DaoManager`, `DaoSession`) is an input. The session is `Option<seq<PackageInfo>>`, with `None` for a null session.
- `CallingInfo.from` and the `callingUID`/`callingPID` arguments are left out. They only produce package-manager labels for display and logging.
- `AppStartNoter`, `mUIHandler` and `Logger` (user interface and logging) are left out. Handing the request to the prompt is modelled as the id `NoteAppStart` returns. The prompt's answer is a later call of `OnTransactionRes` with that id.
- `XMode` is not part of this model, so the numeric value of `MODE_IGNORED` is unknown. The reply log records that answer as `Ignored(callback)`.
- The counter is a static of the Java service class. The model gives each service one counter object.
- Xposed hook installation is left out: `XposedHelpers.findClass`, `XposedBridge.hookAllMethods` and the hook body with its `XAPMManager` checks. `hookMethod` becomes the parameter `hook`.
- `unhooksToStatus`, `setStatus`, `setErrorMessage` and the SDK-version skip live in `AndroidSubModule` and the sub-module registry, which are not part of this model. The classifier is the parameter `classify`, and the version skip is not stated.
- The `SubModuleStatus` enum is not part of this model. The model gives it four constructors (`Uninitialized`, `Ok`, `Partial`, `Error`). Only `Error` matters to the logic modelled.
- ActiveServiceForegroundNotificationCancellationSubModule.constructor: the initial status `Uninitialized` and the unwritten (`None`) error message are assumptions. They belong to `AndroidSubModule`, which is not part of this model.
- The `Transaction` getters are plain constant fields.
- `api-gen-annotations/src/main/java/github/tornaco/apigen/BuildVar.java` is an annotation declaration with no logic.
