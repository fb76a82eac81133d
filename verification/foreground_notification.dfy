/**
 * The Xposed sub-module that hooks `ActiveServices.cancelForegroundNotificationLocked`
 * so that a foreground service's notification can always be cancelled.
 *
 * Installing a hook and classifying the set of installed hooks are done by
 * Xposed and by the sub-module base class, whose code is not part of this
 * model: both are parameters here. `hook` says, for each method name, whether
 * `hookMethod` returns a set of installed hooks or throws, and `classify` is
 * `unhooksToStatus`.
 */
module Submodules {
  import opened Wrappers

  /** `Build.VERSION_CODES.N_MR1`: Android 7.1. */
  const N_MR1: int := 25

  /** The method name the hook targets first. */
  const PRIMARY_TARGET: string := "cancelForegroundNotificationLocked"
  /** The misspelt name the same method carries in some Android N builds. */
  const FALLBACK_TARGET: string := "cancelForegroudNotificationLocked"

  /** The status a sub-module reports. */
  datatype SubModuleStatus = Uninitialized | Ok | Partial | Error

  /** One hook installed by `XposedBridge.hookAllMethods`. */
  datatype Unhook = Unhook(hookedMethod: nat)

  /**
   * What one call of `hookMethod` does: return the installed hooks, throw an
   * `Exception` (with its stack trace as text), or throw a `Throwable` that is
   * not an `Exception`, such as the `Error` `XposedHelpers.findClass` raises
   * for a missing class, which no `catch (Exception e)` handles.
   */
  datatype HookOutcome = Hooked(unhooks: set<Unhook>) | Threw(stackTrace: string) | Escaped

  /**
   * What one run of `hookCancelForegroundNotificationLocked` ends with: the
   * method names it tried to hook, in order, the status it records and the
   * error message it records (`None`: not written). A run that a
   * non-`Exception` throwable leaves records neither: both are `None`.
   */
  datatype Installation = Installation(attempted: seq<string>, status: Option<SubModuleStatus>, errorMessage: Option<string>)

  /**
   * The outcome of one installation attempt. The first attempt always targets
   * `PRIMARY_TARGET`; the fallback name is tried exactly when the first
   * attempt returned hooks that classify as `Error`, so there are at most two
   * attempts. Without a throwable, the status is the classification of the
   * last attempt and no message is written; an `Exception` in either attempt
   * gives `Error` with the exception's text; any other throwable leaves the
   * run with nothing recorded. A primary attempt that throws ends the run: the
   * fallback is not tried.
   */
  function HookResult(hook: string -> HookOutcome, classify: set<Unhook> -> SubModuleStatus): (r: Installation)
    ensures 1 <= |r.attempted| <= 2 && r.attempted[0] == PRIMARY_TARGET
    ensures |r.attempted| == 2 <==>
      hook(PRIMARY_TARGET).Hooked? && classify(hook(PRIMARY_TARGET).unhooks) == Error
    ensures |r.attempted| == 2 ==> r.attempted[1] == FALLBACK_TARGET
    ensures var last := hook(r.attempted[|r.attempted| - 1]);
      && (last.Threw? ==> r.status == Some(Error) && r.errorMessage == Some(last.stackTrace))
      && (last.Hooked? ==> r.status == Some(classify(last.unhooks)) && r.errorMessage == None)
      && (last.Escaped? ==> r.status == None && r.errorMessage == None)
    ensures hook(PRIMARY_TARGET).Hooked? && classify(hook(PRIMARY_TARGET).unhooks) != Error ==>
      r.status == Some(classify(hook(PRIMARY_TARGET).unhooks))
    ensures r.errorMessage.Some? ==> r.status == Some(Error)
  {
    match hook(PRIMARY_TARGET)
    case Escaped => Installation([PRIMARY_TARGET], None, None)
    case Threw(trace) => Installation([PRIMARY_TARGET], Some(Error), Some(trace))
    case Hooked(first) =>
      if classify(first) != Error then
        Installation([PRIMARY_TARGET], Some(classify(first)), None)
      else
        match hook(FALLBACK_TARGET)
        case Escaped => Installation([PRIMARY_TARGET, FALLBACK_TARGET], None, None)
        case Threw(trace) => Installation([PRIMARY_TARGET, FALLBACK_TARGET], Some(Error), Some(trace))
        case Hooked(second) => Installation([PRIMARY_TARGET, FALLBACK_TARGET], Some(classify(second)), None)
  }

  /**
   * A primary attempt that throws an `Exception` ends in `Error` whatever the
   * fallback name would have given, even a complete set of hooks.
   */
  lemma PrimaryThrowSkipsFallback(hook: string -> HookOutcome, classify: set<Unhook> -> SubModuleStatus)
    requires hook(PRIMARY_TARGET).Threw?
    ensures HookResult(hook, classify).attempted == [PRIMARY_TARGET]
    ensures HookResult(hook, classify).status == Some(Error)
    ensures HookResult(hook, classify).errorMessage == Some(hook(PRIMARY_TARGET).stackTrace)
  {
  }

  class ActiveServiceForegroundNotificationCancellationSubModule {
    /** The status recorded through `setStatus`. */
    var status: SubModuleStatus
    /** The message recorded through `setErrorMessage`; `None` while never written. */
    var errorMessage: Option<string>

    constructor ()
      ensures status == Uninitialized && errorMessage == None
    {
      status := Uninitialized;
      errorMessage := None;
    }

    /** `needMinSdk`: the lowest API level the sub-module applies to. */
    function NeedMinSdk(): (sdk: int)
      ensures sdk == 25
    {
      N_MR1
    }

    /**
     * `handleLoadingPackage`: one installation attempt for the loaded package.
     * `escaped` reports a non-`Exception` throwable leaving the call.
     */
    method HandleLoadingPackage(pkg: string, hook: string -> HookOutcome, classify: set<Unhook> -> SubModuleStatus)
      returns (escaped: bool, ghost attempted: seq<string>)
      modifies this
      ensures attempted == HookResult(hook, classify).attempted && |attempted| <= 2
      ensures escaped <==> HookResult(hook, classify).status.None?
      ensures status == if escaped then old(status) else HookResult(hook, classify).status.value
      ensures errorMessage == if HookResult(hook, classify).errorMessage.Some?
        then HookResult(hook, classify).errorMessage else old(errorMessage)
    {
      escaped, attempted := HookCancelForegroundNotificationLocked(hook, classify);
    }

    /**
     * `hookCancelForegroundNotificationLocked`: records the status of
     * `HookResult`, and its error message when there is one; the message
     * stays as it was otherwise. A non-`Exception` throwable is not caught:
     * the call ends with `escaped` set and neither field written.
     */
    method HookCancelForegroundNotificationLocked(hook: string -> HookOutcome, classify: set<Unhook> -> SubModuleStatus)
      returns (escaped: bool, ghost attempted: seq<string>)
      modifies this
      ensures attempted == HookResult(hook, classify).attempted
      ensures escaped <==> HookResult(hook, classify).status.None?
      ensures status == if escaped then old(status) else HookResult(hook, classify).status.value
      ensures errorMessage == if HookResult(hook, classify).errorMessage.Some?
        then HookResult(hook, classify).errorMessage else old(errorMessage)
    {
      escaped := false;
      attempted := [PRIMARY_TARGET];
      var outcome := hook(PRIMARY_TARGET);
      if outcome.Hooked? && classify(outcome.unhooks) == Error {
        attempted := attempted + [FALLBACK_TARGET];
        outcome := hook(FALLBACK_TARGET);
      }
      match outcome
      case Hooked(unHooks) =>
        status := classify(unHooks);
      case Threw(trace) =>
        // the `catch (Exception e)` block
        status := Error;
        errorMessage := Some(trace);
      case Escaped =>
        escaped := true;
    }
  }
}
