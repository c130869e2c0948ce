/**
  The plugin object behind the "sms_autofill" method channel.

  `Plugin` keeps the two slots of the Kotlin class, `pendingHintResult` and
  `broadcastReceiver`, together with what the platform holds on its behalf:
  the receivers currently registered with the activity and the SMS retriever
  start tasks that have not completed. Everything the plugin sends (replies to
  method calls, pushes to the application, launches of the hint picker) is
  appended to `log`. Platform outcomes (the SIM state, a failing intent sender,
  the retriever task's result, the fields of an activity result or of a
  broadcast intent) are parameters of the method that models the callback.
*/
module SmsAutoFill {
  import opened Wrappers
  import SmsCode

  /** The request code the hint picker is launched with. */
  const PhoneHintRequest: int := 11012
  /** `Activity.RESULT_OK`. */
  const ResultOk: int := -1
  /** `CommonStatusCodes.SUCCESS`. */
  const StatusSuccess: int := 0
  /** `TelephonyManager.SIM_STATE_ABSENT`. */
  const SimStateAbsent: int := 1
  /** `TelephonyManager.SIM_STATE_READY`. */
  const SimStateReady: int := 5
  /** `Activity.RESULT_CANCELED`. */
  const ResultCanceled: int := 0
  /** `CommonStatusCodes.TIMEOUT`. */
  const StatusTimeout: int := 15
  /** `SmsRetriever.SMS_RETRIEVED_ACTION`. */
  const SmsRetrievedAction: string := "com.google.android.gms.auth.api.phone.SMS_RETRIEVED"
  /** The channel method the extracted code is pushed to. */
  const CodeMethod: string := "smscode"
  const UnregisterReply: string := "successfully unregister receiver"
  const StartErrorCode: string := "ERROR_START_SMS_RETRIEVER"
  const StartErrorMessage: string := "Can't start sms retriever"

  /** A `MethodChannel.Result`: the reply handle of one incoming call. */
  type Handle = nat
  /** One receiver object made by `createBroadcastReceiver`, numbered in order of creation. */
  type Receiver = nat

  /** Something the plugin sends out. */
  datatype Event =
    | Success(to: Handle, value: Option<string>)        // result.success(value)
    | Error(to: Handle, code: string, message: string)  // result.error(code, message, null)
    | NotImplementedReply(to: Handle)                   // result.notImplemented()
    | Raised(to: Handle)                                // the handler ends in an exception
    | PickerLaunched(requestCode: int)                  // startIntentSenderForResult(...)
    | Push(channelMethod: string, argument: Option<string>)  // channel.invokeMethod(channelMethod, argument)

  // ---------------------------------------------------------------------
  // Dispatch

  /** The handler `onMethodCall` selects. */
  datatype Command = RequestPhoneHint | ListenForCode | UnregisterListener | GetAppSignature | Unknown

  /** The channel method name of each handler. */
  function MethodName(c: Command): string
    requires c != Unknown
  {
    match c
    case RequestPhoneHint => "requestPhoneHint"
    case ListenForCode => "listenForCode"
    case UnregisterListener => "unregisterListener"
    case GetAppSignature => "getAppSignature"
  }

  const MethodNames: set<string> := {"requestPhoneHint", "listenForCode", "unregisterListener", "getAppSignature"}

  /** The `when (call.method)` of `onMethodCall`. */
  function Route(name: string): (c: Command)
    ensures c == Unknown <==> name !in MethodNames
    ensures c != Unknown ==> MethodName(c) == name
  {
    if name == "requestPhoneHint" then RequestPhoneHint
    else if name == "listenForCode" then ListenForCode
    else if name == "unregisterListener" then UnregisterListener
    else if name == "getAppSignature" then GetAppSignature
    else Unknown
  }

  /** Every handler is reached by its own name and by no other. */
  lemma RouteMethodName(c: Command, name: string)
    requires c != Unknown
    ensures Route(name) == c <==> name == MethodName(c)
  {
  }

  // ---------------------------------------------------------------------
  // What each callback sends

  /**
    What `requestPhoneHint` sends for the call `result`: with no activity the
    SIM check throws; with the SIM absent, or when the intent sender fails, the
    caller gets null; otherwise the picker is launched and nothing is replied yet.
  */
  function HintRequestEvents(hasActivity: bool, result: Handle, simState: int, sendFails: bool): (events: seq<Event>)
    ensures |events| == 1
    ensures events[0] == Raised(result) <==> !hasActivity
    ensures events[0] == Success(result, None) <==> hasActivity && (simState == SimStateAbsent || sendFails)
    ensures events[0].PickerLaunched? <==> hasActivity && simState != SimStateAbsent && !sendFails
    ensures events[0].PickerLaunched? ==> events[0].requestCode == PhoneHintRequest
  {
    if !hasActivity then [Raised(result)]
    else if simState == SimStateAbsent then [Success(result, None)]
    else if sendFails then [Success(result, None)]
    else [PickerLaunched(PhoneHintRequest)]
  }

  /**
    What the activity-result listener sends: the pending call, if any, gets the
    credential's id (or "" without a credential) when the result is OK for the
    hint request, and null for every other result, foreign request codes included.
  */
  function ActivityResultEvents(pending: Option<Handle>, requestCode: int, resultCode: int, credentialId: Option<string>): (events: seq<Event>)
    ensures |events| == if pending.Some? then 1 else 0
    ensures events != [] ==> events[0].Success? && events[0].to == pending.value
    ensures events != [] ==> (events[0].value.Some? <==> resultCode == ResultOk && requestCode == PhoneHintRequest)
    ensures events != [] && events[0].value.Some? ==> events[0].value.value == credentialId.GetOr("")
  {
    var value := if resultCode == ResultOk && requestCode == PhoneHintRequest then Some(credentialId.GetOr("")) else None;
    match pending
    case None => []
    case Some(h) => [Success(h, value)]
  }

  /**
    What a receiver's `onReceive` sends: one push of the extracted code when the
    intent is the SMS-retrieved broadcast with status SUCCESS, and nothing otherwise.
  */
  function ReceiveEvents(action: Option<string>, statusCode: Option<int>, message: Option<string>): (events: seq<Event>)
    ensures |events| <= 1
    ensures events != [] <==> action == Some(SmsRetrievedAction) && statusCode == Some(StatusSuccess)
    ensures events != [] ==> events[0] == Push(CodeMethod, SmsCode.Extract(message))
  {
    if action == Some(SmsRetrievedAction) && statusCode == Some(StatusSuccess) then
      [Push(CodeMethod, SmsCode.Extract(message))]
    else
      []
  }

  // ---------------------------------------------------------------------
  // The plugin

  class Plugin {
    /** Whether `registrar.activity()` returned an activity. */
    const hasActivity: bool
    /** What `AppSignatureHelper(...).appSignature` yields; computed outside this model. */
    const appSignature: string

    /** The call to answer when the hint picker returns. */
    var pendingHintResult: Option<Handle>
    /** The receiver made last. */
    var broadcastReceiver: Option<Receiver>
    /** The receivers registered with the activity and not yet unregistered. */
    var registered: set<Receiver>
    /** The `listenForCode` calls whose retriever start task has not completed. */
    var startingTasks: multiset<Handle>
    /** How many receivers have been made. */
    var receiversMade: nat
    /** Everything the plugin has sent, oldest first. */
    var log: seq<Event>

    /**
      `broadcastReceiver` is the receiver made last, every registered receiver
      has been made, and without an activity nothing is started or registered.
    */
    ghost predicate Valid()
      reads this
    {
      && broadcastReceiver == (if receiversMade == 0 then None else Some(receiversMade - 1))
      && (forall r :: r in registered ==> r < receiversMade)
      && (!hasActivity ==> registered == {} && startingTasks == multiset{} && receiversMade == 0)
    }

    /** The plugin as `registerWith` creates it; its `init` block installs `OnActivityResult`. */
    constructor (hasActivity: bool, appSignature: string)
      ensures Valid()
      ensures this.hasActivity == hasActivity && this.appSignature == appSignature
      ensures pendingHintResult == None && broadcastReceiver == None
      ensures registered == {} && startingTasks == multiset{} && receiversMade == 0
      ensures log == []
    {
      this.hasActivity := hasActivity;
      this.appSignature := appSignature;
      pendingHintResult := None;
      broadcastReceiver := None;
      registered := {};
      startingTasks := multiset{};
      receiversMade := 0;
      log := [];
    }

    /** `onMethodCall`: run the handler `Route(name)` selects for the call `result`. */
    method OnMethodCall(name: string, result: Handle, simState: int, sendFails: bool)
      requires Valid()
      modifies this
      ensures Valid()
      ensures Route(name) == Command.Unknown ==>
                && log == old(log) + [NotImplementedReply(result)]
                && pendingHintResult == old(pendingHintResult)
                && registered == old(registered) && startingTasks == old(startingTasks)
                && receiversMade == old(receiversMade)
      ensures Route(name) == Command.RequestPhoneHint ==>
                && pendingHintResult == Some(result)
                && log == old(log) + HintRequestEvents(hasActivity, result, simState, sendFails)
                && registered == old(registered) && startingTasks == old(startingTasks)
                && receiversMade == old(receiversMade)
      ensures Route(name) == Command.ListenForCode ==>
                && startingTasks == (if hasActivity then old(startingTasks) + multiset{result} else old(startingTasks))
                && log == old(log)
                && pendingHintResult == old(pendingHintResult)
                && registered == old(registered) && receiversMade == old(receiversMade)
      ensures Route(name) == Command.UnregisterListener ==>
                && registered == old(registered) - (if broadcastReceiver.Some? then {broadcastReceiver.value} else {})
                && log == old(log) + [Success(result, Some(UnregisterReply))]
                && pendingHintResult == old(pendingHintResult)
                && startingTasks == old(startingTasks) && receiversMade == old(receiversMade)
      ensures Route(name) == Command.GetAppSignature ==>
                && log == old(log) + [Success(result, Some(appSignature))]
                && pendingHintResult == old(pendingHintResult)
                && registered == old(registered) && startingTasks == old(startingTasks)
                && receiversMade == old(receiversMade)
    {
      match Route(name)
      case RequestPhoneHint => RequestPhoneHint(result, simState, sendFails);
      case ListenForCode => ListenForCode(result);
      case UnregisterListener => UnregisterListener(result);
      case GetAppSignature => GetAppSignature(result);
      case Unknown => log := log + [NotImplementedReply(result)];
    }

    /**
      `requestPhoneHint` followed by `requestHint`: the slot is overwritten with
      the new call whatever it held, and then the SIM is checked and the picker
      launched.
    */
    method RequestPhoneHint(result: Handle, simState: int, sendFails: bool)
      requires Valid()
      modifies this`pendingHintResult, this`log
      ensures Valid()
      ensures pendingHintResult == Some(result)
      ensures log == old(log) + HintRequestEvents(hasActivity, result, simState, sendFails)
    {
      pendingHintResult := Some(result);
      if !hasActivity {
        // `activity?.getSystemService(...) as TelephonyManager` casts null
        log := log + [Raised(result)];
      } else if simState == SimStateAbsent {
        log := log + [Success(pendingHintResult.value, None)];
      } else if sendFails {
        // the SendIntentException handler
        log := log + [Success(pendingHintResult.value, None)];
      } else {
        log := log + [PickerLaunched(PhoneHintRequest)];
      }
    }

    /**
      The activity-result listener. It answers the pending call (the slot is
      left as it is) and reports the result as handled exactly when it carries
      the hint request code.
    */
    method OnActivityResult(requestCode: int, resultCode: int, credentialId: Option<string>) returns (handled: bool)
      requires Valid()
      modifies this`log
      ensures Valid()
      ensures handled <==> requestCode == PhoneHintRequest
      ensures log == old(log) + ActivityResultEvents(pendingHintResult, requestCode, resultCode, credentialId)
    {
      if resultCode == ResultOk && requestCode == PhoneHintRequest {
        if pendingHintResult.Some? {
          log := log + [Success(pendingHintResult.value, Some(credentialId.GetOr("")))];
        }
      } else {
        if pendingHintResult.Some? {
          log := log + [Success(pendingHintResult.value, None)];
        }
      }
      handled := requestCode == PhoneHintRequest;
    }

    /** `getAppSignature`: reply with the application's signature. */
    method GetAppSignature(result: Handle)
      requires Valid()
      modifies this`log
      ensures Valid()
      ensures log == old(log) + [Success(result, Some(appSignature))]
    {
      log := log + [Success(result, Some(appSignature))];
    }

    /**
      `unregisterListener`: unregister the receiver made last if it is still
      registered; the platform's complaint about an unregistered receiver is
      swallowed, and the reply is the same confirmation in every case.
    */
    method UnregisterListener(result: Handle)
      requires Valid()
      modifies this`registered, this`log
      ensures Valid()
      ensures registered == old(registered) - (if broadcastReceiver.Some? then {broadcastReceiver.value} else {})
      ensures log == old(log) + [Success(result, Some(UnregisterReply))]
    {
      if hasActivity && broadcastReceiver.Some? && broadcastReceiver.value in registered {
        registered := registered - {broadcastReceiver.value};
      }
      log := log + [Success(result, Some(UnregisterReply))];
    }

    /**
      `listenForSmsCode`: start the SMS retriever. Without an activity there is
      no client and no task, and the call is never answered.
    */
    method ListenForCode(result: Handle)
      requires Valid()
      modifies this`startingTasks
      ensures Valid()
      ensures startingTasks == if hasActivity then old(startingTasks) + multiset{result} else old(startingTasks)
    {
      if hasActivity {
        startingTasks := startingTasks + multiset{result};
      }
    }

    /**
      Completion of the retriever start task begun for `result`. On success,
      `receiveSms` makes a new receiver, registers it and replies null; on
      failure the call gets the start error.
    */
    method OnRetrieverStart(result: Handle, started: bool)
      requires Valid()
      requires result in startingTasks
      modifies this`startingTasks, this`broadcastReceiver, this`registered, this`receiversMade, this`log
      ensures Valid()
      ensures startingTasks == old(startingTasks) - multiset{result}
      ensures started ==>
                && receiversMade == old(receiversMade) + 1
                && broadcastReceiver == Some(old(receiversMade))
                && registered == old(registered) + {old(receiversMade)}
                && log == old(log) + [Success(result, None)]
      ensures !started ==>
                && receiversMade == old(receiversMade)
                && broadcastReceiver == old(broadcastReceiver)
                && registered == old(registered)
                && log == old(log) + [Error(result, StartErrorCode, StartErrorMessage)]
    {
      startingTasks := startingTasks - multiset{result};
      if started {
        broadcastReceiver := Some(receiversMade);
        receiversMade := receiversMade + 1;
        registered := registered + {broadcastReceiver.value};
        log := log + [Success(result, None)];
      } else {
        log := log + [Error(result, StartErrorCode, StartErrorMessage)];
      }
    }

    /**
      `onReceive` of the registered receiver `receiver`. A broadcast with another
      action is ignored; the SMS-retrieved broadcast unregisters the receiver
      before its status is looked at, and pushes the code only on SUCCESS.
    */
    method OnReceive(receiver: Receiver, action: Option<string>, statusCode: Option<int>, message: Option<string>)
      requires Valid()
      requires receiver in registered
      modifies this`registered, this`log
      ensures Valid()
      ensures registered == if action == Some(SmsRetrievedAction) then old(registered) - {receiver} else old(registered)
      ensures log == old(log) + ReceiveEvents(action, statusCode, message)
    {
      if action != Some(SmsRetrievedAction) {
        return;
      }
      registered := registered - {receiver};
      if statusCode == Some(StatusSuccess) {
        log := log + [Push(CodeMethod, SmsCode.Extract(message))];
      }
    }
  }
}
