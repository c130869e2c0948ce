# sms_autofill: the Android plugin's logic in Dafny

`SmsAutoFillPlugin` is the Android half of the Flutter plugin `sms_autofill`. It answers four calls
on the method channel "sms_autofill":

- `requestPhoneHint` opens the platform's phone-number hint picker and answers with the chosen number.
- `listenForCode` starts Google's SMS retriever and registers a broadcast receiver.
- `unregisterListener` removes that receiver.
- `getAppSignature` returns the application's signature hash.

When the retriever delivers an SMS, the receiver unregisters itself. It extracts a one-time code
from the message and pushes it to the application as the channel method "smscode".

The project has four files:

- `wrappers.dfy` holds `Option`, which stands for Kotlin's nullable types.
- `sms_code.dfy` models the extraction (module `SmsCode`). It is the pattern `\d{4,6}`, matched once
  with `find()`, with the message itself as the fallback. It is modelled as pure functions:
  - `DigitRun` gives the length of a digit run.
  - `MatchAt` gives the greedy match at one position.
  - `FindFrom` and `Find` give the scan that `find()` performs.
  - `Extract` gives what `onReceive` pushes.

  `IsFirstMatch` is a separate, declarative definition of "the leftmost-greedy match". The lemmas show
  that the scan returns exactly that match and then state what gets pushed. Module
  `SmsCodeExamples` works through concrete messages.
- `plugin.dfy` holds the plugin itself as the class `SmsAutoFill.Plugin`. Its fields are:
  - the two slots of the Kotlin class, `pendingHintResult` and `broadcastReceiver`;
  - the platform's set of registered receivers;
  - the retriever start tasks still outstanding;
  - a count of the receivers made;
  - `log`, everything the plugin has sent: replies, pushes and picker launches.

  Each callback of the source is a method. The platform's answers are parameters: the SIM state, a
  failing intent sender, the retriever task's outcome, the activity result's codes and credential,
  and the broadcast's action, status and message. Each method's `ensures` gives the new value of
  every field it may change. The pure functions `Route`, `HintRequestEvents`, `ActivityResultEvents`
  and `ReceiveEvents` characterise what each callback sends. `Valid()` is preserved throughout. It
  says that `broadcastReceiver` is the receiver made last, that only made receivers are registered,
  and that nothing is started or registered when there is no activity.
- `scenarios.dfy` runs call sequences on a fresh plugin (module `SmsAutoFillScenarios`).

The model keeps the source's quirks:

- The pending slot is overwritten by every hint call.
- The pending slot is never cleared, so a later activity result answers the same call again.
- Any activity result that is not "OK for request 11012" answers the pending call with null,
  including results for other request codes.
- Listening twice leaves the older receiver registered and unreachable.
- `unregisterListener` always confirms.
- With no activity, `listenForCode` is never answered.
- With no activity, `requestPhoneHint` ends in an exception: the source casts a null system service
  to `TelephonyManager`.

A maximal-munch reading of the pattern does not match the code. That reading never splits a run
of seven or more digits. The code's greedy, unanchored `\d{4,6}` with `find()` pushes the first six
digits of such a run, and the model follows the code (`SmsCode.ExtractLongRun`).

## Model

| member | source | states |
|---|---|---|
| `SmsCode.DigitRun` | android/src/main/kotlin/com/jaumard/smsautofill/SmsAutoFillPlugin.kt:101 | the run counted at `i` stays inside the message, consists of digits (`\d`, taken as ASCII `0`-`9`) and is maximal: it ends at the end of the text or before a non-digit |
| `SmsCode.MatchAt` | android/src/main/kotlin/com/jaumard/smsautofill/SmsAutoFillPlugin.kt:101 | `\d{4,6}` matches at `i` iff four digits follow `i`; a match starts at `i`, spans 4 to 6 characters, all digits, and ends at the sixth digit, at the end of the text or before a non-digit (greedy) |
| `SmsCode.Extract` | android/src/main/kotlin/com/jaumard/smsautofill/SmsAutoFillPlugin.kt:103-108 | the value pushed is either the message itself or a code of 4 to 6 digits; a null message is pushed as null |
| `SmsCode.FindFrom` | android/src/main/kotlin/com/jaumard/smsautofill/SmsAutoFillPlugin.kt:103-105 | a match found from `i` starts at or after `i`, covers 4 to 6 characters and lies inside the message |
| `SmsCode.Find` | android/src/main/kotlin/com/jaumard/smsautofill/SmsAutoFillPlugin.kt:103-105 | the region reported by `find()` has length 4 to 6 and lies inside the message |
| `SmsCode.FindFromFirst` | android/src/main/kotlin/com/jaumard/smsautofill/SmsAutoFillPlugin.kt:103-105 | the scan from `i` fails iff no four digits begin at or after `i`; otherwise it stops at the first such index and returns the greedy match there |
| `SmsCode.FindIsFirst` | android/src/main/kotlin/com/jaumard/smsautofill/SmsAutoFillPlugin.kt:103-105 | any match `find()` returns satisfies the declarative leftmost-greedy definition `IsFirstMatch` |
| `SmsCode.FirstMatchUnique` | android/src/main/kotlin/com/jaumard/smsautofill/SmsAutoFillPlugin.kt:101-105 | the leftmost-greedy match of `\d{4,6}` is unique |
| `SmsCode.FindNoneIff` | android/src/main/kotlin/com/jaumard/smsautofill/SmsAutoFillPlugin.kt:103-105 | `find()` fails iff the text holds no four consecutive digits |
| `SmsCode.FindIsFirstMatch` | android/src/main/kotlin/com/jaumard/smsautofill/SmsAutoFillPlugin.kt:101-105 | `find()` returns `m` if and only if `m` is the leftmost-greedy match (both directions) |
| `SmsCode.ExtractEarliestGreedy` | android/src/main/kotlin/com/jaumard/smsautofill/SmsAutoFillPlugin.kt:101-106 | when four digits first begin at `i`, the pushed code is the message from `i` over the digits that follow, at most six |
| `SmsCode.ExtractLongRun` | android/src/main/kotlin/com/jaumard/smsautofill/SmsAutoFillPlugin.kt:101-106 | a first run of seven or more digits is not rejected: its first six digits are pushed |
| `SmsCode.ExtractedCodeShape` | android/src/main/kotlin/com/jaumard/smsautofill/SmsAutoFillPlugin.kt:101-106 | when four consecutive digits occur, the pushed value is a code of 4 to 6 ASCII digits that occurs contiguously in the message at the returned index |
| `SmsCode.ExtractFallback` | android/src/main/kotlin/com/jaumard/smsautofill/SmsAutoFillPlugin.kt:103-108 | with no four consecutive digits the original message is pushed unchanged, null included |
| `SmsCode.ExtractNull` | android/src/main/kotlin/com/jaumard/smsautofill/SmsAutoFillPlugin.kt:103-108 | a null message is pushed as null: the match runs on `orEmpty()`, the fallback passes `message` |
| `SmsCodeExamples.SixDigitCode` | android/src/main/kotlin/com/jaumard/smsautofill/SmsAutoFillPlugin.kt:101-106 | "Use 123456 to sign in." yields "123456" |
| `SmsCodeExamples.ShortRunsFallBack` | android/src/main/kotlin/com/jaumard/smsautofill/SmsAutoFillPlugin.kt:103-108 | "OTP 12 34 567 sent" has no run of four digits and is pushed whole |
| `SmsCodeExamples.TwoDigitsFallBack` | android/src/main/kotlin/com/jaumard/smsautofill/SmsAutoFillPlugin.kt:103-108 | "Verification: 99" is pushed whole |
| `SmsCodeExamples.SevenDigitsTruncated` | android/src/main/kotlin/com/jaumard/smsautofill/SmsAutoFillPlugin.kt:101-106 | "PIN 1234567" yields "123456" |
| `SmsCodeExamples.EarliestRunWins` | android/src/main/kotlin/com/jaumard/smsautofill/SmsAutoFillPlugin.kt:101-106 | "1234 or 567890" yields the earlier "1234", not the longer later run |
| `SmsAutoFill.Route` | android/src/main/kotlin/com/jaumard/smsautofill/SmsAutoFillPlugin.kt:46-54 | a handler is selected iff the name is one of the four method names, and then it is the handler of that name; every other name is not implemented |
| `SmsAutoFill.RouteMethodName` | android/src/main/kotlin/com/jaumard/smsautofill/SmsAutoFillPlugin.kt:47-53 | each handler is reached by its own name and by no other |
| `SmsAutoFill.HintRequestEvents` | android/src/main/kotlin/com/jaumard/smsautofill/SmsAutoFillPlugin.kt:117-143 | a hint request has exactly one outcome: an exception without an activity; null to the caller iff the SIM is absent or the intent sender fails; otherwise the picker is launched with request code 11012 and no reply yet |
| `SmsAutoFill.ActivityResultEvents` | android/src/main/kotlin/com/jaumard/smsautofill/SmsAutoFillPlugin.kt:33-43 | with a pending call exactly one reply goes to that call and none without one; the reply carries a value iff the result is OK for request 11012, and that value is the credential id or "" |
| `SmsAutoFill.ReceiveEvents` | android/src/main/kotlin/com/jaumard/smsautofill/SmsAutoFillPlugin.kt:91-110 | a broadcast pushes at most once; it pushes iff the action is SMS_RETRIEVED and the status is SUCCESS, and the push is "smscode" with the extracted code |
| `SmsAutoFill.Plugin.constructor` | android/src/main/kotlin/com/jaumard/smsautofill/SmsAutoFillPlugin.kt:26-44 | a new plugin holds no pending call and no receiver, has sent nothing, and satisfies the invariant |
| `SmsAutoFill.Plugin.OnMethodCall` | android/src/main/kotlin/com/jaumard/smsautofill/SmsAutoFillPlugin.kt:46-54 | each of the four names runs its handler with that handler's effect; any other name replies not-implemented and changes no slot |
| `SmsAutoFill.Plugin.RequestPhoneHint` | android/src/main/kotlin/com/jaumard/smsautofill/SmsAutoFillPlugin.kt:58-61 | the pending slot always becomes the new call, whatever it held, and the call's outcome is `HintRequestEvents`; receivers are untouched |
| `SmsAutoFill.Plugin.OnActivityResult` | android/src/main/kotlin/com/jaumard/smsautofill/SmsAutoFillPlugin.kt:33-43 | returns true iff the request code is 11012; sends `ActivityResultEvents` to the pending call and leaves the slot set |
| `SmsAutoFill.Plugin.GetAppSignature` | android/src/main/kotlin/com/jaumard/smsautofill/SmsAutoFillPlugin.kt:63-67 | replies with the signature and changes nothing else |
| `SmsAutoFill.Plugin.UnregisterListener` | android/src/main/kotlin/com/jaumard/smsautofill/SmsAutoFillPlugin.kt:69-72 | removes only the receiver made last from the registered set, if it is there; always replies "successfully unregister receiver"; the pending slot is untouched |
| `SmsAutoFill.Plugin.ListenForCode` | android/src/main/kotlin/com/jaumard/smsautofill/SmsAutoFillPlugin.kt:74-79 | with an activity a retriever start task is begun for the call; without one nothing happens and the call gets no reply |
| `SmsAutoFill.Plugin.OnRetrieverStart` | android/src/main/kotlin/com/jaumard/smsautofill/SmsAutoFillPlugin.kt:76-85 | the task is resolved once; on success a fresh receiver becomes `broadcastReceiver` and is registered, and the call gets null; on failure the call gets error ERROR_START_SMS_RETRIEVER and nothing is registered |
| `SmsAutoFill.Plugin.OnReceive` | android/src/main/kotlin/com/jaumard/smsautofill/SmsAutoFillPlugin.kt:88-115 | a foreign action changes nothing; the SMS-retrieved action unregisters the receiver whatever the status, and the log grows by `ReceiveEvents` |
| `SmsAutoFillScenarios.NoSim` | android/src/main/kotlin/com/jaumard/smsautofill/SmsAutoFillPlugin.kt:122-127 | with the SIM absent the hint call is answered null at once and no picker is launched |
| `SmsAutoFillScenarios.OverwrittenHint` | android/src/main/kotlin/com/jaumard/smsautofill/SmsAutoFillPlugin.kt:33-61 | a second hint call takes over the slot, the first caller is never answered, and a foreign activity result answers the second caller a second time with null |
| `SmsAutoFillScenarios.CancelledOrEmptyHint` | android/src/main/kotlin/com/jaumard/smsautofill/SmsAutoFillPlugin.kt:33-43 | a cancelled picker answers null; an OK result without a credential answers "" |
| `SmsAutoFillScenarios.ListenTwice` | android/src/main/kotlin/com/jaumard/smsautofill/SmsAutoFillPlugin.kt:69-88 | two listens register two receivers; unregistering removes only the later one |
| `SmsAutoFillScenarios.UnregisterTwice` | android/src/main/kotlin/com/jaumard/smsautofill/SmsAutoFillPlugin.kt:69-72 | a repeated unregistration changes nothing and confirms again |
| `SmsAutoFillScenarios.ReceiveCode` | android/src/main/kotlin/com/jaumard/smsautofill/SmsAutoFillPlugin.kt:88-110 | a foreign broadcast is ignored; the retrieved SMS "PIN 1234567" is pushed once as "123456" and the receiver is unregistered |
| `SmsAutoFillScenarios.ReceiveTimeout` | android/src/main/kotlin/com/jaumard/smsautofill/SmsAutoFillPlugin.kt:94-98 | a non-SUCCESS status unregisters the receiver and pushes nothing |
| `SmsAutoFillScenarios.StartFailure` | android/src/main/kotlin/com/jaumard/smsautofill/SmsAutoFillPlugin.kt:76-78 | a failed retriever start answers with the start error and registers nothing |
| `SmsAutoFillScenarios.DispatchOthers` | android/src/main/kotlin/com/jaumard/smsautofill/SmsAutoFillPlugin.kt:46-67 | an unknown name gets not-implemented; `getAppSignature` answers with the signature |

## Left out

- `AppSignatureHelper` is not part of this model. Its hash is computed by code not shown, so the signature is an opaque string fixed when the plugin is made.
- The Android and Play Services calls are replaced by their outcomes, given as parameters. These are `TelephonyManager.simState`, intent building and `startIntentSenderForResult`, the SMS retriever client and its task, and receiver registration.
- Besides the SIM state, only two failure outcomes of those calls are modelled: whether the intent sender throws `SendIntentException`, and whether the retriever task succeeds. The model does not capture exceptions the SDK might throw in other places.
- `Raised` marks a handler that ends in an exception. Flutter's channel turns that into a reply, and what that reply is lies outside this file.
- The Flutter plumbing (`registerWith`, `MethodChannel` and `setCode`/`invokeMethod`) is modelled as events appended to `log`. The channel's own rule that a `Result` may be answered only once is not modelled. So a second answer to a stale pending call appears in the log as a second `Success`.
- `SmsAutoFill.Plugin.OnReceive` requires that the receiver is registered, because the platform delivers broadcasts only to registered receivers. Which receivers see one broadcast, and in what order, is the caller's choice.
- The intent's extras are taken as already typed: the status is an optional status code and the message an optional string. The `ClassCastException` that an extra of another type would cause is not modelled.
- Reply handles and receivers are numbers. The model does not capture object identity beyond that numbering.
- Concurrency is not modelled. All callbacks run one at a time on the UI thread, and each asynchronous completion is its own method call.
- `SmsCode.DigitRun`: the digit class `\d` is taken as the ASCII digits `0`-`9`, as in OpenJDK's `Pattern`. Android's `java.util.regex` is built on ICU, whose `\d` may also match other Unicode decimal digits (category Nd), such as the Eastern Arabic digits. For a message whose code is written in such digits, the model pushes the whole message where the device may push the code.
- Strings are sequences of characters, not UTF-16 code units. With the ASCII digit class this does not change any extraction result, because each ASCII digit is one code unit.
