/**
  Call sequences run against a fresh `Plugin`, each stating what the plugin
  has sent and holds afterwards. They show the behaviours that follow from the
  two slots: the pending call is overwritten and never cleared, listening
  twice leaves the older receiver registered, and unregistering is harmless
  when repeated.
*/
module SmsAutoFillScenarios {
  import opened Wrappers
  import opened SmsAutoFill
  import SmsCodeExamples

  /** With the SIM absent, the hint call is answered with null at once and no picker is launched. */
  method NoSim() returns (log: seq<Event>)
    ensures log == [Success(1, None)]
  {
    var p := new Plugin(true, "signature");
    p.OnMethodCall("requestPhoneHint", 1, SimStateAbsent, false);
    log := p.log;
  }

  /**
    A second hint call overwrites the pending slot: the first caller is never
    answered, and because the slot is not cleared, a later foreign activity
    result answers the second caller again, with null.
  */
  method OverwrittenHint() returns (log: seq<Event>, handled: bool)
    ensures log == [PickerLaunched(PhoneHintRequest), PickerLaunched(PhoneHintRequest),
                    Success(2, Some("+15550100")), Success(2, None)]
    ensures !handled
  {
    var p := new Plugin(true, "signature");
    p.OnMethodCall("requestPhoneHint", 1, SimStateReady, false);
    p.OnMethodCall("requestPhoneHint", 2, SimStateReady, false);
    var first := p.OnActivityResult(PhoneHintRequest, ResultOk, Some("+15550100"));
    assert first;
    handled := p.OnActivityResult(42, ResultOk, None);
    log := p.log;
  }

  /** A cancelled picker answers with null; an OK result without a credential answers "". */
  method CancelledOrEmptyHint() returns (log: seq<Event>)
    ensures log == [PickerLaunched(PhoneHintRequest), Success(1, None),
                    PickerLaunched(PhoneHintRequest), Success(2, Some(""))]
  {
    var p := new Plugin(true, "signature");
    p.OnMethodCall("requestPhoneHint", 1, SimStateReady, false);
    var handled := p.OnActivityResult(PhoneHintRequest, ResultCanceled, Some("+15550100"));
    p.OnMethodCall("requestPhoneHint", 2, SimStateReady, false);
    handled := p.OnActivityResult(PhoneHintRequest, ResultOk, None);
    log := p.log;
  }

  /**
    Listening twice registers two receivers, and unregistering reaches only
    the one made last, so the first stays registered.
  */
  method ListenTwice() returns (registered: set<Receiver>, log: seq<Event>)
    ensures registered == {0}
    ensures log == [Success(1, None), Success(2, None), Success(3, Some(UnregisterReply))]
  {
    var p := new Plugin(true, "signature");
    p.ListenForCode(1);
    p.ListenForCode(2);
    p.OnRetrieverStart(1, true);
    p.OnRetrieverStart(2, true);
    assert p.registered == {0, 1};
    p.UnregisterListener(3);
    registered := p.registered;
    log := p.log;
  }

  /** A second unregistration changes nothing and still confirms. */
  method UnregisterTwice() returns (registered: set<Receiver>, log: seq<Event>)
    ensures registered == {}
    ensures log == [Success(1, None), Success(2, Some(UnregisterReply)), Success(3, Some(UnregisterReply))]
  {
    var p := new Plugin(true, "signature");
    p.OnMethodCall("listenForCode", 1, SimStateReady, false);
    p.OnRetrieverStart(1, true);
    p.OnMethodCall("unregisterListener", 2, SimStateReady, false);
    p.OnMethodCall("unregisterListener", 3, SimStateReady, false);
    registered := p.registered;
    log := p.log;
  }

  /**
    A retrieved SMS is pushed once as its extracted code, and the receiver is
    gone afterwards; a broadcast with another action before it changes nothing.
  */
  method ReceiveCode() returns (registered: set<Receiver>, log: seq<Event>)
    ensures registered == {}
    ensures log == [Success(1, None), Push(CodeMethod, Some("123456"))]
  {
    var p := new Plugin(true, "signature");
    p.OnMethodCall("listenForCode", 1, SimStateReady, false);
    p.OnRetrieverStart(1, true);
    p.OnReceive(0, Some("android.intent.action.BOOT_COMPLETED"), Some(StatusSuccess), Some("PIN 7777"));
    SmsCodeExamples.SevenDigitsTruncated("PIN 1234567");
    p.OnReceive(0, Some(SmsRetrievedAction), Some(StatusSuccess), Some("PIN 1234567"));
    registered := p.registered;
    log := p.log;
  }

  /** A retrieval that ends with another status unregisters the receiver and pushes nothing. */
  method ReceiveTimeout() returns (registered: set<Receiver>, log: seq<Event>)
    ensures registered == {}
    ensures log == [Success(1, None)]
  {
    var p := new Plugin(true, "signature");
    p.OnMethodCall("listenForCode", 1, SimStateReady, false);
    p.OnRetrieverStart(1, true);
    p.OnReceive(0, Some(SmsRetrievedAction), Some(StatusTimeout), None);
    registered := p.registered;
    log := p.log;
  }

  /** A retriever that fails to start answers with the start error and registers nothing. */
  method StartFailure() returns (registered: set<Receiver>, log: seq<Event>)
    ensures registered == {}
    ensures log == [Error(1, StartErrorCode, StartErrorMessage)]
  {
    var p := new Plugin(true, "signature");
    p.OnMethodCall("listenForCode", 1, SimStateReady, false);
    p.OnRetrieverStart(1, false);
    registered := p.registered;
    log := p.log;
  }

  /** Unknown names are not implemented; the signature call answers with the signature. */
  method DispatchOthers() returns (log: seq<Event>)
    ensures log == [NotImplementedReply(1), Success(2, Some("signature"))]
  {
    var p := new Plugin(true, "signature");
    p.OnMethodCall("requestHint", 1, SimStateReady, false);
    p.OnMethodCall("getAppSignature", 2, SimStateReady, false);
    log := p.log;
  }
}
