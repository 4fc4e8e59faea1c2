/**
 * The outcome of handing a message to the mail provider, and the mapping
 * from a failure's text to the message shown to the user.
 *
 * Connecting, verifying, sending and the two timers raced against them are
 * collapsed into one abstract outcome. The timers fail with the texts
 * `VerifyTimeoutText` and `SendTimeoutText`.
 */
module Delivery {
  import opened Text

  /** A failure raised while verifying or sending: the error's class name and its text. */
  datatype Fault = Fault(errorType: string, errorText: string)

  /** What a send reports: the id of the sent message, or the failure. */
  datatype Outcome =
    | Delivered(messageId: string)
    | Failed(fault: Fault)

  /** The failure raised by the timer raced against the connection check. */
  const VerifyTimeoutText: string := "SMTP verification timeout"

  /** The failure raised by the timer raced against the send. */
  const SendTimeoutText: string := "Email sending timeout"

  datatype FailureKind =
    | Timeout
    | Authentication
    | Network
    | Other(text: string)   // reported to the user verbatim

  /**
   * The first test that matches decides, in the order `timeout`,
   * `authentication`, `network` or `ENOTFOUND`; the tests are case-sensitive.
   */
  function Classify(errorText: string): (k: FailureKind)
    ensures k == Timeout <==> Occurs(errorText, "timeout")
    ensures k == Authentication <==> !Occurs(errorText, "timeout") && Occurs(errorText, "authentication")
    ensures k == Network <==>
              !Occurs(errorText, "timeout") && !Occurs(errorText, "authentication") &&
              (Occurs(errorText, "network") || Occurs(errorText, "ENOTFOUND"))
    ensures k.Other? <==>
              !Occurs(errorText, "timeout") && !Occurs(errorText, "authentication") &&
              !Occurs(errorText, "network") && !Occurs(errorText, "ENOTFOUND")
    ensures k.Other? ==> k.text == errorText
  {
    IncludesIff(errorText, "timeout");
    IncludesIff(errorText, "authentication");
    IncludesIff(errorText, "network");
    IncludesIff(errorText, "ENOTFOUND");
    if Includes(errorText, "timeout") then Timeout
    else if Includes(errorText, "authentication") then Authentication
    else if Includes(errorText, "network") || Includes(errorText, "ENOTFOUND") then Network
    else Other(errorText)
  }

  const TimeoutMessage: string := "Timeout - Mất quá nhiều thời gian để kết nối email server"
  const AuthenticationMessage: string := "Lỗi xác thực Gmail - Kiểm tra username/password"
  const NetworkMessage: string := "Lỗi kết nối mạng - Kiểm tra internet"

  /** The user-facing message for each kind of failure; an unrecognised failure shows its own text. */
  function UserMessage(k: FailureKind): (m: string)
    ensures k == Timeout ==> m == TimeoutMessage
    ensures k == Authentication ==> m == AuthenticationMessage
    ensures k == Network ==> m == NetworkMessage
    ensures k.Other? ==> m == k.text
  {
    match k
    case Timeout => TimeoutMessage
    case Authentication => AuthenticationMessage
    case Network => NetworkMessage
    case Other(text) => text
  }

  /** The message shown for a failure's text: the first matching test decides, as for `Classify`. */
  function FailureMessage(errorText: string): (m: string)
    ensures Occurs(errorText, "timeout") ==> m == TimeoutMessage
    ensures !Occurs(errorText, "timeout") && Occurs(errorText, "authentication") ==> m == AuthenticationMessage
    ensures (!Occurs(errorText, "timeout") && !Occurs(errorText, "authentication") &&
             (Occurs(errorText, "network") || Occurs(errorText, "ENOTFOUND"))) ==> m == NetworkMessage
    ensures (!Occurs(errorText, "timeout") && !Occurs(errorText, "authentication") &&
             !Occurs(errorText, "network") && !Occurs(errorText, "ENOTFOUND")) ==> m == errorText
  {
    UserMessage(Classify(errorText))
  }

  /** The recognised kinds get three different messages. */
  lemma KnownMessagesDistinct()
    ensures UserMessage(Timeout) != UserMessage(Authentication)
    ensures UserMessage(Timeout) != UserMessage(Network)
    ensures UserMessage(Authentication) != UserMessage(Network)
  {
    assert |TimeoutMessage| != |AuthenticationMessage|;
    assert |TimeoutMessage| != |NetworkMessage|;
    assert |AuthenticationMessage| != |NetworkMessage|;
  }

  /** Both timers' failures are classified as timeouts. */
  lemma InternalTimeoutsClassified()
    ensures Classify(VerifyTimeoutText) == Timeout
    ensures Classify(SendTimeoutText) == Timeout
  {
    assert VerifyTimeoutText[18..25] == "timeout";
    assert OccursAt(VerifyTimeoutText, "timeout", 18);
    assert SendTimeoutText[14..21] == "timeout";
    assert OccursAt(SendTimeoutText, "timeout", 14);
  }
}
