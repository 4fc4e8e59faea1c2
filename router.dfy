/**
 * The `/send-email` handler: validate the payload, hand the message to the
 * mail provider, on success update the vote tally, and shape the JSON reply.
 * (The `/stats` handler is `Votes.CounterStore.Stats`.)
 */
module Router {
  import opened Wrappers
  import opened Text
  import opened Votes
  import opened Delivery

  /** The fields of the JSON body the handler reads; `None` is a missing or null field. */
  datatype Body = Body(subject: Option<string>, message: Option<string>)

  /** The message handed to the provider; sender and recipient are fixed configuration. */
  datatype Mail = Mail(subject: string, text: string)

  /** The status and the JSON fields of a reply (the timestamp is left out). */
  datatype Response = Response(
    status: int,
    success: bool,
    message: string,
    messageId: Option<string>,
    errorType: Option<string>)

  const MissingFieldsMessage: string := "Thiếu subject hoặc message"
  const SentMessage: string := "Email đã được gửi thành công!"

  /** A field JavaScript treats as true: present and not the empty string. */
  predicate Present(field: Option<string>)
  {
    field.Some? && field.value != ""
  }

  /** `!subject || !message` rejects the request with 400; otherwise the mail to send. */
  function Validate(body: Body): (r: Result<Mail, Response>)
    ensures r.Success? <==> body.subject.Some? && body.subject.value != [] && body.message.Some? && body.message.value != []
    ensures r.Success? ==> r.value.subject == body.subject.value && r.value.text == body.message.value
    ensures r.Failure? ==> r.error.status == 400 && !r.error.success && r.error.message == MissingFieldsMessage
  {
    if !Present(body.subject) || !Present(body.message) then
      Failure(Response(400, false, MissingFieldsMessage, None, None))
    else
      Success(Mail(body.subject.value, body.message.value))
  }

  /** The reply to a delivery outcome: 200 with the id, or 500 with the classified message and the error's class. */
  function Reply(outcome: Outcome): (r: Response)
    ensures r.success <==> outcome.Delivered?
    ensures outcome.Delivered? ==>
              r.status == 200 && r.messageId == Some(outcome.messageId) && r.message == SentMessage && r.errorType == None
    ensures outcome.Failed? ==>
              r.status == 500 && r.messageId == None && r.errorType == Some(outcome.fault.errorType) &&
              r.message == UserMessage(Classify(outcome.fault.errorText))
  {
    match outcome
    case Delivered(id) => Response(200, true, SentMessage, Some(id), None)
    case Failed(fault) => Response(500, false, FailureMessage(fault.errorText), None, Some(fault.errorType))
  }

  /**
   * The mail provider: how it answers the connection check and the send, and
   * every message submitted to it with `sendMail`.
   */
  class Mailer {
    var outbox: seq<Mail>
    const verifyFault: Option<Fault>   // None: the connection is verified in time
    const sendAnswer: Outcome

    constructor (verifyFault: Option<Fault>, sendAnswer: Outcome)
      ensures outbox == [] && this.verifyFault == verifyFault && this.sendAnswer == sendAnswer
    {
      outbox := [];
      this.verifyFault := verifyFault;
      this.sendAnswer := sendAnswer;
    }

    /** The outcome of a request, verification first: a failed check ends it before any send. */
    function Overall(): Outcome
      reads this
    {
      if verifyFault.Some? then Failed(verifyFault.value) else sendAnswer
    }

    /** `verify`, raced against its timer; nothing is submitted. */
    method Verify() returns (fault: Option<Fault>)
      ensures fault == verifyFault
    {
      fault := verifyFault;
    }

    /** `sendMail`, raced against its timer: the message is submitted and the provider's answer returned. */
    method Send(mail: Mail) returns (outcome: Outcome)
      modifies this
      ensures outbox == old(outbox) + [mail]
      ensures outcome == sendAnswer
    {
      outbox := outbox + [mail];
      outcome := sendAnswer;
    }
  }

  /**
   * POST /send-email. An invalid body is answered with 400 before anything is
   * done. A valid one goes to the connection check; if that fails, nothing is
   * sent and the reply is 500. Otherwise the mail is sent; a failed send gives
   * 500 and leaves the tally alone; a success updates the tally and gives 200
   * whatever the tally step reports.
   */
  method SendEmail(body: Body, mailer: Mailer, store: CounterStore) returns (response: Response)
    modifies mailer, store
    ensures Validate(body).Failure? ==>
              response == Validate(body).error &&
              mailer.outbox == old(mailer.outbox) && store.file == old(store.file)
    ensures Validate(body).Success? ==>
              mailer.outbox == old(mailer.outbox) + (if mailer.verifyFault.None? then [Validate(body).value] else []) &&
              response == Reply(mailer.Overall())
    ensures Validate(body).Success? && mailer.Overall().Delivered? ==>
              store.file == Tally(old(store.file), body.message.value, store.write).file
    ensures mailer.Overall().Failed? ==> store.file == old(store.file)
  {
    var validated := Validate(body);
    if validated.Failure? {
      return validated.error;
    }
    var mail := validated.value;
    var verifyFault := mailer.Verify();
    if verifyFault.Some? {
      var fault := verifyFault.value;
      return Response(500, false, UserMessage(Classify(fault.errorText)), None, Some(fault.errorType));
    }
    var outcome := mailer.Send(mail);
    match outcome
    case Failed(fault) =>
      response := Response(500, false, UserMessage(Classify(fault.errorText)), None, Some(fault.errorType));
    case Delivered(id) =>
      var _ := store.RecordVote(mail.text);
      response := Response(200, true, SentMessage, Some(id), None);
  }

  /** A sequential run on an empty store: a request without a subject, then one vote, then `/stats`. */
  method VoteScenario(message: string)
    requires Choice(message) == Some(Doki)
  {
    var store := new CounterStore(None, Written);
    var mailer := new Mailer(None, Delivered("id-1"));
    var rejected := SendEmail(Body(None, Some(message)), mailer, store);
    assert rejected.status == 400 && mailer.outbox == [] && store.file == None;
    var sent := SendEmail(Body(Some("Hi"), Some(message)), mailer, store);
    assert sent.status == 200 && sent.success && sent.messageId == Some("id-1");
    assert mailer.outbox == [Mail("Hi", message)];
    TallyFromNoFile(message, Doki, "");
    var stats := store.Stats();
    assert stats.counts["doki"] == 1 && stats.counts["jopi"] == 0;
  }

  /** A connection check that times out: 500 with the timeout message, nothing submitted, no vote. */
  method VerifyTimeoutScenario(message: string)
    requires Choice(message) == Some(Doki)
  {
    var store := new CounterStore(None, Written);
    var mailer := new Mailer(Some(Fault("Error", VerifyTimeoutText)), Delivered("id-1"));
    var failed := SendEmail(Body(Some("Hi"), Some(message)), mailer, store);
    InternalTimeoutsClassified();
    assert failed.status == 500 && !failed.success && failed.message == TimeoutMessage;
    assert mailer.outbox == [] && store.file == None;
  }

  /** "I vote DOKI" is a vote for DOKI. */
  lemma VoteForDoki()
    ensures Choice("I vote DOKI") == Some(Doki)
  {
    var m := "I vote DOKI";
    assert m[7..11] == "DOKI";
    assert forall k :: 0 <= k < |m| ==> UpperChar(m[k]) != 'J';
    DokiWithoutJ(m, 7);
  }
}
