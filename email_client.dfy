/**
 * The outgoing e-mail transport. Its implementation is not part of this model:
 * each `send_email` call is one attempt whose outcome is decided by an oracle
 * indexed by the number of attempts made so far, and every attempt is logged.
 */
module EmailClients {

  datatype Email = Email(recipient: string, subject: string, html: string, text: string)

  datatype SendOutcome = Delivered | Failed(reason: string)

  class EmailClient {
    /** Every call of `send_email`, in call order, whether it succeeded or not. */
    var requests: seq<Email>
    /** What the transport answers to the n-th call. */
    const transport: nat -> SendOutcome

    constructor (transport: nat -> SendOutcome)
      ensures requests == [] && this.transport == transport
    {
      this.transport := transport;
      requests := [];
    }

    method SendEmail(email: Email) returns (outcome: SendOutcome)
      modifies this
      ensures requests == old(requests) + [email]
      ensures outcome == transport(|old(requests)|)
    {
      outcome := transport(|requests|);
      requests := requests + [email];
    }
  }
}
