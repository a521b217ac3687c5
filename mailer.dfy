/**
 * The e-mail side of the release service (emailService.js): each send posts
 * one message to the backend proxy, with the configured sender, and reports
 * `{success, error}`. The proxy and the network are outside the model: the
 * `Mailer` records every message handed to it and every answer, and what the
 * proxy answers is a function of the message and of how many messages went
 * before it.
 */
module Mail {
  import opened Wrappers
  import opened Records
  import opened Storage

  /** What the backup e-mail carries: storage.js data at the time of sending. */
  datatype BackupPayload = BackupPayload(version: string, timestamp: int, pages: seq<Page>, settings: Option<Settings>)

  /** A message posted to the proxy. */
  datatype Message =
    | Mail(from: string, to: string, subject: string, text: string)
    | BackupMail(from: string, to: string, payload: BackupPayload, filename: string)

  class Mailer {
    /** Every message handed to the proxy so far, oldest first. */
    var sent: seq<Message>
    /** The proxy's answers, in the order of the messages they answer. */
    var answers: seq<SendResult>
    /** The proxy's answer to the n-th message. */
    const respond: (nat, Message) -> SendResult

    constructor(respond: (nat, Message) -> SendResult)
      ensures sent == [] && answers == [] && this.respond == respond
    {
      sent, answers := [], [];
      this.respond := respond;
    }

    /** Posts one message and returns the proxy's answer. */
    method Post(m: Message) returns (r: SendResult)
      modifies this
      ensures sent == old(sent) + [m] && answers == old(answers) + [r]
      ensures r == respond(|old(sent)|, m)
    {
      r := respond(|sent|, m);
      sent, answers := sent + [m], answers + [r];
    }

    /** sendEmail: the sender is read from the settings at the moment of sending. */
    method SendEmail(store: Store, to: string, subject: string, text: string) returns (r: SendResult)
      modifies this
      ensures sent == old(sent) + [Mail(ResendFromEmailOf(store.settings), to, subject, text)]
      ensures answers == old(answers) + [r]
      ensures r == respond(|old(sent)|, sent[|sent| - 1])
    {
      var fromEmail := store.GetResendFromEmail();
      r := Post(Mail(fromEmail, to, subject, text));
    }

    /** sendBackupEmail: the backup travels as an attachment named `filename`. */
    method SendBackupEmail(store: Store, to: string, payload: BackupPayload, filename: string) returns (r: SendResult)
      modifies this
      ensures sent == old(sent) + [BackupMail(ResendFromEmailOf(store.settings), to, payload, filename)]
      ensures answers == old(answers) + [r]
      ensures r == respond(|old(sent)|, sent[|sent| - 1])
    {
      var fromEmail := store.GetResendFromEmail();
      r := Post(BackupMail(fromEmail, to, payload, filename));
    }
  }
}
