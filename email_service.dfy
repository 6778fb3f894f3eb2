/** The `EmailService` port (src/domain/services/EmailService.ts). Its implementations
    call an external provider and are not part of this model; here the service records
    every attempted send in order, and whether an attempt is delivered or throws is
    decided by an oracle `delivers(n, m)` on the attempt number and the message. */
module Mail {
  import opened Issues

  datatype Message =
    | ConfirmationEmail(to: string, confirmationUrl: string)
    | WelcomeEmail(to: string, unsubscribeUrl: string)
    | NewsletterEmail(recipients: seq<string>, data: EmailData, unsubscribeUrl: string)

  class EmailService {
    /** Every attempted send, oldest first. */
    var sent: seq<Message>
    /** `delivers(n, m)`: the `n`-th attempt (counting from 0), sending `m`, resolves;
        otherwise it rejects. */
    const delivers: (nat, Message) -> bool

    constructor (delivers: (nat, Message) -> bool)
      ensures sent == [] && this.delivers == delivers
    {
      sent := [];
      this.delivers := delivers;
    }

    /** One attempt: recorded whatever its outcome; `ok` is false when the promise rejects. */
    method Send(m: Message) returns (ok: bool)
      modifies this
      ensures sent == old(sent) + [m]
      ensures ok == delivers(|old(sent)|, m)
    {
      ok := delivers(|sent|, m);
      sent := sent + [m];
    }

    /** `sendConfirmationEmail(to, confirmationUrl)`. */
    method SendConfirmationEmail(to: string, confirmationUrl: string) returns (ok: bool)
      modifies this
      ensures sent == old(sent) + [ConfirmationEmail(to, confirmationUrl)]
      ensures ok == delivers(|old(sent)|, ConfirmationEmail(to, confirmationUrl))
    {
      ok := Send(ConfirmationEmail(to, confirmationUrl));
    }

    /** `sendWelcomeEmail(to, unsubscribeUrl)`. */
    method SendWelcomeEmail(to: string, unsubscribeUrl: string) returns (ok: bool)
      modifies this
      ensures sent == old(sent) + [WelcomeEmail(to, unsubscribeUrl)]
      ensures ok == delivers(|old(sent)|, WelcomeEmail(to, unsubscribeUrl))
    {
      ok := Send(WelcomeEmail(to, unsubscribeUrl));
    }

    /** `sendNewsletter(to, newsletterData, unsubscribeUrl)`. */
    method SendNewsletter(recipients: seq<string>, data: EmailData, unsubscribeUrl: string) returns (ok: bool)
      modifies this
      ensures sent == old(sent) + [NewsletterEmail(recipients, data, unsubscribeUrl)]
      ensures ok == delivers(|old(sent)|, NewsletterEmail(recipients, data, unsubscribeUrl))
    {
      ok := Send(NewsletterEmail(recipients, data, unsubscribeUrl));
    }
  }
}
