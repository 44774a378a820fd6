/** The mail gateway (src/utils/mailer.js): only what the core can observe of
    it, namely which template mail it composes from its options and that it
    answers `true` or the error's message. */
module Mailer {
  import opened Common

  /** The options object a handler passes. `sendMail` destructures `email`,
      `templateId`, `firstName` and `urlLink`; any other key, such as the
      `verificationLink` the signup handler passes, is ignored. */
  datatype MailOptions = MailOptions(
    email: string,
    templateId: string,
    firstName: string,
    urlLink: Option<string>,
    verificationLink: Option<string>)

  /** The template mail handed to the delivery service. */
  datatype Mail = Mail(to: string, templateId: string, name: string, urlLink: Option<string>)

  /** `true` on delivery, otherwise the caught error's `message`. */
  datatype MailResult = Delivered | Failed(message: string)

  /** Whether the result is truthy in JavaScript. */
  predicate Succeeded(r: MailResult)
  {
    r.Delivered? || r.message != ""
  }

  /** The mail `sendMail` builds from its options. */
  function Compose(o: MailOptions): (m: Mail)
    ensures m.to == o.email && m.templateId == o.templateId && m.name == o.firstName
    ensures m.urlLink == o.urlLink
  {
    Mail(o.email, o.templateId, o.firstName, o.urlLink)
  }

  /** A `verificationLink` option never reaches the mail: only `urlLink` does. */
  lemma VerificationLinkIgnored(o: MailOptions, link: Option<string>)
    ensures Compose(o.(verificationLink := link)) == Compose(o)
    ensures o.urlLink.None? ==> Compose(o.(verificationLink := link)).urlLink.None?
  {
  }
}
