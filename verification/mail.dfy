/** The nodemailer transporter the webhook handlers are handed: absent when
    no mail account is configured, and otherwise either delivering or
    failing. */
module Mail {
  import opened Wrappers

  datatype Mailer = Mailer(delivers: bool)

  /** A confirmation is delivered: there is a transporter and its `sendMail`
      succeeds. */
  predicate Delivered(transporter: Option<Mailer>) {
    transporter.Some? && transporter.value.delivers
  }
}
