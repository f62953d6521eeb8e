/**
 * `sendEmail`: verify the SMTP transport, then send through it; outside production a failed
 * verify or send falls back once to an Ethereal test account, whose result carries a preview URL.
 * The transports' outcomes are given, as `Smtp`.
 */
module Mailer {
  import opened Wrappers

  /** The `mailInfo` handed to the transports. */
  datatype Mail = Mail(from: Option<string>, to: Option<string>, subject: string)

  /**
   * What the world answers: whether `NODE_ENV` is "production", the error (if any) of the
   * primary `verify()`, of the primary `sendMail`, of `createTestAccount()`, of the Ethereal
   * `sendMail`, and the preview URL `getTestMessageUrl` gives for an Ethereal message.
   */
  datatype Smtp = Smtp(
    production: bool,
    verifyError: Option<string>,
    sendError: Option<string>,
    accountError: Option<string>,
    etherealError: Option<string>,
    preview: string)

  datatype Transport = Primary | Ethereal

  /** One `sendMail` call: the transport and the message it was given. */
  datatype Attempt = Attempt(transport: Transport, mail: Mail)

  /** What `sendEmail` does for its caller: resolve (with a `preview` only from Ethereal) or throw. */
  datatype MailResult = Delivered(preview: Option<string>) | Threw(message: string)

  const FallbackPrefix := "; Ethereal fallback failed: "

  /** What the fallback's `catch` reports: the test account's failure, else the Ethereal send's. */
  function FallbackError(env: Smtp): Option<string> {
    if env.accountError.Some? then env.accountError else env.etherealError
  }

  /** The single fallback attempt after a primary failure whose message is `message`. */
  function Fallback(env: Smtp, message: string): MailResult {
    if env.production then Threw(message)
    else if FallbackError(env).None? then Delivered(Some(env.preview))
    else Threw(message + FallbackPrefix + FallbackError(env).value)
  }

  /** The result of `sendEmail` as a function of the transport outcomes. */
  function Outcome(env: Smtp): MailResult {
    if env.verifyError.Some? then Fallback(env, "SMTP verify failed: " + env.verifyError.value)
    else if env.sendError.None? then Delivered(None)
    else Fallback(env, "sendMail failed: " + env.sendError.value)
  }

  /** The `sendMail` calls made, in order. */
  function Attempts(mail: Mail, env: Smtp): seq<Attempt> {
    var primary := if env.verifyError.None? then [Attempt(Primary, mail)] else [];
    var primaryOk := env.verifyError.None? && env.sendError.None?;
    primary + (if primaryOk || env.production || env.accountError.Some? then [] else [Attempt(Ethereal, mail)])
  }

  method SendEmail(mail: Mail, env: Smtp) returns (r: MailResult, attempts: seq<Attempt>)
    ensures r == Outcome(env)
    ensures attempts == Attempts(mail, env)
  {
    attempts := [];
    var message: string;
    if env.verifyError.Some? {
      message := "SMTP verify failed: " + env.verifyError.value;
    } else {
      attempts := attempts + [Attempt(Primary, mail)];
      if env.sendError.None? {
        return Delivered(None), attempts;
      }
      message := "sendMail failed: " + env.sendError.value;
    }
    if env.production {
      return Threw(message), attempts;
    }
    if env.accountError.Some? {
      return Threw(message + FallbackPrefix + env.accountError.value), attempts;
    }
    attempts := attempts + [Attempt(Ethereal, mail)];
    if env.etherealError.None? {
      return Delivered(Some(env.preview)), attempts;
    }
    message := message + FallbackPrefix + env.etherealError.value;
    r := Threw(message);
  }

  /** Verify and send succeed: one primary send, and the result has no preview. */
  lemma PrimaryPath(mail: Mail, env: Smtp)
    requires env.verifyError.None? && env.sendError.None?
    ensures Outcome(env) == Delivered(None)
    ensures Attempts(mail, env) == [Attempt(Primary, mail)]
  {
  }

  /** In production a failed verify throws "SMTP verify failed: ..." and nothing is sent. */
  lemma ProductionVerifyFailure(mail: Mail, env: Smtp)
    requires env.production && env.verifyError.Some?
    ensures Outcome(env) == Threw("SMTP verify failed: " + env.verifyError.value)
    ensures Attempts(mail, env) == []
  {
  }

  /** In production a failed send throws "sendMail failed: ..." after that one attempt. */
  lemma ProductionSendFailure(mail: Mail, env: Smtp)
    requires env.production && env.verifyError.None? && env.sendError.Some?
    ensures Outcome(env) == Threw("sendMail failed: " + env.sendError.value)
    ensures Attempts(mail, env) == [Attempt(Primary, mail)]
  {
  }

  /**
   * Outside production, any primary failure leads to one test account; when it is created, to
   * exactly one Ethereal send of the same mail, and otherwise to none. Success resolves with the
   * preview; a failure of either step keeps the primary message and appends its own.
   */
  lemma SingleFallback(mail: Mail, env: Smtp)
    requires !env.production && (env.verifyError.Some? || env.sendError.Some?)
    ensures env.accountError.None? ==>
              |Attempts(mail, env)| >= 1 && Attempts(mail, env)[|Attempts(mail, env)| - 1] == Attempt(Ethereal, mail)
    ensures env.accountError.Some? ==> Attempt(Ethereal, mail) !in Attempts(mail, env)
    ensures forall i :: 0 <= i < |Attempts(mail, env)| - 1 ==> Attempts(mail, env)[i] == Attempt(Primary, mail)
    ensures env.accountError.None? && env.etherealError.None? ==> Outcome(env) == Delivered(Some(env.preview))
    ensures env.accountError.Some? || env.etherealError.Some? ==>
              var first := if env.verifyError.Some? then "SMTP verify failed: " + env.verifyError.value
                           else "sendMail failed: " + env.sendError.value;
              var cause := if env.accountError.Some? then env.accountError.value else env.etherealError.value;
              Outcome(env) == Threw(first + FallbackPrefix + cause)
  {
  }

  /** A preview is present exactly when the message went out through Ethereal. */
  lemma PreviewOnlyFromFallback(mail: Mail, env: Smtp)
    ensures Outcome(env).Delivered? && Outcome(env).preview.Some? <==>
              Outcome(env).Delivered? && Attempts(mail, env)[|Attempts(mail, env)| - 1].transport == Ethereal
  {
  }

  /** Every attempt carries the caller's mail unchanged, and there are at most two. */
  lemma SameMailEveryAttempt(mail: Mail, env: Smtp)
    ensures |Attempts(mail, env)| <= 2
    ensures forall i :: 0 <= i < |Attempts(mail, env)| ==> Attempts(mail, env)[i].mail == mail
  {
  }
}
