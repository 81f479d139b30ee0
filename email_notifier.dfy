/** The e-mail notifier: its SMTP settings, the guards of its constructors, the
    delivery of one notification under the retry executor, and the rewriting of
    SMTP error messages. The mail session itself is an input: what the SMTP
    transport does at each attempt. */
module EmailNotifiers {
  import opened Nullable
  import opened Text
  import opened Errors
  import opened RetryUtility
  import opened RetryProperties
  import opened Notifications
  import opened Configuration

  /** The notifier's settings; they are final once constructed. */
  datatype EmailNotifier = EmailNotifier(
    smtpHost: Option<string>,
    smtpPort: int,
    username: Option<string>,
    password: Option<string>,
    enableTLS: bool,
    enableSSL: bool)

  /** The SMTP settings are usable: host and both credentials present and not
      blank, and a positive port. */
  predicate IsConfigured(n: EmailNotifier)
  {
    && n.smtpHost.Some? && !IsBlank(n.smtpHost.value)
    && n.smtpPort > 0
    && n.username.Some? && !IsBlank(n.username.value)
    && n.password.Some? && !IsBlank(n.password.value)
  }

  function ForGmail(username: Option<string>, password: Option<string>): (n: EmailNotifier)
    ensures n.smtpHost == Some("smtp.gmail.com") && n.smtpPort == 587 && n.enableTLS && !n.enableSSL
    ensures n.username == username && n.password == password
  {
    EmailNotifier(Some("smtp.gmail.com"), 587, username, password, true, false)
  }

  function ForOutlook(username: Option<string>, password: Option<string>): (n: EmailNotifier)
    ensures n.smtpHost == Some("smtp-mail.outlook.com") && n.smtpPort == 587 && n.enableTLS && !n.enableSSL
    ensures n.username == username && n.password == password
  {
    EmailNotifier(Some("smtp-mail.outlook.com"), 587, username, password, true, false)
  }

  /** The provider presets are usable exactly when both credentials are present and not blank. */
  lemma PresetsConfigured(username: Option<string>, password: Option<string>)
    ensures IsConfigured(ForGmail(username, password)) <==>
      username.Some? && !IsBlank(username.value) && password.Some? && !IsBlank(password.value)
    ensures IsConfigured(ForOutlook(username, password)) <==>
      username.Some? && !IsBlank(username.value) && password.Some? && !IsBlank(password.value)
  {
    assert !IsBlank("smtp.gmail.com") by { assert "smtp.gmail.com"[0] == 's'; }
    assert !IsBlank("smtp-mail.outlook.com") by { assert "smtp-mail.outlook.com"[0] == 's'; }
  }

  // ---------------------------------------------------------------------------
  // Construction from the configuration

  const DisabledMessage: string := "Email notifications are disabled in configuration"
  const InvalidHead: string := "Email configuration is invalid. Missing environment variables:"
  const InvalidTail: string := ". Please set these environment variables with your SMTP credentials."

  /** The missing list for the given absences names each variable exactly when it is missing. */
  lemma MissingListed(noUsername: bool, noPassword: bool)
    ensures var missing := (if noUsername then " " + UsernameEnv else "") + (if noPassword then " " + PasswordEnv else "");
      && (missing == "" <==> !noUsername && !noPassword)
      && (StartsWith(missing, " " + UsernameEnv) <==> noUsername)
      && (EndsWith(missing, " " + PasswordEnv) <==> noPassword)
  {
    var u := " " + UsernameEnv;
    var p := " " + PasswordEnv;
    var missing := (if noUsername then u else "") + (if noPassword then p else "");
    if noUsername && noPassword {
      assert missing[..|u|] == u;
      assert missing[|missing| - |p|..] == p;
    } else if noUsername {
      assert missing == u;
      assert u[6] != p[6];
    } else if noPassword {
      assert missing == p;
      assert u[6] != p[6];
    } else {
      assert missing == "";
    }
  }

  /** The names of the missing credential variables, each preceded by a space. */
  method MissingCredentials(username: Option<string>, password: Option<string>) returns (missing: string)
    ensures missing == "" <==> username.Some? && password.Some?
    ensures StartsWith(missing, " " + UsernameEnv) <==> username.None?
    ensures EndsWith(missing, " " + PasswordEnv) <==> password.None?
  {
    missing := "";
    if username.None? {
      missing := missing + " " + UsernameEnv;
    }
    if password.None? {
      missing := missing + " " + PasswordEnv;
    }
    assert missing == (if username.None? then " " + UsernameEnv else "") + (if password.None? then " " + PasswordEnv else "");
    MissingListed(username.None?, password.None?);
  }

  /** The message names SMTP_USERNAME exactly when the username is missing and
      SMTP_PASSWORD exactly when the password is missing. */
  ghost predicate ListsMissing(message: string, username: Option<string>, password: Option<string>)
  {
    exists missing: string :: message == InvalidHead + missing + InvalidTail
      && (StartsWith(missing, " " + UsernameEnv) <==> username.None?)
      && (EndsWith(missing, " " + PasswordEnv) <==> password.None?)
  }

  /** `new EmailNotifier(config)`: a disabled or invalid configuration is refused
      with a NotificationException naming what is missing; otherwise the settings
      and credentials are taken over. */
  method FromConfiguration(config: EmailConfiguration, username: Option<string>, password: Option<string>)
    returns (r: Result<EmailNotifier>)
    ensures r.Err? ==> r.error.cls == NotificationException && r.error.cause == NoCause
    ensures !config.enabled ==> r == Err(Exc(NotificationException, DisabledMessage, NoCause))
    ensures config.enabled && !config.IsValid(username, password) ==>
      r.Err? && ListsMissing(r.error.message, username, password)
    ensures r.Ok? <==> config.enabled && config.IsValid(username, password)
    ensures r.Ok? ==> r.value == EmailNotifier(config.host, config.port, username, password, config.enableTLS, config.enableSSL)
  {
    if !config.enabled {
      return Err(Exc(NotificationException, DisabledMessage, NoCause));
    }
    if !config.IsValid(username, password) {
      var missing := MissingCredentials(username, password);
      var message := InvalidHead + missing + InvalidTail;
      assert ListsMissing(message, username, password);
      return Err(Exc(NotificationException, message, NoCause));
    }
    r := Ok(EmailNotifier(config.host, config.port, username, password, config.enableTLS, config.enableSSL));
  }

  // ---------------------------------------------------------------------------
  // Priority header

  /** The X-Priority header: 1 for urgent and high, 3 for normal, 5 for low. */
  function PriorityHeader(priority: NotificationPriority): (h: string)
    ensures h == "1" <==> priority == Urgent || priority == High
    ensures h == "3" <==> priority == Normal
    ensures h == "5" <==> priority == Low
  {
    match priority
    case Urgent => "1"
    case High => "1"
    case Normal => "3"
    case Low => "5"
  }

  // ---------------------------------------------------------------------------
  // One delivery attempt

  /** What the SMTP transport does at one attempt: delivers, fails with a
      MessagingException carrying a message, or fails otherwise. */
  datatype Transport = Delivered | MessagingFailed(message: string) | OtherFailed(error: Exc)

  const NoRecipientsMessage: string := "No recipients specified for email notification"
  const AuthFailedText: string := "Authentication failed. Please check your email credentials."
  // Written in pieces around "temporary", the word the retry classifier looks
  // for; the value is the one-piece text of the source.
  const ConnectionFailedText: string := "Connection to email server failed. This may be " + "temporary" + "."

  /** "N recipient(s) [a, b]", as the error messages print the recipient list. */
  function RecipientsText(recipients: seq<string>): string
  {
    NatToString(|recipients|) + " recipient(s) " + ListToString(recipients)
  }

  // "SMTP error when sending to ", in the two pieces the proofs need.
  const SmtpHead: string := "SMTP"
  const SendingToText: string := " error when sending to "
  const InvalidAddressText: string := "Invalid email address(es) in recipient list: "
  const UnexpectedHead: string := "Unexpected error sending email to "

  function SmtpFallbackText(recipients: seq<string>, message: string): string
  {
    SmtpHead + (SendingToText + RecipientsText(recipients) + ": " + message)
  }

  /** The rewriting rules for a MessagingException's message. */
  datatype SmtpRule = AuthenticationRule | ConnectionRule | AddressRule | NoRule

  /** The first rule whose words occur in the message (case-sensitively), in
      the order authentication, connection, invalid address. */
  function MatchedRule(message: string): (rule: SmtpRule)
    ensures rule == AuthenticationRule <==> Contains(message, "authentication") || Contains(message, "username")
    ensures rule == ConnectionRule <==>
      !Contains(message, "authentication") && !Contains(message, "username")
      && (Contains(message, "connection") || Contains(message, "timeout"))
    ensures rule == AddressRule <==>
      !Contains(message, "authentication") && !Contains(message, "username")
      && !Contains(message, "connection") && !Contains(message, "timeout")
      && Contains(message, "invalid") && Contains(message, "address")
  {
    if Contains(message, "authentication") || Contains(message, "username") then AuthenticationRule
    else if Contains(message, "connection") || Contains(message, "timeout") then ConnectionRule
    else if Contains(message, "invalid") && Contains(message, "address") then AddressRule
    else NoRule
  }

  /** The error text: the matched rule's friendlier text, or else the SMTP
      message with the recipients. */
  function SmtpErrorText(recipients: seq<string>, message: string): string
  {
    match MatchedRule(message)
    case AuthenticationRule => AuthFailedText
    case ConnectionRule => ConnectionFailedText
    case AddressRule => InvalidAddressText + ListToString(recipients)
    case NoRule => SmtpFallbackText(recipients, message)
  }

  /** A connection failure, once rewritten, is retried: the text says it may be temporary. */
  lemma ConnectionFailureRetried(recipients: seq<string>, message: string)
    requires MatchedRule(message) == ConnectionRule
    ensures IsRetryableException(WrapInRuntime(SmtpFailure(recipients, message)))
  {
    ContainsInfix("Connection to email server failed. This may be ", "temporary", ".");
    assert Lower("temporary") == TemporaryKeywords[0];
    WrappedKeywordRetryable(SmtpFailure(recipients, message), "temporary");
  }

  /** An SMTP failure that matches no rewriting rule is retried: its text starts with "SMTP". */
  lemma UnmatchedSmtpFailureRetried(recipients: seq<string>, message: string)
    requires MatchedRule(message) == NoRule
    ensures IsRetryableException(WrapInRuntime(SmtpFailure(recipients, message)))
  {
    var rest := SendingToText + RecipientsText(recipients) + ": " + message;
    assert SmtpFallbackText(recipients, message) == "" + SmtpHead + rest;
    ContainsInfix("", SmtpHead, rest);
    assert Lower(SmtpHead) == MailKeywords[0];
    WrappedKeywordRetryable(SmtpFailure(recipients, message), SmtpHead);
  }

  /** The NotificationException for a MessagingException, which it keeps as cause. */
  function SmtpFailure(recipients: seq<string>, message: string): (e: Exc)
    ensures e.cls == NotificationException && e.message == SmtpErrorText(recipients, message)
    ensures e.cause == CausedBy(Exc(MessagingException, message, NoCause))
  {
    Exc(NotificationException, SmtpErrorText(recipients, message), CausedBy(Exc(MessagingException, message, NoCause)))
  }

  /** The NotificationException for any other failure, which it keeps as cause. */
  function UnexpectedFailure(recipients: seq<string>, error: Exc): (e: Exc)
    ensures e.cls == NotificationException && e.cause == CausedBy(error)
    ensures StartsWith(e.message, UnexpectedHead) && EndsWith(e.message, ": " + error.message)
  {
    FourParts(UnexpectedHead, RecipientsText(recipients), ": ", error.message);
    ConcatEnds(UnexpectedHead + RecipientsText(recipients), ": " + error.message);
    ConcatAssoc(UnexpectedHead + RecipientsText(recipients), ": ", error.message);
    Exc(NotificationException,
        UnexpectedHead + RecipientsText(recipients) + ": " + error.message,
        CausedBy(error))
  }

  /** sendEmailWithoutRetry: an empty recipient list fails while the message is
      built, before the transport is used; otherwise the attempt succeeds
      exactly when the transport delivers. Every failure is a NotificationException. */
  function SendEmailWithoutRetry(n: Notification, transport: Transport): (r: Result<()>)
    ensures n.recipients == [] ==> r == Err(SmtpFailure(n.recipients, NoRecipientsMessage))
    ensures r.Ok? <==> n.recipients != [] && transport == Delivered
    ensures r.Err? ==> r.error.cls == NotificationException
  {
    if n.recipients == [] then Err(SmtpFailure(n.recipients, NoRecipientsMessage))
    else match transport
      case Delivered => Ok(())
      case MessagingFailed(message) => Err(SmtpFailure(n.recipients, message))
      case OtherFailed(error) => Err(UnexpectedFailure(n.recipients, error))
  }

  // ---------------------------------------------------------------------------
  // send and testConnection

  /** Enum.toString of the notification types. */
  function TypeName(t: NotificationType): string
  {
    match t
    case Email => "EMAIL"
    case Sms => "SMS"
    case Slack => "SLACK"
    case Push => "PUSH"
    case Webhook => "WEBHOOK"
  }

  const WrongTypeHead: string := "EmailNotifier can only send EMAIL notifications, received: "
  const DeliveryHead: string := "Email delivery to "
  const FailedHead: string := "Failed to send email to "
  const AfterRetriesText: string := " after retries: "

  function WrongTypeError(t: NotificationType): Exc
  {
    Exc(NotificationException, WrongTypeHead + TypeName(t), NoCause)
  }

  function DeliveryOperationName(n: Notification): string
  {
    DeliveryHead + NatToString(|n.recipients|) + " recipient(s)"
  }

  /** Attempt j of the retried delivery meets the transport behaviour transports(j). */
  function SendAttempt(n: Notification, transports: nat -> Transport): ((), nat) -> Step<(), ()>
  {
    (w: (), j: nat) => Step(WrapFailure(SendEmailWithoutRetry(n, transports(j))), ())
  }

  function SendRun(n: Notification, transports: nat -> Transport, interrupted: nat -> bool): RetryRun<(), ()>
  {
    Retry(ForEmailDelivery(), DeliveryOperationName(n), SendAttempt(n, transports), interrupted, ())
  }

  /** The error send reports when the retried delivery fails and is not unwrapped. */
  function RetriesFailedError(n: Notification, failure: Exc): Exc
  {
    Exc(NotificationException,
        FailedHead + RecipientsText(n.recipients) + AfterRetriesText + failure.message,
        CausedBy(failure))
  }

  lemma SendFailuresWrapped(n: Notification, transports: nat -> Transport)
    ensures forall w: (), j: nat :: SendAttempt(n, transports)(w, j).outcome.Err? ==>
      WrapsA(SendAttempt(n, transports)(w, j).outcome.error, NotificationException)
  {
    forall w: (), j: nat
      ensures SendAttempt(n, transports)(w, j).outcome.Err? ==>
        WrapsA(SendAttempt(n, transports)(w, j).outcome.error, NotificationException)
    {
      assert SendAttempt(n, transports)(w, j).outcome == WrapFailure(SendEmailWithoutRetry(n, transports(j)));
    }
  }

  /** A delivery run that succeeded had recipients and met a transport that delivered. */
  lemma SendRunSuccess(n: Notification, transports: nat -> Transport, interrupted: nat -> bool)
    ensures SendRun(n, transports, interrupted).result.Ok? ==>
      n.recipients != [] && exists j: nat :: transports(j) == Delivered
  {
    var op := SendAttempt(n, transports);
    var good := (w: (), v: ()) => n.recipients != [] && exists j: nat :: transports(j) == Delivered;
    forall w: (), j: nat | op(w, j).outcome.Ok?
      ensures good(op(w, j).world, op(w, j).outcome.value)
    {
      assert op(w, j).outcome == WrapFailure(SendEmailWithoutRetry(n, transports(j)));
    }
    RetrySuccessFromOp(ForEmailDelivery(), DeliveryOperationName(n), op, interrupted, (), good);
  }

  /** send as written: the exception it catches is the executor's, whose cause
      is the RuntimeException wrapper (or the InterruptedException), never a
      NotificationException, so every delivery failure is reported as a failure
      after retries. */
  function SendAsWritten(n: Notification, transports: nat -> Transport, interrupted: nat -> bool): (r: Outcome)
    ensures n.notificationType != Email ==> r == Fail(WrongTypeError(n.notificationType))
    ensures var run := SendRun(n, transports, interrupted);
      n.notificationType == Email ==>
        (r == Pass <==> run.result.Ok?)
        && (run.result.Err? ==> r == Fail(RetriesFailedError(n, run.result.error)))
  {
    if n.notificationType != Email then Fail(WrongTypeError(n.notificationType))
    else
      var run := SendRun(n, transports, interrupted);
      SendFailuresWrapped(n, transports);
      RetryFailureWrapped(ForEmailDelivery(), DeliveryOperationName(n), SendAttempt(n, transports), interrupted, (),
                          NotificationException);
      match run.result
      case Ok(_) => Pass
      case Err(e) =>
        match e.cause
        case CausedBy(c) =>
          if c.cls == NotificationException then Fail(c) else Fail(RetriesFailedError(n, e))
        case NoCause => Fail(RetriesFailedError(n, e))
  }

  /** send with the cause unwrapped through the executor's exception and the
      RuntimeException wrapper: the NotificationException of the last attempt
      reaches the caller. */
  function Send(n: Notification, transports: nat -> Transport, interrupted: nat -> bool): (r: Outcome)
    ensures n.notificationType != Email ==> r == Fail(WrongTypeError(n.notificationType))
    ensures r.Fail? ==> r.error.cls == NotificationException
    ensures r == Pass ==> n.notificationType == Email && n.recipients != [] && exists j: nat :: transports(j) == Delivered
    ensures var run := SendRun(n, transports, interrupted);
      n.notificationType == Email && run.result.Err? && run.result != Err(InterruptedError) ==>
        r.Fail? && run.attempts[|run.attempts| - 1] == Err(WrapInRuntime(r.error))
    ensures var run := SendRun(n, transports, interrupted);
      n.notificationType == Email && run.result == Err(InterruptedError) ==> r == Fail(RetriesFailedError(n, InterruptedError))
  {
    if n.notificationType != Email then Fail(WrongTypeError(n.notificationType))
    else
      var run := SendRun(n, transports, interrupted);
      SendFailuresWrapped(n, transports);
      RetryFailureWrapped(ForEmailDelivery(), DeliveryOperationName(n), SendAttempt(n, transports), interrupted, (),
                          NotificationException);
      SendRunSuccess(n, transports, interrupted);
      match run.result
      case Ok(_) => Pass
      case Err(e) =>
        if e.cause.CausedBy? && e.cause.exc.cause.CausedBy? && e.cause.exc.cause.exc.cls == NotificationException then
          Fail(e.cause.exc.cause.exc)
        else Fail(RetriesFailedError(n, e))
  }

  /** An e-mail with no recipients is never delivered, whatever the transport does. */
  lemma NoRecipientsNeverDelivered(n: Notification, transports: nat -> Transport, interrupted: nat -> bool)
    requires n.recipients == []
    ensures Send(n, transports, interrupted).Fail?
  {
  }

  /** testConnection: sends the test notification and reports success as true
      and any failure as false; it never throws, because send only throws
      NotificationException. */
  function TestConnection(testRecipient: string, now: string, transports: nat -> Transport,
                          interrupted: nat -> bool): (ok: bool)
    ensures ok <==> SendRun(CreateTestNotificationFor(testRecipient, now), transports, interrupted).result.Ok?
    ensures ok ==> exists j: nat :: transports(j) == Delivered
  {
    var n := CreateTestNotificationFor(testRecipient, now);
    SendRunSuccess(n, transports, interrupted);
    match Send(n, transports, interrupted)
    case Pass => true
    case Fail(e) => assert e.cls == NotificationException; false
  }

  /** send as written and corrected agree on whether the e-mail went out; they
      differ only in the exception a failure carries. */
  lemma SendAgreesWithAsWritten(n: Notification, transports: nat -> Transport, interrupted: nat -> bool)
    ensures Send(n, transports, interrupted) == Pass <==> SendAsWritten(n, transports, interrupted) == Pass
  {
  }

  /** The discrepancy: when every attempt fails with the same unexpected error,
      send as written reports the generic failure after retries instead of the
      NotificationException the catch block means to preserve, which the
      corrected send rethrows. */
  lemma NotificationFailureNotPreserved(n: Notification, error: Exc)
    requires n.notificationType == Email && n.recipients != []
    ensures var transports := (j: nat) => OtherFailed(error);
      var noInterrupt := (j: nat) => false;
      var failure := UnexpectedFailure(n.recipients, error);
      && SendAsWritten(n, transports, noInterrupt).Fail?
      && SendAsWritten(n, transports, noInterrupt).error != failure
      && Send(n, transports, noInterrupt) == Fail(failure)
  {
    var transports := (j: nat) => OtherFailed(error);
    var noInterrupt := (j: nat) => false;
    var op := SendAttempt(n, transports);
    var failure := UnexpectedFailure(n.recipients, error);
    forall w: (), j: nat
      ensures op(w, j).outcome == Err(WrapInRuntime(failure))
    {
      assert op(w, j).outcome == WrapFailure(SendEmailWithoutRetry(n, transports(j)));
    }
    RetrySuccessFromOp(ForEmailDelivery(), DeliveryOperationName(n), op, noInterrupt, (), (w: (), v: ()) => false);
    RetryFailure(ForEmailDelivery(), DeliveryOperationName(n), op, noInterrupt, (), (c: Exc) => c == WrapInRuntime(failure));
    var e := SendAsWritten(n, transports, noInterrupt).error;
    assert e.cause.CausedBy? && e.cause.exc.cls == PlainException;
  }
}
