/** The application configuration: the watched products and the e-mail
    settings. Both are mutable objects that Dropwizard fills through their
    setters; the SMTP credentials come from the environment and are passed in
    here as parameters. */
module Configuration {
  import opened Nullable
  import opened Text

  const UsernameEnv: string := "SMTP_USERNAME"
  const PasswordEnv: string := "SMTP_PASSWORD"

  /** The e-mail section of the configuration. */
  class EmailConfiguration {
    var host: Option<string>
    var port: int
    var enableTLS: bool
    var enableSSL: bool
    var recipients: seq<string>
    var senderName: Option<string>
    var enabled: bool

    /** The defaults: Gmail's submission port with STARTTLS, no recipients, enabled. */
    constructor()
      ensures host == Some("smtp.gmail.com") && port == 587
      ensures enableTLS && !enableSSL
      ensures recipients == [] && senderName == Some("Amul Stock Radar") && enabled
    {
      host := Some("smtp.gmail.com");
      port := 587;
      enableTLS := true;
      enableSSL := false;
      recipients := [];
      senderName := Some("Amul Stock Radar");
      enabled := true;
    }

    method SetHost(host: Option<string>)
      modifies this
      ensures this.host == host
      ensures port == old(port) && recipients == old(recipients) && enabled == old(enabled)
      ensures enableTLS == old(enableTLS) && enableSSL == old(enableSSL) && senderName == old(senderName)
    {
      this.host := host;
    }

    method SetPort(port: int)
      modifies this
      ensures this.port == port
      ensures host == old(host) && recipients == old(recipients) && enabled == old(enabled)
      ensures enableTLS == old(enableTLS) && enableSSL == old(enableSSL) && senderName == old(senderName)
    {
      this.port := port;
    }

    method SetEnabled(enabled: bool)
      modifies this
      ensures this.enabled == enabled
      ensures host == old(host) && port == old(port) && recipients == old(recipients)
      ensures enableTLS == old(enableTLS) && enableSSL == old(enableSSL) && senderName == old(senderName)
    {
      this.enabled := enabled;
    }

    /** A null list is stored as an empty one, so the recipients are never null. */
    method SetRecipients(recipients: Option<seq<string>>)
      modifies this
      ensures this.recipients == (if recipients.Some? then recipients.value else [])
      ensures host == old(host) && port == old(port) && enabled == old(enabled)
      ensures enableTLS == old(enableTLS) && enableSSL == old(enableSSL) && senderName == old(senderName)
    {
      this.recipients := if recipients.Some? then recipients.value else [];
    }

    /** A disabled configuration is valid; an enabled one needs a non-blank
        host, a positive port, at least one recipient and both credentials. */
    predicate IsValid(username: Option<string>, password: Option<string>)
      reads this
      ensures !enabled ==> IsValid(username, password)
      ensures IsValid(username, password) && enabled ==>
        recipients != [] && port > 0 && host.Some? && username.Some? && password.Some?
    {
      !enabled
      || (host.Some? && !IsBlank(host.value) && port > 0 && recipients != []
          && username.Some? && password.Some?)
    }
  }

  /** The whole configuration. */
  class RestockRadarConfiguration {
    var emailConfiguration: EmailConfiguration
    var watchedProducts: seq<Option<string>>

    constructor()
      ensures fresh(emailConfiguration)
      ensures emailConfiguration.host == Some("smtp.gmail.com") && emailConfiguration.port == 587
      ensures emailConfiguration.enableTLS && !emailConfiguration.enableSSL
      ensures emailConfiguration.recipients == [] && emailConfiguration.enabled
      ensures watchedProducts == []
    {
      emailConfiguration := new EmailConfiguration();
      watchedProducts := [];
    }

    /** A null list is stored as an empty one, which means "watch everything". */
    method SetWatchedProducts(watchedProducts: Option<seq<Option<string>>>)
      modifies this
      ensures this.watchedProducts == (if watchedProducts.Some? then watchedProducts.value else [])
      ensures emailConfiguration == old(emailConfiguration)
      ensures !IsSelectiveMonitoring() <==> watchedProducts.None? || watchedProducts.value == []
    {
      this.watchedProducts := if watchedProducts.Some? then watchedProducts.value else [];
    }

    /** Specific products are watched exactly when the list is not empty. */
    predicate IsSelectiveMonitoring()
      reads this
      ensures IsSelectiveMonitoring() <==> exists alias :: alias in watchedProducts
    {
      assert watchedProducts != [] ==> watchedProducts[0] in watchedProducts;
      watchedProducts != []
    }
  }

  /** The defaults cannot send mail: an enabled configuration with no
      recipients is invalid, whatever the credentials. */
  lemma NoRecipientsInvalid(config: EmailConfiguration, username: Option<string>, password: Option<string>)
    requires config.enabled && config.recipients == []
    ensures !config.IsValid(username, password)
  {
  }

  /** Validity never depends on the credentials of a disabled configuration,
      and an enabled configuration is invalid without either credential. */
  lemma CredentialsRequiredWhenEnabled(config: EmailConfiguration, username: Option<string>, password: Option<string>)
    ensures !config.enabled ==> config.IsValid(username, password)
    ensures config.enabled && (username.None? || password.None?) ==> !config.IsValid(username, password)
  {
  }
}
