/**
 * GlobalRedisConfiguration: the "Redis" section of Jenkins' global
 * configuration.  It holds the connection settings, tells Jenkins which
 * fingerprint storage engine to use, and takes a submitted configuration form.
 *
 * `configure` stores the submitted socket timeout into the connection
 * timeout and never stores the socket timeout; both Configure (as written)
 * and ConfigureCorrected are modelled.
 */
module Configuration {
  import opened Wrappers
  import opened Credentials
  import Settings

  /** The engine class named when the Redis storage is enabled. */
  const RedisEngine: string := "io.jenkins.plugins.redis.RedisFingerprintStorage"

  /** The engine class named when it is disabled: Jenkins' file storage. */
  const FileEngine: string := "jenkins.fingerprints.FileFingerprintStorage"

  /** The settings of the section, as the form submits them and as they are stored. */
  datatype RedisForm = RedisForm(enabled: bool, host: string, port: int, database: int, ssl: bool,
                                 credentialsId: string, connectionTimeout: int, socketTimeout: int)

  /** The field initialisers. */
  const Defaults: RedisForm :=
    RedisForm(false, Settings.DefaultHost, Settings.DefaultPort, Settings.DefaultDatabase, Settings.DefaultSsl,
              Settings.DefaultCredentialsId, Settings.DefaultConnectionTimeout, Settings.DefaultSocketTimeout)

  /** The value of the FingerprintStorageEngine system property for a given `enabled`. */
  function EngineFor(enabled: bool): (engine: string)
    ensures engine == RedisEngine <==> enabled
    ensures engine == FileEngine <==> !enabled
  {
    if enabled then RedisEngine else FileEngine
  }

  class GlobalRedisConfiguration {
    var enabled: bool
    var host: string
    var port: int
    var database: int
    var ssl: bool
    var connectionTimeout: int
    var socketTimeout: int
    var credentialsId: string
    /** The FingerprintStorageEngine system property, which this section sets. */
    var fingerprintStorageEngine: string

    /** The section's settings as one value. */
    function Snapshot(): RedisForm
      reads this
    {
      RedisForm(enabled, host, port, database, ssl, credentialsId, connectionTimeout, socketTimeout)
    }

    /** The system property names the engine `enabled` selects. */
    ghost predicate Valid()
      reads this
    {
      fingerprintStorageEngine == EngineFor(enabled)
    }

    /** The field initialisers, then the stored configuration if there is one, then setEnabled. */
    constructor (stored: Option<RedisForm>)
      ensures Snapshot() == if stored.Some? then stored.value else Defaults
      ensures Valid()
    {
      enabled := Defaults.enabled;
      host := Defaults.host;
      port := Defaults.port;
      database := Defaults.database;
      ssl := Defaults.ssl;
      connectionTimeout := Defaults.connectionTimeout;
      socketTimeout := Defaults.socketTimeout;
      credentialsId := Defaults.credentialsId;
      fingerprintStorageEngine := "";
      new;
      if stored.Some? {
        var settings := stored.value;
        enabled := settings.enabled;
        host := settings.host;
        port := settings.port;
        database := settings.database;
        ssl := settings.ssl;
        connectionTimeout := settings.connectionTimeout;
        socketTimeout := settings.socketTimeout;
        credentialsId := settings.credentialsId;
      }
      SetEnabled(enabled);
    }

    /** setEnabled: records the flag and points the system property at the matching engine. */
    method SetEnabled(enabled: bool)
      modifies this
      ensures Snapshot() == old(Snapshot()).(enabled := enabled)
      ensures fingerprintStorageEngine == EngineFor(enabled)
      ensures Valid()
    {
      this.enabled := enabled;
      if enabled {
        fingerprintStorageEngine := RedisEngine;
      } else {
        fingerprintStorageEngine := FileEngine;
      }
    }

    /**
     * configure as written: every field is copied from the form, except that
     * the socket timeout is written into the connection timeout and the
     * socket timeout keeps its old value.
     */
    method Configure(form: RedisForm) returns (r: bool)
      modifies this
      ensures r
      ensures Snapshot() == form.(connectionTimeout := form.socketTimeout, socketTimeout := old(socketTimeout))
      ensures Valid()
    {
      SetEnabled(form.enabled);
      host := form.host;
      port := form.port;
      database := form.database;
      ssl := form.ssl;
      credentialsId := form.credentialsId;
      connectionTimeout := form.connectionTimeout;
      connectionTimeout := form.socketTimeout;
      r := true;
    }

    /** configure as intended: every field, both timeouts included, is copied from the form. */
    method ConfigureCorrected(form: RedisForm) returns (r: bool)
      modifies this
      ensures r
      ensures Snapshot() == form
      ensures Valid()
    {
      SetEnabled(form.enabled);
      host := form.host;
      port := form.port;
      database := form.database;
      ssl := form.ssl;
      credentialsId := form.credentialsId;
      connectionTimeout := form.connectionTimeout;
      socketTimeout := form.socketTimeout;
      r := true;
    }

    /** The username of the configured credential, defaulted. */
    method GetUsername(credentials: seq<Credential>) returns (username: string)
      ensures username == UsernameFromCredential(LastMatch(credentials, credentialsId))
    {
      var credential := GetCredential(credentials, credentialsId);
      username := UsernameFromCredential(credential);
    }

    /** The password of the configured credential, defaulted. */
    method GetPassword(credentials: seq<Credential>) returns (password: string)
      ensures password == PasswordFromCredential(LastMatch(credentials, credentialsId))
    {
      var credential := GetCredential(credentials, credentialsId);
      password := PasswordFromCredential(credential);
    }
  }

  /**
   * Submitting a form and reading the section back, as written: the form comes
   * back unchanged exactly when its two timeouts agree with each other and
   * with the socket timeout held before.
   */
  method SubmitAsWritten(stored: Option<RedisForm>, form: RedisForm) returns (readBack: RedisForm, engine: string)
    ensures readBack == form <==>
      form.connectionTimeout == form.socketTimeout
      && form.socketTimeout == (if stored.Some? then stored.value else Defaults).socketTimeout
    ensures engine == EngineFor(form.enabled)
  {
    var configuration := new GlobalRedisConfiguration(stored);
    var ok := configuration.Configure(form);
    readBack := configuration.Snapshot();
    engine := configuration.fingerprintStorageEngine;
  }

  /** Submitting a form and reading the section back, as intended: the form always comes back unchanged. */
  method SubmitCorrected(stored: Option<RedisForm>, form: RedisForm) returns (readBack: RedisForm, engine: string)
    ensures readBack == form
    ensures engine == EngineFor(form.enabled)
  {
    var configuration := new GlobalRedisConfiguration(stored);
    var ok := configuration.ConfigureCorrected(form);
    readBack := configuration.Snapshot();
    engine := configuration.fingerprintStorageEngine;
  }

  /** A fresh section given a connection timeout of 1000 and a socket timeout of 5000 ends with 5000 and 2000. */
  method ConfigureLosesSocketTimeoutWitness() returns (connectionTimeout: int, socketTimeout: int)
    ensures connectionTimeout == 5000 && socketTimeout == 2000
  {
    var configuration := new GlobalRedisConfiguration(None);
    var ok := configuration.Configure(Defaults.(connectionTimeout := 1000, socketTimeout := 5000));
    connectionTimeout := configuration.connectionTimeout;
    socketTimeout := configuration.socketTimeout;
  }

  /** The same submission, configured as intended, ends with 1000 and 5000. */
  method ConfigureCorrectedKeepsTimeoutsWitness() returns (connectionTimeout: int, socketTimeout: int)
    ensures connectionTimeout == 1000 && socketTimeout == 5000
  {
    var configuration := new GlobalRedisConfiguration(None);
    var ok := configuration.ConfigureCorrected(Defaults.(connectionTimeout := 1000, socketTimeout := 5000));
    connectionTimeout := configuration.connectionTimeout;
    socketTimeout := configuration.socketTimeout;
  }
}
