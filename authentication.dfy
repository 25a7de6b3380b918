/** Login decisions: the username allow-list, the local (password) and SAML
    verify callbacks, the session (de)serialisation and the choice of
    strategy. The user database and the hash digest are oracles. */
module Authentication {
  import opened Wrappers

  datatype User = User(id: string, username: string, hash: string)

  /** The authentication settings of the configuration. */
  datatype Config = Config(
    legalUsernames: seq<string>,
    requirePasswords: bool,
    hashAlgorithm: string,
    salt: string,
    strategy: string,
    backendUrl: string,
    samlEntryPoint: string,
    samlCertificate: string)

  /** The user database: lookup by a field, and find-or-create by username. */
  datatype Database = Database(getUserBy: (string, string) -> Option<User>, getOrCreateUser: string -> User)

  datatype DbCall = GetUserBy(field: string, value: string) | GetOrCreateUser(username: string)

  /** What a verify callback passes to `done`: a user, or `false` (`None`),
      and the database calls made on the way. */
  datatype Verdict = Verdict(calls: seq<DbCall>, user: Option<User>)

  /** An empty allow-list admits everyone; otherwise the list decides. */
  predicate IsLegalUsername(config: Config, username: string)
  {
    |config.legalUsernames| == 0 || username in config.legalUsernames
  }

  /** The hex digest of the password followed by the salt. */
  function HashPassword(digest: (string, string) -> string, config: Config, password: string): string
  {
    digest(config.hashAlgorithm, password + config.salt)
  }

  /** The local strategy's verify callback. */
  function LocalVerify(config: Config, db: Database, digest: (string, string) -> string, username: string, password: string): Verdict
  {
    if !IsLegalUsername(config, username) then Verdict([], None)
    else if config.requirePasswords then
      var user := db.getUserBy("username", username);
      if user.Some? && user.value.hash == HashPassword(digest, config, password) then Verdict([GetUserBy("username", username)], user)
      else Verdict([GetUserBy("username", username)], None)
    else Verdict([GetOrCreateUser(username)], Some(db.getOrCreateUser(username)))
  }

  /** The SAML strategy's verify callback on the profile's name ID. */
  function SamlVerify(config: Config, db: Database, nameId: string): Verdict
  {
    if IsLegalUsername(config, nameId) then Verdict([GetOrCreateUser(nameId)], Some(db.getOrCreateUser(nameId)))
    else Verdict([], None)
  }

  /** With no allow-list every name is legal; with one, exactly its members are. */
  lemma LegalUsernames(config: Config, username: string)
    ensures |config.legalUsernames| == 0 ==> IsLegalUsername(config, username)
    ensures |config.legalUsernames| > 0 ==> (IsLegalUsername(config, username) <==> username in config.legalUsernames)
  {
  }

  /** An illegal username is refused before the database is touched, by
      either strategy. */
  lemma IllegalUsernameRefused(config: Config, db: Database, digest: (string, string) -> string, username: string, password: string)
    requires !IsLegalUsername(config, username)
    ensures LocalVerify(config, db, digest, username, password) == Verdict([], None)
    ensures SamlVerify(config, db, username) == Verdict([], None)
  {
  }

  /** With passwords required, a user is accepted exactly when it exists and
      its stored hash is the digest of the given password; the user returned
      is the one stored. */
  lemma PasswordChecked(config: Config, db: Database, digest: (string, string) -> string, username: string, password: string)
    requires config.requirePasswords && IsLegalUsername(config, username)
    ensures var v := LocalVerify(config, db, digest, username, password);
      && v.calls == [GetUserBy("username", username)]
      && (v.user.Some? <==> db.getUserBy("username", username).Some? &&
                            db.getUserBy("username", username).value.hash == HashPassword(digest, config, password))
      && (v.user.Some? ==> v.user == db.getUserBy("username", username))
  {
  }

  /** Without passwords every legal username logs in as its (possibly new) user,
      whatever the password. */
  lemma PasswordlessLogin(config: Config, db: Database, digest: (string, string) -> string, username: string, password: string)
    requires !config.requirePasswords && IsLegalUsername(config, username)
    ensures LocalVerify(config, db, digest, username, password) == Verdict([GetOrCreateUser(username)], Some(db.getOrCreateUser(username)))
  {
  }

  /** A SAML login succeeds exactly for legal name IDs. */
  lemma SamlLoginIff(config: Config, db: Database, nameId: string)
    ensures SamlVerify(config, db, nameId).user.Some? <==> IsLegalUsername(config, nameId)
    ensures SamlVerify(config, db, nameId).user.Some? ==> SamlVerify(config, db, nameId).user == Some(db.getOrCreateUser(nameId))
  {
  }

  /** A session stores the user's id, and reading it back looks the user up by id. */
  function SerializeUser(user: User): string
  {
    user.id
  }

  function DeserializeUser(db: Database, id: string): Option<User>
  {
    db.getUserBy("id", id)
  }

  /** A user the database finds by its own id survives the session round
      trip. A session holds the id alone: two users share a session exactly
      when they share an id, and an id the database does not know reads back
      as no user. */
  lemma SessionRoundTrip(db: Database, user: User, other: User)
    requires db.getUserBy("id", user.id) == Some(user)
    ensures DeserializeUser(db, SerializeUser(user)) == Some(user)
    ensures SerializeUser(user) == SerializeUser(other) <==> user.id == other.id
    ensures db.getUserBy("id", other.id).None? ==> DeserializeUser(db, SerializeUser(other)).None?
  {
  }

  /** The database answers a lookup by id with a user carrying that id. */
  ghost predicate ConsistentById(db: Database)
  {
    forall id :: db.getUserBy("id", id).Some? ==> db.getUserBy("id", id).value.id == id
  }

  /** With such a database every restored session stores the same id again,
      and a user is restored from its session exactly when the database
      finds it by its id. */
  lemma SessionStable(db: Database, id: string, user: User)
    requires ConsistentById(db)
    ensures DeserializeUser(db, id).Some? ==> SerializeUser(DeserializeUser(db, id).value) == id
    ensures DeserializeUser(db, SerializeUser(user)) == Some(user) <==> db.getUserBy("id", user.id) == Some(user)
  {
  }

  /** The options of the SAML strategy. */
  datatype SamlOptions = SamlOptions(callbackUrl: string, entryPoint: string, issuer: string, idpCert: string,
                                     wantAssertionsSigned: bool, wantAuthnResponseSigned: bool)

  datatype Strategy = Local(passwordRequired: bool) | Saml(options: SamlOptions)

  function SamlOptionsOf(config: Config): SamlOptions
  {
    SamlOptions(config.backendUrl + "/api/auth/login", config.samlEntryPoint, config.backendUrl, config.samlCertificate, false, false)
  }

  /** The strategy `initializePassport` registers, or the error it throws. */
  function SelectStrategy(config: Config): Result<Strategy, string>
  {
    if config.strategy == "local" then Ok(Local(config.requirePasswords))
    else if config.strategy == "saml" then Ok(Saml(SamlOptionsOf(config)))
    else Err("Unsupported auth strategy: " + config.strategy)
  }

  /** Only "local" and "saml" are accepted; anything else is named in the error;
      SAML responses are not required to be signed and come back to the login route. */
  lemma StrategySelection(config: Config)
    ensures SelectStrategy(config).Ok? <==> config.strategy == "local" || config.strategy == "saml"
    ensures SelectStrategy(config).Err? ==> SelectStrategy(config).error == "Unsupported auth strategy: " + config.strategy
    ensures config.strategy == "saml" ==>
      && SelectStrategy(config) == Ok(Saml(SamlOptionsOf(config)))
      && SelectStrategy(config).value.options.callbackUrl == config.backendUrl + "/api/auth/login"
      && !SelectStrategy(config).value.options.wantAssertionsSigned
      && !SelectStrategy(config).value.options.wantAuthnResponseSigned
  {
  }

  /** The passport registry the service configures. */
  class Passport {
    var serializersInstalled: bool
    var strategies: seq<Strategy>

    constructor ()
      ensures !serializersInstalled && strategies == []
    {
      serializersInstalled, strategies := false, [];
    }

    /** Installs the session (de)serialisers, then registers the configured
        strategy, or fails leaving no strategy added. */
    method InitializePassport(config: Config) returns (error: Option<string>)
      modifies this
      ensures serializersInstalled
      ensures SelectStrategy(config).Ok? ==> error.None? && strategies == old(strategies) + [SelectStrategy(config).value]
      ensures SelectStrategy(config).Err? ==> error == Some(SelectStrategy(config).error) && strategies == old(strategies)
    {
      serializersInstalled := true;
      if config.strategy == "local" {
        strategies := strategies + [Local(config.requirePasswords)];
        error := None;
      } else if config.strategy == "saml" {
        strategies := strategies + [Saml(SamlOptionsOf(config))];
        error := None;
      } else {
        error := Some("Unsupported auth strategy: " + config.strategy);
      }
    }
  }
}
