/** The provider selection of `DatabaseExtensions.AddDatabase`: the
    `Default` connection string must exist, `Database:Type` defaults to
    `"sqlite"`, and the registered factory lambda maps the lower-cased type to
    one of the providers the template was generated with. */
module DatabaseExtensions {
  import opened Configuration

  /** The three database providers a template can be generated with. */
  datatype Provider = Sqlite | SqlServer | Postgres

  /** The two configuration entries `AddDatabase` reads. */
  datatype DatabaseConfiguration = DatabaseConfiguration(defaultConnectionString: Option<string>, databaseType: Option<string>)

  /** The two `InvalidOperationException`s of `AddDatabase`. */
  datatype DatabaseError = ConnectionStringNotFound | UnsupportedDatabaseType(databaseType: string)

  /** The singleton factory lambda registered by `AddDatabase`, with the two
      values it captured; it is evaluated only when the container first
      resolves `IDbConnectionFactory`. */
  datatype FactoryRegistration = FactoryRegistration(connectionString: string, databaseType: string)

  /** A `SqliteConnectionFactory`, `SqlServerConnectionFactory` or
      `PostgresConnectionFactory` built over a connection string. */
  datatype ConnectionFactory = ConnectionFactory(provider: Provider, connectionString: string)

  /** Which providers the template was generated with: a `switch` over two or
      three of them, or a single provider whose factory is built
      unconditionally. */
  datatype Variant = Switch(providers: set<Provider>) | Single(provider: Provider)

  /** The variant of a template generated with every provider. */
  const AllProviders := Switch({Sqlite, SqlServer, Postgres})

  /** `Char.ToLowerInvariant` on the ASCII range. */
  function ToLowerChar(c: char): char {
    if 'A' <= c <= 'Z' then (c as int - 'A' as int + 'a' as int) as char else c
  }

  /** `String.ToLowerInvariant`, character by character. */
  function ToLowerInvariant(s: string): (r: string)
    ensures |r| == |s|
    ensures forall i :: 0 <= i < |s| ==> r[i] == ToLowerChar(s[i])
    ensures forall i :: 0 <= i < |s| ==> !('A' <= r[i] <= 'Z')
  {
    if s == [] then [] else [ToLowerChar(s[0])] + ToLowerInvariant(s[1..])
  }

  /** The `switch` arm label of each provider. */
  function ProviderName(p: Provider): string {
    match p
    case Sqlite => "sqlite"
    case SqlServer => "sqlserver"
    case Postgres => "postgres"
  }

  /** The `switch` on the lower-cased type: a provider when an arm matches
      and that provider was generated in, nothing for the discard arm. */
  function SelectProvider(databaseType: string, providers: set<Provider>): Option<Provider> {
    var t := ToLowerInvariant(databaseType);
    if t == "sqlite" && Sqlite in providers then Some(Sqlite)
    else if t == "sqlserver" && SqlServer in providers then Some(SqlServer)
    else if t == "postgres" && Postgres in providers then Some(Postgres)
    else None
  }

  /** `AddDatabase` itself: it throws when `Default` is missing, and
      otherwise registers the factory lambda, whatever the type string. */
  function AddDatabase(configuration: DatabaseConfiguration): (r: Result<FactoryRegistration, DatabaseError>)
    ensures r.Err? <==> configuration.defaultConnectionString.None?
    ensures r.Err? ==> r.error == ConnectionStringNotFound
    ensures r.Ok? ==> r.value.connectionString == configuration.defaultConnectionString.value
    ensures r.Ok? && configuration.databaseType.None? ==> r.value.databaseType == "sqlite"
    ensures r.Ok? && configuration.databaseType.Some? ==> r.value.databaseType == configuration.databaseType.value
  {
    match configuration.defaultConnectionString
    case None => Err(ConnectionStringNotFound)
    case Some(connectionString) =>
      Ok(FactoryRegistration(connectionString, configuration.databaseType.OrElse("sqlite")))
  }

  /** Running the registered lambda. */
  function CreateFactory(registration: FactoryRegistration, variant: Variant): (r: Result<ConnectionFactory, DatabaseError>)
    ensures r.Ok? ==> r.value.connectionString == registration.connectionString
    ensures r.Err? ==> r.error == UnsupportedDatabaseType(registration.databaseType)
  {
    match variant
    case Single(p) => Ok(ConnectionFactory(p, registration.connectionString))
    case Switch(providers) =>
      match SelectProvider(registration.databaseType, providers)
      case Some(p) => Ok(ConnectionFactory(p, registration.connectionString))
      case None => Err(UnsupportedDatabaseType(registration.databaseType))
  }

  /** Lower-casing twice is lower-casing once. */
  lemma {:induction false} ToLowerIdempotent(s: string)
    ensures ToLowerInvariant(ToLowerInvariant(s)) == ToLowerInvariant(s)
  {
    if s != [] {
      ToLowerIdempotent(s[1..]);
    }
  }

  /** A string without upper-case letters is its own lower-case form. */
  lemma {:induction false} ToLowerOfLower(s: string)
    requires forall i :: 0 <= i < |s| ==> !('A' <= s[i] <= 'Z')
    ensures ToLowerInvariant(s) == s
  {
    if s != [] {
      ToLowerOfLower(s[1..]);
    }
  }

  /** Each arm label is already lower case. */
  lemma ProviderNameIsLowerCase(p: Provider)
    ensures ToLowerInvariant(ProviderName(p)) == ProviderName(p)
  {
    ToLowerOfLower(ProviderName(p));
  }

  /** A type string selects provider `p` exactly when it lower-cases to `p`'s
      arm label and `p` was generated in. */
  lemma SelectProviderIff(databaseType: string, providers: set<Provider>, p: Provider)
    ensures SelectProvider(databaseType, providers) == Some(p)
        <==> p in providers && ToLowerInvariant(databaseType) == ProviderName(p)
  {
  }

  /** Matching ignores case: a type string and its lower-cased form select
      the same provider. */
  lemma SelectionIgnoresCase(databaseType: string, providers: set<Provider>)
    ensures SelectProvider(ToLowerInvariant(databaseType), providers) == SelectProvider(databaseType, providers)
  {
    ToLowerIdempotent(databaseType);
  }

  /** Every arm label selects its own provider when that provider is
      generated in. */
  lemma ProviderNameRoundTrip(p: Provider, providers: set<Provider>)
    requires p in providers
    ensures SelectProvider(ProviderName(p), providers) == Some(p)
  {
    ProviderNameIsLowerCase(p);
  }

  /** With every provider generated in, the lambda builds the factory of
      the provider whose arm label the type lower-cases to, and fails for a
      type that lower-cases to none of them. */
  lemma CreateWithAllProviders(registration: FactoryRegistration)
    ensures forall p: Provider :: ToLowerInvariant(registration.databaseType) == ProviderName(p) ==>
      CreateFactory(registration, AllProviders) == Ok(ConnectionFactory(p, registration.connectionString))
    ensures (forall p: Provider :: ToLowerInvariant(registration.databaseType) != ProviderName(p)) ==>
      CreateFactory(registration, AllProviders) == Err(UnsupportedDatabaseType(registration.databaseType))
  {
    var t := ToLowerInvariant(registration.databaseType);
    forall p: Provider | t == ProviderName(p)
      ensures CreateFactory(registration, AllProviders) == Ok(ConnectionFactory(p, registration.connectionString))
    {
      SelectProviderIff(registration.databaseType, AllProviders.providers, p);
    }
    if t != ProviderName(Sqlite) && t != ProviderName(SqlServer) && t != ProviderName(Postgres) {
      assert SelectProvider(registration.databaseType, AllProviders.providers).None?;
    }
  }

  /** The full path from configuration to factory with every provider
      generated in: missing connection string first, then the `"sqlite"`
      default, then the case-insensitive match, else the unsupported-type
      error, raised only when the lambda runs. */
  lemma ResolveWithAllProviders(configuration: DatabaseConfiguration)
    ensures configuration.defaultConnectionString.None? ==> AddDatabase(configuration) == Err(ConnectionStringNotFound)
    ensures configuration.defaultConnectionString.Some? ==>
      var connectionString := configuration.defaultConnectionString.value;
      var databaseType := configuration.databaseType.OrElse("sqlite");
      && AddDatabase(configuration).Ok?
      && (configuration.databaseType.None? ==>
            CreateFactory(AddDatabase(configuration).value, AllProviders) == Ok(ConnectionFactory(Sqlite, connectionString)))
      && (forall p: Provider :: ToLowerInvariant(databaseType) == ProviderName(p) ==>
            CreateFactory(AddDatabase(configuration).value, AllProviders) == Ok(ConnectionFactory(p, connectionString)))
      && ((forall p: Provider :: ToLowerInvariant(databaseType) != ProviderName(p)) ==>
            CreateFactory(AddDatabase(configuration).value, AllProviders) == Err(UnsupportedDatabaseType(databaseType)))
  {
    if configuration.defaultConnectionString.Some? {
      var registration := AddDatabase(configuration).value;
      CreateWithAllProviders(registration);
      if configuration.databaseType.None? {
        ProviderNameIsLowerCase(Sqlite);
      }
    }
  }

  /** A two-provider template rejects the provider it was generated without,
      even when it is spelled correctly. */
  lemma MissingProviderRejected(registration: FactoryRegistration, providers: set<Provider>, p: Provider)
    requires p !in providers && ToLowerInvariant(registration.databaseType) == ProviderName(p)
    ensures CreateFactory(registration, Switch(providers)) == Err(UnsupportedDatabaseType(registration.databaseType))
  {
  }

  /** A single-provider template ignores `Database:Type` entirely. */
  lemma SingleProviderIgnoresType(registration: FactoryRegistration, p: Provider)
    ensures CreateFactory(registration, Single(p)) == Ok(ConnectionFactory(p, registration.connectionString))
  {
  }
}
