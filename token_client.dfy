/**
 * Client configuration: the `TokenClient.Builder` state machine, the cluster
 * host table, the developer-key headers, and the operation list with which
 * `setUpMember` registers a new member.
 */
module TokenClients {
  import opened Wrappers
  import opened JavaLang
  import opened Protos

  /** `TokenCluster`: the environments the SDK can connect to. */
  datatype TokenCluster = Production | Integration | Sandbox | Staging | Performance | Development {
    /** `url()`: the gateway host of the cluster. */
    function Url(): (u: string)
      ensures |u| > 9 && u[..9] == "api-grpc."
      ensures |u| > 8 && u[|u| - 8..] == "token.io"
    {
      match this
      case Production => "api-grpc.token.io"
      case Integration => "api-grpc.int.token.io"
      case Sandbox => "api-grpc.sandbox.token.io"
      case Staging => "api-grpc.stg.token.io"
      case Performance => "api-grpc.perf.token.io"
      case Development => "api-grpc.dev.token.io"
    }
  }

  /** The cluster whose gateway lives at `host`, if any: the inverse of `Url`. */
  function ClusterAt(host: string): (r: Option<TokenCluster>)
    ensures r.Some? ==> r.value.Url() == host
    ensures r.None? ==> forall c: TokenCluster :: c.Url() != host
  {
    if host == Production.Url() then Some(Production)
    else if host == Integration.Url() then Some(Integration)
    else if host == Sandbox.Url() then Some(Sandbox)
    else if host == Staging.Url() then Some(Staging)
    else if host == Performance.Url() then Some(Performance)
    else if host == Development.Url() then Some(Development)
    else None
  }

  /** Every cluster has its own host: looking the host up again finds the cluster. */
  lemma UrlIdentifiesCluster(c: TokenCluster)
    ensures ClusterAt(c.Url()) == Some(c)
  {
  }

  datatype KeyStore = InMemoryKeyStore | ProvidedKeyStore(name: string)

  /** `CryptoEngineFactory`: the SDK's own factory over a key store, or one the caller supplies. */
  datatype CryptoEngineFactory = TokenCryptoEngineFactory(keyStore: KeyStore) | ProvidedCryptoEngineFactory(name: string)

  datatype SslConfig = SslConfig(name: string)

  const DefaultTimeoutMs: int64 := 10_000
  const DefaultSslPort: int32 := 443

  /** What the reflective lookup of the build plugin yields: its version and platform. */
  datatype SdkProject = SdkProject(version: string, platform: string)

  datatype StatusCode = InvalidArgument | NotFound

  /** A `StatusRuntimeException`. */
  datatype Status = Status(code: StatusCode, description: string)

  const DevKeyHeader := "token-dev-key"
  const SdkHeader := "token-sdk"
  const SdkVersionHeader := "token-sdk-version"

  /**
   * `getHeaders()`: INVALID_ARGUMENT for a missing or empty developer key,
   * then NOT_FOUND when the build plugin cannot be loaded, else the
   * developer key, platform and version headers.
   */
  function Headers(devKey: Option<string>, project: Option<SdkProject>): (r: Result<map<string, string>, Status>)
    ensures r.Failure? && r.error.code == InvalidArgument <==> devKey.None? || devKey.value == ""
    ensures r.Failure? && r.error.code == NotFound <==> devKey.Some? && devKey.value != "" && project.None?
    ensures r.Success? ==> devKey.Some? && project.Some?
                           && r.value.Keys == {DevKeyHeader, SdkHeader, SdkVersionHeader}
                           && r.value[DevKeyHeader] == devKey.value
                           && r.value[SdkHeader] == project.value.platform
                           && r.value[SdkVersionHeader] == project.value.version
  {
    if devKey.None? || devKey.value == "" then
      Failure(Status(InvalidArgument, "Please provide a developer key. Contact Token for more details."))
    else if project.None? then
      Failure(Status(NotFound, "Plugin io.token.gradle.TokenProject is not found in this module"))
    else
      Success(map[DevKeyHeader := devKey.value, SdkHeader := project.value.platform,
                  SdkVersionHeader := project.value.version])
  }

  /** What `build()` hands to the channel factory. */
  datatype ChannelConfig = ChannelConfig(
    hostName: Option<string>,
    port: int32,
    useSsl: bool,
    timeoutMs: int64,
    headers: map<string, string>,
    sslConfig: Option<SslConfig>)

  /** A built `TokenClient`. */
  datatype TokenClient = TokenClient(channel: ChannelConfig, cryptoFactory: CryptoEngineFactory, tokenCluster: TokenCluster)

  /** The fields of a `TokenClient.Builder`. */
  datatype BuilderConfig = BuilderConfig(
    port: int32,
    useSsl: bool,
    tokenCluster: Option<TokenCluster>,
    hostName: Option<string>,
    timeoutMs: int64,
    cryptoEngine: Option<CryptoEngineFactory>,
    devKey: Option<string>,
    sslConfig: Option<SslConfig>)

  /** `TokenClient.Builder`. */
  class ClientBuilder {
    var port: int32
    var useSsl: bool
    var tokenCluster: Option<TokenCluster>
    var hostName: Option<string>
    var timeoutMs: int64
    var cryptoEngine: Option<CryptoEngineFactory>
    var devKey: Option<string>
    var sslConfig: Option<SslConfig>

    function Config(): (c: BuilderConfig)
      reads this
    {
      BuilderConfig(port, useSsl, tokenCluster, hostName, timeoutMs, cryptoEngine, devKey, sslConfig)
    }

    /** Timeout 10000 ms, port 443 with SSL, everything else unset. */
    constructor()
      ensures Config() == BuilderConfig(DefaultSslPort, true, None, None, DefaultTimeoutMs, None, None, None)
    {
      port, useSsl := DefaultSslPort, true;
      timeoutMs := DefaultTimeoutMs;
      tokenCluster, hostName, cryptoEngine, devKey, sslConfig := None, None, None, None, None;
    }

    /** `hostName(h)`: replaces the host and keeps the cluster. */
    method HostName(hostName: string) returns (self: ClientBuilder)
      modifies this
      ensures self == this
      ensures Config() == old(Config()).(hostName := Some(hostName))
    {
      this.hostName := Some(hostName);
      self := this;
    }

    /** `port(p)`: SSL is on exactly for port 443. */
    method Port(port: int32) returns (self: ClientBuilder)
      modifies this
      ensures self == this
      ensures this.useSsl <==> port == DefaultSslPort
      ensures Config() == old(Config()).(port := port, useSsl := port == DefaultSslPort)
    {
      this.port := port;
      this.useSsl := port == DefaultSslPort;
      self := this;
    }

    /** `connectTo(c)`: the cluster and its host together. */
    method ConnectTo(cluster: TokenCluster) returns (self: ClientBuilder)
      modifies this
      ensures self == this
      ensures Config() == old(Config()).(tokenCluster := Some(cluster), hostName := Some(cluster.Url()))
    {
      tokenCluster := Some(cluster);
      hostName := Some(cluster.Url());
      self := this;
    }

    method Timeout(timeoutMs: int64) returns (self: ClientBuilder)
      modifies this
      ensures self == this
      ensures Config() == old(Config()).(timeoutMs := timeoutMs)
    {
      this.timeoutMs := timeoutMs;
      self := this;
    }

    /** `withKeyStore(ks)`: the SDK's factory over `ks` replaces any earlier crypto setting. */
    method WithKeyStore(keyStore: KeyStore) returns (self: ClientBuilder)
      modifies this
      ensures self == this
      ensures Config() == old(Config()).(cryptoEngine := Some(TokenCryptoEngineFactory(keyStore)))
    {
      cryptoEngine := Some(TokenCryptoEngineFactory(keyStore));
      self := this;
    }

    /** `withCryptoEngine(f)`: `f` replaces any earlier crypto setting. */
    method WithCryptoEngine(factory: CryptoEngineFactory) returns (self: ClientBuilder)
      modifies this
      ensures self == this
      ensures Config() == old(Config()).(cryptoEngine := Some(factory))
    {
      cryptoEngine := Some(factory);
      self := this;
    }

    method WithSslConfig(sslConfig: SslConfig) returns (self: ClientBuilder)
      modifies this
      ensures self == this
      ensures Config() == old(Config()).(sslConfig := Some(sslConfig))
    {
      this.sslConfig := Some(sslConfig);
      self := this;
    }

    method DevKey(devKey: Option<string>) returns (self: ClientBuilder)
      modifies this
      ensures self == this
      ensures Config() == old(Config()).(devKey := devKey)
    {
      this.devKey := devKey;
      self := this;
    }

    /**
     * `build()`: fails as the headers do; otherwise connects with the
     * configured channel settings, SANDBOX when no cluster was chosen and an
     * in-memory key store when no crypto was chosen. `project` is the
     * outcome of loading the build plugin.
     */
    method Build(project: Option<SdkProject>) returns (r: Result<TokenClient, Status>)
      ensures r.Failure? <==> Headers(devKey, project).Failure?
      ensures r.Failure? ==> r.error == Headers(devKey, project).error
      ensures r.Success? ==> r.value.channel == ChannelConfig(hostName, port, useSsl, timeoutMs, Headers(devKey, project).value, sslConfig)
      ensures r.Success? && tokenCluster.None? ==> r.value.tokenCluster == Sandbox
      ensures r.Success? && tokenCluster.Some? ==> r.value.tokenCluster == tokenCluster.value
      ensures r.Success? && cryptoEngine.None? ==> r.value.cryptoFactory == TokenCryptoEngineFactory(InMemoryKeyStore)
      ensures r.Success? && cryptoEngine.Some? ==> r.value.cryptoFactory == cryptoEngine.value
    {
      var headers := Headers(devKey, project);
      if headers.Failure? {
        return Failure(headers.error);
      }
      var channel := ChannelConfig(hostName, port, useSsl, timeoutMs, headers.value, sslConfig);
      var crypto := if cryptoEngine.Some? then cryptoEngine.value else TokenCryptoEngineFactory(InMemoryKeyStore);
      var cluster := if tokenCluster.Some? then tokenCluster.value else Sandbox;
      r := Success(TokenClient(channel, crypto, cluster));
    }
  }

  /** A configuration sequence: connect to a cluster, then override the host and the port. */
  method ConfigureOverride(cluster: TokenCluster, host: string, port: int32) returns (b: ClientBuilder)
    ensures fresh(b)
    ensures b.tokenCluster == Some(cluster) && b.hostName == Some(host)
    ensures b.port == port && (b.useSsl <==> port == 443) && b.timeoutMs == 10_000
  {
    b := new ClientBuilder();
    var chained := b.ConnectTo(cluster);
    chained := chained.HostName(host);
    chained := chained.Port(port);
  }

  /** The call `setUpMember` makes to register a member. */
  datatype CreateMemberCall = CreateMemberCall(
    memberId: string,
    operations: seq<MemberOperation>,
    metadata: seq<MemberOperationMetadata>,
    signerLevel: KeyLevel)

  /**
   * The operation list of `setUpMember`: a new key at each of the levels
   * PRIVILEGED, STANDARD and LOW, the recovery agent, and the normalized
   * alias only when one is given; signed with the PRIVILEGED key.
   * `generateKey` is the crypto engine's key generation for the member and
   * `normalize` is `Util.normalizeAlias`.
   */
  method SetUpMember(memberId: string, alias: Option<Alias>, agentId: string,
                     generateKey: KeyLevel -> Key, normalize: Alias -> Alias)
    returns (call: CreateMemberCall)
    ensures call.memberId == memberId && call.signerLevel == Privileged
    ensures |call.operations| == if alias.Some? then 5 else 4
    ensures call.operations[..4] == [AddKey(generateKey(Privileged)), AddKey(generateKey(Standard)),
                                     AddKey(generateKey(Low)), RecoveryAgent(agentId)]
    ensures alias.Some? ==> call.operations[4] == AddAlias(normalize(alias.value))
    ensures call.metadata == [] <==> alias.None?
    ensures alias.Some? ==> call.metadata == [AddAliasMetadata(normalize(alias.value))]
  {
    var operations: seq<MemberOperation> := [];
    operations := operations + [AddKey(generateKey(Privileged))];
    operations := operations + [AddKey(generateKey(Standard))];
    operations := operations + [AddKey(generateKey(Low))];
    operations := operations + [RecoveryAgent(agentId)];
    if alias.Some? {
      operations := operations + [AddAlias(normalize(alias.value))];
    }
    var metadata := if alias.None? then [] else [AddAliasMetadata(normalize(alias.value))];
    call := CreateMemberCall(memberId, operations, metadata, Privileged);
  }
}
