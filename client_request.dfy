/** The three request entry points of the MSSQL connector test harness:
    `proxyRequest` runs one database client against a fresh in-process proxy
    service, and `proxyToCreatedMock` / `proxyToMock` first aim that proxy at
    a mock target and return what the mock captured.

    The proxy service, the database client and the mock target are outside
    the model: the proxy constructor and the client executor are function
    parameters, and the single value the mock publishes on its capture
    channel is a parameter too. Only the data flow between them is modelled. */
module MssqlClientRequest {
  import opened GoBuiltins
  import opened Credentials

  datatype Option<+T> = None | Some(value: T)

  /** A Go `error`; only its text is kept. */
  datatype Error = Error(message: string)

  /** What a constructor that can fail returns: a value or an error. */
  datatype Result<+T> = Ok(value: T) | Err(error: Error)

  /** `clientRequest`: what the client controls. Credentials are not part of
      it; they are injected by the proxy service. */
  datatype ClientRequest = ClientRequest(database: string, readOnly: bool, query: string)

  /** `dbClientConfig`: the connection settings handed to the client driver. */
  datatype DbClientConfig = DbClientConfig(
    host: string, port: string,
    username: string, password: string,
    database: string, readOnly: bool)

  /** The address an in-process proxy service listens on once started. */
  datatype ProxyService = ProxyService(host: string, port: string)

  /** The single value the client task delivers. */
  datatype ClientResult = ClientResult(out: string, err: Option<Error>)

  /** The address a mock target listens on. */
  datatype MockTarget = MockTarget(host: string, port: string)

  /** What the mock observed of the handshake; its structure is not part of the model. */
  datatype MockTargetCapture = MockTargetCapture(handshake: seq<byte>)

  /** The single value the mock publishes on its capture channel; a nil
      capture pointer is `None`. */
  datatype MockResult = MockResult(capture: Option<MockTargetCapture>, err: Option<Error>)

  /** The `(out, proxyPort, err)` triple `proxyRequest` returns. */
  datatype RequestOutcome = RequestOutcome(out: string, proxyPort: string, err: Option<Error>)

  /** `newInProcessProxyService`, seen through the credential bytes it is given. */
  type ProxyConstructor = map<string, seq<byte>> -> Result<ProxyService>

  /** `concurrentClientExec` followed by the receive of its one result. */
  type ClientExecutor = (DbClientConfig, string) -> ClientResult

  /** The placeholder user name and password the client sends; the real
      credentials are injected by the proxy service. */
  const PlaceholderCredential := "dummy"

  /** The client is pointed at the proxy service, carries only placeholder
      credentials, and takes database and read-only intent from the request. */
  function ClientConfig(req: ClientRequest, proxy: ProxyService): (config: DbClientConfig)
    ensures config.host == proxy.host && config.port == proxy.port
    ensures config.username == PlaceholderCredential && config.password == PlaceholderCredential
    ensures config.database == req.database && config.readOnly == req.readOnly
  {
    DbClientConfig(proxy.host, proxy.port, PlaceholderCredential, PlaceholderCredential, req.database, req.readOnly)
  }

  /** `proxyRequest`: a failed proxy construction is returned as `("", "", err)`
      before any client runs; otherwise the client's output and error are
      returned together with the proxy's own port. */
  function ProxyRequest(
    req: ClientRequest, exec: ClientExecutor, newProxy: ProxyConstructor,
    credentials: map<string, seq<byte>>): (r: RequestOutcome)
    ensures newProxy(credentials).Err? ==>
      r.out == "" && r.proxyPort == "" && r.err == Some(newProxy(credentials).error)
    ensures newProxy(credentials).Ok? ==>
      var proxy := newProxy(credentials).value;
      var res := exec(ClientConfig(req, proxy), req.query);
      r.proxyPort == proxy.port && r.out == res.out && r.err == res.err
    ensures r.err.None? ==> newProxy(credentials).Ok?
  {
    match newProxy(credentials)
    case Err(e) => RequestOutcome("", "", Some(e))
    case Ok(proxy) =>
      var res := exec(ClientConfig(req, proxy), req.query);
      RequestOutcome(res.out, proxy.port, res.err)
  }

  /** The credential bytes the proxy service receives when aimed at `mt`. */
  function MockCredentials(mt: MockTarget, callerCredentials: map<string, seq<byte>>): map<string, seq<byte>>
  {
    MergedCredentials(Utf8Encode(mt.host), Utf8Encode(mt.port), callerCredentials)
  }

  /** Unless the caller supplies its own `host` and `port`, the proxy's
      upstream address is the mock's: for an ASCII address, such as a
      loopback IP and a decimal port, byte for byte the mock's characters. */
  lemma {:induction false} AimedAtMock(mt: MockTarget, callerCredentials: map<string, seq<byte>>)
    requires "host" !in callerCredentials && "port" !in callerCredentials
    requires IsAscii(mt.host) && IsAscii(mt.port)
    ensures var m := MockCredentials(mt, callerCredentials);
      && |m["host"]| == |mt.host|
      && (forall i :: 0 <= i < |mt.host| ==> m["host"][i] as int == mt.host[i] as int)
      && |m["port"]| == |mt.port|
      && (forall i :: 0 <= i < |mt.port| ==> m["port"][i] as int == mt.port[i] as int)
  {
    AsciiEncodesBytewise(mt.host);
    AsciiEncodesBytewise(mt.port);
  }

  /** `proxyToMock`: the proxy is aimed at the caller's mock through the
      merged credentials; the client's own output and error are discarded,
      so the result depends on the executor not at all. The capture and error
      are the mock's; the port is the proxy's, or empty if it was not built. */
  method ProxyToMock(
    req: ClientRequest, exec: ClientExecutor, newProxy: ProxyConstructor,
    credentials: CredentialMap, mt: MockTarget, mtRes: MockResult)
    returns (capture: Option<MockTargetCapture>, proxyPort: string, err: Option<Error>)
    ensures capture == mtRes.capture && err == mtRes.err
    ensures var built := newProxy(MockCredentials(mt, Contents(credentials)));
      proxyPort == if built.Ok? then built.value.port else ""
  {
    var baseCredentials := GatherCredentials(mt.host, mt.port, credentials);
    var outcome := ProxyRequest(req, exec, newProxy, Contents(baseCredentials));
    capture, proxyPort, err := mtRes.capture, outcome.proxyPort, mtRes.err;
  }

  /** `proxyToCreatedMock`: as `proxyToMock` with a mock it creates itself;
      if the mock cannot be created the result is `(nil, "", err)`. */
  method ProxyToCreatedMock(
    req: ClientRequest, exec: ClientExecutor, newProxy: ProxyConstructor,
    credentials: CredentialMap, newMock: Result<MockTarget>, mtRes: MockResult)
    returns (capture: Option<MockTargetCapture>, proxyPort: string, err: Option<Error>)
    ensures newMock.Err? ==> capture == None && proxyPort == "" && err == Some(newMock.error)
    ensures newMock.Ok? ==> capture == mtRes.capture && err == mtRes.err
    ensures newMock.Ok? ==>
      var built := newProxy(MockCredentials(newMock.value, Contents(credentials)));
      proxyPort == if built.Ok? then built.value.port else ""
  {
    if newMock.Err? {
      return None, "", Some(newMock.error);
    }
    var mt := newMock.value;
    var baseCredentials := GatherCredentials(mt.host, mt.port, credentials);
    var outcome := ProxyRequest(req, exec, newProxy, Contents(baseCredentials));
    capture, proxyPort, err := mtRes.capture, outcome.proxyPort, mtRes.err;
  }
}
