/**
 * The three backend initialisers. The S3 and filesystem ones are decisions on
 * the configuration strings; the FTP one steps through key parsing, the SSH
 * dial and the sftp handshake on an `SshNetwork` whose step outcomes are
 * fixed when it is built, closing the SSH client when the handshake fails.
 */
module Backend {
  import opened Wrappers
  import opened Strings
  import opened GoPath
  import Ftp

  datatype S3Config = S3Config(
    acl: string, bucket: string, encryption: string, endpoint: string,
    key: string, region: string, secret: string, pathStyle: bool)

  datatype FileSystemConfig = FileSystemConfig(cacheRoot: string)

  /** `timeout` is the `time.Duration` in nanoseconds. */
  datatype FtpConfig = FtpConfig(
    hostname: string, key: string, password: string, username: string,
    port: int, timeout: int)

  /** `DefaultCredentials`: the credentials field is left unset, so the SDK falls back to its own chain. */
  datatype Credentials = StaticCredentials(accessKey: string, secret: string) | DefaultCredentials

  /** The decisions `InitializeS3Backend` writes into the `aws.Config`. */
  datatype AwsConfig = AwsConfig(
    region: string, endpoint: string, disableSsl: bool, forcePathStyle: bool,
    credentials: Credentials)

  datatype S3Backend = S3Backend(bucket: string, acl: string, encryption: string, conf: AwsConfig)

  datatype FileSystemBackend = FileSystemBackend(root: string)

  datatype InitError =
    | RootRejected(root: string)      // empty or root path given
    | RootUnavailable(root: string)   // Stat of the root failed
    | KeyUnparsable                   // could not parse private key
    | ConnectFailed(address: string)  // could not connect server
    | SftpFailed                      // could not initialize sFTP client

  // ---------------------------------------------------------------- S3

  /**
   * Never fails, whatever the bucket or credentials. TLS is switched off unless
   * the endpoint begins with "https://"; static credentials are installed only
   * when both key and secret are given.
   */
  function InitializeS3Backend(c: S3Config): (r: Result<S3Backend, InitError>)
    ensures r.Success?
    ensures r.value.bucket == c.bucket && r.value.acl == c.acl && r.value.encryption == c.encryption
    ensures r.value.conf.region == c.region && r.value.conf.endpoint == c.endpoint
    ensures r.value.conf.forcePathStyle == c.pathStyle
    ensures r.value.conf.disableSsl <==> !HasPrefix(c.endpoint, "https://")
    ensures r.value.conf.credentials.StaticCredentials? <==> c.key != "" && c.secret != ""
    ensures r.value.conf.credentials.StaticCredentials? ==>
      r.value.conf.credentials == StaticCredentials(c.key, c.secret)
  {
    var creds := if c.key != "" && c.secret != "" then StaticCredentials(c.key, c.secret) else DefaultCredentials;
    var conf := AwsConfig(c.region, c.endpoint, !HasPrefix(c.endpoint, "https://"), c.pathStyle, creds);
    Success(S3Backend(c.bucket, c.acl, c.encryption, conf))
  }

  /** TLS stays on for every "https://" endpoint and is off for every "http://" one and for the empty default endpoint. */
  lemma S3TlsFollowsScheme(c: S3Config, rest: string)
    ensures c.endpoint == "https://" + rest ==> !InitializeS3Backend(c).value.conf.disableSsl
    ensures c.endpoint == "http://" + rest ==> InitializeS3Backend(c).value.conf.disableSsl
    ensures c.endpoint == "" ==> InitializeS3Backend(c).value.conf.disableSsl
  {
    if c.endpoint == "https://" + rest {
      HasPrefixOfConcat("https://", rest);
    }
    if c.endpoint == "http://" + rest {
      assert c.endpoint[4] == ':';
    }
  }

  // ---------------------------------------------------------------- filesystem

  /**
   * Rejects the root lexically when it cleans to "/", and only then asks
   * `rootExists` (the `os.Stat` on the root as given) whether it is there.
   */
  function InitializeFileSystemBackend(c: FileSystemConfig, rootExists: string -> bool): (r: Result<FileSystemBackend, InitError>)
    ensures Clean(c.cacheRoot) == "/" ==> r == Failure(RootRejected(c.cacheRoot))
    ensures Clean(c.cacheRoot) != "/" && !rootExists(c.cacheRoot) ==> r == Failure(RootUnavailable(c.cacheRoot))
    ensures r.Success? <==> Clean(c.cacheRoot) != "/" && rootExists(c.cacheRoot)
    ensures r.Success? ==> r.value == FileSystemBackend(c.cacheRoot)
  {
    CleanAllSlashesIff(c.cacheRoot);
    if TrimRight(Clean(c.cacheRoot), "/") == "" then Failure(RootRejected(c.cacheRoot))
    else if !rootExists(c.cacheRoot) then Failure(RootUnavailable(c.cacheRoot))
    else Success(FileSystemBackend(c.cacheRoot))
  }

  /** The lexical check comes first: a rejected root gets the same answer whatever Stat would say. */
  lemma LexicalCheckPrecedesStat(c: FileSystemConfig, e1: string -> bool, e2: string -> bool)
    requires InitializeFileSystemBackend(c, e1) == Failure(RootRejected(c.cacheRoot))
    ensures InitializeFileSystemBackend(c, e2) == Failure(RootRejected(c.cacheRoot))
  {
  }

  /** Every rooted path made only of slashes, "." and ".." is rejected lexically. */
  lemma DotsUnderRootRejected(c: FileSystemConfig, e: string -> bool)
    requires Rooted(c.cacheRoot)
    requires forall i :: 0 <= i < |Split(c.cacheRoot)| ==> Split(c.cacheRoot)[i] in {".", ".."}
    ensures InitializeFileSystemBackend(c, e) == Failure(RootRejected(c.cacheRoot))
  {
    ResolveDotsRooted(Split(c.cacheRoot));
  }

  /** Concrete roots: "/", "//", "/./" and "/.." are all rejected before any Stat. */
  lemma RejectedRootExamples(e: string -> bool)
    ensures InitializeFileSystemBackend(FileSystemConfig("/"), e) == Failure(RootRejected("/"))
    ensures InitializeFileSystemBackend(FileSystemConfig("//"), e) == Failure(RootRejected("//"))
    ensures InitializeFileSystemBackend(FileSystemConfig("/./"), e) == Failure(RootRejected("/./"))
    ensures InitializeFileSystemBackend(FileSystemConfig("/.."), e) == Failure(RootRejected("/.."))
  {
    assert Split("/") == [] by { assert "/"[1..] == ""; }
    DotsUnderRootRejected(FileSystemConfig("/"), e);
    assert Split("//") == [] by { assert "//"[1..] == "/"; }
    DotsUnderRootRejected(FileSystemConfig("//"), e);
    assert Split("/./") == ["."] by {
      assert "/./"[1..] == "./";
      assert Word("./") == "." by { assert "./"[1..] == "/"; }
      assert "./"[1..] == "/";
    }
    DotsUnderRootRejected(FileSystemConfig("/./"), e);
    assert Split("/..") == [".."] by {
      assert "/.."[1..] == "..";
      assert Word("..") == ".." by { assert ".."[1..] == "."; assert "."[1..] == ""; }
      assert ".."[2..] == "";
    }
    DotsUnderRootRejected(FileSystemConfig("/.."), e);
  }

  /** The empty root cleans to "." and passes the lexical check; only Stat can refuse it. */
  lemma EmptyRootExample(e: string -> bool)
    ensures Clean("") == "."
    ensures InitializeFileSystemBackend(FileSystemConfig(""), e) ==
      if e("") then Success(FileSystemBackend("")) else Failure(RootUnavailable(""))
  {
  }

  // ---------------------------------------------------------------- FTP

  /** `ssh.Password(p)` and `ssh.PublicKeys(signer)`; the signer is named by the key it was parsed from. */
  datatype AuthMethod = PasswordAuth(password: string) | PublicKeyAuth(key: string)

  /** The `ssh.ClientConfig` handed to the dial (its host-key callback is not modelled). */
  datatype ClientConfig = ClientConfig(user: string, timeout: int, auth: seq<AuthMethod>)

  datatype SshCall =
    | ParsePrivateKeyCall(key: string)
    | DialCall(network: string, address: string, config: ClientConfig)
    | NewSftpClientCall
    | CloseSshCall

  /**
   * The authentication list the initialiser builds when the key (if any)
   * parses: password first when there is one, then the public key.
   */
  function AuthMethods(c: FtpConfig): (auth: seq<AuthMethod>)
    ensures PasswordAuth(c.password) in auth <==> c.password != ""
    ensures PublicKeyAuth(c.key) in auth <==> c.key != ""
    ensures forall m :: m in auth ==> m == PasswordAuth(c.password) || m == PublicKeyAuth(c.key)
    ensures c.password != "" && c.key != "" ==> auth == [PasswordAuth(c.password), PublicKeyAuth(c.key)]
    ensures c.password == "" && c.key == "" ==> auth == []
    ensures |auth| == (if c.password != "" then 1 else 0) + (if c.key != "" then 1 else 0)
  {
    (if c.password != "" then [PasswordAuth(c.password)] else [])
      + (if c.key != "" then [PublicKeyAuth(c.key)] else [])
  }

  /** `fmt.Sprintf("%s:%d", hostname, port)`. */
  function Address(c: FtpConfig): string {
    c.hostname + ":" + IntToDecimal(c.port)
  }

  /** The dial address is the hostname, a colon, and a decimal string that reads back as the port. */
  lemma AddressParts(c: FtpConfig)
    ensures |Address(c)| > |c.hostname| + 1
    ensures Address(c)[..|c.hostname|] == c.hostname && Address(c)[|c.hostname|] == ':'
    ensures IsDecimal(Address(c)[|c.hostname| + 1..])
    ensures ParseDecimal(Address(c)[|c.hostname| + 1..]) == c.port
  {
    assert Address(c)[|c.hostname| + 1..] == IntToDecimal(c.port);
    IntDecimalRoundTrip(c.port);
  }

  /** Calls made before the dial: the key parse, when there is a key. */
  function ParseCalls(c: FtpConfig): seq<SshCall> {
    if c.key != "" then [ParsePrivateKeyCall(c.key)] else []
  }

  /** The dial the initialiser makes once the auth list is built. */
  function DialOf(c: FtpConfig): SshCall {
    DialCall("tcp", Address(c), ClientConfig(c.username, c.timeout, AuthMethods(c)))
  }

  /**
   * The outside world of the FTP initialiser: key parsing, the SSH dial and
   * the sftp handshake, each with an outcome fixed at construction, and the
   * number of SSH and sftp clients currently open.
   */
  class SshNetwork {
    const keyParses: bool
    const dialSucceeds: bool
    const sftpSucceeds: bool
    const server: Ftp.RemoteTree
    var calls: seq<SshCall>
    var openSsh: nat
    var openSftp: nat

    constructor (keyParses: bool, dialSucceeds: bool, sftpSucceeds: bool, server: Ftp.RemoteTree)
      ensures this.keyParses == keyParses && this.dialSucceeds == dialSucceeds
      ensures this.sftpSucceeds == sftpSucceeds && this.server == server
      ensures calls == [] && openSsh == 0 && openSftp == 0
    {
      this.keyParses, this.dialSucceeds, this.sftpSucceeds := keyParses, dialSucceeds, sftpSucceeds;
      this.server := server;
      calls, openSsh, openSftp := [], 0, 0;
    }

    method ParsePrivateKey(key: string) returns (ok: bool)
      modifies this`calls
      ensures ok == keyParses
      ensures calls == old(calls) + [ParsePrivateKeyCall(key)]
    {
      ok := keyParses;
      calls := calls + [ParsePrivateKeyCall(key)];
    }

    /** Opens an SSH client when the dial succeeds. */
    method Dial(network: string, address: string, config: ClientConfig) returns (ok: bool)
      modifies this`calls, this`openSsh
      ensures ok == dialSucceeds
      ensures openSsh == old(openSsh) + (if ok then 1 else 0)
      ensures calls == old(calls) + [DialCall(network, address, config)]
    {
      ok := dialSucceeds;
      if ok {
        openSsh := openSsh + 1;
      }
      calls := calls + [DialCall(network, address, config)];
    }

    /** Opens the sftp subsystem on an open SSH client. */
    method NewSftpClient() returns (client: Ftp.RemoteTree?)
      requires openSsh > 0
      modifies this`calls, this`openSftp
      ensures (client != null) == sftpSucceeds
      ensures client != null ==> client == server
      ensures openSftp == old(openSftp) + (if client != null then 1 else 0)
      ensures calls == old(calls) + [NewSftpClientCall]
    {
      client := if sftpSucceeds then server else null;
      if sftpSucceeds {
        openSftp := openSftp + 1;
      }
      calls := calls + [NewSftpClientCall];
    }

    method CloseSsh()
      requires openSsh > 0
      modifies this`calls, this`openSsh
      ensures openSsh == old(openSsh) - 1
      ensures calls == old(calls) + [CloseSshCall]
    {
      openSsh := openSsh - 1;
      calls := calls + [CloseSshCall];
    }
  }

  /**
   * Builds the auth list, parsing the key before anything is dialled; dials
   * "hostname:port"; opens sftp on the SSH client and closes that client when
   * sftp fails. Every failure returns a nil backend and leaves nothing open.
   */
  method InitializeFtpBackend(c: FtpConfig, net: SshNetwork) returns (backend: Ftp.FtpBackend?, err: Option<InitError>)
    modifies net`calls, net`openSsh, net`openSftp
    ensures (backend == null) <==> err.Some?
    ensures backend != null ==> fresh(backend) && backend.client == net.server
    ensures backend != null ==> (backend.client.Valid() <==> old(net.server.Valid()))
    ensures err.Some? ==> net.openSsh == old(net.openSsh) && net.openSftp == old(net.openSftp)
    ensures err.None? ==> net.openSsh == old(net.openSsh) + 1 && net.openSftp == old(net.openSftp) + 1
    ensures c.key != "" && !net.keyParses ==>
      err == Some(KeyUnparsable) && net.calls == old(net.calls) + ParseCalls(c)
    ensures (c.key == "" || net.keyParses) && !net.dialSucceeds ==>
      err == Some(ConnectFailed(Address(c))) && net.calls == old(net.calls) + ParseCalls(c) + [DialOf(c)]
    ensures (c.key == "" || net.keyParses) && net.dialSucceeds && !net.sftpSucceeds ==>
      && err == Some(SftpFailed)
      && net.calls == old(net.calls) + ParseCalls(c) + [DialOf(c), NewSftpClientCall, CloseSshCall]
    ensures (c.key == "" || net.keyParses) && net.dialSucceeds && net.sftpSucceeds ==>
      err == None && net.calls == old(net.calls) + ParseCalls(c) + [DialOf(c), NewSftpClientCall]
  {
    var auth: seq<AuthMethod> := [];
    if c.password != "" {
      auth := auth + [PasswordAuth(c.password)];
    }
    if c.key != "" {
      var parsed := net.ParsePrivateKey(c.key);
      if !parsed {
        return null, Some(KeyUnparsable);
      }
      auth := auth + [PublicKeyAuth(c.key)];
    }
    assert auth == AuthMethods(c);
    var config := ClientConfig(c.username, c.timeout, auth);
    var address := Address(c);
    ghost var beforeDial := net.calls;
    assert beforeDial == old(net.calls) + ParseCalls(c);
    var connected := net.Dial("tcp", address, config);
    assert net.calls == beforeDial + [DialOf(c)];
    if !connected {
      return null, Some(ConnectFailed(address));
    }
    var client := net.NewSftpClient();
    if client == null {
      net.CloseSsh();
      return null, Some(SftpFailed);
    }
    backend := new Ftp.FtpBackend(client);
    err := None;
  }

  /** A config with neither password nor key is not refused: it dials with an empty auth list. */
  method NoAuthScenario(server: Ftp.RemoteTree) returns (err: Option<InitError>, dialled: seq<AuthMethod>)
    ensures err == None && dialled == []
  {
    var net := new SshNetwork(false, true, true, server);
    var conf := FtpConfig("cache.example", "", "", "drone", 22, 0);
    var backend;
    backend, err := InitializeFtpBackend(conf, net);
    dialled := net.calls[0].config.auth;
  }

  /** When the sftp handshake fails after a successful dial, no SSH client is left open. */
  method SftpFailureScenario(server: Ftp.RemoteTree) returns (err: Option<InitError>, leftOpen: nat)
    ensures err == Some(SftpFailed) && leftOpen == 0
  {
    var net := new SshNetwork(true, true, false, server);
    var conf := FtpConfig("cache.example", "", "secret", "drone", 22, 0);
    var backend;
    backend, err := InitializeFtpBackend(conf, net);
    leftOpen := net.openSsh;
  }
}
