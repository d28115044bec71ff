/**
 * The certificate probe of checker/checker.go: resolve the endpoint, dial it,
 * describe the certificates the peer presented, and wrap the description (or
 * the failure) into the JSON envelope.
 *
 * The URL parser, the TLS dialer, the x509/time/net string conversions and the
 * JSON encoder are library code; they are inputs here, as total functions
 * collected in `Env` and `X509`.
 */
module Checker {
  import opened Wrappers

  /** An instant as the x509 package stores NotBefore and NotAfter. */
  type Time = int

  /** A dial timeout in nanoseconds (time.Duration). */
  type Duration = int

  /** An IP address as its raw bytes (net.IP). */
  type IP = seq<int>

  /** A distinguished name (pkix.Name); the probe reads only its CommonName directly. */
  datatype Name = Name(commonName: string, attributes: seq<string>)

  /** The part of an x509.Certificate that the probe reads. */
  datatype Certificate = Certificate(
    subject: Name,
    issuer: Name,
    dnsNames: seq<string>,
    notBefore: Time,
    notAfter: Time,
    serialNumber: int,
    publicKeyAlgorithm: int,
    ipAddresses: seq<IP>,
    isCA: bool)

  /** The library conversions the probe applies to a certificate. */
  datatype X509 = X509(
    nameString: Name -> string,                               // pkix.Name.String
    serialString: int -> string,                              // big.Int.String
    algorithmString: int -> string,                           // PublicKeyAlgorithm.String
    ipString: IP -> string,                                   // net.IP.String
    format: (Time, string) -> string,                         // time.Time.Format
    verifyHostname: (Certificate, string) -> Option<string>)  // the error message, None when the name matches

  /** The layout every date of the report is formatted with. */
  const DateLayout: string := "2006-January-02"

  /** The indentation of the pretty-printed envelope (the prefix is empty). */
  const Indent: string := "    "

  /** One presented certificate in the report (chainCert). */
  datatype ChainCert = ChainCert(isCA: bool, commonName: string, issuer: string, expiration: string)

  /** The report of one successful probe (certData). */
  datatype CertData = CertData(
    subject: string,
    dnsNames: seq<string>,
    issuer: string,
    notBefore: string,
    notAfter: string,
    serialNumber: string,
    ipAddresses: seq<string>,
    publicKeyAlgorithm: string,
    validHost: bool,
    chain: seq<ChainCert>)

  /** The zero value `certData{}` returned beside every error. */
  const ZeroCertData: CertData := CertData("", [], "", "", "", "", [], "", false, [])

  /** The envelope (response): `message` is the `any`-typed Message, None when nil. */
  datatype Response = Response(message: Option<CertData>, error: string)

  /** What url.Parse yields: the scheme, Hostname() and Port() of the URL. */
  datatype Url = Url(scheme: string, hostname: string, port: string)
  datatype ParseResult = Parsed(url: Url) | ParseError(message: string)

  /** What tls.DialWithDialer yields: the connection's PeerCertificates, or the error. */
  datatype DialResult = Connected(peerCertificates: seq<Certificate>) | DialError(message: string)

  /** What the JSON encoder wrote into the buffer, and the error it returned. */
  datatype Encoded = Encoded(text: string, error: Option<string>)

  /** The libraries the probe calls. */
  datatype Env = Env(
    parse: string -> ParseResult,                 // url.Parse
    dial: (string, Duration) -> DialResult,       // tls.DialWithDialer("tcp", address, ...) with the timeout
    x509: X509,
    encode: (Response, string, string) -> Encoded) // json.Encoder with SetIndent(prefix, indent)

  /** A completed TLS handshake always carries at least the peer's leaf certificate. */
  ghost predicate HandshakeYieldsLeaf(env: Env)
  {
    forall address, timeout :: env.dial(address, timeout).Connected? ==>
      |env.dial(address, timeout).peerCertificates| > 0
  }

  // ---------------------------------------------------------------------------
  // Endpoint resolution

  /** The port to dial: the explicit port, else 443 for https, else empty. */
  function ResolvePort(scheme: string, port: string): (r: string)
    ensures port != "" ==> r == port
    ensures port == "" && scheme == "https" ==> r == "443"
    ensures r == "" <==> port == "" && scheme != "https"
  {
    if port == "" then (if scheme == "https" then "443" else "") else port
  }

  /** The address handed to the dialer, `host:port`. */
  function DialAddress(hostname: string, port: string): (address: string)
    ensures |address| == |hostname| + 1 + |port|
    ensures address[..|hostname|] == hostname
    ensures address[|hostname|] == ':'
    ensures address[|hostname| + 1..] == port
  {
    hostname + ":" + port
  }

  /** The position of the last ':' in `s`, if any. */
  function LastColon(s: string): (r: Option<nat>)
    ensures r.Some? ==> r.value < |s| && s[r.value] == ':' && ':' !in s[r.value + 1..]
    ensures r.None? ==> ':' !in s
  {
    if |s| == 0 then None
    else if s[|s| - 1] == ':' then Some(|s| - 1)
    else
      var r := LastColon(s[..|s| - 1]);
      assert r.Some? ==> s[r.value + 1..] == s[..|s| - 1][r.value + 1..] + [s[|s| - 1]];
      assert r.None? ==> s == s[..|s| - 1] + [s[|s| - 1]];
      r
  }

  /** Split an address at its last ':' into host and port. */
  function SplitHostPort(address: string): Option<(string, string)>
  {
    match LastColon(address)
    case None => None
    case Some(i) => Some((address[..i], address[i + 1..]))
  }

  /** A port without ':' (every decimal port) is recovered, with the host, from the address. */
  lemma DialAddressSplits(hostname: string, port: string)
    requires ':' !in port
    ensures SplitHostPort(DialAddress(hostname, port)) == Some((hostname, port))
  {
  }

  /** How far the probe got before the description starts. */
  datatype Connection =
    | ParseFailed(message: string)
    | DialFailed(message: string)
    | Handshaken(hostname: string, peerCertificates: seq<Certificate>)

  /** Parse the endpoint, resolve its port and dial `host:port` with the timeout. */
  function Connect(endpointUrl: string, timeout: Duration, env: Env): (c: Connection)
    requires HandshakeYieldsLeaf(env)
    ensures c.Handshaken? ==> |c.peerCertificates| > 0
    ensures c.ParseFailed? <==> env.parse(endpointUrl).ParseError?
  {
    match env.parse(endpointUrl)
    case ParseError(m) => ParseFailed(m)
    case Parsed(u) =>
      match env.dial(DialAddress(u.hostname, ResolvePort(u.scheme, u.port)), timeout)
      case DialError(m) => DialFailed(m)
      case Connected(certs) => Handshaken(u.hostname, certs)
  }

  /** The dialed address: the explicit port, else `host:443` for https, else `host:` with an empty port. */
  lemma DialedAddress(endpointUrl: string, timeout: Duration, env: Env)
    requires HandshakeYieldsLeaf(env)
    requires env.parse(endpointUrl).Parsed?
    ensures var u := env.parse(endpointUrl).url;
      var address := if u.port != "" then u.hostname + ":" + u.port
                     else if u.scheme == "https" then u.hostname + ":443"
                     else u.hostname + ":";
      Connect(endpointUrl, timeout, env) ==
        match env.dial(address, timeout)
        case DialError(m) => DialFailed(m)
        case Connected(certs) => Handshaken(u.hostname, certs)
  {
    var u := env.parse(endpointUrl).url;
    assert u.hostname + ":" + "443" == u.hostname + ":443";
    assert u.hostname + ":" + "" == u.hostname + ":";
  }

  // ---------------------------------------------------------------------------
  // The report

  /**
   * The report entry of one presented certificate. Apart from IsCA it
   * describes the certificate's issuer, not its subject: the issuer's
   * common name and string, and the certificate's expiry date.
   */
  function ChainEntry(c: Certificate, x: X509): (e: ChainCert)
    ensures e.isCA == c.isCA
    ensures e.commonName == c.issuer.commonName && e.issuer == x.nameString(c.issuer)
    ensures e.expiration == x.format(c.notAfter, DateLayout)
  {
    ChainCert(
      isCA := c.isCA,
      commonName := c.issuer.commonName,
      issuer := x.nameString(c.issuer),
      expiration := x.format(c.notAfter, DateLayout))
  }

  /** The chain as the probe's append loop builds it: one entry per certificate, in order. */
  function ChainEntries(certs: seq<Certificate>, x: X509): (chain: seq<ChainCert>)
    ensures |chain| == |certs|
    ensures forall i :: 0 <= i < |certs| ==>
      chain[i].isCA == certs[i].isCA &&
      chain[i].issuer == x.nameString(certs[i].issuer) &&
      chain[i].commonName == certs[i].issuer.commonName &&
      chain[i].expiration == x.format(certs[i].notAfter, DateLayout)
  {
    if certs == [] then [] else ChainEntries(certs[..|certs| - 1], x) + [ChainEntry(certs[|certs| - 1], x)]
  }

  /** The textual IP addresses as the probe's append loop builds them. */
  function IpStrings(ips: seq<IP>, x: X509): (r: seq<string>)
    ensures |r| == |ips|
    ensures forall i :: 0 <= i < |ips| ==> r[i] == x.ipString(ips[i])
  {
    if ips == [] then [] else IpStrings(ips[..|ips| - 1], x) + [x.ipString(ips[|ips| - 1])]
  }

  /** Two certificate lists with the same entries pairwise have the same chain. */
  lemma {:induction false} ChainEntriesDetermined(a: seq<Certificate>, b: seq<Certificate>, x: X509)
    requires |a| == |b|
    requires forall i :: 0 <= i < |a| ==>
      a[i].isCA == b[i].isCA && a[i].issuer == b[i].issuer && a[i].notAfter == b[i].notAfter
    ensures ChainEntries(a, x) == ChainEntries(b, x)
  {
    var ca, cb := ChainEntries(a, x), ChainEntries(b, x);
    forall i | 0 <= i < |a| ensures ca[i] == cb[i] {
    }
  }

  /** The report of a handshake whose peer presented `certs` (leaf first), for `hostname`. */
  function Report(certs: seq<Certificate>, hostname: string, x: X509): (r: CertData)
    requires |certs| > 0
    ensures r.validHost <==> x.verifyHostname(certs[0], hostname).None?
    ensures r.subject == x.nameString(certs[0].subject) && r.issuer == x.nameString(certs[0].issuer)
    ensures r.notBefore == x.format(certs[0].notBefore, DateLayout) && r.notAfter == x.format(certs[0].notAfter, DateLayout)
    ensures r.serialNumber == x.serialString(certs[0].serialNumber)
    ensures r.publicKeyAlgorithm == x.algorithmString(certs[0].publicKeyAlgorithm)
    ensures r.dnsNames == certs[0].dnsNames && r.ipAddresses == IpStrings(certs[0].ipAddresses, x)
    ensures r.chain == ChainEntries(certs, x) && |r.chain| == |certs| && r.chain[0] == ChainEntry(certs[0], x)
  {
    var leaf := certs[0];
    CertData(
      subject := x.nameString(leaf.subject),
      dnsNames := leaf.dnsNames,
      issuer := x.nameString(leaf.issuer),
      notBefore := x.format(leaf.notBefore, DateLayout),
      notAfter := x.format(leaf.notAfter, DateLayout),
      serialNumber := x.serialString(leaf.serialNumber),
      ipAddresses := IpStrings(leaf.ipAddresses, x),
      publicKeyAlgorithm := x.algorithmString(leaf.publicKeyAlgorithm),
      validHost := x.verifyHostname(leaf, hostname).None?,
      chain := ChainEntries(certs, x))
  }

  /** The leaf fields of the report depend on the leaf alone, whatever follows it. */
  lemma LeafFieldsFromLeaf(certs: seq<Certificate>, other: seq<Certificate>, hostname: string, x: X509)
    requires |certs| > 0 && |other| > 0 && certs[0] == other[0]
    ensures var r, s := Report(certs, hostname, x), Report(other, hostname, x);
      r.(chain := []) == s.(chain := []) && r.chain[0] == s.chain[0]
  {
  }

  /** The loop of checkCert that appends the text of each leaf IP address. */
  method AppendIpStrings(ips: seq<IP>, x: X509) returns (r: seq<string>)
    ensures r == IpStrings(ips, x)
  {
    r := [];
    var i := 0;
    while i < |ips|
      invariant 0 <= i <= |ips|
      invariant r == IpStrings(ips[..i], x)
    {
      assert ips[..i + 1][..i] == ips[..i];
      r := r + [x.ipString(ips[i])];
      i := i + 1;
    }
    assert ips[..i] == ips;
  }

  /** The loop of checkCert that appends one chain entry per presented certificate. */
  method AppendChain(certs: seq<Certificate>, x: X509) returns (chain: seq<ChainCert>)
    ensures chain == ChainEntries(certs, x)
  {
    chain := [];
    var j := 0;
    while j < |certs|
      invariant 0 <= j <= |certs|
      invariant chain == ChainEntries(certs[..j], x)
    {
      assert certs[..j + 1][..j] == certs[..j];
      var parentCert := ChainEntry(certs[j], x);
      chain := chain + [parentCert];
      j := j + 1;
    }
    assert certs[..j] == certs;
  }

  /**
   * checkCert: the zero report with the error when parsing or dialing fails,
   * otherwise the report of the presented chain and no error.
   */
  method CheckCert(endpointUrl: string, timeout: Duration, env: Env) returns (cert: CertData, err: Option<string>)
    requires HandshakeYieldsLeaf(env)
    ensures match Connect(endpointUrl, timeout, env)
      case ParseFailed(m) => cert == ZeroCertData && err == Some(m)
      case DialFailed(m) => cert == ZeroCertData && err == Some(m)
      case Handshaken(hostname, certs) => err == None && cert == Report(certs, hostname, env.x509)
  {
    var x := env.x509;
    var u;
    match env.parse(endpointUrl) {
      case ParseError(m) =>
        return ZeroCertData, Some(m);
      case Parsed(parsed) =>
        u := parsed;
    }

    var endpointHostname := u.hostname;
    var endpointPort := ResolvePort(u.scheme, u.port);

    var certs;
    match env.dial(DialAddress(endpointHostname, endpointPort), timeout) {
      case DialError(m) =>
        assert Connect(endpointUrl, timeout, env) == DialFailed(m);
        return ZeroCertData, Some(m);
      case Connected(peerCertificates) =>
        certs := peerCertificates;
    }
    assert Connect(endpointUrl, timeout, env) == Handshaken(endpointHostname, certs);

    var leaf := certs[0];
    cert := CertData(
      subject := x.nameString(leaf.subject),
      dnsNames := leaf.dnsNames,
      issuer := x.nameString(leaf.issuer),
      notBefore := x.format(leaf.notBefore, DateLayout),
      notAfter := x.format(leaf.notAfter, DateLayout),
      serialNumber := x.serialString(leaf.serialNumber),
      ipAddresses := [],
      publicKeyAlgorithm := x.algorithmString(leaf.publicKeyAlgorithm),
      validHost := true,
      chain := []);
    var ipAddresses := AppendIpStrings(leaf.ipAddresses, x);
    cert := cert.(ipAddresses := ipAddresses);

    if x.verifyHostname(leaf, endpointHostname).Some? {
      cert := cert.(validHost := false);
    }

    var chain := AppendChain(certs, x);
    cert := cert.(chain := chain);
    assert cert == Report(certs, endpointHostname, x);
    err := None;
  }

  // ---------------------------------------------------------------------------
  // The envelope

  /** The envelope GetJsonCert encodes for a probe that got as far as `c`. */
  function Envelope(c: Connection, x: X509): (r: Response)
    requires c.Handshaken? ==> |c.peerCertificates| > 0
    ensures r.message.Some? <==> c.Handshaken?
    ensures c.Handshaken? ==> r.error == "" && r.message.value == Report(c.peerCertificates, c.hostname, x)
    ensures !c.Handshaken? ==> r.error == c.message
  {
    match c
    case ParseFailed(m) => Response(None, m)
    case DialFailed(m) => Response(None, m)
    case Handshaken(hostname, certs) => Response(Some(Report(certs, hostname, x)), "")
  }

  /** The keys of a serialized envelope: both fields are `omitempty`. */
  function ResponseKeys(r: Response): (keys: set<string>)
    ensures "data" in keys <==> r.message.Some?
    ensures "error" in keys <==> r.error != ""
    ensures keys <= {"data", "error"}
  {
    (if r.message.Some? then {"data"} else {}) + (if r.error != "" then {"error"} else {})
  }

  /** The keys of a serialized report: only the two address lists are `omitempty`. */
  function CertDataKeys(c: CertData): (keys: set<string>)
    ensures "dns_names" in keys <==> |c.dnsNames| > 0
    ensures "ip_addresses" in keys <==> |c.ipAddresses| > 0
    ensures {"subject", "issuer", "not_before", "not_after", "serial_number",
             "public_key_algorithm", "is_valid_hostname", "parent_certs"} <= keys
  {
    {"subject", "issuer", "not_before", "not_after", "serial_number",
     "public_key_algorithm", "is_valid_hostname", "parent_certs"}
    + (if |c.dnsNames| > 0 then {"dns_names"} else {})
    + (if |c.ipAddresses| > 0 then {"ip_addresses"} else {})
  }

  /**
   * The address-list keys of a report appear exactly when the leaf carries
   * names or IP addresses; the IP key does not depend on how an address prints.
   */
  lemma ReportKeys(certs: seq<Certificate>, hostname: string, x: X509)
    requires |certs| > 0
    ensures "dns_names" in CertDataKeys(Report(certs, hostname, x)) <==> certs[0].dnsNames != []
    ensures "ip_addresses" in CertDataKeys(Report(certs, hostname, x)) <==> certs[0].ipAddresses != []
  {
  }

  /**
   * Exactly one of `data` and `error` is serialized: `data` after a handshake,
   * `error` after a failure whose message is not empty (Go's error messages never are).
   */
  lemma {:induction false} EnvelopeExclusive(c: Connection, x: X509)
    requires c.Handshaken? ==> |c.peerCertificates| > 0
    requires !c.Handshaken? ==> c.message != ""
    ensures ResponseKeys(Envelope(c, x)) == if c.Handshaken? then {"data"} else {"error"}
  {
    var keys := ResponseKeys(Envelope(c, x));
    if c.Handshaken? {
      assert "data" in keys && "error" !in keys;
    } else {
      assert "error" in keys && "data" !in keys;
    }
  }

  /** A hostname mismatch only clears the flag: the envelope still carries the report and no error. */
  lemma HostnameMismatchNotFatal(c: Connection, x: X509)
    requires c.Handshaken? && |c.peerCertificates| > 0
    requires x.verifyHostname(c.peerCertificates[0], c.hostname).Some?
    ensures Envelope(c, x).error == ""
    ensures Envelope(c, x).message.Some? && !Envelope(c, x).message.value.validHost
    ensures |Envelope(c, x).message.value.chain| == |c.peerCertificates|
  {
  }

  /** prettyEncode: the JSON encoder with an empty prefix and four-space indentation. */
  function PrettyEncode(msg: Response, env: Env): (e: Encoded)
    ensures e == env.encode(msg, "", "    ")
  {
    env.encode(msg, "", Indent)
  }

  const EncodeFailureMessage: string := "Can not encode certificate info"

  /** The line fmt.Println writes when encoding fails: its two operands, a space between, a newline after. */
  function EncodeFailureLine(e: string): (line: string)
    ensures |line| == |EncodeFailureMessage| + 1 + |e| + 1
    ensures line[..|EncodeFailureMessage|] == EncodeFailureMessage && line[|EncodeFailureMessage|] == ' '
    ensures line[|EncodeFailureMessage| + 1..|line| - 1] == e && line[|line| - 1] == '\n'
  {
    EncodeFailureMessage + " " + e + "\n"
  }

  /**
   * GetJsonCert: the text of the encoded envelope, returned even when the
   * encoder fails; the failure is only logged (`log`, the printed line).
   */
  method GetJsonCert(endpoint: string, timeout: Duration, env: Env) returns (text: string, log: Option<string>)
    requires HandshakeYieldsLeaf(env)
    ensures var encoded := env.encode(Envelope(Connect(endpoint, timeout, env), env.x509), "", Indent);
      text == encoded.text &&
      log == if encoded.error.Some? then Some(EncodeFailureLine(encoded.error.value)) else None
  {
    var cert, err := CheckCert(endpoint, timeout, env);
    var msg := Response(None, "");

    if err.Some? {
      msg := msg.(error := err.value);
    } else {
      msg := msg.(message := Some(cert), error := "");
    }

    var encoded := PrettyEncode(msg, env);
    log := None;
    if encoded.error.Some? {
      log := Some(EncodeFailureLine(encoded.error.value));
    }

    text := encoded.text;
  }
}
