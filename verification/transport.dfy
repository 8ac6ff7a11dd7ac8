/** Which gRPC channel `_create_channel` of the refresh-token client opens.
    The certificate file, the socket and the TLS handshake are inputs: what
    reading the CA file gave, and what the server presented when probed. */
module Transport {
  import opened Py

  /** The authority both TLS options name when verification is skipped. */
  const PinnedAuthority := "omnii-grpc"

  /** The trust roots of a secure channel. */
  datatype Roots = SystemRoots | CaFile(pem: seq<bv8>) | PinnedServerCert(der: seq<bv8>)

  /** A plain-text channel, or a TLS channel with its roots and, when
      verification is skipped, the overridden target name and authority. */
  datatype Channel =
    | Insecure(target: string)
    | Secure(target: string, roots: Roots, authority: Option<string>)

  /** The probe of the trust-on-first-use branch: the DER certificate the
      server presented (possibly empty), or a failed connection or handshake. */
  datatype Probe = Presented(der: seq<bv8>) | Unreachable

  /** What the environment gives `_create_channel`: the bytes of the CA file
      (None when opening or reading it raised) and the probe outcome. */
  datatype TransportEnv = TransportEnv(caFile: Option<seq<bv8>>, probe: Probe)

  /** The server URL read from the enrollment record and handed to the
      channel constructor: a string is used as is; any other value makes the
      constructor raise TypeError. */
  function ChannelTarget(v: Value): (r: Result<string>)
    ensures r.Ok? <==> v.Str?
    ensures r.Ok? ==> r.value == v.s
  {
    if v.Str? then Ok(v.s) else Raised(TypeError)
  }

  predicate IsDigit(c: char) {
    '0' <= c <= '9'
  }

  /** `target.rsplit(":", 1)` unpacked into host and port: None when there
      is no colon, which makes the unpacking raise. */
  function SplitPort(target: string): (r: Option<(string, string)>)
    ensures r.Some? ==> r.value.0 + ":" + r.value.1 == target && ':' !in r.value.1
    ensures r.None? <==> ':' !in target
  {
    if target == [] then None
    else if target[|target| - 1] == ':' then Some((target[..|target| - 1], ""))
    else match SplitPort(target[..|target| - 1])
      case None => None
      case Some((host, port)) =>
        assert target == target[..|target| - 1] + [target[|target| - 1]];
        Some((host, port + [target[|target| - 1]]))
  }

  /** Whether `int(port)` succeeds, taken as: a non-empty run of ASCII digits. */
  predicate PortParses(port: string) {
    port != [] && forall i | 0 <= i < |port| :: IsDigit(port[i])
  }

  /** `_create_channel`: a CA file is read first (a failure raises); without
      skipping verification the channel is TLS with the CA file or the system
      roots; when skipping it without a CA file, the target must split into
      host and numeric port (else ValueError), an unreachable server gives a
      plain-text channel, and a presented certificate is pinned. */
  function CreateChannel(target: string, skipVerify: bool, caCert: string, env: TransportEnv): (r: Result<Channel>)
    ensures caCert != "" && env.caFile.None? ==> r == Raised(OSError)
    ensures !skipVerify && r.Ok? ==> r.value.Secure? && r.value.authority.None?
    ensures r.Ok? && r.value.Insecure? <==>
              skipVerify && caCert == "" && SplitPort(target).Some? && PortParses(SplitPort(target).value.1) &&
              env.probe.Unreachable?
    ensures r.Ok? ==> r.value.target == target
    ensures r.Ok? && r.value.Secure? && skipVerify ==> r.value.authority == Some(PinnedAuthority)
    ensures r.Ok? && r.value.Secure? && r.value.roots.PinnedServerCert? ==>
              skipVerify && caCert == "" && env.probe.Presented? && env.probe.der != [] && r.value.roots.der == env.probe.der
    ensures r.Ok? && r.value.Secure? && r.value.roots.CaFile? ==> caCert != "" && env.caFile == Some(r.value.roots.pem)
  {
    if caCert != "" && env.caFile.None? then Raised(OSError)
    else
      var roots := if caCert != "" then CaFile(env.caFile.value) else SystemRoots;
      if !skipVerify then Ok(Secure(target, roots, None))
      else if caCert != "" then Ok(Secure(target, roots, Some(PinnedAuthority)))
      else match SplitPort(target)
        case None => Raised(ValueError)
        case Some((_, port)) =>
          if !PortParses(port) then Raised(ValueError)
          else match env.probe
            case Unreachable => Ok(Insecure(target))
            case Presented(der) =>
              if der != [] then Ok(Secure(target, PinnedServerCert(der), Some(PinnedAuthority)))
              else Ok(Secure(target, SystemRoots, Some(PinnedAuthority)))
  }

  /** The probe and the port are consulted only on the trust-on-first-use
      branch: with verification on, or with a CA file, the channel is the
      same whatever the server presents. */
  lemma ProbeOnlyWhenPinning(target: string, skipVerify: bool, caCert: string, caFile: Option<seq<bv8>>, p: Probe, q: Probe)
    requires !skipVerify || caCert != ""
    ensures CreateChannel(target, skipVerify, caCert, TransportEnv(caFile, p)) ==
            CreateChannel(target, skipVerify, caCert, TransportEnv(caFile, q))
  {
  }
}
