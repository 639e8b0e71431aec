/** What the pairing task writes into the code: the port, host, trust and client count that it found. */
module CtlPairing {
  import opened Common
  import opened PairingUri
  import opened CtlState
  import opened CtlRunner

  /** The port after the last colon of the address; the default where there is none or it is not a port. */
  ghost predicate PortNamed(addr: string, p: port) {
    && (forall host, text | addr == host + [':'] + text && ':' !in text ::
          if ParseU16(text).Some? then ParseU16(text).value == p else p == 50051)
    && (':' !in addr ==> p == 50051)
  }

  lemma BindPortIsNamed(addr: string)
    ensures PortNamed(addr, BindPort(addr))
  {
    forall host, text | addr == host + [':'] + text && ':' !in text
      ensures if ParseU16(text).Some? then ParseU16(text).value == BindPort(addr) else BindPort(addr) == 50051
    {
      LastIndexAfter(host, ':', text);
      assert addr[|host| + 1..] == text;
    }
  }

  /** An address that names a port in plain digits gives that port. */
  lemma BindPortOfDigits(host: string, p: port)
    ensures BindPort(host + [':'] + Decimal(p)) == p
  {
    DecimalRoundTrip(p);
    assert Decimal(p)[0] in Decimal(p);
    assert ParseU16(Decimal(p)) == Some(p) && ':' !in Decimal(p);
    var addr := host + [':'] + Decimal(p);
    BindPortIsNamed(addr);
    assert addr == host + [':'] + Decimal(p);
  }

  /**
   The trust fits what was asked and what was found: a pin is the fingerprint on disk; a forced mode is that mode; the
   automatic mode pins a server that signs its own certificate, or does not say, and no other.
   */
  predicate TrustFits(asked: AdvertiseTrust, at: QrSurroundings, trust: PairingTrust) {
    && (trust.Pin? ==> at.fingerprint == Success(Some(trust.fingerprint)))
    && (match asked
        case ForceCa => trust == Ca
        case ForcePin => trust.Pin?
        case Auto => trust.Pin? <==> at.certMode == None || at.certMode == Some(SelfSigned))
  }

  /** At most 16 characters of the fingerprint are shown. */
  predicate ShortOf(trust: PairingTrust, short: string) {
    match trust
    case Ca => short == "CA trust (no pin)"
    case Pin(fp) => if |fp| <= 16 then short == fp else short == fp[..16] + ['\U{2026}']
  }

  /** What is shown is what the task found when the server was running. */
  ghost predicate FoundBy(at: QrSurroundings, asked: AdvertiseTrust, trust: PairingTrust,
                          host: string, port: port, short: string, baseline: nat) {
    && at.running && at.bindAddr.Some? && host == at.advertiseHost && PortNamed(at.bindAddr.value, port)
    && TrustFits(asked, at, trust) && ShortOf(trust, short)
    && baseline == (match at.clients case Some(n) => n case None => 0)
  }

  /** A code is built from the request and from what was found. */
  lemma CodeIsFound(token: Plaintext, readOnly: bool, serial: nat, asked: AdvertiseTrust, at: QrSurroundings)
    returns (trust: PairingTrust)
    requires BuildTokenQr(token, readOnly, serial, asked, at).TokenQrReady?
    ensures var m := BuildTokenQr(token, readOnly, serial, asked, at);
      && m.serial == serial && m.uri == ToUri(PairingParams(m.host, m.port, trust, token, readOnly, SERVER_LABEL))
      && FoundBy(at, asked, trust, m.host, m.port, m.fingerprintShort, m.baseline)
      && m.port == BindPort(at.bindAddr.value)
  {
    trust := ResolveTrust(asked, at).value;
    BindPortIsNamed(at.bindAddr.value);
  }

  /** A pin is called for. */
  predicate WantsPin(asked: AdvertiseTrust, at: QrSurroundings) {
    asked == ForcePin || (asked == Auto && (at.certMode == None || at.certMode == Some(SelfSigned)))
  }

  /** There is a code exactly if the server runs, its configuration can be read, and a pin that is called for is on disk. */
  lemma CodeIff(token: Plaintext, readOnly: bool, serial: nat, asked: AdvertiseTrust, at: QrSurroundings)
    ensures var m := BuildTokenQr(token, readOnly, serial, asked, at);
      && (m.TokenQrReady? <==>
            at.running && at.bindAddr.Some? && (WantsPin(asked, at) ==> at.fingerprint.Success? && at.fingerprint.value.Some?))
      && (m.TokenQrReady? || (m.TokenQrFailed? && m.serial == serial))
      && (!at.running ==> m == TokenQrFailed("Start the server first.", serial))
  {
  }
}
