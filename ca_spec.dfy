/**
 * The Chip Authentication handlers as functions of the session fields, the
 * command data and the card: what Set AT and General Authenticate compute,
 * step by step, and the properties of that pipeline.
 */
module CaSpec {
  import opened Wrappers
  import opened Tlv
  import opened Oids
  import opened CaTypes

  // ---------------------------------------------------------------- Set AT

  /**
   * The CA OID from tag 80. A missing tag (the null dereference happens inside
   * the guarded block) or bytes the CaOid constructor rejects give 6A80.
   */
  function ExtractCaOidFromCommandData(commandData: seq<TlvObject>, platform: Platform): (r: Result<Oid, StatusWord>)
    ensures r.Failure? ==> r.error == SW_6A80_WRONG_DATA
    ensures r.Success? <==>
      Find(commandData, TAG_80).Some? &&
      platform.acceptsCaOid(ValueField(Find(commandData, TAG_80).value, platform.serialize))
    ensures r.Success? ==> r.value == Oid(ValueField(Find(commandData, TAG_80).value, platform.serialize))
  {
    match Find(commandData, TAG_80)
    case None => Failure(SW_6A80_WRONG_DATA)
    case Some(tlvObject) =>
      var bytes := ValueField(tlvObject, platform.serialize);
      if platform.acceptsCaOid(bytes) then Success(Oid(bytes)) else Failure(SW_6A80_WRONG_DATA)
  }

  /** The key identifier from tag 84; an absent tag asks for the implicit key. */
  function ExtractKeyIdentifierFromCommandData(commandData: seq<TlvObject>, platform: Platform): (k: KeyIdentifier)
    ensures Find(commandData, TAG_84).None? <==> k == ImplicitKeyIdentifier
    ensures Find(commandData, TAG_84).Some? ==>
      k == ExplicitKeyIdentifier(ValueField(Find(commandData, TAG_84).value, platform.serialize))
  {
    match Find(commandData, TAG_84)
    case None => ImplicitKeyIdentifier
    case Some(tlvObject) => ExplicitKeyIdentifier(ValueField(tlvObject, platform.serialize))
  }

  /** Whether a card object matches every identifier in `required`. */
  predicate MatchesAll(o: CardObject, required: seq<CardObjectIdentifier>)
  {
    forall i :: 0 <= i < |required| ==> MatchesIdentifier(o, required[i])
  }

  /**
   * Key resolution: a failed lookup gives 6A88, an object that is not a key 6984,
   * a key that misses one of the required identifiers 6985.
   */
  function KeyObjectFor(card: CardState, keyIdentifier: KeyIdentifier, required: seq<CardObjectIdentifier>): (r: Result<CardObject, StatusWord>)
    ensures card.lookup(keyIdentifier).None? <==> r == Failure(SW_6A88_REFERENCE_DATA_NOT_FOUND)
    ensures r == Failure(SW_6984_REFERENCE_DATA_NOT_USABLE) <==>
      card.lookup(keyIdentifier).Some? && !card.lookup(keyIdentifier).value.KeyObject?
    ensures r == Failure(SW_6985_CONDITIONS_OF_USE_NOT_SATISFIED) <==>
      card.lookup(keyIdentifier).Some? && card.lookup(keyIdentifier).value.KeyObject? &&
      !MatchesAll(card.lookup(keyIdentifier).value, required)
    ensures r.Success? ==>
      r.value.KeyObject? && r.value == card.lookup(keyIdentifier).value && MatchesAll(r.value, required)
  {
    match card.lookup(keyIdentifier)
    case None => Failure(SW_6A88_REFERENCE_DATA_NOT_FOUND)
    case Some(cardObject) =>
      if !cardObject.KeyObject? then Failure(SW_6984_REFERENCE_DATA_NOT_USABLE)
      else if !MatchesAll(cardObject, required) then Failure(SW_6985_CONDITIONS_OF_USE_NOT_SATISFIED)
      else Success(cardObject)
  }

  datatype SetAtResult = SetAtResult(session: Session, response: ResponseApdu)

  /** Set AT: select the OID and the key; store OID, key pair, key reference, domain parameters, crypto support. */
  function SetAt(s: Session, commandData: seq<TlvObject>, card: CardState, platform: Platform): SetAtResult
  {
    match ExtractCaOidFromCommandData(commandData, platform)
    case Failure(sw) => SetAtResult(s, ResponseApdu(None, sw))
    case Success(caOid) =>
      var s1 := s.(caOid := Some(caOid));
      var keyIdentifier := ExtractKeyIdentifierFromCommandData(commandData, platform);
      match KeyObjectFor(card, keyIdentifier, [OidIdentifier(caOid)])
      case Failure(sw) => SetAtResult(s1, ResponseApdu(None, sw))
      case Success(keyObject) =>
        var s2 := s1.(
          staticKeyPairPicc := Some(keyObject.keyPair),
          keyReference := keyObject.primaryIdentifier,
          caDomainParameters := Some(platform.domainParametersOf(keyObject.keyPair.publicKey)),
          cryptoSupport := Some(platform.cryptoSupportOf(caOid)));
        SetAtResult(s2, ResponseApdu(None, SW_9000_NO_ERROR))
  }

  // ---------------------------------------------------- General Authenticate

  /** The PCD's ephemeral public key material, from the path 7C / 80; None is a null dereference. */
  function PcdPublicKeyMaterial(commandData: seq<TlvObject>, platform: Platform): (r: Option<seq<byte>>)
    ensures r.None? <==> FindPath(commandData, [TAG_7C, TAG_80]).None?
  {
    match FindPath(commandData, [TAG_7C, TAG_80])
    case None => None
    case Some(tlvObject) => Some(ValueField(tlvObject, platform.serialize))
  }

  /** Key reconstruction: an IllegalArgumentException gives 6A80, any other exception 6FFF. */
  function ReconstructEphemeralPublicKeyPcd(dp: DomainParameters, material: seq<byte>, platform: Platform): (r: Result<PublicKey, StatusWord>)
    ensures r.Success? <==> platform.reconstructPublicKey(dp, material).Reconstructed?
    ensures r.Success? ==> r.value == platform.reconstructPublicKey(dp, material).key
    ensures platform.reconstructPublicKey(dp, material).ReconstructionIllegalArgument? <==> r == Failure(SW_6A80_WRONG_DATA)
    ensures platform.reconstructPublicKey(dp, material).ReconstructionOtherFailure? <==> r == Failure(SW_6FFF_IMPLEMENTATION_ERROR)
  {
    match platform.reconstructPublicKey(dp, material)
    case Reconstructed(key) => Success(key)
    case ReconstructionIllegalArgument => Failure(SW_6A80_WRONG_DATA)
    case ReconstructionOtherFailure => Failure(SW_6FFF_IMPLEMENTATION_ERROR)
  }

  /** Whether the mechanism records a Terminal Authentication. */
  predicate IsTa(m: SecMechanism)
  {
    m.TerminalAuthenticationMechanism?
  }

  /** Position of the first Terminal Authentication mechanism, or |mechanisms| when there is none. */
  function FirstTaIndex(mechanisms: seq<SecMechanism>): (k: nat)
    ensures k <= |mechanisms|
    ensures forall j :: 0 <= j < k ==> !IsTa(mechanisms[j])
    ensures k < |mechanisms| ==> IsTa(mechanisms[k])
  {
    if |mechanisms| == 0 then 0
    else if IsTa(mechanisms[0]) then 0
    else 1 + FirstTaIndex(mechanisms[1..])
  }

  /**
   * The compressed ephemeral key recorded by the first Terminal Authentication
   * mechanism; None when there is none or that one holds no key. Later
   * Terminal Authentication mechanisms are never consulted.
   */
  function FirstTaKey(mechanisms: seq<SecMechanism>): (r: Option<seq<byte>>)
    ensures (forall i :: 0 <= i < |mechanisms| ==> !IsTa(mechanisms[i])) ==> r.None?
    ensures forall i :: 0 <= i < |mechanisms| && IsTa(mechanisms[i]) && (forall j :: 0 <= j < i ==> !IsTa(mechanisms[j]))
              ==> r == mechanisms[i].compressedTerminalEphemeralPublicKey
  {
    var k := FirstTaIndex(mechanisms);
    if k < |mechanisms| then mechanisms[k].compressedTerminalEphemeralPublicKey else None
  }

  /**
   * The binding check: None lets processing go on. A failing `comp` gives 6FFF,
   * no key recorded by the first Terminal Authentication 6982, different compressed keys 6984.
   */
  function BindingCheck(dp: DomainParameters, pk: PublicKey, mechanisms: seq<SecMechanism>, platform: Platform): (r: Option<StatusWord>)
    ensures r.None? <==>
      platform.comp(dp, pk).Compressed? && FirstTaKey(mechanisms) == Some(platform.comp(dp, pk).bytes)
    ensures r == Some(SW_6FFF_IMPLEMENTATION_ERROR) <==> platform.comp(dp, pk).CompressionNoSuchAlgorithm?
    ensures r == Some(SW_6982_SECURITY_STATUS_NOT_SATISFIED) <==>
      platform.comp(dp, pk).Compressed? && FirstTaKey(mechanisms).None?
    ensures r == Some(SW_6984_REFERENCE_DATA_NOT_USABLE) <==>
      platform.comp(dp, pk).Compressed? && FirstTaKey(mechanisms).Some? &&
      FirstTaKey(mechanisms).value != platform.comp(dp, pk).bytes
  {
    match platform.comp(dp, pk)
    case CompressionNoSuchAlgorithm => Some(SW_6FFF_IMPLEMENTATION_ERROR)
    case Compressed(expected) =>
      match FirstTaKey(mechanisms)
      case None => Some(SW_6982_SECURITY_STATUS_NOT_SATISFIED)
      case Some(received) =>
        if expected == received then None else Some(SW_6984_REFERENCE_DATA_NOT_USABLE)
  }

  /** Key agreement: an invalid key gives 6A80, a missing algorithm or illegal state 6FFF. */
  function PerformKeyAgreement(algorithm: string, staticPrivateKeyPicc: PrivateKey, pk: PublicKey, platform: Platform): (r: Result<seq<byte>, StatusWord>)
    ensures r.Success? <==> platform.keyAgreement(algorithm, staticPrivateKeyPicc, pk).SharedSecret?
    ensures r.Success? ==> r.value == platform.keyAgreement(algorithm, staticPrivateKeyPicc, pk).secret
    ensures r == Failure(SW_6A80_WRONG_DATA) <==> platform.keyAgreement(algorithm, staticPrivateKeyPicc, pk).AgreementInvalidKey?
    ensures r.Failure? ==> r.error in {SW_6A80_WRONG_DATA, SW_6FFF_IMPLEMENTATION_ERROR}
  {
    match platform.keyAgreement(algorithm, staticPrivateKeyPicc, pk)
    case SharedSecret(secret) => Success(secret)
    case AgreementInvalidKey => Failure(SW_6A80_WRONG_DATA)
    case AgreementNoSuchAlgorithm => Failure(SW_6FFF_IMPLEMENTATION_ERROR)
    case AgreementIllegalState => Failure(SW_6FFF_IMPLEMENTATION_ERROR)
  }

  /** The length of the PICC's nonce r. */
  const NONCE_SIZE_IN_BYTES: nat := 8

  /** The nonce: exactly 8 bytes, drawn in order from the random source. */
  function GenerateRPiccNonce(random: nat -> byte): (nonce: seq<byte>)
    ensures |nonce| == NONCE_SIZE_IN_BYTES
    ensures forall i :: 0 <= i < |nonce| ==> nonce[i] == random(i)
  {
    seq(NONCE_SIZE_IN_BYTES, (i: int) requires 0 <= i => random(i))
  }

  /** `Arrays.copyOf(a, n)`: the first n bytes, padded with zeros when `a` is shorter. */
  function CopyOf(a: seq<byte>, n: nat): (r: seq<byte>)
    ensures |r| == n
    ensures forall i :: 0 <= i < n && i < |a| ==> r[i] == a[i]
    ensures forall i :: |a| <= i < n ==> r[i] == 0
  {
    if |a| >= n then a[..n] else a + seq(n - |a|, _ => 0)
  }

  /** The length of the authentication token T_PICC. */
  const TOKEN_SIZE_IN_BYTES: nat := 8

  /** T_PICC: the MAC over the token input under the MAC session key, cut to 8 bytes. */
  function ComputeAuthenticationTokenTpicc(pk: PublicKey, dp: DomainParameters, caOid: Oid,
                                          cryptoSupport: CryptoSupport, macKey: SecretKey, platform: Platform): (token: seq<byte>)
    ensures |token| == TOKEN_SIZE_IN_BYTES
    ensures var mac := platform.macAuthenticationToken(cryptoSupport, platform.authenticationTokenInput(pk, dp, caOid), macKey);
      forall i :: 0 <= i < TOKEN_SIZE_IN_BYTES && i < |mac| ==> token[i] == mac[i]
  {
    CopyOf(platform.macAuthenticationToken(cryptoSupport, platform.authenticationTokenInput(pk, dp, caOid), macKey), TOKEN_SIZE_IN_BYTES)
  }

  /** The success response data: one constructed 7C holding 81 (the nonce) and then 82 (the token). */
  function PrepareResponseData(rPiccNonce: seq<byte>, authenticationTokenTpicc: seq<byte>): seq<TlvObject>
  {
    [Constructed(TAG_7C, [Primitive(TAG_81, rPiccNonce), Primitive(TAG_82, authenticationTokenTpicc)])]
  }

  /** A terminal reading the response data back finds the nonce under 7C / 81 and the token under 7C / 82. */
  lemma ResponseDataRoundTrip(rPiccNonce: seq<byte>, authenticationTokenTpicc: seq<byte>)
    ensures FindPath(PrepareResponseData(rPiccNonce, authenticationTokenTpicc), [TAG_7C, TAG_81]) == Some(Primitive(TAG_81, rPiccNonce))
    ensures FindPath(PrepareResponseData(rPiccNonce, authenticationTokenTpicc), [TAG_7C, TAG_82]) == Some(Primitive(TAG_82, authenticationTokenTpicc))
  {
    var data := PrepareResponseData(rPiccNonce, authenticationTokenTpicc);
    assert FirstIndexOf(data, TAG_7C) == 0;
    var children := data[0].children;
    assert FirstIndexOf(children, TAG_81) == 0;
    assert FirstIndexOf(children, TAG_82) == 1 by {
      assert FirstIndexOf(children[1..], TAG_82) == 0;
    }
    assert [TAG_7C, TAG_81][1..] == [TAG_81];
    assert [TAG_7C, TAG_82][1..] == [TAG_82];
  }

  datatype GaOutcome =
    /** a NullPointerException escaped the handler (no response was set) */
    | Escaped
    /** a ProcessingException with this status word was caught */
    | Failed(sw: StatusWord)
    | Succeeded(rPiccNonce: seq<byte>, authenticationTokenTpicc: seq<byte>,
                smDataProvider: SmDataProvider, mechanism: ChipAuthenticationMechanism)

  datatype GaResult = GaResult(session: Session, outcome: GaOutcome)

  /** General Authenticate: key material, reconstruction and the binding check. */
  function GeneralAuthenticate(s: Session, commandData: seq<TlvObject>, card: CardState,
                               platform: Platform, random: nat -> byte): GaResult
  {
    match PcdPublicKeyMaterial(commandData, platform)
    case None => GaResult(s, Escaped)
    case Some(material) =>
      match s.caDomainParameters
      case None => GaResult(s, Escaped)
      case Some(dp) =>
        var s1 := s.(keyAgreementAlgorithmName := Some(platform.keyAgreementAlgorithmOf(dp)));
        match ReconstructEphemeralPublicKeyPcd(dp, material, platform)
        case Failure(sw) => GaResult(s1, Failed(sw))
        case Success(pk) =>
          match BindingCheck(dp, pk, card.currentMechanisms, platform)
          case Some(sw) => GaResult(s1, Failed(sw))
          case None => AgreeAndDerive(s1, dp, pk, platform, random)
  }

  /** General Authenticate after the binding check: agreement, nonce, session keys, token, SM provider. */
  function AgreeAndDerive(s1: Session, dp: DomainParameters, pk: PublicKey,
                          platform: Platform, random: nat -> byte): GaResult
  {
    if s1.staticKeyPairPicc.None? || s1.caOid.None? then GaResult(s1, Escaped)
    else
      var caOid := s1.caOid.value;
      match PerformKeyAgreement(platform.keyAgreementNameOf(caOid), s1.staticKeyPairPicc.value.privateKey, pk, platform)
      case Failure(sw) => GaResult(s1, Failed(sw))
      case Success(sharedSecret) =>
        var rPiccNonce := GenerateRPiccNonce(random);
        if s1.cryptoSupport.None? then GaResult(s1, Escaped)
        else
          var cryptoSupport := s1.cryptoSupport.value;
          var keyLength := platform.symmetricCipherKeyLengthOf(caOid);
          var macKey := platform.secretKeySpecMac(cryptoSupport, platform.deriveMac(keyLength, sharedSecret, rPiccNonce));
          var encKey := platform.secretKeySpecCipher(cryptoSupport, platform.deriveEnc(keyLength, sharedSecret, rPiccNonce));
          var s2 := s1.(secretKeySpecMac := Some(macKey), secretKeySpecEnc := Some(encKey));
          var token := ComputeAuthenticationTokenTpicc(pk, dp, caOid, cryptoSupport, macKey, platform);
          if !platform.smDataProviderAccepts(encKey, macKey) then GaResult(s2, Failed(SW_6FFF_IMPLEMENTATION_ERROR))
          else GaResult(s2, Succeeded(rPiccNonce, token, SmDataProviderTr03110(encKey, macKey),
                                      ChipAuthenticationMechanism(caOid, s2.keyReference, pk)))
  }

  /** The response the handler sets: none when an exception escaped, the status word alone on failure. */
  function GaResponse(outcome: GaOutcome): Option<ResponseApdu>
  {
    match outcome
    case Escaped => None
    case Failed(sw) => Some(ResponseApdu(None, sw))
    case Succeeded(nonce, token, _, _) =>
      Some(ResponseApdu(Some(PrepareResponseData(nonce, token)), SW_9000_NO_ERROR))
  }

  /** The propagations the handler adds: SM provider, security status, completion, and only on success. */
  function GaPropagations(outcome: GaOutcome): seq<Propagation>
  {
    match outcome
    case Succeeded(_, _, provider, mechanism) =>
      [SmDataProviderUpdate(provider), SecStatusMechanismUpdate(Application, mechanism), ProtocolUpdate(true)]
    case _ => []
  }
}
