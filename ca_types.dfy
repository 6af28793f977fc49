/**
 * The entities the Chip Authentication (version 2, BSI TR-03110) handlers work
 * on. Cryptographic objects are opaque types; the cryptographic library and the
 * other collaborators are uninterpreted functions gathered in `Platform`.
 */
module CaTypes {
  import opened Wrappers
  import opened Tlv
  import opened Oids

  /** ISO/IEC 7816-4 status words. */
  type StatusWord = w: int | 0 <= w < 0x1_0000

  const SW_9000_NO_ERROR: StatusWord := 0x9000
  const SW_6982_SECURITY_STATUS_NOT_SATISFIED: StatusWord := 0x6982
  const SW_6984_REFERENCE_DATA_NOT_USABLE: StatusWord := 0x6984
  const SW_6985_CONDITIONS_OF_USE_NOT_SATISFIED: StatusWord := 0x6985
  const SW_6A80_WRONG_DATA: StatusWord := 0x6A80
  const SW_6A88_REFERENCE_DATA_NOT_FOUND: StatusWord := 0x6A88
  const SW_6FFF_IMPLEMENTATION_ERROR: StatusWord := 0x6FFF

  type PublicKey
  type PrivateKey
  type DomainParameters
  type CryptoSupport
  type SecretKey

  datatype KeyPair = KeyPair(publicKey: PublicKey, privateKey: PrivateKey)

  /** `DomainParameterSet.reconstructPublicKey`, by the exception classes the handler tells apart. */
  datatype Reconstruction =
    | Reconstructed(key: PublicKey)
    | ReconstructionIllegalArgument
    | ReconstructionOtherFailure

  /** `DomainParameterSet.comp`: the compressed key, or a NoSuchAlgorithmException. */
  datatype Compression =
    | Compressed(bytes: seq<byte>)
    | CompressionNoSuchAlgorithm

  /** `KeyAgreement` init, doPhase and generateSecret, by exception class. */
  datatype Agreement =
    | SharedSecret(secret: seq<byte>)
    | AgreementInvalidKey
    | AgreementNoSuchAlgorithm
    | AgreementIllegalState

  /** The collaborators of the handlers, as uninterpreted functions. */
  datatype Platform = Platform(
    /** the encoding of a constructed TLV object's children (its value field) */
    serialize: seq<TlvObject> -> seq<byte>,
    /** whether the `CaOid` constructor accepts these bytes */
    acceptsCaOid: seq<byte> -> bool,
    cryptoSupportOf: Oid -> CryptoSupport,
    keyAgreementNameOf: Oid -> string,
    symmetricCipherKeyLengthOf: Oid -> nat,
    /** `Tr03110Utils.getDomainParameterSetFromKey` */
    domainParametersOf: PublicKey -> DomainParameters,
    keyAgreementAlgorithmOf: DomainParameters -> string,
    reconstructPublicKey: (DomainParameters, seq<byte>) -> Reconstruction,
    comp: (DomainParameters, PublicKey) -> Compression,
    keyAgreement: (string, PrivateKey, PublicKey) -> Agreement,
    /** `KeyDerivationFunction.deriveMAC` and `deriveENC`: key length, shared secret, nonce */
    deriveMac: (nat, seq<byte>, seq<byte>) -> seq<byte>,
    deriveEnc: (nat, seq<byte>, seq<byte>) -> seq<byte>,
    secretKeySpecMac: (CryptoSupport, seq<byte>) -> SecretKey,
    secretKeySpecCipher: (CryptoSupport, seq<byte>) -> SecretKey,
    /** `buildAuthenticationTokenInput(...).toByteArray()` */
    authenticationTokenInput: (PublicKey, DomainParameters, Oid) -> seq<byte>,
    macAuthenticationToken: (CryptoSupport, seq<byte>, SecretKey) -> seq<byte>,
    /** false when `new SmDataProviderTr03110(enc, mac)` throws a GeneralSecurityException */
    smDataProviderAccepts: (SecretKey, SecretKey) -> bool,
    /** the AlgorithmIdentifier and subjectPublicKey BIT STRING of an encoded public key */
    algorithmIdentifierOf: PublicKey -> TlvObject,
    subjectPublicKeyOf: PublicKey -> TlvObject,
    /** `StandardizedDomainParameters.simplifyAlgorithmIdentifier` */
    simplifyAlgorithmIdentifier: TlvObject -> TlvObject
  )

  /** Identifiers a card object can be found by. */
  datatype CardObjectIdentifier =
    | KeyIdentifierOf(keyReference: int)
    | OidIdentifier(oid: Oid)
    | OtherIdentifier(kind: nat)

  /** An OID identifier matches every OID identifier under it; other identifiers match themselves. */
  predicate IdentifierMatches(pattern: CardObjectIdentifier, id: CardObjectIdentifier)
  {
    match pattern
    case OidIdentifier(p) => id.OidIdentifier? && StartsWith(id.oid.bytes, p.bytes)
    case _ => pattern == id
  }

  datatype CardObject =
    | KeyObject(keyPair: KeyPair, primaryIdentifier: int, identifiers: seq<CardObjectIdentifier>, privilegedOnly: bool)
    | OtherCardObject(identifiers: seq<CardObjectIdentifier>)

  /** `CardObject.matchesIdentifier`: some identifier of the object matches. */
  predicate MatchesIdentifier(o: CardObject, coi: CardObjectIdentifier)
  {
    exists i :: 0 <= i < |o.identifiers| && IdentifierMatches(coi, o.identifiers[i])
  }

  /** The key identifier a Set AT command asks for: implicit, or from tag 84's value. */
  datatype KeyIdentifier =
    | ImplicitKeyIdentifier
    | ExplicitKeyIdentifier(valueField: seq<byte>)

  datatype SecMechanism =
    /** the compressed key Terminal Authentication received; None stands for a null key */
    | TerminalAuthenticationMechanism(compressedTerminalEphemeralPublicKey: Option<seq<byte>>)
    | OtherMechanism(name: string)

  datatype SecContext = Application

  /**
   * What the handlers read of the card: the key lookup below the master file
   * (None when it throws an IllegalArgumentException) and the mechanisms
   * currently recorded in the application security context.
   */
  datatype CardState = CardState(
    lookup: KeyIdentifier -> Option<CardObject>,
    currentMechanisms: seq<SecMechanism>)

  datatype ChipAuthenticationMechanism = ChipAuthenticationMechanism(
    caOid: Oid, keyReference: int, ephemeralPublicKeyPcd: PublicKey)

  datatype SmDataProvider = SmDataProviderTr03110(cipherKey: SecretKey, macKey: SecretKey)

  /** The update propagations a handler adds to the processing data. */
  datatype Propagation =
    | SmDataProviderUpdate(provider: SmDataProvider)
    | SecStatusMechanismUpdate(context: SecContext, mechanism: ChipAuthenticationMechanism)
    | ProtocolUpdate(finished: bool)

  datatype ResponseApdu = ResponseApdu(data: Option<seq<TlvObject>>, statusWord: StatusWord)

  /** The instance fields of the protocol object that the handlers set. */
  datatype Session = Session(
    caOid: Option<Oid>,
    caDomainParameters: Option<DomainParameters>,
    keyAgreementAlgorithmName: Option<string>,
    cryptoSupport: Option<CryptoSupport>,
    keyReference: int,
    staticKeyPairPicc: Option<KeyPair>,
    secretKeySpecMac: Option<SecretKey>,
    secretKeySpecEnc: Option<SecretKey>)

  /** All reference fields null, the int field 0, as a fresh Java object has them. */
  const InitialSession: Session :=
    Session(None, None, None, None, 0, None, None, None)

  /**
   * The static key pair, domain parameters and crypto support are set together,
   * and only once an OID has been set.
   */
  predicate Consistent(s: Session)
  {
    && (s.staticKeyPairPicc.Some? <==> s.caDomainParameters.Some?)
    && (s.caDomainParameters.Some? <==> s.cryptoSupport.Some?)
    && (s.cryptoSupport.Some? ==> s.caOid.Some?)
  }
}
