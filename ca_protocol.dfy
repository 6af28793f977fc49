/**
 * The Chip Authentication protocol object: its instance fields, updated in
 * place by the Set AT and General Authenticate handlers, and the processing
 * data object those handlers answer through.
 */
module CaProtocol {
  import opened Wrappers
  import opened Tlv
  import opened Oids
  import opened CaTypes
  import opened CaSpec
  import opened CaSecInfos

  /** The command being processed and what the handlers hand back to the dispatcher. */
  class ProcessingData {
    const commandData: seq<TlvObject>
    var response: Option<ResponseApdu>
    var propagations: seq<Propagation>

    constructor (commandData: seq<TlvObject>)
      ensures this.commandData == commandData
      ensures response == None && propagations == []
    {
      this.commandData := commandData;
      response := None;
      propagations := [];
    }

    method UpdateResponseApdu(resp: ResponseApdu)
      modifies this
      ensures response == Some(resp)
      ensures propagations == old(propagations)
    {
      response := Some(resp);
    }

    method AddUpdatePropagation(p: Propagation)
      modifies this
      ensures propagations == old(propagations) + [p]
      ensures response == old(response)
    {
      propagations := propagations + [p];
    }
  }

  class CaProtocol {
    const platform: Platform

    var caOid: Option<Oid>
    var caDomainParameters: Option<DomainParameters>
    var keyAgreementAlgorithmName: Option<string>
    var cryptoSupport: Option<CryptoSupport>
    var keyReference: int
    var staticKeyPairPicc: Option<KeyPair>
    var secretKeySpecMAC: Option<SecretKey>
    var secretKeySpecENC: Option<SecretKey>

    /** The fields as one value. */
    function Session(): Session
      reads this
    {
      CaTypes.Session(caOid, caDomainParameters, keyAgreementAlgorithmName, cryptoSupport,
                      keyReference, staticKeyPairPicc, secretKeySpecMAC, secretKeySpecENC)
    }

    constructor (platform: Platform)
      ensures this.platform == platform
      ensures Session() == InitialSession
    {
      this.platform := platform;
      caOid, caDomainParameters, keyAgreementAlgorithmName, cryptoSupport := None, None, None, None;
      keyReference, staticKeyPairPicc, secretKeySpecMAC, secretKeySpecENC := 0, None, None, None;
    }

    /** Resolves the key object and checks it against every required identifier, in order. */
    method GetKeyObjectForKeyIdentifier(card: CardState, keyIdentifier: KeyIdentifier,
                                        cardObjectIdentifier: seq<CardObjectIdentifier>)
      returns (r: Result<CardObject, StatusWord>)
      ensures r == KeyObjectFor(card, keyIdentifier, cardObjectIdentifier)
    {
      var cardObject := card.lookup(keyIdentifier);
      if cardObject.None? {
        return Failure(SW_6A88_REFERENCE_DATA_NOT_FOUND);
      }
      var keyObject := cardObject.value;
      if !keyObject.KeyObject? {
        return Failure(SW_6984_REFERENCE_DATA_NOT_USABLE);
      }
      var i := 0;
      while i < |cardObjectIdentifier|
        invariant 0 <= i <= |cardObjectIdentifier|
        invariant forall j :: 0 <= j < i ==> MatchesIdentifier(keyObject, cardObjectIdentifier[j])
      {
        if !MatchesIdentifier(keyObject, cardObjectIdentifier[i]) {
          return Failure(SW_6985_CONDITIONS_OF_USE_NOT_SATISFIED);
        }
        i := i + 1;
      }
      return Success(keyObject);
    }

    /** The compressed key of the first Terminal Authentication mechanism found; None when there is none or it holds no key. */
    method GetEphemeralPublicKeyPcdFromTa(card: CardState) returns (received: Option<seq<byte>>)
      ensures received == FirstTaKey(card.currentMechanisms)
    {
      var currentMechanisms := card.currentMechanisms;
      received := None;
      var i := 0;
      while i < |currentMechanisms|
        invariant 0 <= i <= |currentMechanisms|
        invariant forall j :: 0 <= j < i ==> !IsTa(currentMechanisms[j])
      {
        if IsTa(currentMechanisms[i]) {
          received := currentMechanisms[i].compressedTerminalEphemeralPublicKey;
          break;
        }
        i := i + 1;
      }
      assert i < |currentMechanisms| ==> FirstTaIndex(currentMechanisms) == i;
    }

    /** The Set AT command: select OID and key; answers 9000 or the failing step's status word. */
    method ProcessCommandSetAT(processingData: ProcessingData, card: CardState)
      modifies this, processingData
      ensures var r := SetAt(old(Session()), processingData.commandData, card, platform);
        && Session() == r.session
        && processingData.response == Some(r.response)
        && processingData.propagations == old(processingData.propagations)
    {
      var commandData := processingData.commandData;
      var extracted := ExtractCaOidFromCommandData(commandData, platform);
      if extracted.Failure? {
        processingData.UpdateResponseApdu(ResponseApdu(None, extracted.error));
        return;
      }
      caOid := Some(extracted.value);

      var keyIdentifier := ExtractKeyIdentifierFromCommandData(commandData, platform);
      var caOidIdentifier := OidIdentifier(extracted.value);
      var resolved := GetKeyObjectForKeyIdentifier(card, keyIdentifier, [caOidIdentifier]);
      if resolved.Failure? {
        processingData.UpdateResponseApdu(ResponseApdu(None, resolved.error));
        return;
      }
      var keyObject := resolved.value;

      staticKeyPairPicc := Some(keyObject.keyPair);
      keyReference := keyObject.primaryIdentifier;
      caDomainParameters := Some(platform.domainParametersOf(keyObject.keyPair.publicKey));
      cryptoSupport := Some(platform.cryptoSupportOf(extracted.value));

      processingData.UpdateResponseApdu(ResponseApdu(None, SW_9000_NO_ERROR));
    }

    /**
     * The key material in tag 80 below tag 7C; records the key agreement
     * algorithm's name. None stands for the NullPointerException thrown when
     * the tag or the domain parameters are missing, before anything is set.
     */
    method GetPcdPublicKeyMaterialFromApdu(processingData: ProcessingData) returns (material: Option<seq<byte>>)
      modifies this
      ensures var m := PcdPublicKeyMaterial(processingData.commandData, platform);
        if m.None? || old(caDomainParameters).None? then
          material.None? && Session() == old(Session())
        else
          && material == m
          && Session() == old(Session()).(keyAgreementAlgorithmName :=
                            Some(platform.keyAgreementAlgorithmOf(old(caDomainParameters).value)))
    {
      var m := PcdPublicKeyMaterial(processingData.commandData, platform);
      if m.None? || caDomainParameters.None? {
        return None;
      }
      keyAgreementAlgorithmName := Some(platform.keyAgreementAlgorithmOf(caDomainParameters.value));
      return m;
    }

    /** The binding check against the Terminal Authentication recorded on the card. */
    method AssertEphemeralPublicKeyPcdMatchesCompressedKeyReceivedDuringTa(ephemeralPublicKeyPcd: PublicKey, card: CardState)
      returns (failure: Option<StatusWord>)
      requires caDomainParameters.Some?
      ensures failure == BindingCheck(caDomainParameters.value, ephemeralPublicKeyPcd, card.currentMechanisms, platform)
    {
      var compressed := platform.comp(caDomainParameters.value, ephemeralPublicKeyPcd);
      if compressed.CompressionNoSuchAlgorithm? {
        return Some(SW_6FFF_IMPLEMENTATION_ERROR);
      }
      var received := GetEphemeralPublicKeyPcdFromTa(card);
      if received.None? {
        return Some(SW_6982_SECURITY_STATUS_NOT_SATISFIED);
      }
      if compressed.bytes != received.value {
        return Some(SW_6984_REFERENCE_DATA_NOT_USABLE);
      }
      return None;
    }

    /**
     * Derives the MAC and encryption keys from the shared secret and the nonce.
     * Without a crypto support object it throws a NullPointerException and sets nothing.
     */
    method ComputeSessionKeys(sharedSecret: seq<byte>, rPiccNonce: seq<byte>) returns (thrown: Option<JavaException>)
      requires caOid.Some?
      modifies this
      ensures old(cryptoSupport).None? ==> thrown == Some(NullPointerException) && Session() == old(Session())
      ensures old(cryptoSupport).Some? ==>
        var keyLength := platform.symmetricCipherKeyLengthOf(old(caOid).value);
        && thrown.None?
        && Session() == old(Session()).(
             secretKeySpecMac := Some(platform.secretKeySpecMac(old(cryptoSupport).value, platform.deriveMac(keyLength, sharedSecret, rPiccNonce))),
             secretKeySpecEnc := Some(platform.secretKeySpecCipher(old(cryptoSupport).value, platform.deriveEnc(keyLength, sharedSecret, rPiccNonce))))
    {
      if cryptoSupport.None? {
        return Some(NullPointerException);
      }
      var keyLength := platform.symmetricCipherKeyLengthOf(caOid.value);
      var keyMaterialMac := platform.deriveMac(keyLength, sharedSecret, rPiccNonce);
      var keyMaterialEnc := platform.deriveEnc(keyLength, sharedSecret, rPiccNonce);
      secretKeySpecMAC := Some(platform.secretKeySpecMac(cryptoSupport.value, keyMaterialMac));
      secretKeySpecENC := Some(platform.secretKeySpecCipher(cryptoSupport.value, keyMaterialEnc));
      return None;
    }

    /** Hands a secure messaging provider over the session keys to the dispatcher; 6FFF when none can be built. */
    method PropagateSessionKeys(processingData: ProcessingData) returns (failure: Option<StatusWord>)
      requires secretKeySpecENC.Some? && secretKeySpecMAC.Some?
      modifies processingData
      ensures var accepted := platform.smDataProviderAccepts(secretKeySpecENC.value, secretKeySpecMAC.value);
        && failure == (if accepted then None else Some(SW_6FFF_IMPLEMENTATION_ERROR))
        && processingData.response == old(processingData.response)
        && processingData.propagations == old(processingData.propagations) +
             (if accepted then [SmDataProviderUpdate(SmDataProviderTr03110(secretKeySpecENC.value, secretKeySpecMAC.value))] else [])
    {
      if !platform.smDataProviderAccepts(secretKeySpecENC.value, secretKeySpecMAC.value) {
        return Some(SW_6FFF_IMPLEMENTATION_ERROR);
      }
      var smDataProvider := SmDataProviderTr03110(secretKeySpecENC.value, secretKeySpecMAC.value);
      processingData.AddUpdatePropagation(SmDataProviderUpdate(smDataProvider));
      return None;
    }

    /**
     * The General Authenticate command. A NullPointerException escaping the
     * handler is reported in `thrown`; then no response is set.
     */
    method ProcessCommandGeneralAuthenticate(processingData: ProcessingData, card: CardState, random: nat -> byte)
      returns (thrown: Option<JavaException>)
      modifies this, processingData
      ensures var r := GeneralAuthenticate(old(Session()), processingData.commandData, card, platform, random);
        && Session() == r.session
        && thrown == (if r.outcome.Escaped? then Some(NullPointerException) else None)
        && processingData.response == (if r.outcome.Escaped? then old(processingData.response) else GaResponse(r.outcome))
        && processingData.propagations == old(processingData.propagations) + GaPropagations(r.outcome)
    {
      var material := GetPcdPublicKeyMaterialFromApdu(processingData);
      if material.None? {
        return Some(NullPointerException);
      }
      var dp := caDomainParameters.value;

      var reconstructed := ReconstructEphemeralPublicKeyPcd(dp, material.value, platform);
      if reconstructed.Failure? {
        processingData.UpdateResponseApdu(ResponseApdu(None, reconstructed.error));
        return None;
      }
      var ephemeralPublicKeyPcd := reconstructed.value;

      var failure := AssertEphemeralPublicKeyPcdMatchesCompressedKeyReceivedDuringTa(ephemeralPublicKeyPcd, card);
      if failure.Some? {
        processingData.UpdateResponseApdu(ResponseApdu(None, failure.value));
        return None;
      }
      thrown := AgreeAndDeriveSessionKeys(processingData, dp, ephemeralPublicKeyPcd, random);
    }

    /**
     * General Authenticate after the binding check: key agreement, nonce,
     * session keys, token, secure messaging provider, security status and
     * response, in the order the handler runs them.
     */
    method AgreeAndDeriveSessionKeys(processingData: ProcessingData, dp: DomainParameters,
                                     ephemeralPublicKeyPcd: PublicKey, random: nat -> byte)
      returns (thrown: Option<JavaException>)
      modifies this, processingData
      ensures var r := AgreeAndDerive(old(Session()), dp, ephemeralPublicKeyPcd, platform, random);
        && Session() == r.session
        && thrown == (if r.outcome.Escaped? then Some(NullPointerException) else None)
        && processingData.response == (if r.outcome.Escaped? then old(processingData.response) else GaResponse(r.outcome))
        && processingData.propagations == old(processingData.propagations) + GaPropagations(r.outcome)
    {
      if staticKeyPairPicc.None? || caOid.None? {
        return Some(NullPointerException);
      }
      var agreed := PerformKeyAgreement(platform.keyAgreementNameOf(caOid.value),
                                        staticKeyPairPicc.value.privateKey, ephemeralPublicKeyPcd, platform);
      if agreed.Failure? {
        processingData.UpdateResponseApdu(ResponseApdu(None, agreed.error));
        return None;
      }
      var rPiccNonce := GenerateRPiccNonce(random);

      thrown := ComputeSessionKeys(agreed.value, rPiccNonce);
      if thrown.Some? {
        return;
      }
      var authenticationTokenTpicc := ComputeAuthenticationTokenTpicc(
        ephemeralPublicKeyPcd, dp, caOid.value, cryptoSupport.value, secretKeySpecMAC.value, platform);

      var failure := PropagateSessionKeys(processingData);
      if failure.Some? {
        processingData.UpdateResponseApdu(ResponseApdu(None, failure.value));
        return None;
      }

      var mechanism := ChipAuthenticationMechanism(caOid.value, keyReference, ephemeralPublicKeyPcd);
      processingData.AddUpdatePropagation(SecStatusMechanismUpdate(Application, mechanism));

      var responseData := PrepareResponseData(rPiccNonce, authenticationTokenTpicc);
      processingData.UpdateResponseApdu(ResponseApdu(Some(responseData), SW_9000_NO_ERROR));

      processingData.AddUpdatePropagation(ProtocolUpdate(true));
      return None;
    }

    /** The key reference of the first key identifier of a key object, or -1. */
    static method ExtractKeyId(identifiers: seq<CardObjectIdentifier>) returns (keyId: int)
      ensures keyId == KeyIdOf(identifiers)
    {
      keyId := -1;
      var i := 0;
      while i < |identifiers|
        invariant 0 <= i <= |identifiers|
        invariant keyId == -1
        invariant forall j :: 0 <= j < i ==> !identifiers[j].KeyIdentifierOf?
      {
        if identifiers[i].KeyIdentifierOf? {
          keyId := identifiers[i].keyReference;
          break;
        }
        i := i + 1;
      }
      KeyIdOfFirst(identifiers);
    }

    /**
     * Appends a CaInfo to `infos` for each identifier under id-CA, and keeps the
     * generic CA OID of the last of them.
     */
    static method AddCaInfos(identifiers: seq<CardObjectIdentifier>, keyId: int, infos: seq<TlvObject>)
      returns (infos': seq<TlvObject>, genericCaOidBytes: Option<seq<byte>>)
      ensures infos' == infos + CaInfosOf(identifiers, keyId)
      ensures genericCaOidBytes == (if LastCaOid(identifiers).Some? then Some(GenericCaOid(LastCaOid(identifiers).value)) else None)
    {
      infos' := infos;
      genericCaOidBytes := None;
      var i := 0;
      while i < |identifiers|
        invariant 0 <= i <= |identifiers|
        invariant infos' == infos + CaInfosOf(identifiers[..i], keyId)
        invariant genericCaOidBytes == (if LastCaOid(identifiers[..i]).Some? then Some(GenericCaOid(LastCaOid(identifiers[..i]).value)) else None)
      {
        var curIdentifier := identifiers[i];
        assert identifiers[..i + 1][..i] == identifiers[..i];
        if IsCaOid(curIdentifier) {
          var oidBytes := curIdentifier.oid.bytes;
          genericCaOidBytes := Some(CopyOf(oidBytes, GENERIC_CA_OID_LENGTH));
          infos' := infos' + [CaInfo(oidBytes, keyId)];
        }
        i := i + 1;
      }
      assert identifiers[..i] == identifiers;
    }

    /**
     * Appends the CaInfos and the DomainInfo of a key object with key reference
     * `keyId` to the bucket its privilege selects, and returns its generic CA OID.
     */
    method AddSecInfos(curObject: CardObject, keyId: int, infos: seq<TlvObject>)
      returns (infos': seq<TlvObject>, genericCaOid: seq<byte>)
      requires curObject.KeyObject? && MatchesIdentifier(curObject, CaOidIdentifier)
      requires keyId == KeyIdOf(curObject.identifiers)
      ensures infos' == infos + KeySecInfos(curObject, platform)
      ensures genericCaOid == KeyGenericCaOid(curObject)
    {
      var identifiers := curObject.identifiers;
      var genericCaOidBytes;
      infos', genericCaOidBytes := AddCaInfos(identifiers, keyId, infos);
      LastCaOidFound(identifiers);
      genericCaOid := genericCaOidBytes.value;

      // extract required data from curKey, using standardized domain parameters if possible
      var algIdentifier := platform.simplifyAlgorithmIdentifier(platform.algorithmIdentifierOf(curObject.keyPair.publicKey));

      // add CaDomainParameterInfo
      var caDomainInfo := DomainInfo(genericCaOid, algIdentifier, keyId);
      infos' := infos' + [caDomainInfo];
    }

    /** The body of the builder's loop: files the descriptors of one card object into the four buckets. */
    method FileCardObject(curObject: CardObject, publicity: SecInfoPublicity,
                          secInfos: seq<TlvObject>, privilegedSecInfos: seq<TlvObject>,
                          unprivilegedPublicKeyInfos: seq<TlvObject>, privilegedPublicKeyInfos: seq<TlvObject>)
      returns (secInfos': seq<TlvObject>, privilegedSecInfos': seq<TlvObject>,
               unprivilegedPublicKeyInfos': seq<TlvObject>, privilegedPublicKeyInfos': seq<TlvObject>)
      requires MatchesIdentifier(curObject, CaOidIdentifier)
      ensures Buckets(secInfos', privilegedSecInfos', unprivilegedPublicKeyInfos', privilegedPublicKeyInfos')
              == AddKey(Buckets(secInfos, privilegedSecInfos, unprivilegedPublicKeyInfos, privilegedPublicKeyInfos),
                        curObject, publicity, platform)
    {
      secInfos', privilegedSecInfos' := secInfos, privilegedSecInfos;
      unprivilegedPublicKeyInfos', privilegedPublicKeyInfos' := unprivilegedPublicKeyInfos, privilegedPublicKeyInfos;
      if !curObject.KeyObject? {
        return;
      }
      var keyId := ExtractKeyId(curObject.identifiers);
      if keyId == -1 {
        return;
      }
      var privileged := curObject.privilegedOnly;

      var genericCaOid;
      if privileged {
        privilegedSecInfos', genericCaOid := AddSecInfos(curObject, keyId, privilegedSecInfos');
      } else {
        secInfos', genericCaOid := AddSecInfos(curObject, keyId, secInfos');
      }

      // build SubjectPublicKeyInfo
      var publicKey := curObject.keyPair.publicKey;
      var algIdentifier := platform.simplifyAlgorithmIdentifier(platform.algorithmIdentifierOf(publicKey));
      var subjPubKeyInfo := Constructed(TAG_SEQUENCE, [algIdentifier, platform.subjectPublicKeyOf(publicKey)]);
      if publicity == Authenticated || publicity == Privileged {
        // add CaPublicKeyInfo
        var caPublicKeyInfo := PkInfo(genericCaOid, subjPubKeyInfo, keyId);
        if privileged {
          privilegedPublicKeyInfos' := privilegedPublicKeyInfos' + [caPublicKeyInfo];
        } else {
          unprivilegedPublicKeyInfos' := unprivilegedPublicKeyInfos' + [caPublicKeyInfo];
        }
      }
    }

    /**
     * The SecurityInfos of Chip Authentication for the key objects the master
     * file holds under id-CA, filed into four buckets in one pass.
     */
    method GetSecInfos(publicity: SecInfoPublicity, caKeyCardObjects: seq<CardObject>)
      returns (secInfos: seq<TlvObject>)
      requires FoundByCaOid(caKeyCardObjects)
      ensures secInfos == SecInfos(caKeyCardObjects, publicity, platform)
    {
      secInfos := [];
      var privilegedSecInfos: seq<TlvObject> := [];
      var unprivilegedPublicKeyInfos: seq<TlvObject> := [];
      var privilegedPublicKeyInfos: seq<TlvObject> := [];

      var n := 0;
      while n < |caKeyCardObjects|
        invariant 0 <= n <= |caKeyCardObjects|
        invariant FoundByCaOid(caKeyCardObjects[..n])
        invariant Buckets(secInfos, privilegedSecInfos, unprivilegedPublicKeyInfos, privilegedPublicKeyInfos)
                  == BucketsFor(caKeyCardObjects[..n], publicity, platform)
      {
        assert caKeyCardObjects[..n + 1][..n] == caKeyCardObjects[..n];
        secInfos, privilegedSecInfos, unprivilegedPublicKeyInfos, privilegedPublicKeyInfos :=
          FileCardObject(caKeyCardObjects[n], publicity,
                         secInfos, privilegedSecInfos, unprivilegedPublicKeyInfos, privilegedPublicKeyInfos);
        n := n + 1;
      }
      assert caKeyCardObjects[..n] == caKeyCardObjects;
      ghost var b := Buckets(secInfos, privilegedSecInfos, unprivilegedPublicKeyInfos, privilegedPublicKeyInfos);

      // add publicKeys if publicity allows
      if publicity == Authenticated || publicity == Privileged {
        secInfos := secInfos + unprivilegedPublicKeyInfos;
      }

      // add PrivilegedTerminalInfo if privileged keys are available
      if |privilegedSecInfos| + |privilegedPublicKeyInfos| > 0 {
        var privilegedTerminalInfoSet := privilegedSecInfos;
        if publicity == Privileged {
          privilegedTerminalInfoSet := privilegedTerminalInfoSet + privilegedPublicKeyInfos;
        }
        assert privilegedTerminalInfoSet == PtSet(b, publicity);
        secInfos := secInfos + [PtInfo(privilegedTerminalInfoSet)];
      }
      assert secInfos == Assemble(b, publicity);
    }
  }
}
