/** Properties of the Set AT and General Authenticate specification. */
module CaProperties {
  import opened Wrappers
  import opened Tlv
  import opened Oids
  import opened CaTypes
  import opened CaSpec

  // ---------------------------------------------------------------- Set AT

  /**
   * Set AT: the response never carries data; 9000 exactly when the OID is accepted
   * and the key resolves; the status word of the failing step otherwise. The OID
   * is stored as soon as it is extracted; the key fields only on success.
   */
  lemma SetAtOutcomes(s: Session, commandData: seq<TlvObject>, card: CardState, platform: Platform)
    ensures var r := SetAt(s, commandData, card, platform);
      var oid := ExtractCaOidFromCommandData(commandData, platform);
      && r.response.data.None?
      && (oid.Failure? ==> r == SetAtResult(s, ResponseApdu(None, SW_6A80_WRONG_DATA)))
      && (oid.Success? ==>
            var key := KeyObjectFor(card, ExtractKeyIdentifierFromCommandData(commandData, platform), [OidIdentifier(oid.value)]);
            && (key.Failure? ==> r == SetAtResult(s.(caOid := Some(oid.value)), ResponseApdu(None, key.error)))
            && (key.Success? ==>
                  && r.response.statusWord == SW_9000_NO_ERROR
                  && r.session == s.(caOid := Some(oid.value),
                                     staticKeyPairPicc := Some(key.value.keyPair),
                                     keyReference := key.value.primaryIdentifier,
                                     caDomainParameters := Some(platform.domainParametersOf(key.value.keyPair.publicKey)),
                                     cryptoSupport := Some(platform.cryptoSupportOf(oid.value)))))
  {
  }

  /** The status words Set AT can answer with; 9000 means every step passed. */
  lemma SetAtStatusWords(s: Session, commandData: seq<TlvObject>, card: CardState, platform: Platform)
    ensures var r := SetAt(s, commandData, card, platform);
      && r.response.statusWord in {SW_9000_NO_ERROR, SW_6A80_WRONG_DATA, SW_6A88_REFERENCE_DATA_NOT_FOUND,
                                   SW_6984_REFERENCE_DATA_NOT_USABLE, SW_6985_CONDITIONS_OF_USE_NOT_SATISFIED}
      && (r.response.statusWord == SW_9000_NO_ERROR <==>
            && ExtractCaOidFromCommandData(commandData, platform).Success?
            && KeyObjectFor(card, ExtractKeyIdentifierFromCommandData(commandData, platform),
                            [OidIdentifier(ExtractCaOidFromCommandData(commandData, platform).value)]).Success?)
  {
  }

  /** A key reference that resolves to a non-key object is answered 6984 and leaves the key fields alone. */
  lemma SetAtNonKeyObject(s: Session, commandData: seq<TlvObject>, card: CardState, platform: Platform)
    requires ExtractCaOidFromCommandData(commandData, platform).Success?
    requires var k := card.lookup(ExtractKeyIdentifierFromCommandData(commandData, platform));
      k.Some? && !k.value.KeyObject?
    ensures var r := SetAt(s, commandData, card, platform);
      && r.response == ResponseApdu(None, SW_6984_REFERENCE_DATA_NOT_USABLE)
      && r.session.staticKeyPairPicc == s.staticKeyPairPicc
      && r.session.caDomainParameters == s.caDomainParameters
      && r.session.cryptoSupport == s.cryptoSupport
      && r.session.keyReference == s.keyReference
  {
  }

  lemma SetAtPreservesConsistency(s: Session, commandData: seq<TlvObject>, card: CardState, platform: Platform)
    requires Consistent(s)
    ensures Consistent(SetAt(s, commandData, card, platform).session)
  {
  }

  // ---------------------------------------------------- General Authenticate

  /** Every step before key derivation passed. */
  predicate ReachesKeyDerivation(s: Session, commandData: seq<TlvObject>, card: CardState, platform: Platform)
  {
    && PcdPublicKeyMaterial(commandData, platform).Some?
    && s.caDomainParameters.Some?
    && s.staticKeyPairPicc.Some? && s.caOid.Some? && s.cryptoSupport.Some?
    && var dp := s.caDomainParameters.value;
       var reconstruction := platform.reconstructPublicKey(dp, PcdPublicKeyMaterial(commandData, platform).value);
       && reconstruction.Reconstructed?
       && BindingCheck(dp, reconstruction.key, card.currentMechanisms, platform).None?
       && platform.keyAgreement(platform.keyAgreementNameOf(s.caOid.value),
                                s.staticKeyPairPicc.value.privateKey, reconstruction.key).SharedSecret?
  }

  /**
   * A failed General Authenticate adds no propagation and answers with the
   * status word alone; the status word is one of the four the pipeline defines.
   */
  lemma GaFailureEmitsNothing(s: Session, commandData: seq<TlvObject>, card: CardState,
                              platform: Platform, random: nat -> byte)
    ensures var o := GeneralAuthenticate(s, commandData, card, platform, random).outcome;
      && (!o.Succeeded? ==> GaPropagations(o) == [])
      && (o.Failed? ==>
            && GaResponse(o) == Some(ResponseApdu(None, o.sw))
            && o.sw in {SW_6A80_WRONG_DATA, SW_6982_SECURITY_STATUS_NOT_SATISFIED,
                        SW_6984_REFERENCE_DATA_NOT_USABLE, SW_6FFF_IMPLEMENTATION_ERROR})
      && (o.Escaped? ==> GaResponse(o).None?)
  {
  }

  /**
   * A successful General Authenticate answers 9000 with 7C { 81 nonce, 82 token },
   * both 8 bytes, and adds exactly the SM provider built from the new session
   * keys, the CA mechanism record and the completion flag, in this order.
   */
  lemma GaSuccessShape(s: Session, commandData: seq<TlvObject>, card: CardState,
                       platform: Platform, random: nat -> byte)
    ensures var r := GeneralAuthenticate(s, commandData, card, platform, random);
      var o := r.outcome;
      o.Succeeded? ==>
        && |o.rPiccNonce| == 8 && |o.authenticationTokenTpicc| == 8
        && o.rPiccNonce == GenerateRPiccNonce(random)
        && GaResponse(o) == Some(ResponseApdu(Some([Constructed(TAG_7C, [Primitive(TAG_81, o.rPiccNonce),
                                                                        Primitive(TAG_82, o.authenticationTokenTpicc)])]),
                                              SW_9000_NO_ERROR))
        && GaPropagations(o) == [SmDataProviderUpdate(o.smDataProvider),
                                 SecStatusMechanismUpdate(Application, o.mechanism),
                                 ProtocolUpdate(true)]
        && r.session.secretKeySpecEnc == Some(o.smDataProvider.cipherKey)
        && r.session.secretKeySpecMac == Some(o.smDataProvider.macKey)
        && s.caOid == Some(o.mechanism.caOid)
        && o.mechanism.keyReference == s.keyReference
  {
  }

  /** Success only after the peer key, reconstructed, compresses to the key recorded by Terminal Authentication. */
  lemma GaSuccessRequiresBinding(s: Session, commandData: seq<TlvObject>, card: CardState,
                                 platform: Platform, random: nat -> byte)
    ensures var o := GeneralAuthenticate(s, commandData, card, platform, random).outcome;
      o.Succeeded? ==>
        && ReachesKeyDerivation(s, commandData, card, platform)
        && var dp := s.caDomainParameters.value;
           var pk := o.mechanism.ephemeralPublicKeyPcd;
           && platform.reconstructPublicKey(dp, PcdPublicKeyMaterial(commandData, platform).value) == Reconstructed(pk)
           && platform.comp(dp, pk).Compressed?
           && FirstTaKey(card.currentMechanisms) == Some(platform.comp(dp, pk).bytes)
  {
  }

  /** With no Terminal Authentication recorded, a well-formed peer key is answered 6982. */
  lemma GaWithoutTaRecord(s: Session, commandData: seq<TlvObject>, card: CardState,
                          platform: Platform, random: nat -> byte, pk: PublicKey)
    requires PcdPublicKeyMaterial(commandData, platform).Some?
    requires s.caDomainParameters.Some?
    requires platform.reconstructPublicKey(s.caDomainParameters.value, PcdPublicKeyMaterial(commandData, platform).value) == Reconstructed(pk)
    requires platform.comp(s.caDomainParameters.value, pk).Compressed?
    requires forall i :: 0 <= i < |card.currentMechanisms| ==> !card.currentMechanisms[i].TerminalAuthenticationMechanism?
    ensures var r := GeneralAuthenticate(s, commandData, card, platform, random);
      && r.outcome == Failed(SW_6982_SECURITY_STATUS_NOT_SATISFIED)
      && GaPropagations(r.outcome) == []
  {
  }

  /**
   * The first Terminal Authentication mechanism decides: when it holds no key the
   * answer is 6982, even if a later one holds the matching key.
   */
  lemma GaFirstTaWithoutKey(s: Session, commandData: seq<TlvObject>, card: CardState,
                            platform: Platform, random: nat -> byte, pk: PublicKey, i: nat)
    requires PcdPublicKeyMaterial(commandData, platform).Some?
    requires s.caDomainParameters.Some?
    requires platform.reconstructPublicKey(s.caDomainParameters.value, PcdPublicKeyMaterial(commandData, platform).value) == Reconstructed(pk)
    requires platform.comp(s.caDomainParameters.value, pk).Compressed?
    requires i < |card.currentMechanisms| && card.currentMechanisms[i] == TerminalAuthenticationMechanism(None)
    requires forall j :: 0 <= j < i ==> !card.currentMechanisms[j].TerminalAuthenticationMechanism?
    ensures var r := GeneralAuthenticate(s, commandData, card, platform, random);
      && r.outcome == Failed(SW_6982_SECURITY_STATUS_NOT_SATISFIED)
      && GaPropagations(r.outcome) == []
  {
  }

  /**
   * A compressed peer key that differs from the recorded one is answered 6984;
   * no session key is derived and nothing is published.
   */
  lemma GaBindingMismatch(s: Session, commandData: seq<TlvObject>, card: CardState,
                          platform: Platform, random: nat -> byte, pk: PublicKey)
    requires PcdPublicKeyMaterial(commandData, platform).Some?
    requires s.caDomainParameters.Some?
    requires platform.reconstructPublicKey(s.caDomainParameters.value, PcdPublicKeyMaterial(commandData, platform).value) == Reconstructed(pk)
    requires platform.comp(s.caDomainParameters.value, pk).Compressed?
    requires FirstTaKey(card.currentMechanisms).Some?
    requires FirstTaKey(card.currentMechanisms).value != platform.comp(s.caDomainParameters.value, pk).bytes
    ensures var r := GeneralAuthenticate(s, commandData, card, platform, random);
      && r.outcome == Failed(SW_6984_REFERENCE_DATA_NOT_USABLE)
      && r.session.secretKeySpecMac == s.secretKeySpecMac
      && r.session.secretKeySpecEnc == s.secretKeySpecEnc
      && GaPropagations(r.outcome) == []
  {
  }

  /** Session keys change only once every step up to and including key agreement has passed. */
  lemma GaKeysOnlyAfterAgreement(s: Session, commandData: seq<TlvObject>, card: CardState,
                                 platform: Platform, random: nat -> byte)
    ensures var r := GeneralAuthenticate(s, commandData, card, platform, random);
      (r.session.secretKeySpecMac != s.secretKeySpecMac || r.session.secretKeySpecEnc != s.secretKeySpecEnc) ==>
        ReachesKeyDerivation(s, commandData, card, platform)
  {
  }

  /**
   * General Authenticate writes only the algorithm name and the two session keys;
   * the fields Set AT chose stay as they were, so consistency is preserved.
   */
  lemma GaChangesOnlyDerivedFields(s: Session, commandData: seq<TlvObject>, card: CardState,
                                   platform: Platform, random: nat -> byte)
    ensures var t := GeneralAuthenticate(s, commandData, card, platform, random).session;
      && t.caOid == s.caOid && t.caDomainParameters == s.caDomainParameters
      && t.cryptoSupport == s.cryptoSupport && t.keyReference == s.keyReference
      && t.staticKeyPairPicc == s.staticKeyPairPicc
      && (Consistent(s) ==> Consistent(t))
  {
  }

  /** Without a completed Set AT (no domain parameters) General Authenticate cannot succeed: it throws. */
  lemma GaBeforeSetAtEscapes(s: Session, commandData: seq<TlvObject>, card: CardState,
                             platform: Platform, random: nat -> byte)
    requires s.caDomainParameters.None?
    ensures GeneralAuthenticate(s, commandData, card, platform, random) == GaResult(s, Escaped)
  {
  }

  /** On a consistent session an exception escapes only for missing key material or a missing Set AT. */
  lemma GaEscapesOnlyWithoutMaterialOrSetAt(s: Session, commandData: seq<TlvObject>, card: CardState,
                                            platform: Platform, random: nat -> byte)
    requires Consistent(s)
    ensures GeneralAuthenticate(s, commandData, card, platform, random).outcome.Escaped? <==>
      PcdPublicKeyMaterial(commandData, platform).None? || s.caDomainParameters.None?
  {
  }

  /**
   * Set AT followed by General Authenticate: when both succeed, the published
   * mechanism names the OID from tag 80 and the key's primary reference, and
   * the published SM provider holds the session keys now stored.
   */
  lemma SetAtThenGeneralAuthenticate(s: Session, setAtData: seq<TlvObject>, gaData: seq<TlvObject>,
                                     card: CardState, platform: Platform, random: nat -> byte)
    requires SetAt(s, setAtData, card, platform).response.statusWord == SW_9000_NO_ERROR
    ensures var r1 := SetAt(s, setAtData, card, platform);
      var r2 := GeneralAuthenticate(r1.session, gaData, card, platform, random);
      var key := card.lookup(ExtractKeyIdentifierFromCommandData(setAtData, platform)).value;
      && (r2.outcome.Escaped? <==> PcdPublicKeyMaterial(gaData, platform).None?)
      && (r2.outcome.Succeeded? ==>
            && r2.outcome.mechanism.caOid == Oid(ValueField(Find(setAtData, TAG_80).value, platform.serialize))
            && r2.outcome.mechanism.keyReference == key.primaryIdentifier
            && r2.session.secretKeySpecMac == Some(r2.outcome.smDataProvider.macKey)
            && r2.session.secretKeySpecEnc == Some(r2.outcome.smDataProvider.cipherKey))
  {
    SetAtOutcomes(s, setAtData, card, platform);
  }
}
