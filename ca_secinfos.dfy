/**
 * The SecurityInfo descriptors Chip Authentication announces (BSI TR-03110
 * Part 3, Appendix A): for every CA key object a ChipAuthenticationInfo per
 * CA OID it carries, one ChipAuthenticationDomainParameterInfo and, above the
 * lowest publicity, one ChipAuthenticationPublicKeyInfo. Keys reserved for
 * privileged terminals are announced inside one PrivilegedTerminalInfo.
 */
module CaSecInfos {
  import opened Wrappers
  import opened Tlv
  import opened Oids
  import opened CaTypes
  import opened CaSpec

  datatype SecInfoPublicity = Plain | Authenticated | Privileged

  /** id-CA, id-PK and id-PT of BSI TR-03110 Part 3 (0.4.0.127.0.7.2.2.3, .1 and .8). */
  const ID_CA: seq<byte> := [0x04, 0x00, 0x7F, 0x00, 0x07, 0x02, 0x02, 0x03]
  const ID_PK: seq<byte> := [0x04, 0x00, 0x7F, 0x00, 0x07, 0x02, 0x02, 0x01]
  const ID_PT: seq<byte> := [0x04, 0x00, 0x7F, 0x00, 0x07, 0x02, 0x02, 0x08]

  const CaOidIdentifier: CardObjectIdentifier := OidIdentifier(Oid(ID_CA))

  /** The length of the generic CA OID (id-CA plus the key agreement arc). */
  const GENERIC_CA_OID_LENGTH: nat := 9

  predicate IsCaOid(id: CardObjectIdentifier)
  {
    IdentifierMatches(CaOidIdentifier, id)
  }

  /** The key reference of the first key identifier, or -1 when there is none. */
  function KeyIdOf(ids: seq<CardObjectIdentifier>): int
  {
    if |ids| == 0 then -1
    else if ids[0].KeyIdentifierOf? then ids[0].keyReference
    else KeyIdOf(ids[1..])
  }

  lemma {:induction false} KeyIdOfFirst(ids: seq<CardObjectIdentifier>)
    ensures forall i :: 0 <= i < |ids| && ids[i].KeyIdentifierOf? && (forall j :: 0 <= j < i ==> !ids[j].KeyIdentifierOf?)
              ==> KeyIdOf(ids) == ids[i].keyReference
    ensures (forall i :: 0 <= i < |ids| ==> !ids[i].KeyIdentifierOf?) ==> KeyIdOf(ids) == -1
  {
    if |ids| > 0 && !ids[0].KeyIdentifierOf? {
      KeyIdOfFirst(ids[1..]);
      assert forall i :: 1 <= i < |ids| ==> ids[1..][i - 1] == ids[i];
    }
  }

  function IntegerOf(keyId: int): TlvObject
  {
    Primitive(TAG_INTEGER, [ByteOf(keyId)])
  }

  /** ChipAuthenticationInfo: SEQUENCE { protocol OID, version 2, keyId }. */
  function CaInfo(oidBytes: seq<byte>, keyId: int): TlvObject
  {
    Constructed(TAG_SEQUENCE, [Primitive(TAG_OID, oidBytes), Primitive(TAG_INTEGER, [2]), IntegerOf(keyId)])
  }

  /** ChipAuthenticationDomainParameterInfo: SEQUENCE { generic OID, AlgorithmIdentifier, keyId }. */
  function DomainInfo(genericCaOid: seq<byte>, algIdentifier: TlvObject, keyId: int): TlvObject
  {
    Constructed(TAG_SEQUENCE, [Primitive(TAG_OID, genericCaOid), algIdentifier, IntegerOf(keyId)])
  }

  /** ChipAuthenticationPublicKeyInfo: SEQUENCE { id-PK arc, SubjectPublicKeyInfo, keyId }. */
  function PkInfo(genericCaOid: seq<byte>, subjPubKeyInfo: TlvObject, keyId: int): TlvObject
    requires |genericCaOid| == GENERIC_CA_OID_LENGTH
  {
    Constructed(TAG_SEQUENCE, [Primitive(TAG_OID, ID_PK + [genericCaOid[8]]), subjPubKeyInfo, IntegerOf(keyId)])
  }

  /** PrivilegedTerminalInfo: SEQUENCE { id-PT, SET { infos } }. */
  function PtInfo(infos: seq<TlvObject>): TlvObject
  {
    Constructed(TAG_SEQUENCE, [Primitive(TAG_OID, ID_PT), Constructed(TAG_SET, infos)])
  }

  /** The OID a SecurityInfo starts with, if it starts with one. */
  function ProtocolOf(t: TlvObject): Option<seq<byte>>
  {
    if t.Constructed? && t.tag == TAG_SEQUENCE && |t.children| > 0
       && t.children[0].Primitive? && t.children[0].tag == TAG_OID
    then Some(t.children[0].value)
    else None
  }

  predicate IsPkInfo(t: TlvObject)
  {
    ProtocolOf(t).Some? && StartsWith(ProtocolOf(t).value, ID_PK)
  }

  predicate IsPtInfo(t: TlvObject)
  {
    ProtocolOf(t) == Some(ID_PT)
  }

  /** The infos inside a PrivilegedTerminalInfo's SET; nothing for any other object. */
  function PtContents(t: TlvObject): seq<TlvObject>
  {
    if t.Constructed? && |t.children| == 2 && t.children[1].Constructed? then t.children[1].children else []
  }

  /** The CaInfos of a key: one per identifier under id-CA, in identifier order. */
  function CaInfosOf(ids: seq<CardObjectIdentifier>, keyId: int): seq<TlvObject>
  {
    if |ids| == 0 then []
    else
      CaInfosOf(ids[..|ids| - 1], keyId) + (if IsCaOid(ids[|ids| - 1]) then [CaInfo(ids[|ids| - 1].oid.bytes, keyId)] else [])
  }

  lemma {:induction false} CaInfosOfMembers(ids: seq<CardObjectIdentifier>, keyId: int)
    ensures forall t :: t in CaInfosOf(ids, keyId) ==>
              exists i :: 0 <= i < |ids| && IsCaOid(ids[i]) && t == CaInfo(ids[i].oid.bytes, keyId)
    ensures forall i :: 0 <= i < |ids| && IsCaOid(ids[i]) ==> CaInfo(ids[i].oid.bytes, keyId) in CaInfosOf(ids, keyId)
  {
    if |ids| > 0 {
      var front := ids[..|ids| - 1];
      CaInfosOfMembers(front, keyId);
      assert forall i :: 0 <= i < |front| ==> front[i] == ids[i];
    }
  }

  /** The bytes of the last identifier under id-CA. */
  function LastCaOid(ids: seq<CardObjectIdentifier>): Option<seq<byte>>
  {
    if |ids| == 0 then None
    else if IsCaOid(ids[|ids| - 1]) then Some(ids[|ids| - 1].oid.bytes)
    else LastCaOid(ids[..|ids| - 1])
  }

  lemma {:induction false} LastCaOidFound(ids: seq<CardObjectIdentifier>)
    ensures LastCaOid(ids).Some? <==> exists i :: 0 <= i < |ids| && IsCaOid(ids[i])
    ensures LastCaOid(ids).Some? ==> StartsWith(LastCaOid(ids).value, ID_CA)
    ensures LastCaOid(ids).Some? ==>
              exists i :: && 0 <= i < |ids| && IsCaOid(ids[i]) && LastCaOid(ids).value == ids[i].oid.bytes
                          && forall j :: i < j < |ids| ==> !IsCaOid(ids[j])
  {
    if |ids| > 0 && !IsCaOid(ids[|ids| - 1]) {
      var front := ids[..|ids| - 1];
      LastCaOidFound(front);
      assert forall i :: 0 <= i < |front| ==> front[i] == ids[i];
    }
  }

  /** The first nine bytes of an OID under id-CA, zero-padded, with id-CA kept. */
  function GenericCaOid(oidBytes: seq<byte>): (g: seq<byte>)
    ensures |g| == GENERIC_CA_OID_LENGTH
    ensures StartsWith(oidBytes, ID_CA) ==> StartsWith(g, ID_CA)
    ensures |oidBytes| >= GENERIC_CA_OID_LENGTH ==> g == oidBytes[..GENERIC_CA_OID_LENGTH]
  {
    CopyOf(oidBytes, GENERIC_CA_OID_LENGTH)
  }

  /** A key object that gets descriptors: a key with a key identifier. */
  predicate Processed(o: CardObject)
  {
    o.KeyObject? && KeyIdOf(o.identifiers) != -1
  }

  /** What the card-object lookup by id-CA guarantees of each object it returns. */
  predicate FoundByCaOid(objs: seq<CardObject>)
  {
    forall k :: 0 <= k < |objs| ==> MatchesIdentifier(objs[k], CaOidIdentifier)
  }

  function KeyCaInfos(o: CardObject): seq<TlvObject>
  {
    CaInfosOf(o.identifiers, KeyIdOf(o.identifiers))
  }

  function KeyGenericCaOid(o: CardObject): (g: seq<byte>)
    requires MatchesIdentifier(o, CaOidIdentifier)
    ensures |g| == GENERIC_CA_OID_LENGTH && StartsWith(g, ID_CA)
  {
    LastCaOidFound(o.identifiers);
    GenericCaOid(LastCaOid(o.identifiers).value)
  }

  function KeyAlgIdentifier(o: CardObject, platform: Platform): TlvObject
    requires o.KeyObject?
  {
    platform.simplifyAlgorithmIdentifier(platform.algorithmIdentifierOf(o.keyPair.publicKey))
  }

  function KeyDomainInfo(o: CardObject, platform: Platform): TlvObject
    requires o.KeyObject? && MatchesIdentifier(o, CaOidIdentifier)
  {
    DomainInfo(KeyGenericCaOid(o), KeyAlgIdentifier(o, platform), KeyIdOf(o.identifiers))
  }

  /** The CaInfos and then the DomainInfo of a key, as the builder appends them. */
  function KeySecInfos(o: CardObject, platform: Platform): seq<TlvObject>
    requires o.KeyObject? && MatchesIdentifier(o, CaOidIdentifier)
  {
    KeyCaInfos(o) + [KeyDomainInfo(o, platform)]
  }

  function KeyPkInfo(o: CardObject, platform: Platform): TlvObject
    requires o.KeyObject? && MatchesIdentifier(o, CaOidIdentifier)
  {
    var subjPubKeyInfo := Constructed(TAG_SEQUENCE, [KeyAlgIdentifier(o, platform),
                                                    platform.subjectPublicKeyOf(o.keyPair.publicKey)]);
    PkInfo(KeyGenericCaOid(o), subjPubKeyInfo, KeyIdOf(o.identifiers))
  }

  /** The four lists the builder fills. */
  datatype Buckets = Buckets(
    secInfos: seq<TlvObject>,
    privilegedSecInfos: seq<TlvObject>,
    unprivilegedPublicKeyInfos: seq<TlvObject>,
    privilegedPublicKeyInfos: seq<TlvObject>)

  const EmptyBuckets := Buckets([], [], [], [])

  /** The CaInfos and the DomainInfo of a key, appended to the bucket its privilege selects. */
  function FileSecInfos(b: Buckets, o: CardObject, platform: Platform): Buckets
    requires o.KeyObject? && MatchesIdentifier(o, CaOidIdentifier)
  {
    var infos := KeySecInfos(o, platform);
    if o.privilegedOnly then b.(privilegedSecInfos := b.privilegedSecInfos + infos)
    else b.(secInfos := b.secInfos + infos)
  }

  /** The public-key info of a key, appended to the bucket its privilege selects above the lowest publicity. */
  function FilePkInfo(b: Buckets, o: CardObject, publicity: SecInfoPublicity, platform: Platform): Buckets
    requires o.KeyObject? && MatchesIdentifier(o, CaOidIdentifier)
  {
    if publicity == Plain then b
    else if o.privilegedOnly then b.(privilegedPublicKeyInfos := b.privilegedPublicKeyInfos + [KeyPkInfo(o, platform)])
    else b.(unprivilegedPublicKeyInfos := b.unprivilegedPublicKeyInfos + [KeyPkInfo(o, platform)])
  }

  /** One step of the builder: file the descriptors of one card object. */
  function AddKey(b: Buckets, o: CardObject, publicity: SecInfoPublicity, platform: Platform): Buckets
    requires MatchesIdentifier(o, CaOidIdentifier)
  {
    if !Processed(o) then b
    else FilePkInfo(FileSecInfos(b, o, platform), o, publicity, platform)
  }

  /** The buckets after the builder has gone through the card objects in order. */
  function BucketsFor(objs: seq<CardObject>, publicity: SecInfoPublicity, platform: Platform): Buckets
    requires FoundByCaOid(objs)
  {
    if |objs| == 0 then EmptyBuckets
    else
      var front := objs[..|objs| - 1];
      assert forall k :: 0 <= k < |front| ==> front[k] == objs[k];
      AddKey(BucketsFor(front, publicity, platform), objs[|objs| - 1], publicity, platform)
  }

  /** The infos announced at top level: the unprivileged ones, with their public keys above the lowest publicity. */
  function TopLevel(b: Buckets, publicity: SecInfoPublicity): seq<TlvObject>
  {
    b.secInfos + (if publicity != Plain then b.unprivilegedPublicKeyInfos else [])
  }

  /** The infos inside the PrivilegedTerminalInfo: the privileged ones, with their public keys at privileged publicity. */
  function PtSet(b: Buckets, publicity: SecInfoPublicity): seq<TlvObject>
  {
    b.privilegedSecInfos + (if publicity == Privileged then b.privilegedPublicKeyInfos else [])
  }

  /** The descriptor list: the top-level infos, then the PrivilegedTerminalInfo if any privileged info exists. */
  function Assemble(b: Buckets, publicity: SecInfoPublicity): seq<TlvObject>
  {
    if |b.privilegedSecInfos| + |b.privilegedPublicKeyInfos| > 0 then
      TopLevel(b, publicity) + [PtInfo(PtSet(b, publicity))]
    else TopLevel(b, publicity)
  }

  function SecInfos(objs: seq<CardObject>, publicity: SecInfoPublicity, platform: Platform): seq<TlvObject>
    requires FoundByCaOid(objs)
  {
    Assemble(BucketsFor(objs, publicity, platform), publicity)
  }

  // ---------------------------------------------------------------------------
  // Where each descriptor comes from

  /** t is a CaInfo or the DomainInfo of some processed key with the given privilege. */
  predicate SecInfoOf(objs: seq<CardObject>, t: TlvObject, privileged: bool, platform: Platform)
    requires FoundByCaOid(objs)
  {
    exists k :: && 0 <= k < |objs| && Processed(objs[k]) && objs[k].privilegedOnly == privileged
                && t in KeySecInfos(objs[k], platform)
  }

  /** t is the public-key info of some processed key with the given privilege. */
  predicate PkInfoOf(objs: seq<CardObject>, t: TlvObject, privileged: bool, platform: Platform)
    requires FoundByCaOid(objs)
  {
    exists k :: && 0 <= k < |objs| && Processed(objs[k]) && objs[k].privilegedOnly == privileged
                && t == KeyPkInfo(objs[k], platform)
  }

  /** Every entry of a sec-info bucket comes from a processed key of the given privilege. */
  predicate SecBucketSound(objs: seq<CardObject>, s: seq<TlvObject>, privileged: bool, platform: Platform)
    requires FoundByCaOid(objs)
  {
    forall t :: t in s ==> SecInfoOf(objs, t, privileged, platform)
  }

  /** Every entry of a public-key bucket comes from a processed key of the given privilege, above the lowest publicity. */
  predicate PkBucketSound(objs: seq<CardObject>, s: seq<TlvObject>, privileged: bool,
                          publicity: SecInfoPublicity, platform: Platform)
    requires FoundByCaOid(objs)
  {
    forall t :: t in s ==> publicity != Plain && PkInfoOf(objs, t, privileged, platform)
  }

  predicate BucketsSoundFor(objs: seq<CardObject>, b: Buckets, publicity: SecInfoPublicity, platform: Platform)
    requires FoundByCaOid(objs)
  {
    && SecBucketSound(objs, b.secInfos, false, platform)
    && SecBucketSound(objs, b.privilegedSecInfos, true, platform)
    && PkBucketSound(objs, b.unprivilegedPublicKeyInfos, false, publicity, platform)
    && PkBucketSound(objs, b.privilegedPublicKeyInfos, true, publicity, platform)
  }

  /** The descriptors of a processed key are all in the buckets its privilege selects. */
  predicate KeyFiled(b: Buckets, o: CardObject, publicity: SecInfoPublicity, platform: Platform)
    requires o.KeyObject? && MatchesIdentifier(o, CaOidIdentifier)
  {
    var sec := if o.privilegedOnly then b.privilegedSecInfos else b.secInfos;
    var pk := if o.privilegedOnly then b.privilegedPublicKeyInfos else b.unprivilegedPublicKeyInfos;
    && (forall t :: t in KeyCaInfos(o) ==> t in sec)
    && KeyDomainInfo(o, platform) in sec
    && (publicity != Plain ==> KeyPkInfo(o, platform) in pk)
  }

  /** Provenance in a prefix of the objects is provenance in the whole sequence. */
  lemma ProvenanceInLongerSequence(front: seq<CardObject>, objs: seq<CardObject>, b: Buckets,
                                   publicity: SecInfoPublicity, platform: Platform)
    requires front <= objs && FoundByCaOid(front) && FoundByCaOid(objs)
    requires BucketsSoundFor(front, b, publicity, platform)
    ensures BucketsSoundFor(objs, b, publicity, platform)
  {
    forall t, p | SecInfoOf(front, t, p, platform) ensures SecInfoOf(objs, t, p, platform) {
      var k :| && 0 <= k < |front| && Processed(front[k]) && front[k].privilegedOnly == p
               && t in KeySecInfos(front[k], platform);
      assert objs[k] == front[k];
    }
    forall t, p | PkInfoOf(front, t, p, platform) ensures PkInfoOf(objs, t, p, platform) {
      var k :| && 0 <= k < |front| && Processed(front[k]) && front[k].privilegedOnly == p
               && t == KeyPkInfo(front[k], platform);
      assert objs[k] == front[k];
    }
  }

  lemma SecBucketAppend(objs: seq<CardObject>, s: seq<TlvObject>, u: seq<TlvObject>, privileged: bool, platform: Platform)
    requires FoundByCaOid(objs)
    requires SecBucketSound(objs, s, privileged, platform) && SecBucketSound(objs, u, privileged, platform)
    ensures SecBucketSound(objs, s + u, privileged, platform)
  {
    forall t | t in s + u ensures SecInfoOf(objs, t, privileged, platform) {
      if t in s {} else { assert t in u; }
    }
  }

  lemma PkBucketAppend(objs: seq<CardObject>, s: seq<TlvObject>, u: seq<TlvObject>, privileged: bool,
                       publicity: SecInfoPublicity, platform: Platform)
    requires FoundByCaOid(objs)
    requires PkBucketSound(objs, s, privileged, publicity, platform) && PkBucketSound(objs, u, privileged, publicity, platform)
    ensures PkBucketSound(objs, s + u, privileged, publicity, platform)
  {
    forall t | t in s + u ensures publicity != Plain && PkInfoOf(objs, t, privileged, platform) {
      if t in s {} else { assert t in u; }
    }
  }

  lemma LastKeySecInfo(objs: seq<CardObject>, t: TlvObject, platform: Platform)
    requires |objs| > 0 && FoundByCaOid(objs) && Processed(objs[|objs| - 1])
    requires t in KeySecInfos(objs[|objs| - 1], platform)
    ensures SecInfoOf(objs, t, objs[|objs| - 1].privilegedOnly, platform)
  {
    var n := |objs| - 1;
    assert t in KeySecInfos(objs[n], platform);
  }

  /** The CaInfos and the DomainInfo of the last key come from it. */
  lemma LastKeySecInfosSound(objs: seq<CardObject>, platform: Platform)
    requires |objs| > 0 && FoundByCaOid(objs) && Processed(objs[|objs| - 1])
    ensures var o := objs[|objs| - 1];
      SecBucketSound(objs, KeySecInfos(o, platform), o.privilegedOnly, platform)
  {
    var n := |objs| - 1;
    var o := objs[n];
    assert MatchesIdentifier(o, CaOidIdentifier);
    var infos := KeySecInfos(o, platform);
    forall t | t in infos ensures SecInfoOf(objs, t, o.privilegedOnly, platform) {
      LastKeySecInfo(objs, t, platform);
    }
  }

  /** The CaInfos and the DomainInfo the last object adds come from it. */
  lemma FileSecInfosSound(objs: seq<CardObject>, b: Buckets, publicity: SecInfoPublicity, platform: Platform)
    requires |objs| > 0 && FoundByCaOid(objs) && Processed(objs[|objs| - 1])
    requires BucketsSoundFor(objs, b, publicity, platform)
    ensures BucketsSoundFor(objs, FileSecInfos(b, objs[|objs| - 1], platform), publicity, platform)
  {
    var o := objs[|objs| - 1];
    LastKeySecInfosSound(objs, platform);
    var infos := KeySecInfos(o, platform);
    if o.privilegedOnly {
      SecBucketAppend(objs, b.privilegedSecInfos, infos, true, platform);
    } else {
      SecBucketAppend(objs, b.secInfos, infos, false, platform);
    }
  }

  /** The public-key info of the last key comes from it. */
  lemma LastKeyPkInfoSound(objs: seq<CardObject>, publicity: SecInfoPublicity, platform: Platform)
    requires |objs| > 0 && FoundByCaOid(objs) && Processed(objs[|objs| - 1]) && publicity != Plain
    ensures var o := objs[|objs| - 1];
      PkBucketSound(objs, [KeyPkInfo(o, platform)], o.privilegedOnly, publicity, platform)
  {
    var n := |objs| - 1;
    var o := objs[n];
    assert MatchesIdentifier(o, CaOidIdentifier);
    var pkInfo := KeyPkInfo(o, platform);
    assert PkInfoOf(objs, pkInfo, o.privilegedOnly, platform);
  }

  /** The public-key info the last object adds comes from it. */
  lemma FilePkInfoSound(objs: seq<CardObject>, b: Buckets, publicity: SecInfoPublicity, platform: Platform)
    requires |objs| > 0 && FoundByCaOid(objs) && Processed(objs[|objs| - 1])
    requires BucketsSoundFor(objs, b, publicity, platform)
    ensures BucketsSoundFor(objs, FilePkInfo(b, objs[|objs| - 1], publicity, platform), publicity, platform)
  {
    var o := objs[|objs| - 1];
    if publicity != Plain {
      LastKeyPkInfoSound(objs, publicity, platform);
      var pkInfos := [KeyPkInfo(o, platform)];
      if o.privilegedOnly {
        PkBucketAppend(objs, b.privilegedPublicKeyInfos, pkInfos, true, publicity, platform);
      } else {
        PkBucketAppend(objs, b.unprivilegedPublicKeyInfos, pkInfos, false, publicity, platform);
      }
    }
  }

  /** The entries the last object adds come from it. */
  lemma AddKeySound(objs: seq<CardObject>, b: Buckets, publicity: SecInfoPublicity, platform: Platform)
    requires |objs| > 0 && FoundByCaOid(objs)
    requires BucketsSoundFor(objs, b, publicity, platform)
    ensures BucketsSoundFor(objs, AddKey(b, objs[|objs| - 1], publicity, platform), publicity, platform)
  {
    var o := objs[|objs| - 1];
    if Processed(o) {
      FileSecInfosSound(objs, b, publicity, platform);
      FilePkInfoSound(objs, FileSecInfos(b, o, platform), publicity, platform);
    }
  }

  /** Every bucket entry comes from a processed key of the bucket's privilege. */
  lemma {:induction false} BucketsSound(objs: seq<CardObject>, publicity: SecInfoPublicity, platform: Platform)
    requires FoundByCaOid(objs)
    ensures BucketsSoundFor(objs, BucketsFor(objs, publicity, platform), publicity, platform)
  {
    if |objs| > 0 {
      var front := objs[..|objs| - 1];
      assert forall k :: 0 <= k < |front| ==> front[k] == objs[k];
      BucketsSound(front, publicity, platform);
      var b0 := BucketsFor(front, publicity, platform);
      ProvenanceInLongerSequence(front, objs, b0, publicity, platform);
      AddKeySound(objs, b0, publicity, platform);
    }
  }

  /** Filing one more object keeps every entry and appends at the end. */
  lemma AddKeyExtends(b: Buckets, o: CardObject, publicity: SecInfoPublicity, platform: Platform)
    requires MatchesIdentifier(o, CaOidIdentifier)
    ensures var b1 := AddKey(b, o, publicity, platform);
      && b.secInfos <= b1.secInfos && b.privilegedSecInfos <= b1.privilegedSecInfos
      && b.unprivilegedPublicKeyInfos <= b1.unprivilegedPublicKeyInfos
      && b.privilegedPublicKeyInfos <= b1.privilegedPublicKeyInfos
  {
  }

  lemma PrefixKeepsMembers(s: seq<TlvObject>, u: seq<TlvObject>)
    requires s <= u
    ensures forall t :: t in s ==> t in u
  {
    forall t | t in s ensures t in u {
      var i :| 0 <= i < |s| && s[i] == t;
      assert u[i] == t;
    }
  }

  lemma KeyFiledStaysFiled(b: Buckets, o: CardObject, next: CardObject, publicity: SecInfoPublicity, platform: Platform)
    requires o.KeyObject? && MatchesIdentifier(o, CaOidIdentifier) && MatchesIdentifier(next, CaOidIdentifier)
    requires KeyFiled(b, o, publicity, platform)
    ensures KeyFiled(AddKey(b, next, publicity, platform), o, publicity, platform)
  {
    var b1 := AddKey(b, next, publicity, platform);
    AddKeyExtends(b, next, publicity, platform);
    PrefixKeepsMembers(b.secInfos, b1.secInfos);
    PrefixKeepsMembers(b.privilegedSecInfos, b1.privilegedSecInfos);
    PrefixKeepsMembers(b.unprivilegedPublicKeyInfos, b1.unprivilegedPublicKeyInfos);
    PrefixKeepsMembers(b.privilegedPublicKeyInfos, b1.privilegedPublicKeyInfos);
  }

  /** Filing a processed key puts all its descriptors in its buckets. */
  lemma AddKeyFilesKey(b: Buckets, o: CardObject, publicity: SecInfoPublicity, platform: Platform)
    requires Processed(o) && MatchesIdentifier(o, CaOidIdentifier)
    ensures KeyFiled(AddKey(b, o, publicity, platform), o, publicity, platform)
  {
    var infos := KeySecInfos(o, platform);
    var b1 := FileSecInfos(b, o, platform);
    var sec := if o.privilegedOnly then b.privilegedSecInfos else b.secInfos;
    var sec1 := if o.privilegedOnly then b1.privilegedSecInfos else b1.secInfos;
    assert sec1 == sec + infos;
    forall t | t in KeyCaInfos(o) ensures t in sec1 {
      assert t in infos;
    }
    assert KeyDomainInfo(o, platform) in infos;
  }

  /** Every processed key has all its descriptors filed. */
  lemma {:induction false} BucketsComplete(objs: seq<CardObject>, publicity: SecInfoPublicity, platform: Platform)
    requires FoundByCaOid(objs)
    ensures forall k :: 0 <= k < |objs| && Processed(objs[k])
              ==> KeyFiled(BucketsFor(objs, publicity, platform), objs[k], publicity, platform)
  {
    if |objs| > 0 {
      var n := |objs| - 1;
      var front := objs[..n];
      assert forall k :: 0 <= k < |front| ==> front[k] == objs[k];
      BucketsComplete(front, publicity, platform);
      var b0 := BucketsFor(front, publicity, platform);
      forall k | 0 <= k < |objs| && Processed(objs[k])
        ensures KeyFiled(BucketsFor(objs, publicity, platform), objs[k], publicity, platform)
      {
        if k < n {
          assert front[k] == objs[k];
          KeyFiledStaysFiled(b0, objs[k], objs[n], publicity, platform);
        } else {
          AddKeyFilesKey(b0, objs[n], publicity, platform);
        }
      }
    }
  }

  // ---------------------------------------------------------------------------
  // Telling the descriptors apart by their protocol OID

  lemma CaOidsAreNotPkOrPt(oidBytes: seq<byte>)
    requires StartsWith(oidBytes, ID_CA)
    ensures !StartsWith(oidBytes, ID_PK) && oidBytes != ID_PT
  {
    assert oidBytes[7] == ID_CA[7];
  }

  lemma CaInfoKind(oidBytes: seq<byte>, keyId: int)
    requires StartsWith(oidBytes, ID_CA)
    ensures !IsPkInfo(CaInfo(oidBytes, keyId)) && !IsPtInfo(CaInfo(oidBytes, keyId)) && PtContents(CaInfo(oidBytes, keyId)) == []
  {
    CaOidsAreNotPkOrPt(oidBytes);
  }

  lemma DomainInfoKind(genericCaOid: seq<byte>, algIdentifier: TlvObject, keyId: int)
    requires StartsWith(genericCaOid, ID_CA)
    ensures var t := DomainInfo(genericCaOid, algIdentifier, keyId);
      !IsPkInfo(t) && !IsPtInfo(t) && PtContents(t) == []
  {
    CaOidsAreNotPkOrPt(genericCaOid);
  }

  lemma KeyCaInfoKind(o: CardObject, t: TlvObject)
    requires t in KeyCaInfos(o)
    ensures !IsPkInfo(t) && !IsPtInfo(t) && PtContents(t) == []
  {
    var ids := o.identifiers;
    var keyId := KeyIdOf(ids);
    CaInfosOfMembers(ids, keyId);
    var i :| 0 <= i < |ids| && IsCaOid(ids[i]) && t == CaInfo(ids[i].oid.bytes, keyId);
    CaInfoKind(ids[i].oid.bytes, keyId);
  }

  lemma KeyDomainInfoKind(o: CardObject, platform: Platform)
    requires o.KeyObject? && MatchesIdentifier(o, CaOidIdentifier)
    ensures var t := KeyDomainInfo(o, platform);
      !IsPkInfo(t) && !IsPtInfo(t) && PtContents(t) == []
  {
    DomainInfoKind(KeyGenericCaOid(o), KeyAlgIdentifier(o, platform), KeyIdOf(o.identifiers));
  }

  /** CaInfos and DomainInfos carry an OID under id-CA: they are neither public-key infos nor PrivilegedTerminalInfos. */
  lemma SecInfoKind(objs: seq<CardObject>, t: TlvObject, privileged: bool, platform: Platform)
    requires FoundByCaOid(objs)
    requires SecInfoOf(objs, t, privileged, platform)
    ensures !IsPkInfo(t) && !IsPtInfo(t) && PtContents(t) == []
  {
    var k :| && 0 <= k < |objs| && Processed(objs[k]) && objs[k].privilegedOnly == privileged
             && t in KeySecInfos(objs[k], platform);
    if t in KeyCaInfos(objs[k]) {
      KeyCaInfoKind(objs[k], t);
    } else {
      KeyDomainInfoKind(objs[k], platform);
    }
  }

  lemma KeyPkInfoKind(o: CardObject, platform: Platform)
    requires o.KeyObject? && MatchesIdentifier(o, CaOidIdentifier)
    ensures var t := KeyPkInfo(o, platform);
      IsPkInfo(t) && !IsPtInfo(t) && PtContents(t) == []
  {
    var g := KeyGenericCaOid(o);
    assert ProtocolOf(KeyPkInfo(o, platform)).value == ID_PK + [g[8]];
    assert (ID_PK + [g[8]])[..|ID_PK|] == ID_PK;
  }

  lemma PkInfoKind(objs: seq<CardObject>, t: TlvObject, privileged: bool, platform: Platform)
    requires FoundByCaOid(objs)
    requires PkInfoOf(objs, t, privileged, platform)
    ensures IsPkInfo(t) && !IsPtInfo(t) && PtContents(t) == []
  {
    var k :| && 0 <= k < |objs| && Processed(objs[k]) && objs[k].privilegedOnly == privileged
             && t == KeyPkInfo(objs[k], platform);
    KeyPkInfoKind(objs[k], platform);
  }

  lemma PtInfoKind(infos: seq<TlvObject>)
    ensures IsPtInfo(PtInfo(infos)) && !IsPkInfo(PtInfo(infos)) && PtContents(PtInfo(infos)) == infos
  {
    assert ID_PT[7] != ID_PK[7];
  }

  // ---------------------------------------------------------------------------
  // The properties of the descriptor list

  /** Objects that are not keys, and keys without a key identifier, add nothing. */
  lemma UnprocessedObjectAddsNothing(objs: seq<CardObject>, o: CardObject, publicity: SecInfoPublicity, platform: Platform)
    requires FoundByCaOid(objs) && MatchesIdentifier(o, CaOidIdentifier) && !Processed(o)
    ensures FoundByCaOid(objs + [o])
    ensures SecInfos(objs + [o], publicity, platform) == SecInfos(objs, publicity, platform)
  {
    assert (objs + [o])[..|objs|] == objs;
  }

  /** What the top-level infos and the PrivilegedTerminalInfo's infos are, by kind. */
  lemma AssembledKinds(objs: seq<CardObject>, publicity: SecInfoPublicity, platform: Platform)
    requires FoundByCaOid(objs)
    ensures var b := BucketsFor(objs, publicity, platform);
      && (forall t :: t in TopLevel(b, publicity) ==>
            && !IsPtInfo(t) && PtContents(t) == []
            && (IsPkInfo(t) ==> publicity != Plain && PkInfoOf(objs, t, false, platform)))
      && (forall u :: u in PtSet(b, publicity) && IsPkInfo(u) ==> publicity == Privileged && PkInfoOf(objs, u, true, platform))
      && (publicity == Plain ==> b.privilegedPublicKeyInfos == [])
  {
    var b := BucketsFor(objs, publicity, platform);
    BucketsSound(objs, publicity, platform);
    forall t | t in TopLevel(b, publicity)
      ensures && !IsPtInfo(t) && PtContents(t) == []
              && (IsPkInfo(t) ==> publicity != Plain && PkInfoOf(objs, t, false, platform))
    {
      if t in b.secInfos {
        SecInfoKind(objs, t, false, platform);
      } else {
        PkInfoKind(objs, t, false, platform);
      }
    }
    forall u | u in PtSet(b, publicity) && IsPkInfo(u)
      ensures publicity == Privileged && PkInfoOf(objs, u, true, platform)
    {
      if u in b.privilegedSecInfos {
        SecInfoKind(objs, u, true, platform);
      }
    }
  }

  /** At the lowest publicity no public-key info is announced, at top level or inside the PrivilegedTerminalInfo. */
  lemma PlainHasNoPublicKeyInfo(objs: seq<CardObject>, platform: Platform)
    requires FoundByCaOid(objs)
    ensures var r := SecInfos(objs, Plain, platform);
      forall i :: 0 <= i < |r| ==> !IsPkInfo(r[i]) && forall u :: u in PtContents(r[i]) ==> !IsPkInfo(u)
  {
    var b := BucketsFor(objs, Plain, platform);
    var r := SecInfos(objs, Plain, platform);
    AssembledKinds(objs, Plain, platform);
    PtInfoKind(PtSet(b, Plain));
    forall i | 0 <= i < |r| ensures !IsPkInfo(r[i]) && forall u :: u in PtContents(r[i]) ==> !IsPkInfo(u) {
      if i < |TopLevel(b, Plain)| {
        assert r[i] in TopLevel(b, Plain);
      }
    }
  }

  /** Whether some privileged-only key has descriptors. */
  predicate HasPrivilegedKey(objs: seq<CardObject>)
  {
    exists k :: 0 <= k < |objs| && Processed(objs[k]) && objs[k].privilegedOnly
  }

  lemma PrivilegedKeyIsFiled(objs: seq<CardObject>, publicity: SecInfoPublicity, platform: Platform)
    requires FoundByCaOid(objs) && HasPrivilegedKey(objs)
    ensures |BucketsFor(objs, publicity, platform).privilegedSecInfos| > 0
  {
    BucketsComplete(objs, publicity, platform);
    var k :| 0 <= k < |objs| && Processed(objs[k]) && objs[k].privilegedOnly;
    assert KeyDomainInfo(objs[k], platform) in BucketsFor(objs, publicity, platform).privilegedSecInfos;
  }

  lemma PrivilegedEntryHasKey(objs: seq<CardObject>, publicity: SecInfoPublicity, platform: Platform)
    requires FoundByCaOid(objs)
    requires var b := BucketsFor(objs, publicity, platform);
      |b.privilegedSecInfos| + |b.privilegedPublicKeyInfos| > 0
    ensures HasPrivilegedKey(objs)
  {
    var b := BucketsFor(objs, publicity, platform);
    BucketsSound(objs, publicity, platform);
    if |b.privilegedSecInfos| > 0 {
      assert SecInfoOf(objs, b.privilegedSecInfos[0], true, platform);
    } else {
      assert PkInfoOf(objs, b.privilegedPublicKeyInfos[0], true, platform);
    }
  }

  /** The PrivilegedTerminalInfo is added exactly when a privileged-only key has descriptors. */
  lemma PrivilegedBucketsNonEmpty(objs: seq<CardObject>, publicity: SecInfoPublicity, platform: Platform)
    requires FoundByCaOid(objs)
    ensures var b := BucketsFor(objs, publicity, platform);
      |b.privilegedSecInfos| + |b.privilegedPublicKeyInfos| > 0 <==> HasPrivilegedKey(objs)
  {
    var b := BucketsFor(objs, publicity, platform);
    if HasPrivilegedKey(objs) {
      PrivilegedKeyIsFiled(objs, publicity, platform);
    }
    if |b.privilegedSecInfos| + |b.privilegedPublicKeyInfos| > 0 {
      PrivilegedEntryHasKey(objs, publicity, platform);
    }
  }

  /** A PrivilegedTerminalInfo is announced exactly when some processed key is privileged-only; it is the last entry and the only one. */
  lemma PrivilegedTerminalInfoLastAndUnique(objs: seq<CardObject>, publicity: SecInfoPublicity, platform: Platform)
    requires FoundByCaOid(objs)
    ensures var r := SecInfos(objs, publicity, platform);
      && ((exists i :: 0 <= i < |r| && IsPtInfo(r[i])) <==> HasPrivilegedKey(objs))
      && forall i :: 0 <= i < |r| && IsPtInfo(r[i]) ==> i == |r| - 1
  {
    var b := BucketsFor(objs, publicity, platform);
    var r := SecInfos(objs, publicity, platform);
    var top := TopLevel(b, publicity);
    AssembledKinds(objs, publicity, platform);
    PrivilegedBucketsNonEmpty(objs, publicity, platform);
    PtInfoKind(PtSet(b, publicity));
    forall i | 0 <= i < |top| ensures !IsPtInfo(top[i]) {
      assert top[i] in top;
    }
    assert forall i :: 0 <= i < |top| ==> r[i] == top[i];
    if HasPrivilegedKey(objs) {
      assert IsPtInfo(r[|r| - 1]);
    } else {
      assert r == top;
    }
  }

  /**
   * Top-level public-key infos are exactly those of the processed keys that are
   * not privileged-only, and only above the lowest publicity.
   */
  lemma TopLevelPublicKeyInfos(objs: seq<CardObject>, publicity: SecInfoPublicity, platform: Platform)
    requires FoundByCaOid(objs)
    ensures var r := SecInfos(objs, publicity, platform);
      && (forall t :: t in r && IsPkInfo(t) ==> publicity != Plain && PkInfoOf(objs, t, false, platform))
      && (forall k :: 0 <= k < |objs| && Processed(objs[k]) && !objs[k].privilegedOnly && publicity != Plain
            ==> KeyPkInfo(objs[k], platform) in r)
  {
    var b := BucketsFor(objs, publicity, platform);
    var r := SecInfos(objs, publicity, platform);
    AssembledKinds(objs, publicity, platform);
    BucketsComplete(objs, publicity, platform);
    PtInfoKind(PtSet(b, publicity));
    assert forall t :: t in TopLevel(b, publicity) ==> t in r;
  }

  /** The CaInfos and the DomainInfo of every processed key that is not privileged-only are announced at top level. */
  lemma UnprivilegedKeysAnnounced(objs: seq<CardObject>, publicity: SecInfoPublicity, platform: Platform)
    requires FoundByCaOid(objs)
    ensures var r := SecInfos(objs, publicity, platform);
      forall k :: 0 <= k < |objs| && Processed(objs[k]) && !objs[k].privilegedOnly ==>
        && (forall t :: t in KeyCaInfos(objs[k]) ==> t in r)
        && KeyDomainInfo(objs[k], platform) in r
  {
    var b := BucketsFor(objs, publicity, platform);
    BucketsComplete(objs, publicity, platform);
    assert forall t :: t in b.secInfos ==> t in SecInfos(objs, publicity, platform);
  }

  /**
   * The PrivilegedTerminalInfo holds the CaInfos and DomainInfos of the
   * privileged-only keys, and their public-key infos exactly at privileged
   * publicity; no other public-key info is inside it.
   */
  lemma PrivilegedTerminalInfoContents(objs: seq<CardObject>, publicity: SecInfoPublicity, platform: Platform)
    requires FoundByCaOid(objs)
    ensures var r := SecInfos(objs, publicity, platform);
      forall k :: 0 <= k < |objs| && Processed(objs[k]) && objs[k].privilegedOnly ==>
        && |r| > 0 && IsPtInfo(r[|r| - 1])
        && (forall t :: t in KeyCaInfos(objs[k]) ==> t in PtContents(r[|r| - 1]))
        && KeyDomainInfo(objs[k], platform) in PtContents(r[|r| - 1])
        && (publicity == Privileged ==> KeyPkInfo(objs[k], platform) in PtContents(r[|r| - 1]))
    ensures var r := SecInfos(objs, publicity, platform);
      forall i, u :: 0 <= i < |r| && u in PtContents(r[i]) && IsPkInfo(u)
        ==> publicity == Privileged && PkInfoOf(objs, u, true, platform)
  {
    var b := BucketsFor(objs, publicity, platform);
    var r := SecInfos(objs, publicity, platform);
    var top := TopLevel(b, publicity);
    AssembledKinds(objs, publicity, platform);
    BucketsComplete(objs, publicity, platform);
    PrivilegedBucketsNonEmpty(objs, publicity, platform);
    PtInfoKind(PtSet(b, publicity));
    forall i | 0 <= i < |r| && i < |top| ensures PtContents(r[i]) == [] {
      assert r[i] == top[i] && top[i] in top;
    }
    assert HasPrivilegedKey(objs) ==> r[|r| - 1] == PtInfo(PtSet(b, publicity));
  }

  /**
   * At top level every public-key info comes after every CaInfo and DomainInfo,
   * and the PrivilegedTerminalInfo after both.
   */
  lemma TopLevelOrder(objs: seq<CardObject>, publicity: SecInfoPublicity, platform: Platform)
    requires FoundByCaOid(objs)
    ensures var r := SecInfos(objs, publicity, platform);
      forall i, j :: 0 <= i < |r| && 0 <= j < |r| && IsPkInfo(r[i]) && !IsPkInfo(r[j]) && !IsPtInfo(r[j]) ==> j < i
    ensures var r := SecInfos(objs, publicity, platform);
      forall i, j :: 0 <= i < |r| && 0 <= j < |r| && IsPtInfo(r[i]) && !IsPtInfo(r[j]) ==> j < i
  {
    var b := BucketsFor(objs, publicity, platform);
    var r := SecInfos(objs, publicity, platform);
    var top := TopLevel(b, publicity);
    var n := |b.secInfos|;
    BucketsSound(objs, publicity, platform);
    assert forall k :: 0 <= k < |top| ==> r[k] == top[k];
    forall k | 0 <= k < n ensures !IsPkInfo(r[k]) && !IsPtInfo(r[k]) {
      assert top[k] == b.secInfos[k] && b.secInfos[k] in b.secInfos;
      SecInfoKind(objs, b.secInfos[k], false, platform);
    }
    forall k | n <= k < |top| ensures IsPkInfo(r[k]) && !IsPtInfo(r[k]) {
      assert top[k] == b.unprivilegedPublicKeyInfos[k - n] && b.unprivilegedPublicKeyInfos[k - n] in b.unprivilegedPublicKeyInfos;
      PkInfoKind(objs, b.unprivilegedPublicKeyInfos[k - n], false, platform);
    }
    PtInfoKind(PtSet(b, publicity));
    assert forall k :: |top| <= k < |r| ==> r[k] == PtInfo(PtSet(b, publicity));
  }
}
