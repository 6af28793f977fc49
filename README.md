# Chip Authentication, OIDs and the console of the PersoSim card simulator

PersoSim simulates a German electronic identity card (nPA) that a terminal
talks to through ISO/IEC 7816-4 APDUs. This project models three parts of its
core. The model is in Dafny, and its properties are verified.

* **Chip Authentication** (`AbstractCaProtocol`). This is the card side of
  Chip Authentication version 2 from BSI TR-03110.
  * Set AT (`processCommandSetAT`) takes the CA OID from tag 80 and the key
    reference from tag 84. It resolves the static key pair, checking it
    against the OID, and stores the OID, key pair, key reference, domain
    parameters and crypto support in the protocol object.
  * General Authenticate (`processCommandGeneralAuthenticate`) runs these
    steps in order:
    * reads the terminal's ephemeral key material from 7C / 80;
    * reconstructs the public key;
    * checks the key against the compressed key recorded by Terminal
      Authentication;
    * agrees on a shared secret;
    * draws the 8-byte nonce;
    * derives the MAC and encryption session keys;
    * computes the 8-byte token T_PICC;
    * publishes a secure messaging provider, the CA mechanism and the
      completion flag;
    * answers 7C { 81 nonce, 82 token } with 9000.
  * A failing step answers with a status word and no data. Several steps
    share a status word: 6A80 comes from the OID, the key reconstruction or
    the key agreement, and 6FFF from compression, reconstruction, agreement
    or the secure messaging provider.
  * A missing 7C / 80 object, or General Authenticate before a successful
    Set AT, throws a NullPointerException out of the handler instead. Then no
    response is set.
  * `getSecInfos` builds the SecurityInfos the card announces for its CA
    keys: ChipAuthenticationInfo, ChipAuthenticationDomainParameterInfo,
    ChipAuthenticationPublicKeyInfo and PrivilegedTerminalInfo. Which ones
    appear depends on the requested publicity and on the keys'
    privileged-only flag.
* **Object identifiers** (`GenericOid`). An immutable wrapper around a byte
  array. It provides defensive copies, value equality with a matching hash
  code, and a prefix test.
* **The console** (`PersoSim`). `parseCommand` splits a command line into a
  command word and one parameter. The first loop of `executeUserCommands`
  drops null arguments. `setPort` validates and stores the simulator's port.

## How it is modelled

* The Chip Authentication handlers are modelled twice.
  * The spec level (`CaSpec`) is pure functions from the protocol object's
    fields (`CaTypes.Session`), the command data and the card state (key
    lookup, current security mechanisms) to the new fields, the response and
    the propagations.
  * The implementation level has classes whose fields are updated in place
    (`CaProtocol.CaProtocol`, `CaProtocol.ProcessingData`). The Java
    methods that change fields, call the card state or loop are methods of
    the same name, and each method's `ensures` ties the new state to the spec
    function. The side-effect-free helpers (`extractCaOidFromCommandData`,
    `extractKeyIdentifierFromCommandData`, `reconstructEphemeralPublicKeyPcd`,
    `performKeyAgreement`, `generateRPiccNonce`,
    `computeAuthenticationTokenTpicc`, `prepareResponseData`) are `CaSpec`
    functions, which the methods call. The steps of
    `processCommandGeneralAuthenticate` after the binding check (lines
    374-393) form the method `AgreeAndDeriveSessionKeys`, which has no Java
    counterpart of its own.
  * The properties are lemmas about the spec functions (`CaProperties`,
    `CaSecInfos`).
* Cryptography and every other collaborator are uninterpreted functions,
  gathered in `CaTypes.Platform`. This covers:
  * key reconstruction, compression and agreement;
  * key derivation, the MAC, domain-parameter lookup;
  * TLV serialisation, algorithm identifiers and the card's key lookup.
  * Exceptions those collaborators throw are modelled by result datatypes,
    so the handlers' catch blocks are modelled branch by branch.
* A Java `NullPointerException` that escapes General Authenticate is the
  outcome `Escaped`. In that case no response is set.
* `SecureRandom` is a parameter `random: nat -> byte`, read in order.
* `getSecInfos`'s loop is a method over the card objects. Its result equals
  `CaSecInfos.SecInfos`, a fold that files each key's descriptors into four
  buckets and then assembles them.
* Java `byte` is an unsigned 0..255 value with explicit casts (`ByteOf`,
  `Signed`). `int` arithmetic in `hashCode` wraps explicitly (`Wrap32`).
* The OIDs id-CA (0.4.0.127.0.7.2.2.3), id-PK (…2.2.1) and id-PT (…2.2.8) are
  taken from BSI TR-03110 Part 3, Appendix A.

## Model

| member | source | states |
|---|---|---|
| Wrappers.ByteOf | de.persosim.simulator/src/de/persosim/simulator/protocols/ca/AbstractCaProtocol.java:464 | the `(byte) keyId` narrowing keeps the value modulo 256 |
| Wrappers.Signed | de.persosim.simulator/src/de/persosim/simulator/protocols/GenericOid.java:75 | the signed value Java compares is in -128..127 and congruent to the stored byte |
| Oids.Wrap32 | de.persosim.simulator/src/de/persosim/simulator/protocols/GenericOid.java:54-56 | 32-bit two's complement wrap-around: in int range and congruent modulo 2^32 |
| Oids.ArraysHashCode | de.persosim.simulator/src/de/persosim/simulator/protocols/GenericOid.java:54-56 | `Arrays.hashCode` of the content is a 32-bit int |
| Oids.CloneBytes | de.persosim.simulator/src/de/persosim/simulator/protocols/GenericOid.java:21 | `clone()` gives a fresh array with the same content |
| Oids.GenericOid.constructor | de.persosim.simulator/src/de/persosim/simulator/protocols/GenericOid.java:18-22 | the stored array is a fresh private copy holding the argument's bytes |
| Oids.GenericOid.Create | de.persosim.simulator/src/de/persosim/simulator/protocols/GenericOid.java:18-22 | a null argument throws NullPointerException; any other array, the empty one included, gives an OID with its content |
| Oids.GenericOid.ToByteArray | de.persosim.simulator/src/de/persosim/simulator/protocols/GenericOid.java:27-29 | returns a fresh array holding the content, so callers cannot alter the OID |
| Oids.GenericOid.StartsWithPrefix | de.persosim.simulator/src/de/persosim/simulator/protocols/GenericOid.java:68-80 | null throws NullPointerException; otherwise true exactly when the content starts with the prefix (the reference `StartsWith`), longer prefixes give false and the empty prefix true |
| Oids.GenericOid.GetLength | de.persosim.simulator/src/de/persosim/simulator/protocols/GenericOid.java:86-88 | the length of the content in bytes |
| Oids.EqualsIsEquivalence | de.persosim.simulator/src/de/persosim/simulator/protocols/GenericOid.java:43-51 | `equals` is reflexive, symmetric and transitive on OIDs |
| Oids.HashCodeAgreesWithEquals | de.persosim.simulator/src/de/persosim/simulator/protocols/GenericOid.java:43-56 | equal OIDs have equal hash codes |
| Oids.EqualsIsValueEquality | de.persosim.simulator/src/de/persosim/simulator/protocols/GenericOid.java:43-51 | `equals` holds exactly for another OID with the same bytes; null and non-OID objects are unequal |
| Oids.CallerWritesDoNotReachOid | de.persosim.simulator/src/de/persosim/simulator/protocols/GenericOid.java:18-22 | writing to the array an OID was built from leaves the OID's value unchanged |
| Oids.LongerPrefixNeverMatches | de.persosim.simulator/src/de/persosim/simulator/protocols/GenericOid.java:71 | a prefix longer than the content never matches |
| Oids.StartsWithTransitive | de.persosim.simulator/src/de/persosim/simulator/protocols/GenericOid.java:68-80 | a prefix of a prefix is a prefix (what makes OID-subtree matching, as used for id-CA, consistent) |
| Tlv.FirstIndexOf | de.persosim.simulator/src/de/persosim/simulator/protocols/ca/AbstractCaProtocol.java:101 | position of the first object with the tag, all earlier ones carrying other tags |
| Tlv.Find | de.persosim.simulator/src/de/persosim/simulator/protocols/ca/AbstractCaProtocol.java:101 | None exactly when no top-level object carries the tag; otherwise a member with that tag |
| Tlv.FindPath | de.persosim.simulator/src/de/persosim/simulator/protocols/ca/AbstractCaProtocol.java:356 | an object found along a tag path carries the path's last tag |
| Tlv.ValueField | de.persosim.simulator/src/de/persosim/simulator/protocols/ca/AbstractCaProtocol.java:106 | the value field of a primitive object is its stored value |
| CaSpec.ExtractCaOidFromCommandData | de.persosim.simulator/src/de/persosim/simulator/protocols/ca/AbstractCaProtocol.java:97-113 | fails exactly when tag 80 is missing or its bytes are not a CA OID, always with 6A80; otherwise the OID of tag 80's value |
| CaSpec.ExtractKeyIdentifierFromCommandData | de.persosim.simulator/src/de/persosim/simulator/protocols/ca/AbstractCaProtocol.java:115-128 | the implicit key identifier exactly when tag 84 is missing, else the key reference from tag 84's value |
| CaSpec.KeyObjectFor | de.persosim.simulator/src/de/persosim/simulator/protocols/ca/AbstractCaProtocol.java:130-154 | 6A88 exactly for an unknown reference, 6984 exactly for a non-key object, 6985 exactly for a key failing a required identifier; success returns the key object matching them all |
| CaSpec.ReconstructEphemeralPublicKeyPcd | de.persosim.simulator/src/de/persosim/simulator/protocols/ca/AbstractCaProtocol.java:191-204 | success exactly when reconstruction succeeds, with that key; IllegalArgumentException gives exactly 6A80, any other exception exactly 6FFF |
| CaSpec.FirstTaIndex | de.persosim.simulator/src/de/persosim/simulator/protocols/ca/AbstractCaProtocol.java:404-419 | position of the first Terminal Authentication mechanism, none before it |
| CaSpec.FirstTaKey | de.persosim.simulator/src/de/persosim/simulator/protocols/ca/AbstractCaProtocol.java:404-419 | the key the first Terminal Authentication mechanism holds, None when it holds none (null) or there is no such mechanism; later ones are never consulted |
| CaSpec.BindingCheck | de.persosim.simulator/src/de/persosim/simulator/protocols/ca/AbstractCaProtocol.java:210-233 | passes exactly when the key compresses and equals the key recorded by Terminal Authentication; 6FFF exactly for a missing compression algorithm, 6982 exactly when the first TA mechanism is missing or holds no key, 6984 exactly on mismatch |
| CaSpec.PerformKeyAgreement | de.persosim.simulator/src/de/persosim/simulator/protocols/ca/AbstractCaProtocol.java:241-261 | success exactly when agreement yields a secret, with that secret; 6A80 exactly for an invalid key, 6FFF otherwise |
| CaSpec.GenerateRPiccNonce | de.persosim.simulator/src/de/persosim/simulator/protocols/ca/AbstractCaProtocol.java:285-291 | exactly 8 bytes, the i-th drawn i-th from the random source |
| CaSpec.CopyOf | de.persosim.simulator/src/de/persosim/simulator/protocols/ca/AbstractCaProtocol.java:303 | `Arrays.copyOf(a, n)`: length n, a's bytes first, zeros after |
| CaSpec.ComputeAuthenticationTokenTpicc | de.persosim.simulator/src/de/persosim/simulator/protocols/ca/AbstractCaProtocol.java:299-307 | T_PICC is 8 bytes: the MAC over the token input under the MAC key, cut or zero-padded to 8 |
| CaSpec.PcdPublicKeyMaterial | de.persosim.simulator/src/de/persosim/simulator/protocols/ca/AbstractCaProtocol.java:351-363 | missing exactly when there is no 7C / 80 object (the null dereference) |
| CaSpec.ResponseDataRoundTrip | de.persosim.simulator/src/de/persosim/simulator/protocols/ca/AbstractCaProtocol.java:315-331 | the response data gives back the nonce under 7C / 81 and the token under 7C / 82 |
| CaProperties.SetAtOutcomes | de.persosim.simulator/src/de/persosim/simulator/protocols/ca/AbstractCaProtocol.java:159-184 | no response data; a bad OID answers 6A80 and changes nothing; a key failure answers that step's status word with only the OID stored; on success 9000 with OID, key pair, key reference, domain parameters and crypto support stored |
| CaProperties.SetAtStatusWords | de.persosim.simulator/src/de/persosim/simulator/protocols/ca/AbstractCaProtocol.java:159-184 | the answer is one of 9000, 6A80, 6A88, 6984, 6985, and 9000 exactly when the OID and the key both resolve |
| CaProperties.SetAtNonKeyObject | de.persosim.simulator/src/de/persosim/simulator/protocols/ca/AbstractCaProtocol.java:139-143 | a reference to a non-key object answers 6984 and leaves the key fields as they were |
| CaProperties.SetAtPreservesConsistency | de.persosim.simulator/src/de/persosim/simulator/protocols/ca/AbstractCaProtocol.java:159-184 | Set AT keeps the fields set together (key pair, domain parameters and crypto support only with an OID) |
| CaProperties.GaFailureEmitsNothing | de.persosim.simulator/src/de/persosim/simulator/protocols/ca/AbstractCaProtocol.java:369-398 | a failed General Authenticate adds no propagation and answers with one of 6A80, 6982, 6984, 6FFF alone; an escaped exception sets no response |
| CaProperties.GaSuccessShape | de.persosim.simulator/src/de/persosim/simulator/protocols/ca/AbstractCaProtocol.java:369-398 | success answers 9000 with 7C { 81 nonce, 82 token } of 8 bytes each, and adds the SM provider over the stored session keys, the CA mechanism (stored OID and key reference) and the completion flag, in this order |
| CaProperties.GaSuccessRequiresBinding | de.persosim.simulator/src/de/persosim/simulator/protocols/ca/AbstractCaProtocol.java:210-233 | success implies every step before derivation passed, and the terminal's key compresses to the key recorded by Terminal Authentication |
| CaProperties.GaWithoutTaRecord | de.persosim.simulator/src/de/persosim/simulator/protocols/ca/AbstractCaProtocol.java:219-223 | with no Terminal Authentication recorded, a well-formed key is answered 6982 and nothing is published |
| CaProperties.GaFirstTaWithoutKey | de.persosim.simulator/src/de/persosim/simulator/protocols/ca/AbstractCaProtocol.java:219-223 | when the first Terminal Authentication mechanism holds no key (null), a well-formed key is answered 6982 even if a later mechanism holds the matching key |
| CaProperties.GaBindingMismatch | de.persosim.simulator/src/de/persosim/simulator/protocols/ca/AbstractCaProtocol.java:228-232 | a compressed key differing from the recorded one is answered 6984, session keys unchanged, nothing published |
| CaProperties.GaKeysOnlyAfterAgreement | de.persosim.simulator/src/de/persosim/simulator/protocols/ca/AbstractCaProtocol.java:369-398 | the session keys change only once material, reconstruction, binding and key agreement have all passed |
| CaProperties.GaChangesOnlyDerivedFields | de.persosim.simulator/src/de/persosim/simulator/protocols/ca/AbstractCaProtocol.java:369-398 | General Authenticate leaves OID, domain parameters, crypto support, key reference and key pair as Set AT chose them, and keeps consistency |
| CaProperties.GaBeforeSetAtEscapes | de.persosim.simulator/src/de/persosim/simulator/protocols/ca/AbstractCaProtocol.java:351-363 | without domain parameters (no Set AT) the handler throws and the fields are unchanged |
| CaProperties.GaEscapesOnlyWithoutMaterialOrSetAt | de.persosim.simulator/src/de/persosim/simulator/protocols/ca/AbstractCaProtocol.java:351-398 | on a consistent session an exception escapes exactly when the key material or the Set AT is missing |
| CaProperties.SetAtThenGeneralAuthenticate | de.persosim.simulator/src/de/persosim/simulator/protocols/ca/AbstractCaProtocol.java:159-398 | after a successful Set AT, General Authenticate throws exactly when the key material is missing; on success the published mechanism carries tag 80's OID and the selected key's reference, and the SM provider holds the stored session keys |
| CaProtocol.CaProtocol.constructor | de.persosim.simulator/src/de/persosim/simulator/protocols/ca/AbstractCaProtocol.java:69-90 | a fresh protocol object has every field null and the key reference 0 |
| CaProtocol.ProcessingData.UpdateResponseApdu | de.persosim.simulator/src/de/persosim/simulator/protocols/ca/AbstractCaProtocol.java:178-182 | sets the response, propagations untouched |
| CaProtocol.ProcessingData.AddUpdatePropagation | de.persosim.simulator/src/de/persosim/simulator/protocols/ca/AbstractCaProtocol.java:341 | appends one propagation, response untouched |
| CaProtocol.CaProtocol.GetKeyObjectForKeyIdentifier | de.persosim.simulator/src/de/persosim/simulator/protocols/ca/AbstractCaProtocol.java:130-154 | the loop over the required identifiers returns what `KeyObjectFor` specifies |
| CaProtocol.CaProtocol.GetEphemeralPublicKeyPcdFromTa | de.persosim.simulator/src/de/persosim/simulator/protocols/ca/AbstractCaProtocol.java:404-419 | the loop over the mechanisms returns the first Terminal Authentication's key, as `FirstTaKey` |
| CaProtocol.CaProtocol.ProcessCommandSetAT | de.persosim.simulator/src/de/persosim/simulator/protocols/ca/AbstractCaProtocol.java:159-184 | the fields and the response become those of `SetAt` on the old fields; no propagation is added |
| CaProtocol.CaProtocol.GetPcdPublicKeyMaterialFromApdu | de.persosim.simulator/src/de/persosim/simulator/protocols/ca/AbstractCaProtocol.java:351-363 | throws (None) with nothing changed when 7C / 80 or the domain parameters are missing; otherwise returns the material and records the key agreement algorithm's name |
| CaProtocol.CaProtocol.AssertEphemeralPublicKeyPcdMatchesCompressedKeyReceivedDuringTa | de.persosim.simulator/src/de/persosim/simulator/protocols/ca/AbstractCaProtocol.java:210-233 | the status word it throws is the one `BindingCheck` specifies |
| CaProtocol.CaProtocol.ComputeSessionKeys | de.persosim.simulator/src/de/persosim/simulator/protocols/ca/AbstractCaProtocol.java:267-279 | without crypto support a NullPointerException and no change; otherwise exactly the two session keys are set, derived from secret and nonce at the OID's key length |
| CaProtocol.CaProtocol.PropagateSessionKeys | de.persosim.simulator/src/de/persosim/simulator/protocols/ca/AbstractCaProtocol.java:336-345 | appends the SM provider over the session keys when it can be built, else 6FFF and nothing appended |
| CaProtocol.CaProtocol.ProcessCommandGeneralAuthenticate | de.persosim.simulator/src/de/persosim/simulator/protocols/ca/AbstractCaProtocol.java:369-398 | fields, thrown exception, response and propagations are those `GeneralAuthenticate` specifies on the old fields |
| CaProtocol.CaProtocol.AgreeAndDeriveSessionKeys | de.persosim.simulator/src/de/persosim/simulator/protocols/ca/AbstractCaProtocol.java:374-393 | the steps after the binding check produce the fields, response and propagations `AgreeAndDerive` specifies |
| CaProtocol.CaProtocol.ExtractKeyId | de.persosim.simulator/src/de/persosim/simulator/protocols/ca/AbstractCaProtocol.java:443-449 | the key reference of the first key identifier, or -1 (`KeyIdOf`, whose meaning `KeyIdOfFirst` states) |
| CaProtocol.CaProtocol.AddCaInfos | de.persosim.simulator/src/de/persosim/simulator/protocols/ca/AbstractCaProtocol.java:453-472 | appends one CaInfo per identifier under id-CA, in order, and keeps the 9-byte generic OID of the last one |
| CaProtocol.CaProtocol.AddSecInfos | de.persosim.simulator/src/de/persosim/simulator/protocols/ca/AbstractCaProtocol.java:453-491 | appends the key's CaInfos then its DomainInfo, whose OID is the key's generic CA OID |
| CaProtocol.CaProtocol.FileCardObject | de.persosim.simulator/src/de/persosim/simulator/protocols/ca/AbstractCaProtocol.java:435-511 | one loop iteration: the four lists become those of `AddKey` |
| CaProtocol.CaProtocol.GetSecInfos | de.persosim.simulator/src/de/persosim/simulator/protocols/ca/AbstractCaProtocol.java:422-539 | the returned list equals `SecInfos` of the card objects and the publicity |
| CaSecInfos.KeyIdOfFirst | de.persosim.simulator/src/de/persosim/simulator/protocols/ca/AbstractCaProtocol.java:443-450 | the key id is the reference of the first key identifier, and -1 when there is none; a first reference of -1 cannot be told apart from that |
| CaSecInfos.CaInfosOfMembers | de.persosim.simulator/src/de/persosim/simulator/protocols/ca/AbstractCaProtocol.java:456-472 | the CaInfos of a key are exactly those of its identifiers under id-CA |
| CaSecInfos.LastCaOidFound | de.persosim.simulator/src/de/persosim/simulator/protocols/ca/AbstractCaProtocol.java:456-460 | the kept OID exists exactly when some identifier is under id-CA, is the last such, and starts with id-CA |
| CaSecInfos.GenericCaOid | de.persosim.simulator/src/de/persosim/simulator/protocols/ca/AbstractCaProtocol.java:459 | `copyOfRange(oid, 0, 9)`: 9 bytes, the first nine of a long enough OID, still under id-CA |
| CaSecInfos.KeyGenericCaOid | de.persosim.simulator/src/de/persosim/simulator/protocols/ca/AbstractCaProtocol.java:453-460 | a key found under id-CA has a 9-byte generic OID under id-CA (so `genericCaOidBytes[8]` exists) |
| CaSecInfos.BucketsSound | de.persosim.simulator/src/de/persosim/simulator/protocols/ca/AbstractCaProtocol.java:435-513 | every entry of each list comes from a key with a key id other than -1, of that list's privilege; public-key entries only above the lowest publicity |
| CaSecInfos.BucketsComplete | de.persosim.simulator/src/de/persosim/simulator/protocols/ca/AbstractCaProtocol.java:435-513 | every key with a key id other than -1 has its CaInfos and DomainInfo, and above the lowest publicity its public-key info, in the lists of its privilege |
| CaSecInfos.UnprocessedObjectAddsNothing | de.persosim.simulator/src/de/persosim/simulator/protocols/ca/AbstractCaProtocol.java:436-450 | non-key objects, and keys whose key id is -1 or missing, change the result not at all |
| CaSecInfos.SecInfoKind | de.persosim.simulator/src/de/persosim/simulator/protocols/ca/AbstractCaProtocol.java:461-491 | CaInfos and DomainInfos are neither public-key infos nor PrivilegedTerminalInfos |
| CaSecInfos.PkInfoKind | de.persosim.simulator/src/de/persosim/simulator/protocols/ca/AbstractCaProtocol.java:500-503 | a key's public-key info carries id-PK plus the key agreement arc |
| CaSecInfos.PtInfoKind | de.persosim.simulator/src/de/persosim/simulator/protocols/ca/AbstractCaProtocol.java:522-535 | a PrivilegedTerminalInfo carries id-PT and holds exactly its SET's infos |
| CaSecInfos.AssembledKinds | de.persosim.simulator/src/de/persosim/simulator/protocols/ca/AbstractCaProtocol.java:515-536 | top-level entries are unprivileged descriptors; the PrivilegedTerminalInfo holds privileged descriptors, public keys only at privileged publicity |
| CaSecInfos.PlainHasNoPublicKeyInfo | de.persosim.simulator/src/de/persosim/simulator/protocols/ca/AbstractCaProtocol.java:498-533 | at the lowest publicity no public-key info appears, at top level or inside the PrivilegedTerminalInfo |
| CaSecInfos.PrivilegedBucketsNonEmpty | de.persosim.simulator/src/de/persosim/simulator/protocols/ca/AbstractCaProtocol.java:521 | the privileged lists are non-empty exactly when some privileged-only key has a key id other than -1 |
| CaSecInfos.PrivilegedTerminalInfoLastAndUnique | de.persosim.simulator/src/de/persosim/simulator/protocols/ca/AbstractCaProtocol.java:520-536 | a PrivilegedTerminalInfo appears exactly when a privileged-only key has a key id other than -1; then it is the last entry and the only one |
| CaSecInfos.TopLevelPublicKeyInfos | de.persosim.simulator/src/de/persosim/simulator/protocols/ca/AbstractCaProtocol.java:515-518 | top-level public-key infos are exactly those of the unprivileged keys, and only above the lowest publicity |
| CaSecInfos.UnprivilegedKeysAnnounced | de.persosim.simulator/src/de/persosim/simulator/protocols/ca/AbstractCaProtocol.java:466-491 | the CaInfos and DomainInfo of every unprivileged key with a key id other than -1 appear at top level |
| CaSecInfos.TopLevelOrder | de.persosim.simulator/src/de/persosim/simulator/protocols/ca/AbstractCaProtocol.java:515-535 | every top-level public-key info comes after every CaInfo and DomainInfo, and the PrivilegedTerminalInfo after all of them |
| CaSecInfos.PrivilegedTerminalInfoContents | de.persosim.simulator/src/de/persosim/simulator/protocols/ca/AbstractCaProtocol.java:520-536 | the PrivilegedTerminalInfo holds the privileged keys' CaInfos and DomainInfos, and their public-key infos exactly at privileged publicity |
| JavaText.TrimStartIndex | de.persosim.simulator/src/de/persosim/simulator/PersoSim.java:125 | the first kept character of `trim`, everything before it trimmable |
| JavaText.TrimEndIndex | de.persosim.simulator/src/de/persosim/simulator/PersoSim.java:125 | one past the last kept character, everything after it trimmable |
| JavaText.Trim | de.persosim.simulator/src/de/persosim/simulator/PersoSim.java:125-131 | `String.trim`: no character at most ' ' at either end, only such characters cut off, empty exactly for an all-trimmable string |
| JavaText.TrimIdempotent | de.persosim.simulator/src/de/persosim/simulator/PersoSim.java:125-131 | trimming twice is trimming once |
| JavaText.LowerChar | de.persosim.simulator/src/de/persosim/simulator/PersoSim.java:125 | lower-casing keeps spaces and trimmable characters where they are |
| JavaText.ToLowerKeepsSpacesAndTrimmed | de.persosim.simulator/src/de/persosim/simulator/PersoSim.java:125 | `toLowerCase` keeps the length, the space positions and trimmedness |
| JavaText.IndexOf | de.persosim.simulator/src/de/persosim/simulator/PersoSim.java:127 | `indexOf`: -1 exactly when absent, else the first position of the character |
| JavaText.ParseInt | de.persosim.simulator/src/de/persosim/simulator/PersoSim.java:287 | `Integer.parseInt`: results lie in the 32-bit range, failures are NumberFormatException, the empty string fails |
| JavaText.ParseIntRoundTrip | de.persosim.simulator/src/de/persosim/simulator/PersoSim.java:287 | every 32-bit int written in decimal parses back to itself |
| JavaText.ParseIntSigns | de.persosim.simulator/src/de/persosim/simulator/PersoSim.java:287 | a leading '+' changes nothing, and a leading '-' turns a positive number into its negation |
| Console.ParseCommandShape | de.persosim.simulator/src/de/persosim/simulator/PersoSim.java:106-140 | no word for a blank line; one word, the lowered trimmed line, exactly when it has no space; else two: the non-empty space-free text before the first space and the trimmed, non-empty rest |
| Console.ParseCommandRejoin | de.persosim.simulator/src/de/persosim/simulator/PersoSim.java:124-140 | joining the two parsed words with one space and parsing again gives the same two words |
| Console.ParseCommandSingle | de.persosim.simulator/src/de/persosim/simulator/PersoSim.java:124-140 | parsing a parsed single word gives it back |
| Console.NonNullMembership | de.persosim.simulator/src/de/persosim/simulator/PersoSim.java:610-614 | an argument survives exactly when it is a non-null argument of the input |
| Console.NonNullHasNoNulls | de.persosim.simulator/src/de/persosim/simulator/PersoSim.java:610-614 | no null argument is left |
| Console.NonNullAppend | de.persosim.simulator/src/de/persosim/simulator/PersoSim.java:610-614 | the survivors keep their relative order |
| Console.NonNullOfNonNull | de.persosim.simulator/src/de/persosim/simulator/PersoSim.java:610-614 | a list without nulls is left as it is |
| Console.NonNullCount | de.persosim.simulator/src/de/persosim/simulator/PersoSim.java:610-614 | exactly the null arguments are dropped |
| Console.RemoveNullArguments | de.persosim.simulator/src/de/persosim/simulator/PersoSim.java:606-614 | the backward removal loop leaves the non-null arguments in their order (`NonNull`) |
| Console.PersoSim.constructor | de.persosim.simulator/src/de/persosim/simulator/PersoSim.java:64-67 | the port starts at the default 9876 |
| Console.PersoSim.SetPort | de.persosim.simulator/src/de/persosim/simulator/PersoSim.java:285-293 | null throws NullPointerException, non-numbers NumberFormatException, negatives IllegalArgumentException, all leaving the port; otherwise the parsed port is stored |

## Left out

- Cryptography, the TLV codec, the card's object store and the key lookup are uninterpreted functions (`CaTypes.Platform`). The model states only what the handlers do with their results and exceptions.
- `Tr03110.java` is not part of this model. The values of id-CA, id-PK and id-PT are taken from BSI TR-03110 Part 3.
- `OidIdentifier.matches` is assumed to be a prefix test on the OID bytes, so an OID identifier matches every OID under it. The source of the identifier classes is not part of this model.
- `MasterFile.findChildren` is not modelled. `GetSecInfos` takes the objects it returns, and requires that each matches id-CA (`FoundByCaOid`), which is what the lookup guarantees. Without that, the Java code would dereference a null generic OID.
- The encoding of a public key and the split into AlgorithmIdentifier and subjectPublicKey are the functions `algorithmIdentifierOf` and `subjectPublicKeyOf`. Both are assumed total.
- `SecureRandom` is the parameter `random: nat -> byte`. No other source of randomness is modelled.
- Logging, `getIdString` and `toString` are left out. They have no effect on state.
- `AbstractCaProtocol.initialize` is empty and is not modelled. The protocol name passed to the superclass is not modelled either.
- `PersoSim`:
  - the socket, the simulator thread and console I/O are left out;
  - the dispatch loop of `executeUserCommands` after the null-removal loop is left out, as are `handleArgs` and the other user commands;
  - the early return of `executeUserCommands` for a null or empty array is not modelled separately, since on an empty list the removal loop does nothing;
  - the printed message of `setPort` is left out.
- `JavaText.LowerChar` lowers only the Basic Latin capitals A-Z. Java's `toLowerCase` follows the full Unicode case mapping, which can also change the length of a string.
- `JavaText.ParseInt` accepts ASCII digits only. Java's `Character.digit` also accepts other Unicode decimal digits.
- The test class `Profile05Test` is not modelled.

## Where the code and its documentation differ

The model follows the code in each case:

- `parseCommand`'s comment does not mention that the line is lower-cased. The code lower-cases it, and so does the model.
- `setPort` rejects only negative numbers. It accepts 0 and numbers above 65535, which are not usable TCP ports. `Console.PersoSim.SetPort` accepts them as well.
- `GenericOid` accepts an empty byte array as an OID.
- Set AT stores the CA OID before the key is resolved. When the key lookup fails, the OID stays stored (`CaProperties.SetAtOutcomes`).
- `getSecInfos` uses -1 as the marker for "no key identifier". A key whose first key identifier has the reference -1 is therefore skipped as well (`CaSecInfos.Processed`).
- The comment in `getEphemeralPublicKeyPcdFromTa` assumes at most one Terminal Authentication mechanism. The loop stops at the first one. If that one holds no key, the answer is 6982 even when a later one has the key (`CaProperties.GaFirstTaWithoutKey`).
- The completion flag (`ProtocolUpdate(true)`) is added only when General Authenticate succeeds. On failure nothing is propagated (`CaProperties.GaFailureEmitsNothing`).
