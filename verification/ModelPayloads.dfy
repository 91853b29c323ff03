/**
 * What every accepted model payload holds, key by key.
 */
module ModelPayloads {
  import opened Prelude
  import opened ModelVersions
  import opened ModelIdentity

  /** 64 lower-case hexadecimal digits behind a prefix. */
  predicate Hashed(prefix: string, s: string) {
    |s| == |prefix| + 64 && prefix <= s && forall i | |prefix| <= i < |s| :: '0' <= s[i] <= '9' || 'a' <= s[i] <= 'f'
  }

  /** The JSON of a model artifact: its digest names its content, its location and its manifest. */
  predicate IsModelArtifact(v: Json, digest: string) {
    && v.Obj? && v.members.Keys == {Uri, DigestKey, SizeBytes, KindKey, ManifestDigest}
    && v.members[DigestKey] == v.members[ManifestDigest] == Str(digest) && Hashed("sha256:", digest)
    && v.members[Uri] == Str("artifact://sha256/" + digest[7..]) && v.members[KindKey] == Str("model")
    && v.members[SizeBytes].Int? && 0 <= v.members[SizeBytes].i <= 9_007_199_254_740_991
  }

  lemma ReadsModelArtifact(v: Json)
    requires ReadArtifact(v).Some? && ValidArtifact(ReadArtifact(v).value, true)
    ensures IsModelArtifact(v, ReadArtifact(v).value.digest)
  {
    var d := ReadArtifact(v).value.digest;
    assert d[..7] == "sha256:" && forall i | 7 <= i < |d| :: d[i] == d[7..][i - 7];
  }

  /** The digest a payload gives this artifact. */
  function DigestAt(v: Json): string {
    if v.Obj? then GetStr(v.members, DigestKey).GetOr("") else ""
  }

  /** A base model is a model artifact and the pinned revision it comes from. */
  predicate IsBaseModel(v: Json) {
    && v.Obj? && v.members.Keys == {ArtifactKey, Source} && IsModelArtifact(v.members[ArtifactKey], DigestAt(v.members[ArtifactKey]))
    && v.members[Source].Obj? && v.members[Source].members.Keys == {Repository, Revision}
    && v.members[Source].members[Revision].Str? && |v.members[Source].members[Revision].s| == 40
  }

  lemma ReadsBaseModel(v: Json)
    requires ReadBase(v).Some? && ValidArtifact(ReadBase(v).value.artifact, true) && IsRevision(ReadBase(v).value.revision)
    ensures IsBaseModel(v) && DigestAt(v.members[ArtifactKey]) == ReadBase(v).value.artifact.digest
  {
    ReadsModelArtifact(v.members[ArtifactKey]);
  }

  /** The keys of a payload beside those of its composition. */
  predicate OtherKeys(ms: map<Key, Json>, parts: set<Key>, requireId: bool) {
    var keys := {SchemaVersion, CompositionKey, Tokenizer, ChatTemplate, LineageKey} + parts;
    ms.Keys == keys + {IdKey} || (!requireId && ms.Keys == keys)
  }

  predicate IsFullPayload(ms: map<Key, Json>, requireId: bool) {
    && Field(ms, CompositionKey) == Str("FULL_MODEL") && OtherKeys(ms, {FullModelArtifact}, requireId)
    && IsModelArtifact(Field(ms, FullModelArtifact), DigestAt(Field(ms, FullModelArtifact)))
  }

  predicate IsLoraPayload(ms: map<Key, Json>, requireId: bool) {
    && Field(ms, CompositionKey) == Str("BASE_PLUS_LORA") && OtherKeys(ms, {BaseModelKey, AdapterArtifact}, requireId)
    && IsBaseModel(Field(ms, BaseModelKey))
    && IsModelArtifact(Field(ms, AdapterArtifact), DigestAt(Field(ms, AdapterArtifact)))
    && DigestAt(Field(ms, AdapterArtifact)) != DigestAt(Field(ms, BaseModelKey).members[ArtifactKey])
  }

  lemma KeysWithin(ms: map<Key, Json>, parts: set<Key>, requireId: bool)
    requires KeysAre(ms, CommonKeys + (if requireId then {IdKey} else {}) + parts, if requireId then {} else {IdKey})
    ensures OtherKeys(ms, parts, requireId)
  {
    var keys := {SchemaVersion, CompositionKey, Tokenizer, ChatTemplate, LineageKey} + parts;
    if requireId || IdKey in ms {
      assert ms.Keys == keys + {IdKey};
    } else {
      assert ms.Keys == keys;
    }
  }

  lemma ReadsFullPayload(ms: map<Key, Json>, requireId: bool)
    requires ReadComposition(ms, requireId).Some? && ReadComposition(ms, requireId).value.FullModel?
    requires ValidComposition(ReadComposition(ms, requireId).value)
    ensures IsFullPayload(ms, requireId)
  {
    hide ReadArtifact, ReadBase, ValidArtifact, IsModelArtifact, KeysAre, OtherKeys;
    KeysWithin(ms, {FullModelArtifact}, requireId);
    ReadsModelArtifact(Field(ms, FullModelArtifact));
    DigestIs(Field(ms, FullModelArtifact));
  }

  lemma ReadsLoraPayload(ms: map<Key, Json>, requireId: bool)
    requires ReadComposition(ms, requireId).Some? && ReadComposition(ms, requireId).value.BasePlusLora?
    requires ValidComposition(ReadComposition(ms, requireId).value)
    ensures IsLoraPayload(ms, requireId)
  {
    hide ReadArtifact, ReadBase, ValidArtifact, IsModelArtifact, IsBaseModel, KeysAre, OtherKeys, IsRevision, IsRepository;
    KeysWithin(ms, {BaseModelKey, AdapterArtifact}, requireId);
    ReadsModelArtifact(Field(ms, AdapterArtifact));
    DigestIs(Field(ms, AdapterArtifact));
    ReadsBaseModel(Field(ms, BaseModelKey));
    assert IsBaseModel(Field(ms, BaseModelKey));
    BaseIsObject(Field(ms, BaseModelKey));
  }

  lemma DigestIs(v: Json)
    requires ReadArtifact(v).Some?
    ensures DigestAt(v) == ReadArtifact(v).value.digest
  {
  }

  lemma BaseIsObject(v: Json)
    requires IsBaseModel(v)
    ensures v.Obj? && ArtifactKey in v.members
  {
  }

  /** The JSON of any artifact: its digest names its location. */
  predicate IsArtifact(v: Json) {
    && v.Obj? && {Uri, DigestKey, SizeBytes, KindKey} <= v.members.Keys <= {Uri, DigestKey, SizeBytes, KindKey, ManifestDigest}
    && v.members[DigestKey].Str? && Hashed("sha256:", v.members[DigestKey].s)
    && v.members[Uri] == Str("artifact://sha256/" + v.members[DigestKey].s[7..])
    && v.members[SizeBytes].Int? && 0 <= v.members[SizeBytes].i <= 9_007_199_254_740_991
  }

  lemma ReadsArtifact(v: Json)
    requires ReadArtifact(v).Some? && ValidArtifact(ReadArtifact(v).value, false)
    ensures IsArtifact(v)
  {
    var d := ReadArtifact(v).value.digest;
    assert d[..7] == "sha256:" && forall i | 7 <= i < |d| :: d[i] == d[7..][i - 7];
  }

  /** A component is inherited, or overridden by an artifact; never both. */
  predicate IsOverride(v: Json) {
    && v.Obj? && Mode in v.members
    && (v.members[Mode] == Str("INHERIT") || v.members[Mode] == Str("OVERRIDE"))
    && (v.members[Mode] == Str("INHERIT") <==> ArtifactKey !in v.members)
    && (ArtifactKey in v.members ==> IsArtifact(v.members[ArtifactKey]))
  }

  lemma ReadsOverride(v: Json)
    requires ReadOverride(v).Some? && ValidOverride(ReadOverride(v).value)
    ensures IsOverride(v)
  {
    hide ReadArtifact, ValidArtifact, IsArtifact;
    if ReadOverride(v).value.Overridden? { ReadsArtifact(v.members[ArtifactKey]); }
  }

  /** A parent version is named by its own hash. */
  predicate IsLineage(v: Json) {
    && v.Obj? && v.members.Keys <= {TrainingRun, DatasetVersion, InputArtifacts, DerivedFromModelVersion}
    && (DerivedFromModelVersion in v.members ==>
          v.members[DerivedFromModelVersion].Str? && Hashed("model-version://sha256/", v.members[DerivedFromModelVersion].s))
    && (InputArtifacts in v.members ==>
          v.members[InputArtifacts].Arr? && forall i | 0 <= i < |v.members[InputArtifacts].items| :: IsArtifact(v.members[InputArtifacts].items[i]))
  }

  lemma {:induction false} ReadsArtifacts(items: seq<Json>)
    requires ReadArtifacts(items).Some?
    ensures |ReadArtifacts(items).value| == |items|
    ensures forall i | 0 <= i < |items| :: ReadArtifact(items[i]) == Some(ReadArtifacts(items).value[i])
  {
    hide ReadArtifact;
    if items != [] { ReadsArtifacts(items[..|items| - 1]); }
  }

  lemma ReadsInputs(inputs: Json)
    requires inputs.Arr? && ReadArtifacts(inputs.items).Some?
    requires var read := ReadArtifacts(inputs.items).value; forall i | 0 <= i < |read| :: ValidArtifact(read[i], false)
    ensures forall i | 0 <= i < |inputs.items| :: IsArtifact(inputs.items[i])
  {
    hide ReadArtifact, ValidArtifact, IsArtifact;
    ReadsArtifacts(inputs.items);
    forall i | 0 <= i < |inputs.items| ensures IsArtifact(inputs.items[i]) {
      assert ReadArtifact(inputs.items[i]) == Some(ReadArtifacts(inputs.items).value[i]);
      ReadsArtifact(inputs.items[i]);
    }
  }

  lemma ReadsLineage(v: Json)
    requires ReadLineage(v).Some? && ValidLineage(ReadLineage(v).value)
    ensures IsLineage(v)
  {
    hide ReadArtifact, ValidArtifact, IsArtifact, IsVersionId, ReadArtifacts, Hashed, IsResourceUri;
    var l := ReadLineage(v).value;
    if l.derivedFrom.Some? { IdIsHashed(l.derivedFrom.value); }
    if InputArtifacts in v.members { ReadsInputs(v.members[InputArtifacts]); }
  }

  /**
   * What is accepted: an object without floats, of schema version 1 and of exactly the keys
   * of its composition; every artifact's digest names its location, and a model artifact's
   * its manifest too; an adapter is never its own base; each component is inherited or
   * overridden; and a parent version is named by its hash.
   */
  lemma AcceptedHolds(v: Json, requireId: bool)
    requires Normalize(v, requireId).Some?
    ensures v.Obj? && !HasFloat(v) && Field(v.members, SchemaVersion) == Str("1")
    ensures IsFullPayload(v.members, requireId) || IsLoraPayload(v.members, requireId)
    ensures IsOverride(Field(v.members, Tokenizer)) && IsOverride(Field(v.members, ChatTemplate)) && IsLineage(Field(v.members, LineageKey))
    ensures requireId ==> GetStr(v.members, IdKey).Some? && Hashed("model-version://sha256/", GetStr(v.members, IdKey).value)
  {
    hide ReadComposition, ReadOverride, ReadLineage, ValidComposition, ValidOverride, ValidLineage, IsVersionId,
         WriteDescriptor, IsFullPayload, IsLoraPayload, IsOverride, IsLineage, Hashed;
    var d := ReadDescriptor(v, requireId).value;
    if d.composition.FullModel? {
      ReadsFullPayload(v.members, requireId);
    } else {
      ReadsLoraPayload(v.members, requireId);
    }
    ReadsOverride(Field(v.members, Tokenizer));
    ReadsOverride(Field(v.members, ChatTemplate));
    ReadsLineage(Field(v.members, LineageKey));
    if requireId { IdIsHashed(d.id.value); }
  }

  lemma IdIsHashed(id: string)
    requires IsVersionId(id)
    ensures Hashed("model-version://sha256/", id)
  {
    assert forall i | |VersionPrefix| <= i < |id| :: id[i] == id[|VersionPrefix|..][i - |VersionPrefix|];
  }

  /** A version is created exactly from an accepted payload that carries no id yet. */
  lemma CreatesIff(v: Json, hash: Json -> string)
    ensures Create(v, hash).Some? <==> v.Obj? && IdKey !in v.members && Normalize(v, false).Some?
  {
  }
}
