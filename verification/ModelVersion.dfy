/**
 * The content-addressed model descriptor: validation, one canonical form for every key
 * order, freezing, and the identity computed from the canonical form.
 */
module ModelVersions {
  import opened Prelude

  /** A JSON tree; an object is a dictionary and the order its keys were inserted in. */
  datatype Json =
    | Null | Bool(b: bool) | Int(i: int) | Float | Str(s: string)
    | Arr(items: seq<Json>) | Obj(members: map<Key, Json>, order: seq<Key>)

  /** A key is one of the names the contract knows, or any other text. */
  datatype Key =
    | SchemaVersion | CompositionKey | IdKey | FullModelArtifact | BaseModelKey | AdapterArtifact
    | Tokenizer | ChatTemplate | LineageKey
    | TrainingRun | DatasetVersion | InputArtifacts | DerivedFromModelVersion
    | Uri | DigestKey | SizeBytes | KindKey | ManifestDigest
    | Mode | ArtifactKey | Source | Repository | Revision
    | OtherKey(name: string)

  // ----- Equality up to key order -----

  predicate Same(a: Json, b: Json) {
    match a
    case Arr(items) => b.Arr? && |b.items| == |items| && forall i | 0 <= i < |items| :: Same(items[i], b.items[i])
    case Obj(ms, _) => b.Obj? && ms.Keys == b.members.Keys && forall k | k in ms :: Same(ms[k], b.members[k])
    case _ => a == b
  }

  predicate HasFloat(v: Json) {
    match v
    case Float => true
    case Arr(items) => exists i | 0 <= i < |items| :: HasFloat(items[i])
    case Obj(ms, _) => exists k | k in ms :: HasFloat(ms[k])
    case _ => false
  }

  lemma {:induction false} FloatsSame(a: Json, b: Json)
    requires Same(a, b)
    ensures HasFloat(a) <==> HasFloat(b)
  {
    match a {
      case Arr(items) =>
        forall i | 0 <= i < |items| ensures HasFloat(items[i]) <==> HasFloat(b.items[i]) {
          FloatsSame(items[i], b.items[i]);
        }
      case Obj(ms, _) =>
        forall k | k in ms ensures HasFloat(ms[k]) <==> HasFloat(b.members[k]) {
          FloatsSame(ms[k], b.members[k]);
        }
      case _ =>
    }
  }

  // ----- Strings -----

  predicate IsHex(s: string) {
    forall i | 0 <= i < |s| :: '0' <= s[i] <= '9' || 'a' <= s[i] <= 'f'
  }

  const DigestPrefix := "sha256:"
  const ArtifactPrefix := "artifact://sha256/"
  const VersionPrefix := "model-version://sha256/"
  const SafeInteger := 9_007_199_254_740_991

  predicate IsDigest(s: string) {
    |s| == |DigestPrefix| + 64 && s[..|DigestPrefix|] == DigestPrefix && IsHex(s[|DigestPrefix|..])
  }

  predicate IsVersionId(s: string) {
    |s| == |VersionPrefix| + 64 && s[..|VersionPrefix|] == VersionPrefix && IsHex(s[|VersionPrefix|..])
  }

  predicate IsAlpha(c: char) {
    'A' <= c <= 'Z' || 'a' <= c <= 'z'
  }

  predicate IsAlphanumeric(c: char) {
    IsAlpha(c) || '0' <= c <= '9'
  }

  predicate IsSpace(c: char) {
    var n := c as int;
    || 9 <= n <= 13 || 28 <= n <= 32 || n == 0x85 || n == 0xa0 || n == 0x1680 || 0x2000 <= n <= 0x200a
    || n == 0x2028 || n == 0x2029 || n == 0x202f || n == 0x205f || n == 0x3000
  }

  predicate IsControl(c: char) {
    c as int < 32 || 0x7f <= c as int <= 0x9f
  }

  predicate IsSchemeChar(c: char) {
    IsAlphanumeric(c) || c == '+' || c == '.' || c == '-'
  }

  /** A scheme, a colon, and a non-empty rest without spaces or control characters. */
  predicate IsResourceUri(s: string) {
    && (exists k | 1 <= k < |s| - 1 ::
          && s[k] == ':' && IsAlpha(s[0])
          && (forall i | 1 <= i < k :: IsSchemeChar(s[i]))
          && (forall i | k < i < |s| :: !IsSpace(s[i])))
    && (forall i | 0 <= i < |s| :: !IsControl(s[i]))
  }

  predicate IsNameChar(c: char) {
    IsAlphanumeric(c) || c == '_' || c == '.' || c == '-'
  }

  predicate IsRepository(s: string) {
    exists k | 1 <= k < |s| - 1 ::
      && s[k] == '/'
      && (forall i | 0 <= i < |s| && i != k :: IsNameChar(s[i]))
  }

  predicate IsRevision(s: string) {
    |s| == 40 && IsHex(s)
  }

  // ----- What a valid descriptor holds -----

  datatype Artifact = Artifact(uri: string, digest: string, size: int, kind: string, manifest: Option<string>)

  datatype Override = Inherit | Overridden(artifact: Artifact)

  datatype Lineage = Lineage(
    trainingRun: Option<string>, datasetVersion: Option<string>,
    inputArtifacts: Option<seq<Artifact>>, derivedFrom: Option<string>)

  datatype BaseModel = BaseModel(artifact: Artifact, repository: string, revision: string)

  datatype Composition = FullModel(artifact: Artifact) | BasePlusLora(base: BaseModel, adapter: Artifact)

  datatype Descriptor = Descriptor(
    id: Option<string>, composition: Composition, tokenizer: Override, chatTemplate: Override, lineage: Lineage)

  const Kinds := {"generic", "model", "dataset", "checkpoint", "training_spec", "metrics", "report"}

  predicate ValidArtifact(a: Artifact, portable: bool) {
    && IsDigest(a.digest) && a.uri == ArtifactPrefix + a.digest[|DigestPrefix|..]
    && 0 <= a.size <= SafeInteger && a.kind in Kinds
    && (a.manifest.Some? ==> IsDigest(a.manifest.value))
    && (portable ==> a.kind == "model" && a.manifest == Some(a.digest))
  }

  predicate ValidOverride(o: Override) {
    o.Overridden? ==> ValidArtifact(o.artifact, false)
  }

  predicate ValidLineage(l: Lineage) {
    && (l.trainingRun.Some? ==> IsResourceUri(l.trainingRun.value))
    && (l.datasetVersion.Some? ==> IsResourceUri(l.datasetVersion.value))
    && (l.inputArtifacts.Some? ==> forall i | 0 <= i < |l.inputArtifacts.value| :: ValidArtifact(l.inputArtifacts.value[i], false))
    && (l.derivedFrom.Some? ==> IsVersionId(l.derivedFrom.value))
  }

  predicate ValidComposition(c: Composition) {
    match c
    case FullModel(a) => ValidArtifact(a, true)
    case BasePlusLora(b, a) =>
      && ValidArtifact(b.artifact, true) && IsRepository(b.repository) && IsRevision(b.revision)
      && ValidArtifact(a, true) && b.artifact.digest != a.digest
  }

  predicate ValidDescriptor(d: Descriptor) {
    && (d.id.Some? ==> IsVersionId(d.id.value))
    && ValidComposition(d.composition) && ValidOverride(d.tokenizer) && ValidOverride(d.chatTemplate)
    && ValidLineage(d.lineage)
  }

  // ----- Reading: None stands for the ValueError -----

  function Get(ms: map<Key, Json>, key: Key): Option<Json> {
    if key in ms then Some(ms[key]) else None
  }

  function GetStr(ms: map<Key, Json>, key: Key): Option<string> {
    if key in ms && ms[key].Str? then Some(ms[key].s) else None
  }

  function GetInt(ms: map<Key, Json>, key: Key): Option<int> {
    if key in ms && ms[key].Int? then Some(ms[key].i) else None
  }

  /** The value under a key, or null. */
  function Field(ms: map<Key, Json>, key: Key): Json {
    if key in ms then ms[key] else Null
  }

  predicate KeysAre(ms: map<Key, Json>, required: set<Key>, optional: set<Key>) {
    required <= ms.Keys <= required + optional
  }

  /** A field that may be missing but, when present, must be text. */
  predicate TextIfPresent(ms: map<Key, Json>, key: Key) {
    key in ms ==> ms[key].Str?
  }

  function ReadArtifact(v: Json): Option<Artifact> {
    if !v.Obj? || !KeysAre(v.members, {Uri, DigestKey, SizeBytes, KindKey}, {ManifestDigest}) then None
    else
      var uri, digest, size, kind := GetStr(v.members, Uri), GetStr(v.members, DigestKey),
                                     GetInt(v.members, SizeBytes), GetStr(v.members, KindKey);
      if uri.None? || digest.None? || size.None? || kind.None? || !TextIfPresent(v.members, ManifestDigest) then None
      else Some(Artifact(uri.value, digest.value, size.value, kind.value, GetStr(v.members, ManifestDigest)))
  }

  function ReadOverride(v: Json): Option<Override> {
    if !v.Obj? || !KeysAre(v.members, {Mode}, {ArtifactKey}) then None
    else
      match GetStr(v.members, Mode)
      case None => None
      case Some(mode) =>
        if mode == "INHERIT" then if Get(v.members, ArtifactKey).Some? then None else Some(Inherit)
        else if mode == "OVERRIDE" && Get(v.members, ArtifactKey).Some? then
          match ReadArtifact(Get(v.members, ArtifactKey).value)
          case None => None
          case Some(a) => Some(Overridden(a))
        else None
  }

  function ReadArtifacts(items: seq<Json>): Option<seq<Artifact>> {
    if items == [] then Some([])
    else
      match (ReadArtifacts(items[..|items| - 1]), ReadArtifact(items[|items| - 1]))
      case (Some(front), Some(last)) => Some(front + [last])
      case _ => None
  }

  /** The inputs are missing, or an array of artifacts. */
  function ReadInputs(inputs: Option<Json>): Option<Option<seq<Artifact>>> {
    match inputs
    case None => Some(None)
    case Some(Arr(items)) =>
      (match ReadArtifacts(items)
       case None => None
       case Some(artifacts) => Some(Some(artifacts)))
    case _ => None
  }

  function ReadLineage(v: Json): Option<Lineage> {
    if !v.Obj? || !KeysAre(v.members, {}, {TrainingRun, DatasetVersion, InputArtifacts, DerivedFromModelVersion})
       || !TextIfPresent(v.members, TrainingRun) || !TextIfPresent(v.members, DatasetVersion)
       || !TextIfPresent(v.members, DerivedFromModelVersion)
    then None
    else
      match ReadInputs(Get(v.members, InputArtifacts))
      case None => None
      case Some(inputs) =>
        Some(Lineage(GetStr(v.members, TrainingRun), GetStr(v.members, DatasetVersion), inputs,
                     GetStr(v.members, DerivedFromModelVersion)))
  }

  function ReadBase(v: Json): Option<BaseModel> {
    if !v.Obj? || !KeysAre(v.members, {ArtifactKey, Source}, {}) then None
    else
      var source := Field(v.members, Source);
      if !source.Obj? || !KeysAre(source.members, {Repository, Revision}, {}) then None
      else
        match (ReadArtifact(Field(v.members, ArtifactKey)), GetStr(source.members, Repository), GetStr(source.members, Revision))
        case (Some(a), Some(repository), Some(revision)) => Some(BaseModel(a, repository, revision))
        case _ => None
  }

  const CommonKeys := {SchemaVersion, CompositionKey, Tokenizer, ChatTemplate, LineageKey}

  function ReadComposition(ms: map<Key, Json>, requireId: bool): Option<Composition> {
    var required, optional := CommonKeys + if requireId then {IdKey} else {}, if requireId then {} else {IdKey};
    match GetStr(ms, CompositionKey)
    case None => None
    case Some(c) =>
      if c == "FULL_MODEL" then
        if !KeysAre(ms, required + {FullModelArtifact}, optional) then None
        else
          match ReadArtifact(Field(ms, FullModelArtifact))
          case None => None
          case Some(a) => Some(FullModel(a))
      else if c == "BASE_PLUS_LORA" then
        if !KeysAre(ms, required + {BaseModelKey, AdapterArtifact}, optional) then None
        else
          match (ReadBase(Field(ms, BaseModelKey)), ReadArtifact(Field(ms, AdapterArtifact)))
          case (Some(b), Some(a)) => Some(BasePlusLora(b, a))
          case _ => None
      else None
  }

  /** The structure of a payload; without requireId an id is allowed and dropped. */
  function ReadDescriptor(v: Json, requireId: bool): Option<Descriptor> {
    if HasFloat(v) || !v.Obj? then None
    else
      var ms := v.members;
      var id := if requireId then GetStr(ms, IdKey) else None;
      if GetStr(ms, SchemaVersion) != Some("1") || (requireId && id.None?) then None
      else
        match (ReadComposition(ms, requireId), ReadOverride(Field(ms, Tokenizer)),
               ReadOverride(Field(ms, ChatTemplate)), ReadLineage(Field(ms, LineageKey)))
        case (Some(c), Some(t), Some(ct), Some(l)) => Some(Descriptor(id, c, t, ct, l))
        case _ => None
  }

  // ----- Writing: the one canonical order -----

  const EmptyObject := Obj(map[], [])

  /** Fill one more key. */
  function Put(o: Json, key: Key, value: Json): (r: Json)
    requires o.Obj?
    ensures r.Obj? && r.members == o.members[key := value]
  {
    Obj(o.members[key := value], o.order + [key])
  }

  function PutIf(o: Json, key: Key, value: Option<Json>): (r: Json)
    requires o.Obj?
    ensures r.Obj? && r.members == if value.None? then o.members else o.members[key := value.value]
  {
    if value.None? then o else Put(o, key, value.value)
  }

  function TextJson(text: Option<string>): Option<Json> {
    if text.None? then None else Some(Str(text.value))
  }

  function WriteArtifact(a: Artifact): Json {
    PutIf(Put(Put(Put(Put(EmptyObject, Uri, Str(a.uri)), DigestKey, Str(a.digest)), SizeBytes, Int(a.size)),
              KindKey, Str(a.kind)), ManifestDigest, TextJson(a.manifest))
  }

  function WriteOverride(o: Override): Json {
    match o
    case Inherit => Put(EmptyObject, Mode, Str("INHERIT"))
    case Overridden(a) => Put(Put(EmptyObject, Mode, Str("OVERRIDE")), ArtifactKey, WriteArtifact(a))
  }

  function WriteArtifacts(artifacts: seq<Artifact>): seq<Json> {
    if artifacts == [] then []
    else WriteArtifacts(artifacts[..|artifacts| - 1]) + [WriteArtifact(artifacts[|artifacts| - 1])]
  }

  function InputsJson(inputs: Option<seq<Artifact>>): Option<Json> {
    if inputs.None? then None else Some(Arr(WriteArtifacts(inputs.value)))
  }

  /** A lineage object from the members it has. */
  function LineageObject(run: Option<Json>, dataset: Option<Json>, inputs: Option<Json>, derived: Option<Json>): (r: Json)
    ensures r.Obj?
  {
    PutIf(PutIf(PutIf(PutIf(EmptyObject, TrainingRun, run), DatasetVersion, dataset), InputArtifacts, inputs),
          DerivedFromModelVersion, derived)
  }

  function WriteLineage(l: Lineage): Json {
    LineageObject(TextJson(l.trainingRun), TextJson(l.datasetVersion), InputsJson(l.inputArtifacts), TextJson(l.derivedFrom))
  }

  function WriteSource(b: BaseModel): Json {
    Put(Put(EmptyObject, Repository, Str(b.repository)), Revision, Str(b.revision))
  }

  function WriteBase(b: BaseModel): Json {
    Put(Put(EmptyObject, ArtifactKey, WriteArtifact(b.artifact)), Source, WriteSource(b))
  }

  function CompositionName(c: Composition): string {
    if c.FullModel? then "FULL_MODEL" else "BASE_PLUS_LORA"
  }

  /** The artifacts of a composition, already written. */
  datatype Parts = FullPart(full: Json) | LoraParts(base: Json, adapter: Json)

  function PartsOf(c: Composition): Parts {
    match c
    case FullModel(a) => FullPart(WriteArtifact(a))
    case BasePlusLora(b, a) => LoraParts(WriteBase(b), WriteArtifact(a))
  }

  /** schemaVersion, composition and, when it is part of the payload, the id. */
  function LayoutHead(name: string, id: Option<Json>): (r: Json)
    ensures r.Obj?
  {
    PutIf(Put(Put(EmptyObject, SchemaVersion, Str("1")), CompositionKey, Str(name)), IdKey, id)
  }

  function LayoutParts(o: Json, p: Parts): (r: Json)
    requires o.Obj?
    ensures r.Obj?
  {
    match p
    case FullPart(full) => Put(o, FullModelArtifact, full)
    case LoraParts(base, adapter) => Put(Put(o, BaseModelKey, base), AdapterArtifact, adapter)
  }

  function LayoutTail(o: Json, tokenizer: Json, template: Json, lineage: Json): (r: Json)
    requires o.Obj?
    ensures r.Obj?
  {
    Put(Put(Put(o, Tokenizer, tokenizer), ChatTemplate, template), LineageKey, lineage)
  }

  /** The order in which the top-level members are filled in. */
  function Layout(name: string, id: Option<Json>, p: Parts, tokenizer: Json, template: Json, lineage: Json): (r: Json)
    ensures r.Obj?
  {
    LayoutTail(LayoutParts(LayoutHead(name, id), p), tokenizer, template, lineage)
  }

  function WriteDescriptor(d: Descriptor): (r: Json)
    ensures r.Obj?
  {
    Layout(CompositionName(d.composition), TextJson(d.id), PartsOf(d.composition),
           WriteOverride(d.tokenizer), WriteOverride(d.chatTemplate), WriteLineage(d.lineage))
  }

  function Normalize(v: Json, requireId: bool): Option<Json> {
    match ReadDescriptor(v, requireId)
    case None => None
    case Some(d) => if ValidDescriptor(d) then Some(WriteDescriptor(d)) else None
  }

  // ----- Reading does not depend on key order -----

  predicate SameMembers(a: map<Key, Json>, b: map<Key, Json>) {
    a.Keys == b.Keys && forall k | k in a :: Same(a[k], b[k])
  }

  lemma TextSame(a: map<Key, Json>, b: map<Key, Json>, key: Key)
    requires SameMembers(a, b)
    ensures GetStr(a, key) == GetStr(b, key) && GetInt(a, key) == GetInt(b, key)
    ensures TextIfPresent(a, key) == TextIfPresent(b, key)
  {
  }

  lemma ArtifactSame(v: Json, w: Json)
    requires Same(v, w)
    ensures ReadArtifact(v) == ReadArtifact(w)
  {
    if v.Obj? {
      TextSame(v.members, w.members, Uri);
      TextSame(v.members, w.members, DigestKey);
      TextSame(v.members, w.members, SizeBytes);
      TextSame(v.members, w.members, KindKey);
      TextSame(v.members, w.members, ManifestDigest);
    }
  }

  lemma OverrideSame(v: Json, w: Json)
    requires Same(v, w)
    ensures ReadOverride(v) == ReadOverride(w)
  {
    if v.Obj? {
      TextSame(v.members, w.members, Mode);
      ArtifactSame(Field(v.members, ArtifactKey), Field(w.members, ArtifactKey));
    }
  }

  lemma {:induction false} ArtifactsSame(a: seq<Json>, b: seq<Json>)
    requires |a| == |b| && forall i | 0 <= i < |a| :: Same(a[i], b[i])
    ensures ReadArtifacts(a) == ReadArtifacts(b)
  {
    if a != [] {
      ArtifactsSame(a[..|a| - 1], b[..|b| - 1]);
      ArtifactSame(a[|a| - 1], b[|b| - 1]);
    }
  }

  lemma InputsSame(a: Option<Json>, b: Option<Json>)
    requires a.Some? <==> b.Some?
    requires a.Some? ==> Same(a.value, b.value)
    ensures ReadInputs(a) == ReadInputs(b)
  {
    if a.Some? && a.value.Arr? { ArtifactsSame(a.value.items, b.value.items); }
  }

  lemma LineageSame(v: Json, w: Json)
    requires Same(v, w)
    ensures ReadLineage(v) == ReadLineage(w)
  {
    if v.Obj? {
      TextSame(v.members, w.members, TrainingRun);
      TextSame(v.members, w.members, DatasetVersion);
      TextSame(v.members, w.members, DerivedFromModelVersion);
      InputsSame(Get(v.members, InputArtifacts), Get(w.members, InputArtifacts));
    }
  }

  lemma BaseSame(v: Json, w: Json)
    requires Same(v, w)
    ensures ReadBase(v) == ReadBase(w)
  {
    if v.Obj? {
      ArtifactSame(Field(v.members, ArtifactKey), Field(w.members, ArtifactKey));
      var s, t := Field(v.members, Source), Field(w.members, Source);
      if s.Obj? {
        TextSame(s.members, t.members, Repository);
        TextSame(s.members, t.members, Revision);
      }
    }
  }

  lemma CompositionSame(a: map<Key, Json>, b: map<Key, Json>, requireId: bool)
    requires SameMembers(a, b)
    ensures ReadComposition(a, requireId) == ReadComposition(b, requireId)
  {
    TextSame(a, b, CompositionKey);
    ArtifactSame(Field(a, FullModelArtifact), Field(b, FullModelArtifact));
    ArtifactSame(Field(a, AdapterArtifact), Field(b, AdapterArtifact));
    BaseSame(Field(a, BaseModelKey), Field(b, BaseModelKey));
  }

  lemma ReadSame(v: Json, w: Json, requireId: bool)
    requires Same(v, w)
    ensures ReadDescriptor(v, requireId) == ReadDescriptor(w, requireId)
  {
    FloatsSame(v, w);
    if v.Obj? {
      CompositionSame(v.members, w.members, requireId);
      TextSame(v.members, w.members, IdKey);
      TextSame(v.members, w.members, SchemaVersion);
      OverrideSame(Field(v.members, Tokenizer), Field(w.members, Tokenizer));
      OverrideSame(Field(v.members, ChatTemplate), Field(w.members, ChatTemplate));
      LineageSame(Field(v.members, LineageKey), Field(w.members, LineageKey));
    }
  }

  /** Every key order of a payload has one canonical form, or none has any. */
  lemma NormalizeIgnoresKeyOrder(v: Json, w: Json, requireId: bool)
    requires Same(v, w)
    ensures Normalize(v, requireId) == Normalize(w, requireId)
  {
    ReadSame(v, w, requireId);
  }
}
