/**
 * Round trips of the model descriptor: the canonical form reads back as itself, freezing
 * is undone by thawing, and a created version is accepted again under the same identity.
 */
module ModelIdentity {
  import opened Prelude
  import opened ModelVersions

  // ----- Reading what was written -----

  lemma ArtifactRoundTrip(a: Artifact)
    ensures ReadArtifact(WriteArtifact(a)) == Some(a) && !HasFloat(WriteArtifact(a))
  {
  }

  lemma OverrideRoundTrip(o: Override)
    ensures ReadOverride(WriteOverride(o)) == Some(o) && !HasFloat(WriteOverride(o))
  {
    hide ReadArtifact, WriteArtifact;
    if o.Overridden? { ArtifactRoundTrip(o.artifact); }
  }

  lemma ReadArtifactsSnoc(items: seq<Json>, v: Json, front: seq<Artifact>, a: Artifact)
    requires ReadArtifacts(items) == Some(front) && ReadArtifact(v) == Some(a)
    ensures ReadArtifacts(items + [v]) == Some(front + [a])
  {
    assert (items + [v])[..|items|] == items;
  }

  predicate NoneFloat(items: seq<Json>) {
    forall i | 0 <= i < |items| :: !HasFloat(items[i])
  }

  lemma NoneFloatSnoc(items: seq<Json>, v: Json)
    requires NoneFloat(items) && !HasFloat(v)
    ensures NoneFloat(items + [v])
  {
  }

  lemma {:induction false} ArtifactsRoundTrip(artifacts: seq<Artifact>)
    ensures ReadArtifacts(WriteArtifacts(artifacts)) == Some(artifacts)
  {
    hide ReadArtifact, WriteArtifact;
    if artifacts != [] {
      var front, last := artifacts[..|artifacts| - 1], artifacts[|artifacts| - 1];
      ArtifactsRoundTrip(front);
      ArtifactRoundTrip(last);
      ReadArtifactsSnoc(WriteArtifacts(front), WriteArtifact(last), front, last);
      assert artifacts == front + [last];
    }
  }

  lemma {:induction false} ArtifactsFloats(artifacts: seq<Artifact>)
    ensures NoneFloat(WriteArtifacts(artifacts))
  {
    if artifacts != [] {
      var front, last := artifacts[..|artifacts| - 1], artifacts[|artifacts| - 1];
      ArtifactsFloats(front);
      ArtifactRoundTrip(last);
      NoneFloatSnoc(WriteArtifacts(front), WriteArtifact(last));
    }
  }

  lemma InputsRoundTrip(inputs: Option<seq<Artifact>>)
    ensures ReadInputs(InputsJson(inputs)) == Some(inputs)
    ensures FloatFree(InputsJson(inputs))
  {
    if inputs.Some? { ArtifactsRoundTrip(inputs.value); ArtifactsFloats(inputs.value); }
  }

  predicate FloatFree(v: Option<Json>) {
    v.Some? ==> !HasFloat(v.value)
  }

  /** What each key of a lineage object holds. */
  lemma LineageFields(run: Option<Json>, dataset: Option<Json>, inputs: Option<Json>, derived: Option<Json>)
    ensures var ms := LineageObject(run, dataset, inputs, derived).members;
            && Get(ms, TrainingRun) == run && Get(ms, DatasetVersion) == dataset
            && Get(ms, InputArtifacts) == inputs && Get(ms, DerivedFromModelVersion) == derived
            && KeysAre(ms, {}, {TrainingRun, DatasetVersion, InputArtifacts, DerivedFromModelVersion})
    ensures FloatFree(run) && FloatFree(dataset) && FloatFree(inputs) && FloatFree(derived) ==>
              !HasFloat(LineageObject(run, dataset, inputs, derived))
  {
  }

  lemma TextRoundTrip(ms: map<Key, Json>, key: Key, text: Option<string>)
    requires Get(ms, key) == TextJson(text)
    ensures GetStr(ms, key) == text && TextIfPresent(ms, key)
    ensures FloatFree(TextJson(text))
  {
  }

  lemma LineageRoundTrip(l: Lineage)
    ensures ReadLineage(WriteLineage(l)) == Some(l) && !HasFloat(WriteLineage(l))
  {
    var ms := WriteLineage(l).members;
    LineageFields(TextJson(l.trainingRun), TextJson(l.datasetVersion), InputsJson(l.inputArtifacts), TextJson(l.derivedFrom));
    InputsRoundTrip(l.inputArtifacts);
    TextRoundTrip(ms, TrainingRun, l.trainingRun);
    TextRoundTrip(ms, DatasetVersion, l.datasetVersion);
    TextRoundTrip(ms, DerivedFromModelVersion, l.derivedFrom);
  }

  lemma SourceRoundTrip(b: BaseModel)
    ensures var ms := WriteSource(b).members;
            && WriteSource(b).Obj? && ms.Keys == {Repository, Revision}
            && GetStr(ms, Repository) == Some(b.repository) && GetStr(ms, Revision) == Some(b.revision)
    ensures !HasFloat(WriteSource(b))
  {
  }

  lemma ReadsBase(v: Json, artifact: Json, source: Json, b: BaseModel)
    requires v.Obj? && v.members == map[ArtifactKey := artifact, Source := source]
    requires ReadArtifact(artifact) == Some(b.artifact)
    requires source.Obj? && source.members.Keys == {Repository, Revision}
    requires GetStr(source.members, Repository) == Some(b.repository) && GetStr(source.members, Revision) == Some(b.revision)
    ensures ReadBase(v) == Some(b)
  {
    var ms := v.members;
    assert ms.Keys == {ArtifactKey, Source};
    assert Field(ms, Source) == source && Field(ms, ArtifactKey) == artifact;
  }

  predicate FloatFreeMembers(ms: map<Key, Json>) {
    forall k | k in ms :: !HasFloat(ms[k])
  }

  lemma ObjectFloats(v: Json)
    requires v.Obj? && FloatFreeMembers(v.members)
    ensures !HasFloat(v)
  {
  }

  lemma PairFloats(v: Json, artifact: Json, source: Json)
    requires v.Obj? && v.members == map[ArtifactKey := artifact, Source := source]
    requires !HasFloat(artifact) && !HasFloat(source)
    ensures !HasFloat(v)
  {
    ObjectFloats(v);
  }

  lemma BaseRoundTrip(b: BaseModel)
    ensures ReadBase(WriteBase(b)) == Some(b) && !HasFloat(WriteBase(b))
  {
    ArtifactRoundTrip(b.artifact);
    SourceRoundTrip(b);
    ReadsBase(WriteBase(b), WriteArtifact(b.artifact), WriteSource(b), b);
    PairFloats(WriteBase(b), WriteArtifact(b.artifact), WriteSource(b));
  }

  // ----- The whole descriptor -----

  /** v keeps what o holds and adds some keys. */
  predicate Adds(o: map<Key, Json>, v: map<Key, Json>, added: set<Key>) {
    && v.Keys == o.Keys + added
    && (forall k | k in o :: v[k] == o[k])
  }

  lemma AddsGet(o: map<Key, Json>, v: map<Key, Json>, added: set<Key>, key: Key)
    requires Adds(o, v, added) && key !in added
    ensures Get(v, key) == Get(o, key) && GetStr(v, key) == GetStr(o, key)
  {
  }

  lemma AddsFloats(o: map<Key, Json>, v: map<Key, Json>, added: set<Key>)
    requires Adds(o, v, added) && FloatFreeMembers(o)
    requires forall k | k in added :: !HasFloat(v[k])
    ensures FloatFreeMembers(v)
  {
  }

  function IdKeys(id: Option<Json>): set<Key> {
    if id.Some? then {IdKey} else {}
  }

  lemma HeadFields(name: string, id: Option<Json>)
    ensures var ms := LayoutHead(name, id).members;
            && GetStr(ms, SchemaVersion) == Some("1") && GetStr(ms, CompositionKey) == Some(name) && Get(ms, IdKey) == id
            && ms.Keys == {SchemaVersion, CompositionKey} + IdKeys(id)
  {
  }

  lemma HeadFloats(name: string, id: Option<Json>)
    requires FloatFree(id)
    ensures FloatFreeMembers(LayoutHead(name, id).members)
  {
  }

  function PartKeys(p: Parts): set<Key> {
    if p.FullPart? then {FullModelArtifact} else {BaseModelKey, AdapterArtifact}
  }

  predicate HoldsParts(ms: map<Key, Json>, p: Parts) {
    match p
    case FullPart(full) => Field(ms, FullModelArtifact) == full
    case LoraParts(base, adapter) => Field(ms, BaseModelKey) == base && Field(ms, AdapterArtifact) == adapter
  }

  predicate PartsFloatFree(p: Parts) {
    match p
    case FullPart(full) => !HasFloat(full)
    case LoraParts(base, adapter) => !HasFloat(base) && !HasFloat(adapter)
  }

  lemma PartsFields(o: Json, p: Parts)
    requires o.Obj? && PartKeys(p) !! o.members.Keys
    ensures Adds(o.members, LayoutParts(o, p).members, PartKeys(p)) && HoldsParts(LayoutParts(o, p).members, p)
  {
  }

  const TailKeys := {Tokenizer, ChatTemplate, LineageKey}

  predicate HoldsTail(ms: map<Key, Json>, tokenizer: Json, template: Json, lineage: Json) {
    Field(ms, Tokenizer) == tokenizer && Field(ms, ChatTemplate) == template && Field(ms, LineageKey) == lineage
  }

  lemma TailFields(o: Json, tokenizer: Json, template: Json, lineage: Json)
    requires o.Obj? && TailKeys !! o.members.Keys
    ensures var ms := LayoutTail(o, tokenizer, template, lineage).members;
            Adds(o.members, ms, TailKeys) && HoldsTail(ms, tokenizer, template, lineage)
  {
  }

  /** What the head of a payload holds. */
  predicate HoldsHead(ms: map<Key, Json>, name: string, id: Option<Json>) {
    GetStr(ms, SchemaVersion) == Some("1") && GetStr(ms, CompositionKey) == Some(name) && Get(ms, IdKey) == id
  }

  lemma AddsHead(o: map<Key, Json>, v: map<Key, Json>, added: set<Key>, name: string, id: Option<Json>)
    requires Adds(o, v, added) && HoldsHead(o, name, id) && {SchemaVersion, CompositionKey, IdKey} !! added
    ensures HoldsHead(v, name, id)
  {
    AddsGet(o, v, added, SchemaVersion);
    AddsGet(o, v, added, CompositionKey);
    AddsGet(o, v, added, IdKey);
  }

  lemma AddsParts(o: map<Key, Json>, v: map<Key, Json>, added: set<Key>, p: Parts)
    requires Adds(o, v, added) && HoldsParts(o, p) && PartKeys(p) <= o.Keys
    ensures HoldsParts(v, p)
  {
  }

  /** A payload assembled in three stages holds what every stage filled in. */
  lemma Assembled(head: Json, body: Json, whole: Json, name: string, id: Option<Json>, p: Parts,
                  tokenizer: Json, template: Json, lineage: Json)
    requires head.Obj? && HoldsHead(head.members, name, id) && head.members.Keys == {SchemaVersion, CompositionKey} + IdKeys(id)
    requires body.Obj? && Adds(head.members, body.members, PartKeys(p)) && HoldsParts(body.members, p)
    requires whole.Obj? && Adds(body.members, whole.members, TailKeys) && HoldsTail(whole.members, tokenizer, template, lineage)
    ensures HoldsHead(whole.members, name, id) && HoldsParts(whole.members, p)
    ensures whole.members.Keys == CommonKeys + IdKeys(id) + PartKeys(p)
  {
    AddsHead(head.members, body.members, PartKeys(p), name, id);
    AddsHead(body.members, whole.members, TailKeys, name, id);
    AddsParts(body.members, whole.members, TailKeys, p);
  }

  /** What each key of the layout holds. */
  lemma LayoutFields(name: string, id: Option<Json>, p: Parts, tokenizer: Json, template: Json, lineage: Json)
    ensures var ms := Layout(name, id, p, tokenizer, template, lineage).members;
            && HoldsHead(ms, name, id) && HoldsParts(ms, p) && HoldsTail(ms, tokenizer, template, lineage)
            && ms.Keys == CommonKeys + IdKeys(id) + PartKeys(p)
  {
    var head := LayoutHead(name, id);
    var body := LayoutParts(head, p);
    HeadFields(name, id);
    PartsFields(head, p);
    TailFields(body, tokenizer, template, lineage);
    Assembled(head, body, LayoutTail(body, tokenizer, template, lineage), name, id, p, tokenizer, template, lineage);
  }

  lemma PartsFloats(o: map<Key, Json>, v: map<Key, Json>, p: Parts)
    requires Adds(o, v, PartKeys(p)) && HoldsParts(v, p) && PartsFloatFree(p) && FloatFreeMembers(o)
    ensures FloatFreeMembers(v)
  {
    AddsFloats(o, v, PartKeys(p));
  }

  lemma TailFloats(o: map<Key, Json>, v: map<Key, Json>, tokenizer: Json, template: Json, lineage: Json)
    requires Adds(o, v, TailKeys) && HoldsTail(v, tokenizer, template, lineage) && FloatFreeMembers(o)
    requires !HasFloat(tokenizer) && !HasFloat(template) && !HasFloat(lineage)
    ensures FloatFreeMembers(v)
  {
    AddsFloats(o, v, TailKeys);
  }

  lemma BodyFloats(name: string, id: Option<Json>, p: Parts)
    requires FloatFree(id) && PartsFloatFree(p)
    ensures var body := LayoutParts(LayoutHead(name, id), p);
            FloatFreeMembers(body.members) && TailKeys !! body.members.Keys
  {
    hide LayoutHead, LayoutParts, HasFloat;
    HeadFields(name, id);
    HeadFloats(name, id);
    PartsFields(LayoutHead(name, id), p);
    PartsFloats(LayoutHead(name, id).members, LayoutParts(LayoutHead(name, id), p).members, p);
  }

  lemma WholeFloats(body: Json, tokenizer: Json, template: Json, lineage: Json)
    requires body.Obj? && FloatFreeMembers(body.members) && TailKeys !! body.members.Keys
    requires !HasFloat(tokenizer) && !HasFloat(template) && !HasFloat(lineage)
    ensures !HasFloat(LayoutTail(body, tokenizer, template, lineage))
  {
    TailFields(body, tokenizer, template, lineage);
    TailFloats(body.members, LayoutTail(body, tokenizer, template, lineage).members, tokenizer, template, lineage);
    ObjectFloats(LayoutTail(body, tokenizer, template, lineage));
  }

  lemma LayoutFloats(name: string, id: Option<Json>, p: Parts, tokenizer: Json, template: Json, lineage: Json)
    requires FloatFree(id) && PartsFloatFree(p) && !HasFloat(tokenizer) && !HasFloat(template) && !HasFloat(lineage)
    ensures !HasFloat(Layout(name, id, p, tokenizer, template, lineage))
  {
    BodyFloats(name, id, p);
    WholeFloats(LayoutParts(LayoutHead(name, id), p), tokenizer, template, lineage);
  }

  lemma PartsRoundTrip(c: Composition)
    ensures match c
            case FullModel(a) => PartsOf(c).FullPart? && ReadArtifact(PartsOf(c).full) == Some(a)
            case BasePlusLora(b, a) =>
              PartsOf(c).LoraParts? && ReadBase(PartsOf(c).base) == Some(b) && ReadArtifact(PartsOf(c).adapter) == Some(a)
    ensures PartsFloatFree(PartsOf(c))
  {
    match c {
      case FullModel(a) => ArtifactRoundTrip(a);
      case BasePlusLora(b, a) => ArtifactRoundTrip(a); BaseRoundTrip(b);
    }
  }

  lemma ReadsFull(ms: map<Key, Json>, requireId: bool, a: Artifact)
    requires GetStr(ms, CompositionKey) == Some("FULL_MODEL")
    requires ms.Keys == CommonKeys + (if requireId then {IdKey} else {}) + {FullModelArtifact}
    requires ReadArtifact(Field(ms, FullModelArtifact)) == Some(a)
    ensures ReadComposition(ms, requireId) == Some(FullModel(a))
  {
  }

  lemma ReadsLora(ms: map<Key, Json>, requireId: bool, b: BaseModel, a: Artifact)
    requires GetStr(ms, CompositionKey) == Some("BASE_PLUS_LORA")
    requires ms.Keys == CommonKeys + (if requireId then {IdKey} else {}) + {BaseModelKey, AdapterArtifact}
    requires ReadBase(Field(ms, BaseModelKey)) == Some(b) && ReadArtifact(Field(ms, AdapterArtifact)) == Some(a)
    ensures ReadComposition(ms, requireId) == Some(BasePlusLora(b, a))
  {
  }

  /** A payload whose parts read back reads back its composition. */
  lemma ReadsParts(ms: map<Key, Json>, id: Option<Json>, p: Parts, c: Composition)
    requires HoldsHead(ms, CompositionName(c), id) && HoldsParts(ms, p) && ms.Keys == CommonKeys + IdKeys(id) + PartKeys(p)
    requires match c
             case FullModel(a) => p.FullPart? && ReadArtifact(p.full) == Some(a)
             case BasePlusLora(b, a) => p.LoraParts? && ReadBase(p.base) == Some(b) && ReadArtifact(p.adapter) == Some(a)
    ensures ReadComposition(ms, id.Some?) == Some(c)
  {
    match c {
      case FullModel(a) => ReadsFull(ms, id.Some?, a);
      case BasePlusLora(b, a) => ReadsLora(ms, id.Some?, b, a);
    }
  }

  lemma NoFloats(d: Descriptor)
    ensures !HasFloat(WriteDescriptor(d))
  {
    OverrideRoundTrip(d.tokenizer);
    OverrideRoundTrip(d.chatTemplate);
    LineageRoundTrip(d.lineage);
    PartsRoundTrip(d.composition);
    LayoutFloats(CompositionName(d.composition), TextJson(d.id), PartsOf(d.composition),
                 WriteOverride(d.tokenizer), WriteOverride(d.chatTemplate), WriteLineage(d.lineage));
  }

  /** Everything a reader looks up in the canonical form. */
  lemma WrittenFields(d: Descriptor)
    ensures var ms := WriteDescriptor(d).members;
            && GetStr(ms, SchemaVersion) == Some("1") && GetStr(ms, IdKey) == d.id
            && ReadComposition(ms, d.id.Some?) == Some(d.composition)
            && HoldsTail(ms, WriteOverride(d.tokenizer), WriteOverride(d.chatTemplate), WriteLineage(d.lineage))
  {
    var ms := WriteDescriptor(d).members;
    LayoutFields(CompositionName(d.composition), TextJson(d.id), PartsOf(d.composition),
                 WriteOverride(d.tokenizer), WriteOverride(d.chatTemplate), WriteLineage(d.lineage));
    PartsRoundTrip(d.composition);
    TextRoundTrip(ms, IdKey, d.id);
    ReadsParts(ms, TextJson(d.id), PartsOf(d.composition), d.composition);
  }

  lemma RestRoundTrip(d: Descriptor)
    ensures ReadOverride(WriteOverride(d.tokenizer)) == Some(d.tokenizer)
    ensures ReadOverride(WriteOverride(d.chatTemplate)) == Some(d.chatTemplate)
    ensures ReadLineage(WriteLineage(d.lineage)) == Some(d.lineage)
  {
    OverrideRoundTrip(d.tokenizer);
    OverrideRoundTrip(d.chatTemplate);
    LineageRoundTrip(d.lineage);
  }

  /** Reading the canonical form gives back exactly what was written. */
  lemma DescriptorRoundTrip(d: Descriptor)
    ensures ReadDescriptor(WriteDescriptor(d), d.id.Some?) == Some(d)
  {
    NoFloats(d);
    WrittenFields(d);
    RestRoundTrip(d);
  }

  /** A descriptor that was read holds an id exactly when one was asked for. */
  lemma ReadHasId(v: Json, requireId: bool)
    requires ReadDescriptor(v, requireId).Some?
    ensures ReadDescriptor(v, requireId).value.id.Some? == requireId
  {
  }

  /** Normalisation is idempotent. */
  lemma NormalizeIdempotent(v: Json, requireId: bool)
    requires Normalize(v, requireId).Some?
    ensures Normalize(Normalize(v, requireId).value, requireId) == Normalize(v, requireId)
  {
    ReadHasId(v, requireId);
    DescriptorRoundTrip(ReadDescriptor(v, requireId).value);
  }

  // ----- Freezing -----

  /** A tree of read-only views and tuples. */
  datatype Frozen =
    | FNull | FBool(b: bool) | FInt(i: int) | FFloat | FStr(s: string)
    | FTuple(items: seq<Frozen>) | FView(members: map<Key, Frozen>, order: seq<Key>)

  function Freeze(v: Json): Frozen {
    match v
    case Null => FNull
    case Bool(b) => FBool(b)
    case Int(i) => FInt(i)
    case Float => FFloat
    case Str(s) => FStr(s)
    case Arr(items) => FTuple(seq(|items|, i requires 0 <= i < |items| => Freeze(items[i])))
    case Obj(ms, order) => FView(map k | k in ms :: Freeze(ms[k]), order)
  }

  function Thaw(f: Frozen): Json {
    match f
    case FNull => Null
    case FBool(b) => Bool(b)
    case FInt(i) => Int(i)
    case FFloat => Float
    case FStr(s) => Str(s)
    case FTuple(items) => Arr(seq(|items|, i requires 0 <= i < |items| => Thaw(items[i])))
    case FView(ms, order) => Obj(map k | k in ms :: Thaw(ms[k]), order)
  }

  /** Thawing undoes freezing on every JSON tree, key order included. */
  lemma {:induction false} ThawUndoesFreeze(v: Json)
    ensures Thaw(Freeze(v)) == v
  {
    match v {
      case Arr(items) =>
        forall i | 0 <= i < |items| ensures Thaw(Freeze(items[i])) == items[i] { ThawUndoesFreeze(items[i]); }
        assert Thaw(Freeze(v)).items == items;
      case Obj(ms, order) =>
        forall k | k in ms ensures Thaw(Freeze(ms[k])) == ms[k] { ThawUndoesFreeze(ms[k]); }
        assert Thaw(Freeze(v)).members == ms;
      case _ =>
    }
  }

  // ----- Create and accept -----

  datatype ModelVersion = ModelVersion(payload: Frozen, id: string)

  /** The digest of a canonical payload, as 64 lower-case hexadecimal digits. */
  ghost predicate IsHash(hash: Json -> string) {
    forall v {:trigger hash(v)} :: |hash(v)| == 64 && IsHex(hash(v))
  }

  function IdOf(identity: Json, hash: Json -> string): string {
    VersionPrefix + hash(identity)
  }

  function WithoutKey(order: seq<Key>, key: Key): seq<Key> {
    if order == [] then []
    else WithoutKey(order[..|order| - 1], key) + if order[|order| - 1] == key then [] else [order[|order| - 1]]
  }

  /** The payload without its id. */
  function WithoutId(v: Json): Json {
    if v.Obj? then Obj(v.members - {IdKey}, WithoutKey(v.order, IdKey)) else v
  }

  function Create(v: Json, hash: Json -> string): Option<ModelVersion> {
    if !v.Obj? || IdKey in v.members then None
    else
      match Normalize(v, false)
      case None => None
      case Some(n) =>
        if !n.Obj? then None
        else
          var id := IdOf(n, hash);
          Some(ModelVersion(Freeze(Put(n, IdKey, Str(id))), id))
  }

  function FromDict(v: Json, hash: Json -> string): Option<ModelVersion> {
    match Normalize(v, true)
    case None => None
    case Some(n) =>
      if !n.Obj? || GetStr(n.members, IdKey) != Some(IdOf(WithoutId(n), hash)) then None
      else Some(ModelVersion(Freeze(n), GetStr(n.members, IdKey).value))
  }

  function ToDict(m: ModelVersion): Json {
    Thaw(m.payload)
  }

  function IdentityPayload(m: ModelVersion): Json {
    WithoutId(Thaw(m.payload))
  }

  function NoId(d: Descriptor): Descriptor {
    d.(id := None)
  }

  function WithId(d: Descriptor, id: string): Descriptor {
    d.(id := Some(id))
  }

  lemma WithoutKeyAppend(a: seq<Key>, x: Key, key: Key)
    ensures WithoutKey(a + [x], key) == WithoutKey(a, key) + if x == key then [] else [x]
  {
    assert (a + [x])[..|a|] == a;
  }

  lemma WithoutIdPut(o: Json, key: Key, value: Json)
    requires o.Obj?
    ensures WithoutId(Put(o, key, value)) == if key == IdKey then WithoutId(o) else Put(WithoutId(o), key, value)
  {
    WithoutKeyAppend(o.order, key, IdKey);
    var left, right := WithoutId(Put(o, key, value)), if key == IdKey then WithoutId(o) else Put(WithoutId(o), key, value);
    assert left.members == right.members;
  }

  lemma EmptyWithoutId()
    ensures WithoutId(EmptyObject) == EmptyObject
  {
    assert EmptyObject.members - {IdKey} == EmptyObject.members;
  }

  /** Dropping the id from a head, and filling in the rest, commute. */
  lemma HeadWithoutId(name: string, id: Option<Json>)
    ensures WithoutId(LayoutHead(name, id)) == LayoutHead(name, None)
  {
    var bare := Put(Put(EmptyObject, SchemaVersion, Str("1")), CompositionKey, Str(name));
    hide WithoutId, Put;
    EmptyWithoutId();
    WithoutIdPut(EmptyObject, SchemaVersion, Str("1"));
    WithoutIdPut(Put(EmptyObject, SchemaVersion, Str("1")), CompositionKey, Str(name));
    if id.Some? { WithoutIdPut(bare, IdKey, id.value); }
  }

  lemma PartsWithoutId(o: Json, p: Parts)
    requires o.Obj?
    ensures WithoutId(LayoutParts(o, p)) == LayoutParts(WithoutId(o), p)
  {
    match p {
      case FullPart(full) => WithoutIdPut(o, FullModelArtifact, full);
      case LoraParts(base, adapter) =>
        WithoutIdPut(o, BaseModelKey, base);
        WithoutIdPut(Put(o, BaseModelKey, base), AdapterArtifact, adapter);
    }
  }

  lemma TailWithoutId(o: Json, tokenizer: Json, template: Json, lineage: Json)
    requires o.Obj?
    ensures WithoutId(LayoutTail(o, tokenizer, template, lineage)) == LayoutTail(WithoutId(o), tokenizer, template, lineage)
  {
    WithoutIdPut(o, Tokenizer, tokenizer);
    WithoutIdPut(Put(o, Tokenizer, tokenizer), ChatTemplate, template);
    WithoutIdPut(Put(Put(o, Tokenizer, tokenizer), ChatTemplate, template), LineageKey, lineage);
  }

  lemma LayoutWithoutId(name: string, id: Option<Json>, p: Parts, tokenizer: Json, template: Json, lineage: Json)
    ensures WithoutId(Layout(name, id, p, tokenizer, template, lineage)) == Layout(name, None, p, tokenizer, template, lineage)
  {
    HeadWithoutId(name, id);
    PartsWithoutId(LayoutHead(name, id), p);
    TailWithoutId(LayoutParts(LayoutHead(name, id), p), tokenizer, template, lineage);
  }

  /** The identity payload is the canonical form without the id, wherever the id stood. */
  lemma IdentityIsCanonical(d: Descriptor)
    ensures WithoutId(WriteDescriptor(d)) == WriteDescriptor(NoId(d))
  {
    LayoutWithoutId(CompositionName(d.composition), TextJson(d.id), PartsOf(d.composition),
                    WriteOverride(d.tokenizer), WriteOverride(d.chatTemplate), WriteLineage(d.lineage));
  }

  // ----- An id filled in last reads like an id filled in where it belongs -----

  lemma HeadTakesId(name: string, x: Json)
    ensures LayoutHead(name, Some(x)).members == LayoutHead(name, None).members[IdKey := x]
  {
  }

  lemma PartsTakeId(o: Json, v: Json, p: Parts, x: Json)
    requires o.Obj? && v.Obj? && v.members == o.members[IdKey := x]
    ensures LayoutParts(v, p).members == LayoutParts(o, p).members[IdKey := x]
  {
  }

  lemma TailTakesId(o: Json, v: Json, tokenizer: Json, template: Json, lineage: Json, x: Json)
    requires o.Obj? && v.Obj? && v.members == o.members[IdKey := x]
    ensures LayoutTail(v, tokenizer, template, lineage).members == LayoutTail(o, tokenizer, template, lineage).members[IdKey := x]
  {
  }

  lemma LayoutTakesId(name: string, x: Json, p: Parts, tokenizer: Json, template: Json, lineage: Json)
    ensures Layout(name, Some(x), p, tokenizer, template, lineage).members ==
            Layout(name, None, p, tokenizer, template, lineage).members[IdKey := x]
  {
    HeadTakesId(name, x);
    PartsTakeId(LayoutHead(name, None), LayoutHead(name, Some(x)), p, x);
    TailTakesId(LayoutParts(LayoutHead(name, None), p), LayoutParts(LayoutHead(name, Some(x)), p), tokenizer, template, lineage, x);
  }

  lemma IdTakesItsPlace(d: Descriptor, id: string)
    requires d.id.None?
    ensures Put(WriteDescriptor(d), IdKey, Str(id)).members == WriteDescriptor(WithId(d, id)).members
  {
    LayoutTakesId(CompositionName(d.composition), Str(id), PartsOf(d.composition),
                  WriteOverride(d.tokenizer), WriteOverride(d.chatTemplate), WriteLineage(d.lineage));
  }

  /** Reading looks at the dictionary only. */
  lemma ReadByMembers(v: Json, w: Json, requireId: bool)
    requires v.Obj? && w.Obj? && v.members == w.members
    ensures ReadDescriptor(v, requireId) == ReadDescriptor(w, requireId)
  {
  }

  lemma IdIsWellFormed(identity: Json, hash: Json -> string)
    requires IsHash(hash)
    ensures IsVersionId(IdOf(identity, hash))
  {
    var id := IdOf(identity, hash);
    assert id[..|VersionPrefix|] == VersionPrefix && id[|VersionPrefix|..] == hash(identity);
  }

  // ----- The theorems -----

  /** Accepting the dictionary that carries the canonical identity gives the canonical version. */
  lemma AcceptsCanonical(v: Json, d: Descriptor, hash: Json -> string)
    requires IsHash(hash) && ValidDescriptor(d) && d.id.None? && v.Obj?
    requires v.members == WriteDescriptor(WithId(d, IdOf(WriteDescriptor(d), hash))).members
    ensures var id := IdOf(WriteDescriptor(d), hash);
            FromDict(v, hash) == Some(ModelVersion(Freeze(WriteDescriptor(WithId(d, id))), id))
  {
    var id := IdOf(WriteDescriptor(d), hash);
    var whole := WithId(d, id);
    ReadByMembers(v, WriteDescriptor(whole), true);
    DescriptorRoundTrip(whole);
    IdIsWellFormed(WriteDescriptor(d), hash);
    assert Normalize(v, true) == Some(WriteDescriptor(whole));
    WrittenFields(whole);
    IdentityIsCanonical(whole);
    assert NoId(whole) == d;
  }

  /** What create makes of a valid payload. */
  lemma CreateShape(v: Json, hash: Json -> string) returns (d: Descriptor)
    requires Create(v, hash).Some?
    ensures ReadDescriptor(v, false) == Some(d) && ValidDescriptor(d) && d.id.None?
    ensures var m, id := Create(v, hash).value, IdOf(WriteDescriptor(d), hash);
            && m == ModelVersion(Freeze(Put(WriteDescriptor(d), IdKey, Str(id))), id)
            && ToDict(m) == Put(WriteDescriptor(d), IdKey, Str(id))
            && IdentityPayload(m) == WriteDescriptor(d)
  {
    hide ReadDescriptor, WriteDescriptor, ValidDescriptor;
    d := ReadDescriptor(v, false).value;
    ReadHasId(v, false);
    var n := WriteDescriptor(d);
    var id := IdOf(n, hash);
    ThawUndoesFreeze(Put(n, IdKey, Str(id)));
    WithoutIdPut(n, IdKey, Str(id));
    IdentityIsCanonical(d);
    assert NoId(d) == d;
  }

  /**
   * A created version is always accepted again: from_dict of its to_dict succeeds, with
   * the same id, the same identity payload, and the same dictionary.
   */
  lemma CreatedIsAccepted(v: Json, hash: Json -> string)
    requires IsHash(hash) && Create(v, hash).Some?
    ensures var m := Create(v, hash).value;
            var n := FromDict(ToDict(m), hash);
            && n.Some? && n.value.id == m.id
            && IdentityPayload(n.value) == IdentityPayload(m)
            && ToDict(n.value).Obj? && ToDict(m).Obj? && ToDict(n.value).members == ToDict(m).members
  {
    var d := CreateShape(v, hash);
    var m := Create(v, hash).value;
    var whole := WithId(d, m.id);
    IdTakesItsPlace(d, m.id);
    AcceptsCanonical(ToDict(m), d, hash);
    ThawUndoesFreeze(WriteDescriptor(whole));
    IdentityIsCanonical(whole);
    assert NoId(whole) == d;
  }

  /** Two key orders of one payload create the same version. */
  lemma CreateIgnoresKeyOrder(v: Json, w: Json, hash: Json -> string)
    requires Same(v, w)
    ensures Create(v, hash) == Create(w, hash)
  {
    NormalizeIgnoresKeyOrder(v, w, false);
  }

  lemma FromDictIgnoresKeyOrder(v: Json, w: Json, hash: Json -> string)
    requires Same(v, w)
    ensures FromDict(v, hash) == FromDict(w, hash)
  {
    NormalizeIgnoresKeyOrder(v, w, true);
  }

  /** What an accepted dictionary holds. */
  lemma AcceptedShape(v: Json, hash: Json -> string) returns (d: Descriptor)
    requires FromDict(v, hash).Some?
    ensures var m := FromDict(v, hash).value;
            && ValidDescriptor(d) && d.id == Some(m.id) && m.id == IdOf(WriteDescriptor(NoId(d)), hash)
            && m == ModelVersion(Freeze(WriteDescriptor(d)), m.id)
            && ToDict(m) == WriteDescriptor(d) && IdentityPayload(m) == WriteDescriptor(NoId(d))
  {
    d := ReadDescriptor(v, true).value;
    ReadHasId(v, true);
    ThawUndoesFreeze(WriteDescriptor(d));
    IdentityIsCanonical(d);
    WrittenFields(d);
  }

  /** Creating from a canonical payload gives its id. */
  lemma CreatesCanonical(d: Descriptor, hash: Json -> string)
    requires ValidDescriptor(d) && d.id.None?
    ensures Create(WriteDescriptor(d), hash).Some?
    ensures Create(WriteDescriptor(d), hash).value.id == IdOf(WriteDescriptor(d), hash)
  {
    DescriptorRoundTrip(d);
    BareHasNoId(d);
  }

  /** An accepted dictionary carries exactly the id of its content, and creating from its
      identity payload gives that id again. */
  lemma AcceptedIsAuthentic(v: Json, hash: Json -> string)
    requires IsHash(hash) && FromDict(v, hash).Some?
    ensures var m := FromDict(v, hash).value;
            && m.id == IdOf(IdentityPayload(m), hash)
            && Create(IdentityPayload(m), hash).Some? && Create(IdentityPayload(m), hash).value.id == m.id
            && FromDict(ToDict(m), hash) == Some(m)
  {
    var d := AcceptedShape(v, hash);
    var m := FromDict(v, hash).value;
    CreatesCanonical(NoId(d), hash);
    assert d == WithId(NoId(d), m.id);
    AcceptsCanonical(ToDict(m), NoId(d), hash);
  }

  lemma BareHasNoId(d: Descriptor)
    requires d.id.None?
    ensures IdKey !in WriteDescriptor(d).members
  {
    LayoutFields(CompositionName(d.composition), TextJson(d.id), PartsOf(d.composition),
                 WriteOverride(d.tokenizer), WriteOverride(d.chatTemplate), WriteLineage(d.lineage));
  }

  /**
   * Two created versions share an id exactly when they are the same version, unless the
   * digest collides on their two identity payloads. A digest of canonical bytes does not
   * see key order, so payloads that differ only in key order do not count as a collision.
   */
  lemma IdNamesContent(v: Json, w: Json, hash: Json -> string)
    requires IsHash(hash) && Create(v, hash).Some? && Create(w, hash).Some?
    requires var x, y := IdentityPayload(Create(v, hash).value), IdentityPayload(Create(w, hash).value);
             hash(x) == hash(y) ==> Same(x, y)
    ensures Create(v, hash).value.id == Create(w, hash).value.id <==> Create(v, hash) == Create(w, hash)
  {
    var d := CreateShape(v, hash);
    var e := CreateShape(w, hash);
    var x, y := WriteDescriptor(d), WriteDescriptor(e);
    if IdOf(x, hash) == IdOf(y, hash) {
      assert hash(x) == IdOf(x, hash)[|VersionPrefix|..];
      assert hash(y) == IdOf(y, hash)[|VersionPrefix|..];
      ReadSame(x, y, false);
      DescriptorRoundTrip(d);
      DescriptorRoundTrip(e);
    }
  }
}
