/** JSON documents as the runtime holds them (objects are maps), with the
    structural operations that the API server and the applier share. */
module Json {
  import opened Wrappers

  datatype Value =
    | Null
    | Bool(b: bool)
    | Number(n: real)
    | String(s: string)
    | Array(items: seq<Value>)
    | Object(entries: map<string, Value>)

  /** A path of object members, outermost first. */
  type Path = seq<string>

  function Field(v: Value, key: string): Option<Value> {
    if v.Object? && key in v.entries then Some(v.entries[key]) else None
  }

  function StringField(v: Value, key: string): Option<string> {
    match Field(v, key)
    case Some(String(s)) => Some(s)
    case _ => None
  }

  // ----- Null pruning -----

  /** Removes null-valued members at every depth; array elements stay. */
  function PruneNulls(v: Value): Value {
    match v
    case Array(items) => Array(seq(|items|, i requires 0 <= i < |items| => PruneNulls(items[i])))
    case Object(entries) => Object(map k | k in entries && !entries[k].Null? :: PruneNulls(entries[k]))
    case _ => v
  }

  /** No object inside v has a null-valued member. */
  predicate NoNullMembers(v: Value) {
    match v
    case Array(items) => forall i :: 0 <= i < |items| ==> NoNullMembers(items[i])
    case Object(entries) => forall k :: k in entries ==> !entries[k].Null? && NoNullMembers(entries[k])
    case _ => true
  }

  lemma {:induction false} PruneLeavesNoNulls(v: Value)
    ensures NoNullMembers(PruneNulls(v))
    ensures PruneNulls(v).Null? <==> v.Null?
  {
    match v
    case Array(items) =>
      forall i | 0 <= i < |items| ensures NoNullMembers(PruneNulls(items[i])) {
        PruneLeavesNoNulls(items[i]);
      }
    case Object(entries) =>
      forall k | k in entries && !entries[k].Null?
        ensures NoNullMembers(PruneNulls(entries[k])) && !PruneNulls(entries[k]).Null?
      {
        PruneLeavesNoNulls(entries[k]);
      }
    case _ =>
  }

  /** Pruning changes nothing but null-valued members: a document without them is a fixed point. */
  lemma {:induction false} PruneFixesClean(v: Value)
    ensures NoNullMembers(v) <==> PruneNulls(v) == v
  {
    match v
    case Array(items) =>
      forall i | 0 <= i < |items| ensures NoNullMembers(items[i]) <==> PruneNulls(items[i]) == items[i] {
        PruneFixesClean(items[i]);
      }
      if PruneNulls(v) == v {
        forall i | 0 <= i < |items| ensures NoNullMembers(items[i]) {
          assert PruneNulls(v).items[i] == items[i];
        }
      }
    case Object(entries) =>
      forall k | k in entries ensures NoNullMembers(entries[k]) <==> PruneNulls(entries[k]) == entries[k] {
        PruneFixesClean(entries[k]);
      }
      if PruneNulls(v) == v {
        forall k | k in entries ensures !entries[k].Null? && NoNullMembers(entries[k]) {
          assert k in PruneNulls(v).entries;
        }
      }
    case _ =>
  }

  // ----- Leaves: the granularity at which field ownership is tracked -----

  /** The paths of everything in v that is not an object. */
  function LeafPaths(v: Value): set<Path> {
    if v.Object? then set k, p | k in v.entries && p in LeafPaths(v.entries[k]) :: [k] + p
    else {[]}
  }

  function LeafAt(v: Value, p: Path): Value
    requires p in LeafPaths(v)
  {
    if v.Object? then LeafAt(v.entries[p[0]], p[1..]) else v
  }

  lemma LeafStep(v: Value, p: Path)
    requires p != []
    ensures p in LeafPaths(v) <==> v.Object? && p[0] in v.entries && p[1..] in LeafPaths(v.entries[p[0]])
    ensures p in LeafPaths(v) ==> LeafAt(v, p) == LeafAt(v.entries[p[0]], p[1..])
  {
    assert p == [p[0]] + p[1..];
    if p in LeafPaths(v) {
      assert v.Object?;
      var k, rest :| k in v.entries && rest in LeafPaths(v.entries[k]) && p == [k] + rest;
      assert p[1..] == rest;
    }
  }

  predicate SameLeaf(v: Value, w: Value, p: Path) {
    p in LeafPaths(v) && p in LeafPaths(w) && LeafAt(v, p) == LeafAt(w, p)
  }

  /** The same object tree with every leaf blanked: which fields exist, without their values. */
  function Shape(v: Value): Value {
    if v.Object? then Object(map k | k in v.entries :: Shape(v.entries[k])) else Null
  }

  lemma {:induction false} ShapeKeepsPaths(v: Value)
    ensures LeafPaths(Shape(v)) == LeafPaths(v)
  {
    if v.Object? {
      forall k | k in v.entries ensures LeafPaths(Shape(v.entries[k])) == LeafPaths(v.entries[k]) {
        ShapeKeepsPaths(v.entries[k]);
      }
    }
  }

  /** Overlays config on live, member by member. */
  function Merge(live: Value, config: Value): Value {
    if live.Object? && config.Object? then
      Object(map k | k in live.entries.Keys + config.entries.Keys ::
        if k in live.entries && k in config.entries then Merge(live.entries[k], config.entries[k])
        else if k in config.entries then config.entries[k]
        else live.entries[k])
    else config
  }

  lemma {:induction false} MergeKeepsConfig(live: Value, config: Value, p: Path)
    requires p in LeafPaths(config)
    ensures SameLeaf(Merge(live, config), config, p)
  {
    if live.Object? && config.Object? {
      var k := p[0];
      assert p == [k] + p[1..];
      if k in live.entries {
        MergeKeepsConfig(live.entries[k], config.entries[k], p[1..]);
      }
    }
  }

  /** Removes the subtrees at the given paths. */
  function Drop(v: Value, gone: set<Path>): Value {
    if v.Object? then
      Object(map k | k in v.entries && [k] !in gone ::
        Drop(v.entries[k], Under(gone, k)))
    else v
  }

  function Under(paths: set<Path>, k: string): set<Path> {
    set p | p in paths && |p| > 1 && p[0] == k :: p[1..]
  }

  // ----- Metadata accessors -----

  function Meta(doc: Value): map<string, Value> {
    match Field(doc, "metadata")
    case Some(Object(entries)) => entries
    case _ => map[]
  }

  predicate HasMetadata(doc: Value) {
    doc.Object? && "metadata" in doc.entries && doc.entries["metadata"].Object?
  }

  function MetaString(doc: Value, key: string): Option<string> {
    StringField(Object(Meta(doc)), key)
  }

  function WithMeta(doc: Value, key: string, v: Value): (r: Value)
    requires HasMetadata(doc)
    ensures HasMetadata(r) && Meta(r) == Meta(doc)[key := v]
    ensures r.entries.Keys == doc.entries.Keys
  {
    Object(doc.entries["metadata" := Object(Meta(doc)[key := v])])
  }

  function Annotation(doc: Value, key: string): Option<string> {
    match Field(Object(Meta(doc)), "annotations")
    case Some(annotations) => StringField(annotations, key)
    case None => None
  }

  function ManagedFields(doc: Value): seq<Value> {
    match Field(Object(Meta(doc)), "managedFields")
    case Some(Array(items)) => items
    case _ => []
  }
}
