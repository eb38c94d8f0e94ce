/**
 * The chained, path-based document-store wrapper `db` of services/firebaseConfig.ts.
 *
 * A handle is a value bound to a slash-joined path. Building a handle (`collection`,
 * `doc`, a sub-`collection`) returns only a handle, or the error the store's reference
 * check throws for a path with the wrong number of segments; the operations that
 * reach the store (`get`, `set`, `update`, `add`) return the single delegate call they
 * issue, as a `StoreCall` value. The store itself is not modelled here: its answers
 * (a snapshot, a generated id) are parameters of the functions that need them.
 */
module StoreAdapter {
  import opened Wrappers

  /** Field values written to the store (the `any` payloads of the source). */
  datatype Value =
    | Null
    | Bool(b: bool)
    | Num(n: int)
    | Str(s: string)
    | Arr(items: seq<Value>)
    | Obj(fields: map<string, Value>)
    | Sentinel(sentinel: FieldValue)

  /** The store's field-value primitives `serverTimestamp()` and `arrayUnion(...)`. */
  datatype FieldValue = ServerTimestamp | ArrayUnion(elements: seq<Value>)

  /** `doc(modularDb, path, id)`: a document reference in collection `collectionPath`. */
  datatype DocRef = DocRef(collectionPath: string, id: string)

  /** The one delegate call that a store operation of the wrapper issues. */
  datatype StoreCall =
    | GetDoc(ref: DocRef)
    | SetDoc(ref: DocRef, data: Value, options: Option<Value>)
    | UpdateDoc(ref: DocRef, data: Value)
    | AddDoc(collectionPath: string, data: Value)

  /** What `db.collection(path)` returns. */
  datatype CollectionHandle = CollectionHandle(path: string)

  /** A document id that takes the bound branch: a truthy string. */
  type DocId = s: string | s != "" witness "id"

  /** What `.doc(id?)` returns: bound to a document when `id` is `Some`, id-less otherwise. */
  datatype DocHandle = DocHandle(collectionPath: string, id: Option<DocId>)

  /** What `add(data)` resolves to once the store has generated `id`. */
  datatype AddedDoc = AddedDoc(collectionPath: string, id: string)

  /**
   * Calling a member that the handle object does not have is a `TypeError` in the source;
   * the store's `collection()` and `doc()` throw for a path with the wrong segment count.
   */
  datatype HandleError =
    | NotAFunction(member: string)
    | InvalidCollectionPath(path: string)
    | InvalidDocumentPath(path: string)

  /** The full slash-joined path of a document in a collection. */
  function DocPath(collectionPath: string, id: string): string
  {
    collectionPath + "/" + id
  }

  // ---------------------------------------------------------------------
  // Path segments, as the store counts them: the non-empty pieces between slashes

  /**
   * The number of segments of `s` from index `i` on, where `inSegment` says whether
   * `s[i - 1]` already belongs to a segment.
   */
  function CountFrom(s: string, i: nat, inSegment: bool): nat
    requires i <= |s|
    decreases |s| - i
  {
    if i == |s| then 0
    else if s[i] == '/' then CountFrom(s, i + 1, false)
    else (if inSegment then 0 else 1) + CountFrom(s, i + 1, true)
  }

  function SegmentCount(s: string): nat
  {
    CountFrom(s, 0, false)
  }

  /** The store's check in `collection()`: an odd number of segments. */
  predicate IsCollectionPath(path: string)
  {
    SegmentCount(path) % 2 == 1
  }

  /** The store's check in `doc()`: an even number of segments. */
  predicate IsDocumentPath(path: string)
  {
    SegmentCount(path) % 2 == 0
  }

  /** A single path segment. */
  predicate IsName(x: string)
  {
    x != "" && '/' !in x
  }

  lemma {:induction false} CountShift(p: string, q: string, j: nat, inSegment: bool)
    requires j <= |q|
    ensures CountFrom(p + q, |p| + j, inSegment) == CountFrom(q, j, inSegment)
    decreases |q| - j
  {
    if j < |q| {
      assert (p + q)[|p| + j] == q[j];
      CountShift(p, q, j + 1, false);
      CountShift(p, q, j + 1, true);
    }
  }

  lemma {:induction false} CountJoin(a: string, b: string, i: nat, inSegment: bool)
    requires i <= |a|
    ensures CountFrom(a + "/" + b, i, inSegment) == CountFrom(a, i, inSegment) + CountFrom(b, 0, false)
    decreases |a| - i
  {
    var s := a + "/" + b;
    if i == |a| {
      assert s[i] == '/';
      CountShift(a + "/", b, 0, false);
    } else {
      assert s[i] == a[i];
      CountJoin(a, b, i + 1, false);
      CountJoin(a, b, i + 1, true);
    }
  }

  /** Joining two paths with a slash adds their segment counts. */
  lemma JoinSegments(a: string, b: string)
    ensures SegmentCount(a + "/" + b) == SegmentCount(a) + SegmentCount(b)
  {
    CountJoin(a, b, 0, false);
  }

  lemma {:induction false} CountInsideName(x: string, i: nat)
    requires i <= |x| && '/' !in x
    ensures CountFrom(x, i, true) == 0
    decreases |x| - i
  {
    if i < |x| {
      CountInsideName(x, i + 1);
    }
  }

  /** A name is one segment. */
  lemma NameIsOneSegment(x: string)
    requires IsName(x)
    ensures SegmentCount(x) == 1
  {
    CountInsideName(x, 1);
  }

  // ---------------------------------------------------------------------
  // Handles

  /** `db.collection(path)`; the store's `collection()` at line 67 checks the path. */
  function Collection(path: string): (r: Result<CollectionHandle, HandleError>)
    ensures r.Success? <==> IsCollectionPath(path)
    ensures r.Success? ==> r.value.path == path
    ensures r.Failure? ==> r.error == InvalidCollectionPath(path)
  {
    if IsCollectionPath(path) then Success(CollectionHandle(path)) else Failure(InvalidCollectionPath(path))
  }

  /**
   * `.doc(id?)`: a missing or empty id (both falsy) yields the id-less handle and calls
   * nothing; a truthy id goes through the store's `doc()`, which checks the document path.
   */
  function Doc(c: CollectionHandle, id: Option<string>): (r: Result<DocHandle, HandleError>)
    ensures !Truthy(id) ==> r == Success(DocHandle(c.path, None))
    ensures Truthy(id) ==> (r.Success? <==> IsDocumentPath(DocPath(c.path, id.value)))
    ensures Truthy(id) && r.Success? ==> r.value.collectionPath == c.path && r.value.id == id
    ensures Truthy(id) && r.Failure? ==> r.error == InvalidDocumentPath(DocPath(c.path, id.value))
  {
    if Truthy(id) then
      var bound: DocId := id.value;
      if IsDocumentPath(DocPath(c.path, bound)) then Success(DocHandle(c.path, Some(bound)))
      else Failure(InvalidDocumentPath(DocPath(c.path, bound)))
    else Success(DocHandle(c.path, None))
  }

  /** The path `.collection(subPath)` builds: the id-less handle inserts no id segment. */
  function SubCollectionPath(d: DocHandle, subPath: string): (path: string)
    ensures d.id.Some? ==> path == d.collectionPath + "/" + d.id.value + "/" + subPath
    ensures d.id.None? ==> path == d.collectionPath + "/" + subPath
  {
    match d.id
    case Some(id) => DocPath(d.collectionPath, id) + "/" + subPath
    case None => d.collectionPath + "/" + subPath
  }

  /** `.collection(subPath)` on a doc handle: `db.collection` of the joined path. */
  function SubCollection(d: DocHandle, subPath: string): (r: Result<CollectionHandle, HandleError>)
    ensures r.Success? <==> IsCollectionPath(SubCollectionPath(d, subPath))
    ensures r.Success? ==> r.value.path == SubCollectionPath(d, subPath)
    ensures r.Failure? ==> r.error == InvalidCollectionPath(SubCollectionPath(d, subPath))
  {
    Collection(SubCollectionPath(d, subPath))
  }

  /** The `id` property: present on a bound handle only. */
  function Id(d: DocHandle): (r: Option<string>)
    ensures r.Some? <==> d.id.Some?
    ensures r.Some? ==> r.value == d.id.value && r.value != ""
  {
    match d.id
    case Some(id) => Some(DocRef(d.collectionPath, id).id)
    case None => None
  }

  /** The reference `docRef` that a bound handle's operations use. */
  function Ref(d: DocHandle): (r: Option<DocRef>)
    ensures r.Some? <==> d.id.Some?
    ensures r.Some? ==> r.value.collectionPath == d.collectionPath && r.value.id == d.id.value
  {
    match d.id
    case Some(id) => Some(DocRef(d.collectionPath, id))
    case None => None
  }

  /** `.get()` */
  function Get(d: DocHandle): (r: Result<StoreCall, HandleError>)
    ensures r.Success? <==> d.id.Some?
    ensures r.Success? ==> r.value == GetDoc(DocRef(d.collectionPath, d.id.value))
    ensures r.Failure? ==> r.error == NotAFunction("get")
  {
    match Ref(d)
    case Some(ref) => Success(GetDoc(ref))
    case None => Failure(NotAFunction("get"))
  }

  /** `.set(data, options?)`: `data` and `options` pass through unchanged. */
  function Set(d: DocHandle, data: Value, options: Option<Value>): (r: Result<StoreCall, HandleError>)
    ensures r.Success? <==> d.id.Some?
    ensures r.Success? ==> r.value == SetDoc(DocRef(d.collectionPath, d.id.value), data, options)
    ensures r.Failure? ==> r.error == NotAFunction("set")
  {
    match Ref(d)
    case Some(ref) => Success(SetDoc(ref, data, options))
    case None => Failure(NotAFunction("set"))
  }

  /** `.update(data)` */
  function Update(d: DocHandle, data: Value): (r: Result<StoreCall, HandleError>)
    ensures r.Success? <==> d.id.Some?
    ensures r.Success? ==> r.value == UpdateDoc(DocRef(d.collectionPath, d.id.value), data)
    ensures r.Failure? ==> r.error == NotAFunction("update")
  {
    match Ref(d)
    case Some(ref) => Success(UpdateDoc(ref, data))
    case None => Failure(NotAFunction("update"))
  }

  /** `.add(data)` on a collection handle: one `addDoc` on the collection's path. */
  function CollectionAdd(c: CollectionHandle, data: Value): (call: StoreCall)
    ensures call.AddDoc? && call.collectionPath == c.path && call.data == data
  {
    AddDoc(c.path, data)
  }

  /** `.add(data)` on a doc handle: only the id-less handle has it. */
  function DocAdd(d: DocHandle, data: Value): (r: Result<StoreCall, HandleError>)
    ensures r.Success? <==> d.id.None?
    ensures r.Success? ==> r.value == CollectionAdd(CollectionHandle(d.collectionPath), data)
    ensures r.Failure? ==> r.error == NotAFunction("add")
  {
    if d.id.None? then Success(AddDoc(d.collectionPath, data)) else Failure(NotAFunction("add"))
  }

  /**
   * What an `add` resolves to, given the call it issued and the id the store
   * generated for the new document.
   */
  function Added(call: StoreCall, generatedId: string): (a: AddedDoc)
    requires call.AddDoc?
    ensures a.collectionPath == call.collectionPath && a.id == generatedId
  {
    AddedDoc(call.collectionPath, generatedId)
  }

  /** `.collection(subPath)` on the object that `add` resolves to. */
  function AddedSubCollection(a: AddedDoc, subPath: string): (r: Result<CollectionHandle, HandleError>)
    ensures r.Success? <==> IsCollectionPath(a.collectionPath + "/" + a.id + "/" + subPath)
    ensures r.Success? ==> r.value.path == a.collectionPath + "/" + a.id + "/" + subPath
    ensures r.Failure? ==> r.error == InvalidCollectionPath(a.collectionPath + "/" + a.id + "/" + subPath)
  {
    Collection(DocPath(a.collectionPath, a.id) + "/" + subPath)
  }

  /** `FieldValue.serverTimestamp()`, the same on `db.FieldValue` and `firebase.firestore.FieldValue`. */
  function ServerTimestampHelper(): (v: Value)
    ensures v.Sentinel? && v.sentinel.ServerTimestamp?
  {
    Sentinel(ServerTimestamp)
  }

  /**
   * `FieldValue.arrayUnion(...elements)`, the same on `db.FieldValue` and
   * `firebase.firestore.FieldValue`: the elements reach the primitive unchanged and in order.
   */
  function ArrayUnionHelper(elements: seq<Value>): (v: Value)
    ensures v.Sentinel? && v.sentinel.ArrayUnion?
    ensures |v.sentinel.elements| == |elements|
    ensures forall i :: 0 <= i < |elements| ==> v.sentinel.elements[i] == elements[i]
  {
    Sentinel(ArrayUnion(elements))
  }

  // ---------------------------------------------------------------------
  // Path composition

  /** One `.doc(id).collection(sub)` step of a chain. */
  datatype Hop = Hop(id: string, sub: string)

  /** `c.doc(h0.id).collection(h0.sub).doc(h1.id).collection(h1.sub) ...`, failing at the first rejected step. */
  function Descend(c: CollectionHandle, hops: seq<Hop>): Result<CollectionHandle, HandleError>
    decreases |hops|
  {
    if hops == [] then Success(c)
    else
      var d :- Doc(c, Some(hops[0].id));
      var next :- SubCollection(d, hops[0].sub);
      Descend(next, hops[1..])
  }

  /** The path text a chain of hops appends: an id segment only for a non-empty id. */
  function HopsSuffix(hops: seq<Hop>): string
    decreases |hops|
  {
    if hops == [] then ""
    else (if hops[0].id != "" then "/" + hops[0].id else "") + "/" + hops[0].sub + HopsSuffix(hops[1..])
  }

  /** Nesting composes: a chain that resolves is bound to the root path followed by every hop's segments. */
  lemma {:induction false} DescendPath(c: CollectionHandle, hops: seq<Hop>)
    requires Descend(c, hops).Success?
    ensures Descend(c, hops).value.path == c.path + HopsSuffix(hops)
    decreases |hops|
  {
    if hops != [] {
      var h := hops[0];
      var d := Doc(c, Some(h.id)).value;
      var next := SubCollection(d, h.sub).value;
      var seg := (if h.id != "" then "/" + h.id else "") + "/" + h.sub;
      assert next.path == c.path + seg;
      DescendPath(next, hops[1..]);
      assert c.path + seg + HopsSuffix(hops[1..]) == c.path + (seg + HopsSuffix(hops[1..]));
    }
  }

  /** A chain of single-segment ids and names from a valid collection path always resolves. */
  lemma {:induction false} DescendResolves(c: CollectionHandle, hops: seq<Hop>)
    requires IsCollectionPath(c.path)
    requires forall i :: 0 <= i < |hops| ==> IsName(hops[i].id) && IsName(hops[i].sub)
    ensures Descend(c, hops).Success?
    decreases |hops|
  {
    if hops != [] {
      var h := hops[0];
      assert IsName(h.id) && IsName(h.sub);
      NameIsOneSegment(h.id);
      NameIsOneSegment(h.sub);
      JoinSegments(c.path, h.id);
      var d := Doc(c, Some(h.id)).value;
      JoinSegments(DocPath(c.path, h.id), h.sub);
      var next := SubCollection(d, h.sub).value;
      forall i | 0 <= i < |hops[1..]| ensures IsName(hops[1..][i].id) && IsName(hops[1..][i].sub) {
        assert hops[1..][i] == hops[i + 1];
      }
      DescendResolves(next, hops[1..]);
    }
  }

  /** `collection(p).doc(id).collection(s)` resolves to `p/id/s` for a valid `p` and single-segment `id`, `s`. */
  lemma DocThenCollection(p: string, id: string, s: string)
    requires IsCollectionPath(p) && IsName(id) && IsName(s)
    ensures Doc(Collection(p).value, Some(id)).Success?
    ensures SubCollection(Doc(Collection(p).value, Some(id)).value, s)
         == Success(CollectionHandle(p + "/" + id + "/" + s))
  {
    NameIsOneSegment(id);
    NameIsOneSegment(s);
    JoinSegments(p, id);
    JoinSegments(DocPath(p, id), s);
  }

  /** `doc("")` is the same handle as `doc()`, and it has no `get`, `set` or `update`. */
  lemma EmptyIdIsIdLess(c: CollectionHandle, data: Value, options: Option<Value>)
    ensures Doc(c, Some("")) == Doc(c, None) == Success(DocHandle(c.path, None))
    ensures Get(Doc(c, Some("")).value).Failure?
    ensures Set(Doc(c, Some("")).value, data, options).Failure?
    ensures Update(Doc(c, Some("")).value, data).Failure?
    ensures DocAdd(Doc(c, Some("")).value, data).Success?
  {
  }

  /** The sub-collection of a freshly added document equals the one reached through `doc(newId)`. */
  lemma AddedThenCollection(c: CollectionHandle, data: Value, generatedId: string, s: string)
    requires generatedId != "" && Doc(c, Some(generatedId)).Success?
    ensures AddedSubCollection(Added(CollectionAdd(c, data), generatedId), s)
         == SubCollection(Doc(c, Some(generatedId)).value, s)
  {
  }

  // ---------------------------------------------------------------------
  // The id-less handle's `collection(subPath)`

  /**
   * As written, the id-less handle's `collection(subPath)` joins a collection path and a
   * sub-collection name, which gives an even segment count: `collection()` rejects it.
   */
  lemma IdLessSubCollectionRejected(c: CollectionHandle, s: string)
    requires IsCollectionPath(c.path) && IsName(s)
    ensures SubCollection(DocHandle(c.path, None), s) == Failure(InvalidCollectionPath(c.path + "/" + s))
  {
    NameIsOneSegment(s);
    JoinSegments(c.path, s);
  }

  /**
   * `collection(subPath)` with the id-less handle's line corrected: the id-less handle
   * places the sub-collection under a store-minted document id `autoId`, as a bound
   * handle places it under its own id. Nothing else about the id-less handle changes.
   */
  function SubCollectionWithAutoId(d: DocHandle, autoId: DocId, subPath: string): (r: Result<CollectionHandle, HandleError>)
    ensures d.id.Some? ==> r == SubCollection(d, subPath)
    ensures d.id.None? ==> r == SubCollection(DocHandle(d.collectionPath, Some(autoId)), subPath)
  {
    match d.id
    case Some(_) => SubCollection(d, subPath)
    case None => Collection(DocPath(d.collectionPath, autoId) + "/" + subPath)
  }

  /**
   * With the correction, `collection(p).doc().collection(s)` resolves to `p/autoId/s`,
   * and the id-less handle keeps its `add`.
   */
  lemma AutoIdSubCollectionResolves(p: string, autoId: DocId, s: string, data: Value)
    requires IsCollectionPath(p) && IsName(autoId) && IsName(s)
    ensures Doc(Collection(p).value, None) == Success(DocHandle(p, None))
    ensures SubCollectionWithAutoId(DocHandle(p, None), autoId, s) == Success(CollectionHandle(p + "/" + autoId + "/" + s))
    ensures DocAdd(DocHandle(p, None), data) == Success(AddDoc(p, data))
  {
    NameIsOneSegment(autoId);
    NameIsOneSegment(s);
    JoinSegments(p, autoId);
    JoinSegments(DocPath(p, autoId), s);
  }
}
