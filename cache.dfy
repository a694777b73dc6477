/**
  The cache middleware of the operator's Kubernetes client: a request stage
  for one resource kind that recognises single-object GET paths and turns them
  into reflector-store keys. As the code stands, a recognised request only
  triggers a debug read of the store; every request, recognised or not, is
  handed to the inner service unchanged, exactly once, and the inner
  service's response is what the caller gets.
*/
module CacheMiddleware {
  import opened Wrappers
  import opened Kube
  import opened PathSplit

  /** `http::Method`; only GET matters to the middleware. */
  datatype Method = Get | Post | Put | Patch | Delete | Head | Options | Connect | Trace | Extension(token: string)

  /** The parts of a request URI; `uri.path()` excludes the query. */
  datatype Uri = Uri(path: string, query: Option<string>)

  /** An outgoing HTTP request: its parts and its body. */
  datatype Request = Request(httpMethod: Method, uri: Uri, headers: seq<(string, string)>, body: seq<bv8>)

  /**
    The group, version and plural name of the resource kind K one cache is
    built for (`K::group`, `K::version`, `K::plural` of the default dynamic type).
  */
  datatype ResourceKind = ResourceKind(group: string, version: string, plural: string)

  /** The source splits a path into at most this many pieces. */
  const MaxPieces: nat := 8

  predicate IsApiPrefix(piece: string) {
    piece == "api" || piece == "apis"
  }

  /** `[_, "api" | "apis", group, version, "namespaces", ns, plural, name]` with its guard. */
  function MatchNamespaced(kind: ResourceKind, pieces: seq<string>): Option<ObjectRef> {
    if |pieces| == 8 && IsApiPrefix(pieces[1]) && pieces[4] == "namespaces"
       && pieces[2] == kind.group && pieces[3] == kind.version && pieces[6] == kind.plural
    then Some(ObjectRef(pieces[7], Some(pieces[5])))
    else None
  }

  /** `[_, "api" | "apis", group, version, plural, name]` with its guard. */
  function MatchClusterScoped(kind: ResourceKind, pieces: seq<string>): Option<ObjectRef> {
    if |pieces| == 6 && IsApiPrefix(pieces[1])
       && pieces[2] == kind.group && pieces[3] == kind.version && pieces[4] == kind.plural
    then Some(ObjectRef(pieces[5], None))
    else None
  }

  /** The namespaced arm first, the cluster-scoped arm second. */
  function MatchPieces(kind: ResourceKind, pieces: seq<string>): Option<ObjectRef> {
    match MatchNamespaced(kind, pieces)
    case Some(key) => Some(key)
    case None => MatchClusterScoped(kind, pieces)
  }

  /**
    The store key a GET path names, if it names a single object of the kind:
    the path is split with `splitn(8, "/")` and the pieces are matched against
    the namespaced arm first, the cluster-scoped arm second.
    A namespaced key comes only from exactly 8 pieces, a cluster-scoped key
    only from exactly 6; a cluster-scoped name and a namespace never hold a
    slash, while a namespaced name keeps every slash left after the 7th.
  */
  function ClassifyPath(kind: ResourceKind, path: string): (r: Option<ObjectRef>)
    ensures r.Some? && r.value.namespace.Some? ==>
      |SplitN(path, MaxPieces)| == 8 && SlashFree(r.value.namespace.value)
    ensures r.Some? && r.value.namespace.None? ==>
      |SplitN(path, MaxPieces)| == 6 && SlashFree(r.value.name)
  {
    SplitNShape(path, MaxPieces);
    MatchPieces(kind, SplitN(path, MaxPieces))
  }

  /**
    The store key the middleware derives from a request: none for anything
    but GET (whose path is not even looked at), otherwise the key its path names.
  */
  function RouteKey(kind: ResourceKind, req: Request): (r: Option<ObjectRef>)
    ensures req.httpMethod != Get ==> r == None
  {
    if req.httpMethod != Get then None else ClassifyPath(kind, req.uri.path)
  }

  /** The two arms need different numbers of pieces, so at most one of them matches. */
  lemma ArmsDisjoint(kind: ResourceKind, pieces: seq<string>)
    ensures MatchNamespaced(kind, pieces).None? || MatchClusterScoped(kind, pieces).None?
  {
  }

  /**
    The pieces of the canonical path of a store key: an arbitrary first piece
    (`lead`, empty for an absolute path), the API prefix, group and version,
    then `namespaces/{ns}` for a namespaced key, the plural and the name.
  */
  function PathPieces(lead: string, prefix: string, kind: ResourceKind, key: ObjectRef): seq<string> {
    match key.namespace
    case Some(ns) => [lead, prefix, kind.group, kind.version, "namespaces", ns, kind.plural, key.name]
    case None => [lead, prefix, kind.group, kind.version, kind.plural, key.name]
  }

  /** The REST path of a single object, e.g. `/apis/{group}/{version}/namespaces/{ns}/{plural}/{name}`. */
  function ObjectPath(lead: string, prefix: string, kind: ResourceKind, key: ObjectRef): string {
    Join(PathPieces(lead, prefix, kind, key))
  }

  predicate KindSlashFree(kind: ResourceKind) {
    SlashFree(kind.group) && SlashFree(kind.version) && SlashFree(kind.plural)
  }

  /**
    The pieces in which a path may not hold a slash: all but the name of a
    namespaced key, and all of them for a cluster-scoped one.
  */
  predicate WellFormedPath(lead: string, prefix: string, kind: ResourceKind, key: ObjectRef) {
    && SlashFree(lead) && SlashFree(prefix) && KindSlashFree(kind)
    && (match key.namespace
        case Some(ns) => SlashFree(ns)
        case None => SlashFree(key.name))
  }

  lemma NamespacesSlashFree()
    ensures SlashFree("namespaces")
  {
    NoSlashAt("namespaces");
  }

  /** The pieces of a well-formed object path have the shape of a splitn result. */
  lemma PathPiecesShaped(lead: string, prefix: string, kind: ResourceKind, key: ObjectRef)
    requires WellFormedPath(lead, prefix, kind, key)
    ensures SplitShaped(PathPieces(lead, prefix, kind, key), MaxPieces)
  {
    var pieces := PathPieces(lead, prefix, kind, key);
    forall k | 0 <= k < |pieces| - 1
      ensures SlashFree(pieces[k])
    {
      if key.namespace.Some? && k == 4 {
        NamespacesSlashFree();
      }
    }
  }

  /** The pieces of a well-formed object path are exactly what splitn gives back. */
  lemma SplitObjectPath(lead: string, prefix: string, kind: ResourceKind, key: ObjectRef)
    requires WellFormedPath(lead, prefix, kind, key)
    ensures SplitN(ObjectPath(lead, prefix, kind, key), MaxPieces) == PathPieces(lead, prefix, kind, key)
  {
    PathPiecesShaped(lead, prefix, kind, key);
    SplitNJoin(PathPieces(lead, prefix, kind, key), MaxPieces);
  }

  /** Matching the pieces of an object path built for a kind `other`. */
  lemma MatchPathPieces(kind: ResourceKind, lead: string, prefix: string, other: ResourceKind, key: ObjectRef)
    ensures MatchPieces(kind, PathPieces(lead, prefix, other, key))
            == if IsApiPrefix(prefix) && other == kind then Some(key) else None
  {
  }

  /**
    Classifying the object path built for a kind `other` yields the key back
    exactly when the prefix is `api` or `apis` and `other` is the cache's
    own kind; any other group, version or plural is not recognised.
  */
  lemma ClassifyObjectPath(kind: ResourceKind, lead: string, prefix: string, other: ResourceKind, key: ObjectRef)
    requires WellFormedPath(lead, prefix, other, key)
    ensures ClassifyPath(kind, ObjectPath(lead, prefix, other, key))
            == if IsApiPrefix(prefix) && other == kind then Some(key) else None
  {
    SplitObjectPath(lead, prefix, other, key);
    MatchPathPieces(kind, lead, prefix, other, key);
  }

  /** Pieces that match are those of the object path of the key they yield. */
  lemma MatchedPieces(kind: ResourceKind, pieces: seq<string>)
    requires MatchPieces(kind, pieces).Some?
    ensures && IsApiPrefix(pieces[1])
            && pieces == PathPieces(pieces[0], pieces[1], kind, MatchPieces(kind, pieces).value)
  {
  }

  /**
    Every recognised path is the object path of its key: its first piece is
    whatever precedes the first slash, its second is `api` or `apis`.
  */
  lemma ClassifiedIsObjectPath(kind: ResourceKind, path: string)
    requires ClassifyPath(kind, path).Some?
    ensures var pieces := SplitN(path, MaxPieces);
      && IsApiPrefix(pieces[1])
      && path == ObjectPath(pieces[0], pieces[1], kind, ClassifyPath(kind, path).value)
  {
    JoinSplitN(path, MaxPieces);
    MatchedPieces(kind, SplitN(path, MaxPieces));
  }

  /**
    A GET on a subresource of a namespaced object (`.../{plural}/{name}/{sub}`)
    is still recognised: the name of the key is `{name}/{sub}`.
  */
  lemma NamespacedSubresource(kind: ResourceKind, lead: string, prefix: string, ns: string, name: string, sub: string)
    requires IsApiPrefix(prefix) && SlashFree(lead) && KindSlashFree(kind) && SlashFree(ns)
    ensures ClassifyPath(kind, ObjectPath(lead, prefix, kind, ObjectRef(name, Some(ns))) + "/" + sub)
            == Some(ObjectRef(name + "/" + sub, Some(ns)))
  {
    var key := ObjectRef(name + "/" + sub, Some(ns));
    ApiPrefixSlashFree(prefix);
    SubresourcePieces(lead, prefix, kind, ns, name, sub);
    ClassifyObjectPath(kind, lead, prefix, kind, key);
  }

  /** The object path of `{name}/{sub}` is that of `{name}` followed by `/{sub}`. */
  lemma SubresourcePieces(lead: string, prefix: string, kind: ResourceKind, ns: string, name: string, sub: string)
    ensures ObjectPath(lead, prefix, kind, ObjectRef(name, Some(ns))) + "/" + sub
            == ObjectPath(lead, prefix, kind, ObjectRef(name + "/" + sub, Some(ns)))
  {
    var pieces := [lead, prefix, kind.group, kind.version, "namespaces", ns, kind.plural, name];
    assert PathPieces(lead, prefix, kind, ObjectRef(name, Some(ns))) == pieces;
    assert PathPieces(lead, prefix, kind, ObjectRef(name + "/" + sub, Some(ns)))
        == pieces[7 := pieces[7] + "/" + sub];
    JoinExtendLast(pieces, "/" + sub);
    assert pieces[7] + ("/" + sub) == pieces[7] + "/" + sub;
    assert Join(pieces) + ("/" + sub) == Join(pieces) + "/" + sub;
  }

  /** `api` and `apis` hold no slash. */
  lemma ApiPrefixSlashFree(prefix: string)
    requires IsApiPrefix(prefix)
    ensures SlashFree(prefix)
  {
    NoSlashAt(prefix);
  }

  /** Splitn pieces that are neither 8 nor 6 are never recognised. */
  lemma UnrecognisedPieceCount(kind: ResourceKind, pieces: seq<string>)
    requires SplitShaped(pieces, MaxPieces) && |pieces| != 8 && |pieces| != 6
    ensures ClassifyPath(kind, Join(pieces)) == None
  {
    SplitNJoin(pieces, MaxPieces);
  }

  /**
    A GET on a subresource of a cluster-scoped object
    (`.../{plural}/{name}/{sub}`) has 7 pieces and is not recognised.
  */
  lemma ClusterScopedSubresource(kind: ResourceKind, lead: string, prefix: string, name: string, sub: string)
    requires WellFormedPath(lead, prefix, kind, ObjectRef(name, None)) && SlashFree(sub)
    ensures ClassifyPath(kind, ObjectPath(lead, prefix, kind, ObjectRef(name, None)) + "/" + sub) == None
  {
    var pieces := PathPieces(lead, prefix, kind, ObjectRef(name, None));
    PathPiecesShaped(lead, prefix, kind, ObjectRef(name, None));
    ShapedSnoc(pieces, sub);
    JoinSnoc(pieces, sub);
    UnrecognisedPieceCount(kind, pieces + [sub]);
  }

  /** A slash-free piece after a shaped split of fewer than 7 pieces keeps it shaped. */
  lemma ShapedSnoc(pieces: seq<string>, last: string)
    requires SplitShaped(pieces, MaxPieces) && |pieces| < MaxPieces - 1 && SlashFree(last)
    ensures SplitShaped(pieces + [last], MaxPieces)
  {
    var extended := pieces + [last];
    forall k | 0 <= k < |extended| - 1
      ensures SlashFree(extended[k])
    {
      assert extended[k] == pieces[k];
    }
  }

  /** Seven slash-free pieces are a shaped split. */
  lemma SevenShaped(p0: string, p1: string, p2: string, p3: string, p4: string, p5: string, p6: string)
    requires SlashFree(p0) && SlashFree(p1) && SlashFree(p2) && SlashFree(p3)
    requires SlashFree(p4) && SlashFree(p5) && SlashFree(p6)
    ensures SplitShaped([p0, p1, p2, p3, p4, p5, p6], MaxPieces)
  {
    var pieces := [p0, p1, p2, p3, p4, p5, p6];
    forall k | 0 <= k < |pieces|
      ensures SlashFree(pieces[k])
    {
    }
  }

  /** Five slash-free pieces are a shaped split. */
  lemma FiveShaped(p0: string, p1: string, p2: string, p3: string, p4: string)
    requires SlashFree(p0) && SlashFree(p1) && SlashFree(p2) && SlashFree(p3) && SlashFree(p4)
    ensures SplitShaped([p0, p1, p2, p3, p4], MaxPieces)
  {
    var pieces := [p0, p1, p2, p3, p4];
    forall k | 0 <= k < |pieces|
      ensures SlashFree(pieces[k])
    {
    }
  }

  /**
    List GETs, which end in the plural instead of an object name, are not
    recognised: neither `/{api|apis}/{group}/{version}/namespaces/{ns}/{plural}`
    nor `/{api|apis}/{group}/{version}/{plural}`.
  */
  lemma ListPathsUnrecognised(kind: ResourceKind, lead: string, prefix: string, other: ResourceKind, ns: string)
    requires SlashFree(lead) && SlashFree(prefix) && KindSlashFree(other) && SlashFree(ns)
    ensures ClassifyPath(kind, Join([lead, prefix, other.group, other.version, "namespaces", ns, other.plural])) == None
    ensures ClassifyPath(kind, Join([lead, prefix, other.group, other.version, other.plural])) == None
  {
    NamespacesSlashFree();
    SevenShaped(lead, prefix, other.group, other.version, "namespaces", ns, other.plural);
    UnrecognisedPieceCount(kind, [lead, prefix, other.group, other.version, "namespaces", ns, other.plural]);
    FiveShaped(lead, prefix, other.group, other.version, other.plural);
    UnrecognisedPieceCount(kind, [lead, prefix, other.group, other.version, other.plural]);
  }

  /**
    The `api` alternative is always followed by a group piece, so paths of the
    core API group, which carry no group (`/api/{version}/namespaces/{ns}/{plural}/{name}`
    and `/api/{version}/{plural}/{name}`), are never recognised.
  */
  lemma CoreGroupPathsUnrecognised(kind: ResourceKind, lead: string, version: string, ns: string, plural: string, name: string)
    requires SlashFree(lead) && SlashFree(version) && SlashFree(ns) && SlashFree(plural) && SlashFree(name)
    ensures ClassifyPath(kind, Join([lead, "api", version, "namespaces", ns, plural, name])) == None
    ensures ClassifyPath(kind, Join([lead, "api", version, plural, name])) == None
  {
    ApiPrefixSlashFree("api");
    NamespacesSlashFree();
    SevenShaped(lead, "api", version, "namespaces", ns, plural, name);
    UnrecognisedPieceCount(kind, [lead, "api", version, "namespaces", ns, plural, name]);
    FiveShaped(lead, "api", version, plural, name);
    UnrecognisedPieceCount(kind, [lead, "api", version, plural, name]);
  }

  /**
    The reflector store of kind K: a snapshot from store keys to objects,
    filled by a watch the middleware never drives. The middleware only reads it.
  */
  class Store<Obj> {
    var objects: map<ObjectRef, Obj>

    constructor (objects: map<ObjectRef, Obj>)
      ensures this.objects == objects
    {
      this.objects := objects;
    }

    /** `Store::len`: the number of objects held. */
    function Len(): nat
      reads this
    {
      |objects|
    }

    /** `Store::get`: the object under a key, if any. */
    function Get(key: ObjectRef): (r: Option<Obj>)
      reads this
      ensures r.Some? <==> key in objects
      ensures r.Some? ==> r.value == objects[key]
    {
      if key in objects then Some(objects[key]) else None
    }
  }

  /** What the debug print of a recognised request shows: store size, key and lookup result. */
  datatype DebugRead<Obj> = DebugRead(storeLen: nat, key: ObjectRef, found: Option<Obj>)

  /**
    The middleware wrapped around an inner service. The inner service is a
    function of every request it was handed before and the new one, so that a
    response may depend on the whole exchange so far; `forwarded` is the list
    of requests handed to it, `debugReads` the store reads printed.
  */
  class Cache<Obj, Resp> {
    const kind: ResourceKind
    const inner: (seq<Request>, Request) -> Resp
    const store: Store<Obj>
    var forwarded: seq<Request>
    var debugReads: seq<DebugRead<Obj>>

    constructor (kind: ResourceKind, inner: (seq<Request>, Request) -> Resp, store: Store<Obj>)
      ensures this.kind == kind && this.inner == inner && this.store == store
      ensures forwarded == [] && debugReads == []
    {
      this.kind := kind;
      this.inner := inner;
      this.store := store;
      forwarded := [];
      debugReads := [];
    }

    /**
      `Cache::call`: a non-GET request is forwarded at once; a GET whose path
      names no object of the kind is forwarded; a GET that does is forwarded
      after its store read is printed. Either way the request itself, parts
      and body untouched, is forwarded exactly once, the response is the
      inner service's, and the store is left as it was.
    */
    method Call(req: Request) returns (resp: Resp)
      modifies this`forwarded, this`debugReads
      ensures forwarded == old(forwarded) + [req]
      ensures resp == inner(old(forwarded), req)
      ensures debugReads == old(debugReads) + DebugReadsOf(RouteKey(kind, req), store.objects)
    {
      if req.httpMethod != Get {
        resp := inner(forwarded, req);
        forwarded := forwarded + [req];
        return;
      }
      var path := req.uri.path;
      var r := ClassifyPath(kind, path);
      if r.None? {
        resp := inner(forwarded, req);
        forwarded := forwarded + [req];
        return;
      }
      var key := r.value;
      debugReads := debugReads + [DebugRead(store.Len(), key, store.Get(key))];
      resp := inner(forwarded, req);
      forwarded := forwarded + [req];
    }
  }

  /** The debug reads a request leaves: one for a recognised key, none otherwise. */
  function DebugReadsOf<Obj>(key: Option<ObjectRef>, objects: map<ObjectRef, Obj>): (printed: seq<DebugRead<Obj>>)
    ensures |printed| <= 1
    ensures key.None? <==> printed == []
    ensures key.Some? ==> printed[0].key == key.value && (printed[0].found.Some? <==> key.value in objects)
  {
    match key
    case None => []
    case Some(k) => [DebugRead(|objects|, k, if k in objects then Some(objects[k]) else None)]
  }

  /** `CacheLayer`: the store shared by every service it wraps. */
  class CacheLayer<Obj> {
    const kind: ResourceKind
    const store: Store<Obj>

    /** `CacheLayer::new` */
    constructor (kind: ResourceKind, store: Store<Obj>)
      ensures this.kind == kind && this.store == store
    {
      this.kind := kind;
      this.store := store;
    }

    /** `Layer::layer`: a fresh middleware around `inner`, sharing this layer's store. */
    method Layer<Resp>(inner: (seq<Request>, Request) -> Resp) returns (svc: Cache<Obj, Resp>)
      ensures fresh(svc)
      ensures svc.kind == kind && svc.inner == inner && svc.store == store
      ensures svc.forwarded == [] && svc.debugReads == []
    {
      svc := new Cache(kind, inner, store);
    }
  }
}
