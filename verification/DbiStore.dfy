/** The document manager's requests on its local copy and on the Mongo database behind
    it, and the invariant that keeps the two equal. */
module DbiStore {
  import opened Text
  import opened DbiJson
  import opened DbiLens

  type Fields = map<string, Json>

  /** Database name, collection name, document name. */
  type Local = map<string, map<string, map<string, Fields>>>

  /** In Mongo a document is keyed by its `_id`, which need not be a string. */
  type Mongo = map<string, map<string, map<Json, Fields>>>

  datatype Store = Store(local: Local, mongo: Mongo)

  const META: set<string> := {"_id", "_version"}

  /** A body without the fields that only Mongo holds. */
  function Bare(body: Fields): Fields {
    body - META
  }

  function Stamped(body: Fields, name: string, now: Json): Fields {
    body["_id" := Str(name)]["_version" := now]
  }

  // ---- Addressing -----------------------------------------------------------------------

  function LocalDb(local: Local, db: string): map<string, map<string, Fields>> {
    if db in local then local[db] else map[]
  }

  function LocalColl(local: Local, db: string, coll: string): map<string, Fields> {
    if coll in LocalDb(local, db) then LocalDb(local, db)[coll] else map[]
  }

  function MongoDb(mongo: Mongo, db: string): map<string, map<Json, Fields>> {
    if db in mongo then mongo[db] else map[]
  }

  function MongoColl(mongo: Mongo, db: string, coll: string): map<Json, Fields> {
    if coll in MongoDb(mongo, db) then MongoDb(mongo, db)[coll] else map[]
  }

  /** The local document at an address. */
  function Find(local: Local, db: string, coll: string, name: string): Option<Fields> {
    var docs := LocalColl(local, db, coll);
    if name in docs then Some(docs[name]) else None
  }

  /** The document that Mongo holds at an address, without its metadata. */
  function Stored(mongo: Mongo, db: string, coll: string, name: string): Option<Fields> {
    var docs := MongoColl(mongo, db, coll);
    if Str(name) in docs then Some(Bare(docs[Str(name)])) else None
  }

  function Doc(local: Local, db: string, coll: string, name: string): Fields {
    var f := Find(local, db, coll, name);
    if f.Some? then f.value else map[]
  }

  // ---- Changing one collection ---------------------------------------------------------------

  function SetLocal(local: Local, db: string, coll: string, docs: map<string, Fields>): Local {
    local[db := LocalDb(local, db)[coll := docs]]
  }

  function SetMongo(mongo: Mongo, db: string, coll: string, docs: map<Json, Fields>): Mongo {
    mongo[db := MongoDb(mongo, db)[coll := docs]]
  }

  function DropLocal(local: Local, db: string, coll: string): Local {
    if db in local then local[db := local[db] - {coll}] else local
  }

  function DropMongo(mongo: Mongo, db: string, coll: string): Mongo {
    if db in mongo then mongo[db := mongo[db] - {coll}] else mongo
  }

  /** Mongo's replace with upsert. */
  function Replaced(mongo: Mongo, db: string, coll: string, id: Json, body: Fields): Mongo {
    SetMongo(mongo, db, coll, MongoColl(mongo, db, coll)[id := body])
  }

  function WithoutDocument(mongo: Mongo, db: string, coll: string, id: Json): Mongo {
    if coll in MongoDb(mongo, db) then SetMongo(mongo, db, coll, MongoColl(mongo, db, coll) - {id}) else mongo
  }

  /** A document body reaches both copies; its metadata only Mongo. */
  function Sync(s: Store, db: string, coll: string, name: string, body: Fields, now: Json): Store {
    Store(SetLocal(s.local, db, coll, LocalColl(s.local, db, coll)[name := Bare(body)]),
          Replaced(s.mongo, db, coll, Str(name), Stamped(body, name, now)))
  }

  // ---- Requests -------------------------------------------------------------------------------

  datatype Request =
    | EditCollection(db: string, coll: string, docs: Json, isSet: bool)
    | EditDocument(db: string, coll: string, name: string, body: Json, isSet: bool)
    | EditField(db: string, coll: string, name: string, field: string, data: Json, isSet: bool)
    | DeleteCollection(db: string, coll: string)
    | DeleteDocument(db: string, coll: string, name: string)
    | DeleteField(db: string, coll: string, name: string, field: string)
    | Resync

  function EditedDocument(s: Store, db: string, coll: string, name: string, body: Json, isSet: bool, now: Json): Store {
    if !body.Obj? then Store(SetLocal(s.local, db, coll, LocalColl(s.local, db, coll)), s.mongo)
    else Sync(s, db, coll, name, (if isSet then map[] else Doc(s.local, db, coll, name)) + body.fields, now)
  }

  /** What a collection body makes of one document. */
  function MergedBody(was: map<string, Fields>, name: string, body: Json): Fields
    requires body.Obj?
  {
    (if name in was then was[name] else map[]) + body.fields
  }

  function MergedLocal(was: map<string, Fields>, docs: Fields): map<string, Fields> {
    was + LocalBodies(was, docs)
  }

  function LocalBodies(was: map<string, Fields>, docs: Fields): map<string, Fields> {
    map n | n in docs && docs[n].Obj? :: Bare(MergedBody(was, n, docs[n]))
  }

  function MongoBodies(was: map<string, Fields>, docs: Fields, stamp: string -> Json): map<Json, Fields> {
    map n | n in docs && docs[n].Obj? :: Str(n) := Stamped(MergedBody(was, n, docs[n]), n, stamp(n))
  }

  function MergedMongo(stored: map<Json, Fields>, was: map<string, Fields>, docs: Fields, stamp: string -> Json): map<Json, Fields> {
    stored + MongoBodies(was, docs, stamp)
  }

  /** All documents of a collection body merged at once; members that are not maps are
      skipped. The stamp gives the time at which each document is written. */
  function MergedDocuments(s: Store, db: string, coll: string, docs: Fields, stamp: string -> Json): Store {
    if docs == map[] then s
    else
      var was := LocalColl(s.local, db, coll);
      Store(SetLocal(s.local, db, coll, MergedLocal(was, docs)),
            if exists n :: n in docs && docs[n].Obj?
            then SetMongo(s.mongo, db, coll, MergedMongo(MongoColl(s.mongo, db, coll), was, docs, stamp))
            else s.mongo)
  }

  function Cleared(s: Store, db: string, coll: string): Store {
    Store(SetLocal(s.local, db, coll, map[]), DropMongo(s.mongo, db, coll))
  }

  function EditedCollection(s: Store, db: string, coll: string, docs: Json, isSet: bool, stamp: string -> Json): Store {
    var base := if isSet then Cleared(s, db, coll) else s;
    if docs.Obj? then MergedDocuments(base, db, coll, docs.fields, stamp) else base
  }

  /** A document after a field edit. The new top layer itself is dropped by the caller, so
      an empty path only takes effect as an in-place merge. */
  function EditedBody(body: Fields, field: string, data: Json, isSet: bool): Fields {
    var v := Unwrap(data);
    if field == "" then if !isSet && v.Obj? then body + v.fields else body
    else
      var e := Edit(Obj(body), field, data, isSet);
      if e.Done? && e.layer.Obj? then e.layer.fields else body
  }

  function EditedField(s: Store, db: string, coll: string, name: string, field: string, data: Json, isSet: bool, now: Json): Store {
    if field in META then s
    else
      var body := Doc(s.local, db, coll, name);
      if Edit(Obj(body), field, data, isSet).Done?
      then Sync(s, db, coll, name, EditedBody(body, field, data, isSet), now)
      else s
  }

  function DeletedCollection(s: Store, db: string, coll: string): Store {
    if coll !in LocalDb(s.local, db) then s
    else Store(DropLocal(s.local, db, coll), DropMongo(s.mongo, db, coll))
  }

  function DeletedDocument(s: Store, db: string, coll: string, name: string): Store {
    if Find(s.local, db, coll, name).None? then s
    else Store(SetLocal(s.local, db, coll, LocalColl(s.local, db, coll) - {name}),
               WithoutDocument(s.mongo, db, coll, Str(name)))
  }

  function DeletedField(s: Store, db: string, coll: string, name: string, field: string, now: Json): Store {
    var doc := Find(s.local, db, coll, name);
    if doc.None? then s
    else
      var e := Delete(Obj(doc.value), field);
      if e.Done? && e.layer.Obj? then Sync(s, db, coll, name, e.layer.fields, now) else s
  }

  function ExtractedColl(docs: map<Json, Fields>): map<string, Fields> {
    map id | id in docs && id.Str? :: id.text := Bare(docs[id])
  }

  function ExtractedDb(mongo: Mongo, db: string): map<string, map<string, Fields>> {
    map coll | coll in MongoDb(mongo, db) :: ExtractedColl(MongoDb(mongo, db)[coll])
  }

  function Extracted(mongo: Mongo): Local {
    map["dbi" := ExtractedDb(mongo, "dbi"), "audit" := ExtractedDb(mongo, "audit")]
  }

  predicate Panics(s: Store, r: Request) {
    r.EditField? && r.field !in META
    && Edit(Obj(Doc(s.local, r.db, r.coll, r.name)), r.field, r.data, r.isSet).Panic?
  }

  /** One request. A request that panics ends the process before it has written anything,
      and the restarted process downloads Mongo again. */
  function Serve(s: Store, r: Request, stamp: string -> Json): Store {
    if Panics(s, r) then Store(Extracted(s.mongo), s.mongo)
    else
      match r
      case EditCollection(db, coll, docs, isSet) => EditedCollection(s, db, coll, docs, isSet, stamp)
      case EditDocument(db, coll, name, body, isSet) => EditedDocument(s, db, coll, name, body, isSet, stamp(name))
      case EditField(db, coll, name, field, data, isSet) => EditedField(s, db, coll, name, field, data, isSet, stamp(name))
      case DeleteCollection(db, coll) => DeletedCollection(s, db, coll)
      case DeleteDocument(db, coll, name) => DeletedDocument(s, db, coll, name)
      case DeleteField(db, coll, name, field) => DeletedField(s, db, coll, name, field, stamp(name))
      case Resync => Store(Extracted(s.mongo), s.mongo)
  }

  /** Requests reach only the two databases that are kept locally. */
  predicate Addressed(r: Request) {
    r.Resync? || r.db == "dbi" || r.db == "audit"
  }

  datatype Event = Event(request: Request, stamp: string -> Json)

  function Run(s: Store, events: seq<Event>): Store
    decreases |events|
  {
    if events == [] then s
    else Run(Serve(s, events[0].request, events[0].stamp), events[1..])
  }

  // ---- The mirror invariant ---------------------------------------------------------------------

  predicate MirrorsAt(s: Store, db: string, coll: string, name: string) {
    Find(s.local, db, coll, name) == Stored(s.mongo, db, coll, name)
  }

  ghost predicate MirrorsDb(s: Store, db: string) {
    forall coll, name :: MirrorsAt(s, db, coll, name)
  }

  /** Both databases are present, and at every address Mongo's document stripped of its
      metadata is the local one. Only empty collections may differ. */
  ghost predicate Mirror(s: Store) {
    s.local.Keys == {"dbi", "audit"} && MirrorsDb(s, "dbi") && MirrorsDb(s, "audit")
  }

  /** The same documents at every address. */
  ghost predicate SameDocuments(a: Local, b: Local) {
    forall db, coll, name :: Find(a, db, coll, name) == Find(b, db, coll, name)
  }

  lemma ExtractFinds(mongo: Mongo, db: string, coll: string, name: string)
    requires db == "dbi" || db == "audit"
    ensures Find(Extracted(mongo), db, coll, name) == Stored(mongo, db, coll, name)
  {
    var docs := MongoColl(mongo, db, coll);
    assert LocalDb(Extracted(mongo), db) == ExtractedDb(mongo, db);
    assert LocalColl(Extracted(mongo), db, coll) == ExtractedColl(docs);
    ExtractCollFinds(docs, name);
  }

  lemma ExtractCollFinds(docs: map<Json, Fields>, name: string)
    ensures name in ExtractedColl(docs) <==> Str(name) in docs
    ensures name in ExtractedColl(docs) ==> ExtractedColl(docs)[name] == Bare(docs[Str(name)])
  {
    if Str(name) in docs {
      assert Str(name).text == name;
    }
  }

  lemma ExtractMirrors(mongo: Mongo)
    ensures Mirror(Store(Extracted(mongo), mongo))
  {
    hide Extracted, Find, Stored;
    var s := Store(Extracted(mongo), mongo);
    forall coll, name ensures MirrorsAt(s, "dbi", coll, name) && MirrorsAt(s, "audit", coll, name) {
      ExtractFinds(mongo, "dbi", coll, name);
      ExtractFinds(mongo, "audit", coll, name);
    }
    ExtractedKeys(mongo);
  }

  lemma ExtractedKeys(mongo: Mongo)
    ensures Extracted(mongo).Keys == {"dbi", "audit"}
  {
  }

  /** One local collection changes: every other one reads as before. */
  ghost predicate LocalElsewhere(l: Local, l': Local, db: string, coll: string) {
    l'.Keys == l.Keys
    && forall d, c | d != db || c != coll :: LocalColl(l', d, c) == LocalColl(l, d, c)
  }

  ghost predicate MongoElsewhere(m: Mongo, m': Mongo, db: string, coll: string) {
    forall d, c | d != db || c != coll :: MongoColl(m', d, c) == MongoColl(m, d, c)
  }

  lemma LocalChanges(local: Local, db: string, coll: string, docs: map<string, Fields>)
    requires db in local
    ensures LocalElsewhere(local, SetLocal(local, db, coll, docs), db, coll)
    ensures LocalColl(SetLocal(local, db, coll, docs), db, coll) == docs
    ensures LocalElsewhere(local, DropLocal(local, db, coll), db, coll)
    ensures LocalColl(DropLocal(local, db, coll), db, coll) == map[]
  {
  }

  lemma MongoChanges(mongo: Mongo, db: string, coll: string, docs: map<Json, Fields>)
    ensures MongoElsewhere(mongo, SetMongo(mongo, db, coll, docs), db, coll)
    ensures MongoColl(SetMongo(mongo, db, coll, docs), db, coll) == docs
    ensures MongoElsewhere(mongo, DropMongo(mongo, db, coll), db, coll)
    ensures MongoColl(DropMongo(mongo, db, coll), db, coll) == map[]
  {
  }

  lemma ElsewhereMirrors(s: Store, t: Store, db: string, coll: string)
    requires Mirror(s) && (db == "dbi" || db == "audit")
    requires LocalElsewhere(s.local, t.local, db, coll) && MongoElsewhere(s.mongo, t.mongo, db, coll)
    requires forall name :: MirrorsAt(t, db, coll, name)
    ensures Mirror(t)
  {
    hide Bare, LocalColl, MongoColl;
    forall d, c, name | d == "dbi" || d == "audit" ensures MirrorsAt(t, d, c, name) {
      assert MirrorsAt(s, d, c, name);
      if d != db || c != coll {
        assert LocalColl(t.local, d, c) == LocalColl(s.local, d, c);
        assert MongoColl(t.mongo, d, c) == MongoColl(s.mongo, d, c);
      }
    }
  }

  lemma BareOfStamped(body: Fields, name: string, now: Json)
    ensures Bare(Stamped(body, name, now)) == Bare(body)
  {
  }

  lemma SyncMirrors(s: Store, db: string, coll: string, name: string, body: Fields, now: Json)
    requires Mirror(s) && (db == "dbi" || db == "audit")
    ensures Mirror(Sync(s, db, coll, name, body, now))
  {
    hide Bare, Stamped, LocalColl, MongoColl, SetLocal, SetMongo, DropLocal, DropMongo, LocalElsewhere, MongoElsewhere, LocalDb, MongoDb;
    var t := Sync(s, db, coll, name, body, now);
    LocalChanges(s.local, db, coll, LocalColl(s.local, db, coll)[name := Bare(body)]);
    MongoChanges(s.mongo, db, coll, MongoColl(s.mongo, db, coll)[Str(name) := Stamped(body, name, now)]);
    BareOfStamped(body, name, now);
    forall n ensures MirrorsAt(t, db, coll, n) {
      assert MirrorsAt(s, db, coll, n);
    }
    ElsewhereMirrors(s, t, db, coll);
  }

  lemma ClearMirrors(s: Store, db: string, coll: string)
    requires Mirror(s) && (db == "dbi" || db == "audit")
    ensures Mirror(Cleared(s, db, coll))
    ensures Mirror(DeletedCollection(s, db, coll))
  {
    hide Bare, Stamped, LocalColl, MongoColl, SetLocal, SetMongo, DropLocal, DropMongo, LocalElsewhere, MongoElsewhere, LocalDb, MongoDb;
    LocalChanges(s.local, db, coll, map[]);
    MongoChanges(s.mongo, db, coll, map[]);
    ElsewhereMirrors(s, Cleared(s, db, coll), db, coll);
    ElsewhereMirrors(s, Store(DropLocal(s.local, db, coll), DropMongo(s.mongo, db, coll)), db, coll);
  }

  lemma MergeLookups(was: map<string, Fields>, stored: map<Json, Fields>, docs: Fields, stamp: string -> Json, n: string)
    ensures var member := n in docs && docs[n].Obj?;
      (n in MergedLocal(was, docs) <==> member || n in was)
      && (Str(n) in MergedMongo(stored, was, docs, stamp) <==> member || Str(n) in stored)
      && (member ==> MergedLocal(was, docs)[n] == Bare(MergedBody(was, n, docs[n])))
      && (member ==> Bare(MergedMongo(stored, was, docs, stamp)[Str(n)]) == Bare(MergedBody(was, n, docs[n])))
      && (!member && n in was ==> MergedLocal(was, docs)[n] == was[n])
      && (!member && Str(n) in stored ==> MergedMongo(stored, was, docs, stamp)[Str(n)] == stored[Str(n)])
  {
    hide Bare, Stamped, MergedBody;
    if n in docs && docs[n].Obj? {
      BareOfStamped(MergedBody(was, n, docs[n]), n, stamp(n));
    }
  }

  lemma MergeMirrors(s: Store, db: string, coll: string, docs: Fields, stamp: string -> Json)
    requires Mirror(s) && (db == "dbi" || db == "audit")
    ensures Mirror(MergedDocuments(s, db, coll, docs, stamp))
  {
    hide Bare, Stamped, LocalColl, MongoColl, SetLocal, SetMongo, LocalElsewhere, MongoElsewhere, MergedBody, MergedLocal, MergedMongo;
    if docs != map[] {
      var t := MergedDocuments(s, db, coll, docs, stamp);
      var was, stored := LocalColl(s.local, db, coll), MongoColl(s.mongo, db, coll);
      LocalChanges(s.local, db, coll, MergedLocal(was, docs));
      MongoChanges(s.mongo, db, coll, MergedMongo(stored, was, docs, stamp));
      MongoSame(s.mongo, db, coll);
      forall n ensures MirrorsAt(t, db, coll, n) {
        assert MirrorsAt(s, db, coll, n);
        MergeLookups(was, stored, docs, stamp, n);
      }
      ElsewhereMirrors(s, t, db, coll);
    }
  }

  lemma MongoSame(mongo: Mongo, db: string, coll: string)
    ensures MongoElsewhere(mongo, mongo, db, coll)
  {
  }

  lemma DeleteMirrors(s: Store, db: string, coll: string, name: string)
    requires Mirror(s) && (db == "dbi" || db == "audit")
    ensures Mirror(DeletedDocument(s, db, coll, name))
  {
    hide Bare, SetLocal, SetMongo, LocalElsewhere, MongoElsewhere, LocalDb, MongoDb, LocalColl;
    var t := DeletedDocument(s, db, coll, name);
    if Find(s.local, db, coll, name).Some? {
      assert MirrorsAt(s, db, coll, name);
      LocalChanges(s.local, db, coll, LocalColl(s.local, db, coll) - {name});
      MongoChanges(s.mongo, db, coll, MongoColl(s.mongo, db, coll) - {Str(name)});
      forall n ensures MirrorsAt(t, db, coll, n) {
        assert MirrorsAt(s, db, coll, n);
      }
      ElsewhereMirrors(s, t, db, coll);
    }
  }

  lemma WithCollectionMirrors(s: Store, db: string, coll: string)
    requires Mirror(s) && (db == "dbi" || db == "audit")
    ensures Mirror(Store(SetLocal(s.local, db, coll, LocalColl(s.local, db, coll)), s.mongo))
  {
    hide Bare, SetLocal, LocalElsewhere, MongoElsewhere, LocalColl, MongoColl;
    var t := Store(SetLocal(s.local, db, coll, LocalColl(s.local, db, coll)), s.mongo);
    LocalChanges(s.local, db, coll, LocalColl(s.local, db, coll));
    MongoSame(s.mongo, db, coll);
    forall n ensures MirrorsAt(t, db, coll, n) {
      assert MirrorsAt(s, db, coll, n);
    }
    ElsewhereMirrors(s, t, db, coll);
  }

  /** Every request keeps the mirror, whether it succeeds, is refused or panics. */
  lemma ServeKeepsMirror(s: Store, r: Request, stamp: string -> Json)
    requires Mirror(s) && Addressed(r)
    ensures Mirror(Serve(s, r, stamp))
  {
    hide Mirror, Sync, Extracted, Cleared, SetLocal, LocalColl, MergedDocuments, DeletedCollection, DeletedDocument, Edit, Delete, EditedBody;
    ExtractMirrors(s.mongo);
    match r
    case EditCollection(db, coll, docs, isSet) =>
      ClearMirrors(s, db, coll);
      if docs.Obj? {
        MergeMirrors(if isSet then Cleared(s, db, coll) else s, db, coll, docs.fields, stamp);
      }
    case EditDocument(db, coll, name, body, isSet) =>
      if body.Obj? {
        SyncMirrors(s, db, coll, name, (if isSet then map[] else Doc(s.local, db, coll, name)) + body.fields, stamp(name));
      } else {
        WithCollectionMirrors(s, db, coll);
      }
    case EditField(db, coll, name, field, data, isSet) =>
      SyncMirrors(s, db, coll, name, EditedBody(Doc(s.local, db, coll, name), field, data, isSet), stamp(name));
    case DeleteCollection(db, coll) => ClearMirrors(s, db, coll);
    case DeleteDocument(db, coll, name) => DeleteMirrors(s, db, coll, name);
    case DeleteField(db, coll, name, field) =>
      var doc := Find(s.local, db, coll, name);
      if doc.Some? && Delete(Obj(doc.value), field).Done? && Delete(Obj(doc.value), field).layer.Obj? {
        SyncMirrors(s, db, coll, name, Delete(Obj(doc.value), field).layer.fields, stamp(name));
      }
    case Resync =>
  }

  lemma {:induction false} RunKeepsMirror(s: Store, events: seq<Event>)
    requires Mirror(s)
    requires forall i | 0 <= i < |events| :: Addressed(events[i].request)
    ensures Mirror(Run(s, events))
    decreases |events|
  {
    hide Mirror, Serve;
    if events != [] {
      ServeKeepsMirror(s, events[0].request, events[0].stamp);
      RunKeepsMirror(Serve(s, events[0].request, events[0].stamp), events[1..]);
    }
  }

  /** The cache agrees with the store: after any sequence of requests from start-up, no
      local document holds a top-level `_id` or `_version`, at every address the local
      document is Mongo's without its metadata, and a resync changes no document. */
  lemma CacheAgreesWithStore(mongo: Mongo, events: seq<Event>)
    requires forall i | 0 <= i < |events| :: Addressed(events[i].request)
    ensures var s := Run(Store(Extracted(mongo), mongo), events);
      Mirror(s)
      && (forall db, coll, name :: Doc(s.local, db, coll, name).Keys !! META)
      && SameDocuments(Extracted(s.mongo), s.local)
  {
    hide Extracted, Run, Find, Stored;
    ExtractMirrors(mongo);
    RunKeepsMirror(Store(Extracted(mongo), mongo), events);
    var s := Run(Store(Extracted(mongo), mongo), events);
    MirrorSettles(s);
  }

  lemma MirrorSettles(s: Store)
    requires Mirror(s)
    ensures forall db, coll, name :: Doc(s.local, db, coll, name).Keys !! META
    ensures SameDocuments(Extracted(s.mongo), s.local)
  {
    hide Extracted;
    ExtractedKeys(s.mongo);
    forall db, coll, name
      ensures Doc(s.local, db, coll, name).Keys !! META
      ensures Find(Extracted(s.mongo), db, coll, name) == Find(s.local, db, coll, name)
    {
      if db in s.local {
        assert MirrorsAt(s, db, coll, name);
        ExtractFinds(s.mongo, db, coll, name);
      }
    }
  }

  // ---- Reading through the manager ------------------------------------------------------------------

  function GetField(local: Local, db: string, coll: string, name: string, field: string): Result<Json> {
    var doc := Find(local, db, coll, name);
    if doc.None? then Err else Get(Obj(doc.value), field)
  }

  lemma BareReads(body: Fields, field: string)
    requires Head(field) !in META
    ensures Get(Obj(Bare(body)), field) == Get(Obj(body), field)
  {
    hide Head;
  }

  /** A value set or posted through a path is what GET returns, before and after the
      process restarts from Mongo. */
  lemma EditedFieldIsRead(s: Store, db: string, coll: string, name: string, field: string, data: Json, isSet: bool, now: Json)
    requires Mirror(s) && (db == "dbi" || db == "audit")
    requires Segmented(field) && Head(field) !in META
    requires var doc := Obj(Doc(s.local, db, coll, name));
      !Crosses(doc, field) && Edit(doc, field, data, isSet).Done?
    ensures var t := EditedField(s, db, coll, name, field, data, isSet, now);
      var doc := Obj(Doc(s.local, db, coll, name));
      var value := Combine(Before(doc, field), Payload(field, data), isSet);
      GetField(t.local, db, coll, name, field) == Ok(value)
      && GetField(Extracted(t.mongo), db, coll, name, field) == Ok(value)
  {
    hide Edit, Crosses, Segmented, Combine, Before, Payload, Get, Bare, Extracted, Head, Mirror, Stamped, Stored;
    var doc := Obj(Doc(s.local, db, coll, name));
    var t := EditedField(s, db, coll, name, field, data, isSet, now);
    HeadIsWhole(field);
    EditedBodyIsEdit(doc.fields, field, data, isSet);
    EditThenGet(doc, field, data, isSet);
    var body := EditedBody(doc.fields, field, data, isSet);
    BareReads(body, field);
    SyncMirrors(s, db, coll, name, body, now);
    MirrorSettles(t);
    assert Find(t.local, db, coll, name) == Some(Bare(body));
    assert Find(Extracted(t.mongo), db, coll, name) == Find(t.local, db, coll, name);
  }

  lemma HeadIsWhole(field: string)
    requires Head(field) !in META && Segmented(field)
    ensures field !in META && field != ""
  {
    NoCut("_id");
    NoCut("_version");
  }

  lemma EditedBodyIsEdit(body: Fields, field: string, data: Json, isSet: bool)
    requires field != "" && Edit(Obj(body), field, data, isSet).Done?
    ensures Edit(Obj(body), field, data, isSet).layer == Obj(EditedBody(body, field, data, isSet))
  {
    hide Head, Atoi, Combine;
  }
}
