/** The document manager and its Mongo connection as objects that are updated in place. */
module DbiManager {
  import opened Text
  import opened DbiJson
  import opened DbiLens
  import opened DbiStore

  /** Every document is stored under its own `_id`. */
  ghost predicate KeyedColl(docs: map<Json, Fields>) {
    forall id | id in docs :: "_id" in docs[id] && docs[id]["_id"] == id
  }

  ghost predicate Keyed(mongo: Mongo) {
    forall db, coll :: KeyedColl(MongoColl(mongo, db, coll))
  }

  /** A Mongo server whose calls succeed. */
  class MongoConnector {
    var data: Mongo

    constructor (contents: Mongo)
      ensures data == contents
    {
      data := contents;
    }

    method ExtractDB(db: string) returns (r: map<string, map<Json, Fields>>)
      ensures r == MongoDb(data, db)
    {
      r := MongoDb(data, db);
    }

    method ReplaceDocument(db: string, coll: string, doc: Fields)
      requires Keyed(data) && "_id" in doc
      modifies this
      ensures Keyed(data) && data == Replaced(old(data), db, coll, doc["_id"], doc)
    {
      hide SetMongo, MongoColl, KeyedColl;
      MongoChanges(data, db, coll, MongoColl(data, db, coll)[doc["_id"] := doc]);
      KeyedPut(MongoColl(data, db, coll), doc["_id"], doc);
      KeptKeyed(data, Replaced(data, db, coll, doc["_id"], doc), db, coll);
      data := Replaced(data, db, coll, doc["_id"], doc);
    }

    method DeleteDocument(db: string, coll: string, id: Json)
      requires Keyed(data)
      modifies this
      ensures Keyed(data) && data == WithoutDocument(old(data), db, coll, id)
    {
      hide SetMongo, MongoColl;
      MongoChanges(data, db, coll, MongoColl(data, db, coll) - {id});
      KeyedCut(MongoColl(data, db, coll), id);
      if coll in MongoDb(data, db) {
        KeptKeyed(data, WithoutDocument(data, db, coll, id), db, coll);
      }
      data := WithoutDocument(data, db, coll, id);
    }

    method DeleteCollection(db: string, coll: string)
      requires Keyed(data)
      modifies this
      ensures Keyed(data) && data == DropMongo(old(data), db, coll)
    {
      MongoChanges(data, db, coll, map[]);
      KeptKeyed(data, DropMongo(data, db, coll), db, coll);
      data := DropMongo(data, db, coll);
    }
  }

  lemma KeyedPut(docs: map<Json, Fields>, id: Json, body: Fields)
    requires KeyedColl(docs) && "_id" in body && body["_id"] == id
    ensures KeyedColl(docs[id := body])
  {
  }

  lemma KeyedCut(docs: map<Json, Fields>, id: Json)
    requires KeyedColl(docs)
    ensures KeyedColl(docs - {id})
  {
  }

  lemma KeptKeyed(m: Mongo, m': Mongo, db: string, coll: string)
    requires Keyed(m) && MongoElsewhere(m, m', db, coll) && KeyedColl(MongoColl(m', db, coll))
    ensures Keyed(m')
  {
    hide MongoColl, KeyedColl;
    forall d, c ensures KeyedColl(MongoColl(m', d, c)) {
      if d != db || c != coll {
        assert MongoColl(m', d, c) == MongoColl(m, d, c);
      }
    }
  }

  class DocumentManager {
    var localData: Local
    const mongoConn: MongoConnector

    ghost predicate Valid()
      reads this, mongoConn
    {
      localData.Keys == {"dbi", "audit"} && Keyed(mongoConn.data)
    }

    ghost function Contents(): Store
      reads this, mongoConn
    {
      Store(localData, mongoConn.data)
    }

    /** Start-up: connect and download. */
    constructor (conn: MongoConnector)
      requires Keyed(conn.data)
      ensures Valid() && mongoConn == conn && conn.data == old(conn.data)
      ensures Mirror(Contents()) && localData == Extracted(conn.data)
    {
      mongoConn := conn;
      new;
      ExtractDBs();
      ExtractMirrors(conn.data);
    }

    method ExtractDBs()
      requires Keyed(mongoConn.data)
      modifies this
      ensures Valid() && Contents() == Store(Extracted(mongoConn.data), mongoConn.data)
    {
      hide Keyed, ExtractedDb;
      localData := map[];
      ExtractDB("dbi");
      ExtractDB("audit");
      assert localData == Extracted(mongoConn.data);
    }

    method ExtractDB(db: string)
      requires Keyed(mongoConn.data)
      modifies this
      ensures localData == old(localData)[db := ExtractedDb(mongoConn.data, db)]
    {
      hide Keyed, KeyedColl, ExtractedColl, MongoColl, ExtractedDb, MongoDb;
      var data := mongoConn.ExtractDB(db);
      var colls: map<string, map<string, Fields>> := map[];
      localData := localData[db := colls];
      var todo := data.Keys;
      while todo != {}
        invariant todo <= data.Keys
        invariant localData == old(localData)[db := colls]
        invariant colls.Keys == data.Keys - todo
        invariant forall coll | coll in colls :: colls[coll] == ExtractedColl(data[coll])
      {
        var coll :| coll in todo;
        KeyedAt(mongoConn.data, db, coll);
        var docs := ExtractDocuments(data[coll]);
        PutPut(old(localData), db, colls, colls[coll := docs]);
        colls := colls[coll := docs];
        localData := localData[db := colls];
        todo := todo - {coll};
      }
      ExtractedWhole(mongoConn.data, db, colls);
    }

    method ExtractDocuments(stored: map<Json, Fields>) returns (docs: map<string, Fields>)
      requires KeyedColl(stored)
      ensures docs == ExtractedColl(stored)
    {
      hide ExtractedColl, Bare;
      docs := map[];
      var todo := stored.Keys;
      ghost var done: map<Json, Fields> := map[];
      ExtractedNone();
      while todo != {}
        invariant todo <= stored.Keys
        invariant done.Keys == stored.Keys - todo
        invariant forall id | id in done :: done[id] == stored[id]
        invariant docs == ExtractedColl(done)
      {
        var id :| id in todo;
        var body := stored[id];
        ExtractedMore(done, id, body);
        if body["_id"].Str? {
          docs := docs[body["_id"].text := body - {"_id"} - {"_version"}];
        }
        done := done[id := body];
        todo := todo - {id};
      }
      assert done == stored;
    }

    // ---- Reading ----------------------------------------------------------------------

    method GetDocument(db: string, coll: string, name: string) returns (r: Result<Fields>)
      ensures r == (var doc := Find(localData, db, coll, name); if doc.Some? then Ok(doc.value) else Err)
    {
      if db in localData && coll in localData[db] && name in localData[db][coll] {
        return Ok(localData[db][coll][name]);
      }
      return Err;
    }

    method GetFieldValue(db: string, coll: string, name: string, field: string) returns (r: Result<Json>)
      ensures r == GetField(localData, db, coll, name, field)
    {
      var doc := GetDocument(db, coll, name);
      if doc.Err? {
        return Err;
      }
      return Get(Obj(doc.value), field);
    }

    // ---- Synchronising ----------------------------------------------------------------

    method PutLocally(db: string, coll: string, name: string, body: Fields)
      modifies this
      ensures localData == SetLocal(old(localData), db, coll, LocalColl(old(localData), db, coll)[name := body])
    {
      localData := localData[db := LocalDb(localData, db)[coll := LocalColl(localData, db, coll)[name := body]]];
    }

    /** updateMetaData: the edit time and the name are set on the local document. */
    method UpdateMetaData(db: string, coll: string, name: string, now: Json)
      requires Find(localData, db, coll, name).Some?
      modifies this
      ensures localData == SetLocal(old(localData), db, coll,
        LocalColl(old(localData), db, coll)[name := Stamped(Doc(old(localData), db, coll, name), name, now)])
    {
      hide SetLocal;
      var doc := GetDocument(db, coll, name);
      PutLocally(db, coll, name, doc.value["_version" := now]["_id" := Str(name)]);
      assert doc.value["_version" := now]["_id" := Str(name)] == Stamped(doc.value, name, now);
    }

    /** syncDocument: the stamped document goes to Mongo, then loses its stamps locally. */
    method SyncDocument(db: string, coll: string, name: string, now: Json)
      requires Find(localData, db, coll, name).Some? && Keyed(mongoConn.data)
      modifies this, mongoConn
      ensures Contents() == Sync(old(Contents()), db, coll, name, Doc(old(localData), db, coll, name), now)
      ensures Keyed(mongoConn.data)
    {
      hide SetLocal, Keyed, Replaced, Find, LocalColl;
      var read := GetDocument(db, coll, name);
      var doc := read.value["_id" := Str(name)]["_version" := now];
      PutLocally(db, coll, name, doc);
      mongoConn.ReplaceDocument(db, coll, doc);
      PutLocally(db, coll, name, doc - {"_id"} - {"_version"});
      assert doc - {"_id"} - {"_version"} == Bare(read.value);
      PutTwice(old(localData), db, coll, name, doc, Bare(read.value));
    }

    // ---- Editing ------------------------------------------------------------------------

    method EnsureCollection(db: string, coll: string)
      modifies this
      ensures localData == SetLocal(old(localData), db, coll, LocalColl(old(localData), db, coll))
    {
      localData := localData[db := LocalDb(localData, db)[coll := LocalColl(localData, db, coll)]];
    }

    method EditDocument(db: string, coll: string, name: string, body: Json, isSet: bool, now: Json)
      returns (r: Result<Fields>)
      requires Valid() && (db == "dbi" || db == "audit")
      modifies this, mongoConn
      ensures Valid()
      ensures Contents() == EditedDocument(old(Contents()), db, coll, name, body, isSet, now)
      ensures r == if body.Obj? then Ok(Doc(localData, db, coll, name)) else Err
    {
      hide SetLocal, Keyed, LocalColl, Bare, Sync, LocalElsewhere;
      ghost var was := LocalColl(localData, db, coll);
      EnsureCollection(db, coll);
      LocalChanges(old(localData), db, coll, was);
      if !body.Obj? {
        LocalKeysKept(old(localData), db, coll, was);
        return Err;
      }
      var doc: Fields := map[];
      var found := GetDocument(db, coll, name);
      if found.Err? || isSet {
        doc := body.fields;
      } else {
        doc := MergeFields(found.value, body.fields);
      }
      PutLocally(db, coll, name, doc);
      ghost var full := (if isSet then map[] else Doc(old(localData), db, coll, name)) + body.fields;
      assert doc == full;
      assert localData == SetLocal(old(localData), db, coll, was[name := full]) by {
        SetTwice(old(localData), db, coll, was, was[name := full]);
      }
      FinishEdit(db, coll, name, now, old(localData), full);
      return Ok(Bare(doc));
    }

    /** The common end of every edit: the metadata is refreshed and the document synced. */
    method FinishEdit(db: string, coll: string, name: string, now: Json, ghost before: Local, ghost body: Fields)
      requires Keyed(mongoConn.data) && db in before
      requires localData == SetLocal(before, db, coll, LocalColl(before, db, coll)[name := body])
      modifies this, mongoConn
      ensures Keyed(mongoConn.data)
      ensures Contents() == Sync(Store(before, old(mongoConn.data)), db, coll, name, body, now)
      ensures Find(localData, db, coll, name) == Some(Bare(body))
      ensures localData.Keys == before.Keys
    {
      hide SetLocal, Keyed, Replaced, LocalColl, Bare, Stamped, SetMongo, LocalElsewhere;
      ghost var was := LocalColl(before, db, coll);
      LocalChanges(before, db, coll, was[name := body]);
      UpdateMetaData(db, coll, name, now);
      ghost var stamped := Stamped(body, name, now);
      PutTwice(before, db, coll, name, body, stamped);
      LocalChanges(before, db, coll, was[name := stamped]);
      SyncDocument(db, coll, name, now);
      StampTwice(body, name, now);
      PutTwice(before, db, coll, name, stamped, Bare(body));
      LocalChanges(before, db, coll, was[name := Bare(body)]);
      LocalKeysKept(before, db, coll, was[name := Bare(body)]);
    }

    method MergeFields(doc: Fields, more: Fields) returns (merged: Fields)
      ensures merged == doc + more
    {
      merged := doc;
      var todo := more.Keys;
      while todo != {}
        invariant todo <= more.Keys
        invariant merged.Keys == doc.Keys + (more.Keys - todo)
        invariant forall k | k in merged :: merged[k] == if k in more && k !in todo then more[k] else doc[k]
      {
        var key :| key in todo;
        merged := merged[key := more[key]];
        todo := todo - {key};
      }
    }

    method EditCollection(db: string, coll: string, documents: Json, isSet: bool, stamp: string -> Json)
      returns (r: Result<map<string, Fields>>)
      requires Valid() && (db == "dbi" || db == "audit")
      modifies this, mongoConn
      ensures Valid()
      ensures Contents() == EditedCollection(old(Contents()), db, coll, documents, isSet, stamp)
      ensures r == if documents.Obj? then Ok(LocalColl(localData, db, coll)) else Err
    {
      hide SetLocal, Keyed, LocalColl, MergedDocuments, EditedDocument, DropMongo;
      if isSet {
        LocalKeysKept(localData, db, coll, map[]);
        SetLocally(db, coll, map[]);
        mongoConn.DeleteCollection(db, coll);
      }
      if !documents.Obj? {
        return Err;
      }
      ghost var base := Contents();
      ghost var done: Fields := map[];
      var todo := documents.fields.Keys;
      MergedNone(base, db, coll, stamp);
      while todo != {}
        invariant Valid() && todo <= documents.fields.Keys
        invariant done.Keys == documents.fields.Keys - todo
        invariant forall n | n in done :: done[n] == documents.fields[n]
        invariant Contents() == MergedDocuments(base, db, coll, done, stamp)
      {
        var name :| name in todo;
        var doc := documents.fields[name];
        MergedMore(base, db, coll, done, name, doc, stamp);
        var _ := EditDocument(db, coll, name, doc, false, stamp(name));
        done := done[name := doc];
        todo := todo - {name};
      }
      assert done == documents.fields;
      var result := ReadCollection(db, coll);
      return Ok(result);
    }

    method SetLocally(db: string, coll: string, docs: map<string, Fields>)
      modifies this
      ensures localData == SetLocal(old(localData), db, coll, docs)
    {
      localData := localData[db := LocalDb(localData, db)[coll := docs]];
    }

    /** The collection as a nested lookup returns it: a missing one is nil. */
    method ReadCollection(db: string, coll: string) returns (docs: map<string, Fields>)
      ensures docs == LocalColl(localData, db, coll)
    {
      docs := LocalColl(localData, db, coll);
    }

    /** editField. The collection and the document are created before the edit is tried; a
        refused edit leaves both copies exactly as they were all the same. */
    method EditFieldValue(db: string, coll: string, name: string, field: string, data: Json, isSet: bool, now: Json)
      returns (r: Result<Fields>)
      requires Valid() && (db == "dbi" || db == "audit")
      requires !Panics(Contents(), EditField(db, coll, name, field, data, isSet))
      modifies this, mongoConn
      ensures Valid()
      ensures Contents() == EditedField(old(Contents()), db, coll, name, field, data, isSet, now)
      ensures r.Ok? <==> field !in META && Edit(Obj(Doc(old(localData), db, coll, name)), field, data, isSet).Done?
      ensures r.Ok? ==> r.value == Doc(localData, db, coll, name)
    {
      hide SetLocal, Keyed, LocalColl, Bare, Edit, EditedBody, Find, Sync;
      if field == "_id" || field == "_version" {
        return Err;
      }
      var doc := OpenDocument(db, coll, name);
      match Edit(Obj(doc), field, data, isSet) {
        case Failed(_) =>
          RefusedEditMeansPresent(doc, field, data, isSet);
          PutSame(old(localData), db, coll, name);
          return Err;
        case Done(_) =>
          var body := ReplaceBody(db, coll, name, doc, EditedBody(doc, field, data, isSet), now, old(localData));
          r := Ok(body);
      }
    }

    /** An open document receives its new body, which is then synced. */
    method ReplaceBody(db: string, coll: string, name: string, doc: Fields, body: Fields, now: Json, ghost before: Local)
      returns (r: Fields)
      requires Keyed(mongoConn.data) && db in before
      requires localData == SetLocal(before, db, coll, LocalColl(before, db, coll)[name := doc])
      modifies this, mongoConn
      ensures Keyed(mongoConn.data) && localData.Keys == before.Keys
      ensures Contents() == Sync(Store(before, old(mongoConn.data)), db, coll, name, body, now)
      ensures r == Doc(localData, db, coll, name)
    {
      hide SetLocal, Keyed, LocalColl, Bare, Find, Sync;
      PutLocally(db, coll, name, body);
      PutTwice(before, db, coll, name, doc, body);
      FinishEdit(db, coll, name, now, before, body);
      var read := GetDocument(db, coll, name);
      r := read.value;
    }

    /** The document, created empty together with its collection if it is missing. */
    method OpenDocument(db: string, coll: string, name: string) returns (doc: Fields)
      requires db in localData
      modifies this
      ensures doc == Doc(old(localData), db, coll, name)
      ensures localData == SetLocal(old(localData), db, coll, LocalColl(old(localData), db, coll)[name := doc])
      ensures localData.Keys == old(localData).Keys
    {
      hide SetLocal, LocalColl, LocalElsewhere;
      ghost var was := LocalColl(localData, db, coll);
      EnsureCollection(db, coll);
      LocalChanges(old(localData), db, coll, was);
      var found := GetDocument(db, coll, name);
      doc := map[];
      if found.Ok? {
        doc := found.value;
      }
      PutLocally(db, coll, name, doc);
      SetTwice(old(localData), db, coll, was, was[name := doc]);
      LocalKeysKept(old(localData), db, coll, was[name := doc]);
    }

    // ---- Deleting -------------------------------------------------------------------------

    method RemoveCollection(db: string, coll: string) returns (r: Result<set<string>>)
      requires Valid() && (db == "dbi" || db == "audit")
      modifies this, mongoConn
      ensures Valid()
      ensures Contents() == DeletedCollection(old(Contents()), db, coll)
      ensures r == if coll in LocalDb(old(localData), db) then Ok(LocalDb(localData, "dbi").Keys) else Err
    {
      hide Keyed, DropMongo;
      if coll !in localData[db] {
        return Err;
      }
      localData := localData[db := localData[db] - {coll}];
      mongoConn.DeleteCollection(db, coll);
      return Ok(localData["dbi"].Keys);
    }

    method RemoveDocument(db: string, coll: string, name: string) returns (r: Result<set<string>>)
      requires Valid() && (db == "dbi" || db == "audit")
      modifies this, mongoConn
      ensures Valid()
      ensures Contents() == DeletedDocument(old(Contents()), db, coll, name)
      ensures r == if Find(old(localData), db, coll, name).Some? then Ok(LocalColl(localData, "dbi", coll).Keys) else Err
    {
      hide Keyed, WithoutDocument;
      var found := GetDocument(db, coll, name);
      if found.Err? {
        return Err;
      }
      localData := localData[db := localData[db][coll := localData[db][coll] - {name}]];
      mongoConn.DeleteDocument(db, coll, Str(name));
      var left := ReadCollection("dbi", coll);
      return Ok(left.Keys);
    }

    method RemoveField(db: string, coll: string, name: string, field: string, now: Json) returns (r: Result<Fields>)
      requires Valid() && (db == "dbi" || db == "audit")
      modifies this, mongoConn
      ensures Valid()
      ensures Contents() == DeletedField(old(Contents()), db, coll, name, field, now)
      ensures r.Ok? <==> Resolve(Obj(Doc(old(localData), db, coll, name)), field).Some?
      ensures r.Ok? ==> r.value == Doc(localData, db, coll, name)
    {
      hide SetLocal, Keyed, LocalColl, Bare, Delete, Resolve, Stamped, LocalElsewhere, SetMongo;
      var found := GetDocument(db, coll, name);
      DeletedLayerIsMap(Doc(localData, db, coll, name), field);
      DeleteIsExact(Obj(Doc(localData, db, coll, name)), field);
      if found.Err? {
        NothingInEmpty(field);
        return Err;
      }
      match Delete(Obj(found.value), field) {
        case Failed(_) => return Err;
        case Done(layer) =>
          ghost var was := LocalColl(localData, db, coll);
          PutLocally(db, coll, name, layer.fields);
          LocalChanges(old(localData), db, coll, was[name := layer.fields]);
          SyncDocument(db, coll, name, now);
          PutTwice(old(localData), db, coll, name, layer.fields, Bare(layer.fields));
          LocalKeysKept(old(localData), db, coll, was[name := Bare(layer.fields)]);
          LocalChanges(old(localData), db, coll, was[name := Bare(layer.fields)]);
          var result := GetDocument(db, coll, name);
          return result;
      }
    }
  }

  lemma RefusedEditMeansPresent(doc: Fields, field: string, data: Json, isSet: bool)
    requires Edit(Obj(doc), field, data, isSet).Failed?
    ensures doc != map[]
  {
    hide Atoi, Head, Combine;
    NullNeverFails(Tail(field), Unwrap(data), isSet);
  }

  lemma DeletedLayerIsMap(doc: Fields, field: string)
    ensures !Delete(Obj(doc), field).Panic?
    ensures Delete(Obj(doc), field).Done? ==> Delete(Obj(doc), field).layer.Obj?
  {
    hide Head;
    FailedDeleteIsAtomic(Obj(doc), field);
  }

  lemma NothingInEmpty(field: string)
    ensures Resolve(Obj(map[]), field).None?
  {
  }

  lemma PutSame(local: Local, db: string, coll: string, name: string)
    requires Find(local, db, coll, name).Some?
    ensures SetLocal(local, db, coll, LocalColl(local, db, coll)[name := Doc(local, db, coll, name)]) == local
  {
    var was := LocalColl(local, db, coll);
    assert was[name := was[name]] == was;
    assert LocalDb(local, db)[coll := was] == LocalDb(local, db);
  }

  lemma MergedNone(s: Store, db: string, coll: string, stamp: string -> Json)
    ensures MergedDocuments(s, db, coll, map[], stamp) == s
  {
  }

  /** Documents merged one after another are documents merged at once. */
  lemma MergedMore(s: Store, db: string, coll: string, done: Fields, name: string, doc: Json, stamp: string -> Json)
    requires name !in done && db in s.local
    ensures MergedDocuments(s, db, coll, done[name := doc], stamp)
      == EditedDocument(MergedDocuments(s, db, coll, done, stamp), db, coll, name, doc, false, stamp(name))
  {
    hide Bare, Stamped, SetLocal, SetMongo, LocalColl, MongoColl, MergedLocal, MergedMongo, LocalElsewhere, MongoElsewhere;
    var was, stored := LocalColl(s.local, db, coll), MongoColl(s.mongo, db, coll);
    var t := MergedDocuments(s, db, coll, done, stamp);
    var ml, mm := MergedLocal(was, done), MergedMongo(stored, was, done, stamp);
    MergedLocalMore(was, done, name, doc);
    MergedMongoMore(stored, was, done, name, doc, stamp);
    LocalChanges(s.local, db, coll, ml);
    MongoChanges(s.mongo, db, coll, mm);
    MergedNothing(was, stored, done, stamp);
    assert LocalColl(t.local, db, coll) == ml && MongoColl(t.mongo, db, coll) == mm;
    var more := done[name := doc];
    SetTwice(s.local, db, coll, ml, MergedLocal(was, more));
    SetMongoTwice(s.mongo, db, coll, mm, MergedMongo(stored, was, more, stamp));
    assert more[name] == doc && more != map[];
    assert forall n | n in done :: more[n] == done[n];
  }

  lemma MergedNothing(was: map<string, Fields>, stored: map<Json, Fields>, docs: Fields, stamp: string -> Json)
    ensures docs == map[] ==> MergedLocal(was, docs) == was
    ensures !(exists n :: n in docs && docs[n].Obj?) ==> MergedMongo(stored, was, docs, stamp) == stored
  {
  }

  lemma SetMongoTwice(mongo: Mongo, db: string, coll: string, a: map<Json, Fields>, b: map<Json, Fields>)
    ensures SetMongo(SetMongo(mongo, db, coll, a), db, coll, b) == SetMongo(mongo, db, coll, b)
  {
    var colls := MongoDb(mongo, db);
    assert MongoDb(SetMongo(mongo, db, coll, a), db) == colls[coll := a];
    assert colls[coll := a][coll := b] == colls[coll := b];
    assert mongo[db := colls[coll := a]][db := colls[coll := b]] == mongo[db := colls[coll := b]];
  }

  lemma MergedLocalMore(was: map<string, Fields>, done: Fields, name: string, doc: Json)
    requires name !in done
    ensures MergedLocal(was, done[name := doc])
      == if doc.Obj? then MergedLocal(was, done)[name := Bare(MergedBody(was, name, doc))] else MergedLocal(was, done)
    ensures name in MergedLocal(was, done) <==> name in was
    ensures name in was ==> MergedLocal(was, done)[name] == was[name]
  {
    hide Bare, MergedBody, LocalBodies;
    LocalBodiesMore(was, done, name, doc);
    PlusPut(was, LocalBodies(was, done), name, Bare(MergedBody(was, name, if doc.Obj? then doc else Obj(map[]))));
  }

  lemma PutPut<K, V>(m: map<K, V>, k: K, v: V, w: V)
    ensures m[k := v][k := w] == m[k := w]
  {
  }

  lemma PlusPut<K, V>(a: map<K, V>, b: map<K, V>, k: K, v: V)
    ensures a + b[k := v] == (a + b)[k := v]
  {
  }

  lemma LocalBodiesMore(was: map<string, Fields>, done: Fields, name: string, doc: Json)
    requires name !in done
    ensures LocalBodies(was, done[name := doc])
      == if doc.Obj? then LocalBodies(was, done)[name := Bare(MergedBody(was, name, doc))] else LocalBodies(was, done)
    ensures name !in LocalBodies(was, done)
  {
    hide Bare, MergedBody;
  }

  lemma MergedMongoMore(stored: map<Json, Fields>, was: map<string, Fields>, done: Fields, name: string, doc: Json, stamp: string -> Json)
    requires name !in done
    ensures MergedMongo(stored, was, done[name := doc], stamp)
      == if doc.Obj? then MergedMongo(stored, was, done, stamp)[Str(name) := Stamped(MergedBody(was, name, doc), name, stamp(name))]
         else MergedMongo(stored, was, done, stamp)
  {
    hide MongoBodies, MergedBody, Stamped;
    MongoBodiesMore(was, done, name, doc, stamp);
    var body := MergedBody(was, name, if doc.Obj? then doc else Obj(map[]));
    PlusPut(stored, MongoBodies(was, done, stamp), Str(name), Stamped(body, name, stamp(name)));
  }

  lemma MongoBodiesMore(was: map<string, Fields>, done: Fields, name: string, doc: Json, stamp: string -> Json)
    requires name !in done
    ensures MongoBodies(was, done[name := doc], stamp)
      == if doc.Obj? then MongoBodies(was, done, stamp)[Str(name) := Stamped(MergedBody(was, name, doc), name, stamp(name))]
         else MongoBodies(was, done, stamp)
  {
    hide Stamped, MergedBody, MongoBodies;
    var a, b := MongoBodies(was, done[name := doc], stamp), MongoBodies(was, done, stamp);
    forall id ensures id in a <==> id in b || (doc.Obj? && id == Str(name)) {
      MongoBodyAt(was, done[name := doc], stamp, id);
      MongoBodyAt(was, done, stamp, id);
    }
    forall id | id in b ensures id in a && a[id] == b[id] && id != Str(name) {
      MongoBodyAt(was, done[name := doc], stamp, id);
      MongoBodyAt(was, done, stamp, id);
    }
    MongoBodyAt(was, done[name := doc], stamp, Str(name));
  }

  lemma MongoBodyAt(was: map<string, Fields>, docs: Fields, stamp: string -> Json, id: Json)
    ensures id in MongoBodies(was, docs, stamp) <==> id.Str? && id.text in docs && docs[id.text].Obj?
    ensures id in MongoBodies(was, docs, stamp) ==>
      MongoBodies(was, docs, stamp)[id] == Stamped(MergedBody(was, id.text, docs[id.text]), id.text, stamp(id.text))
  {
    hide Stamped, MergedBody;
  }

  lemma SetTwice(local: Local, db: string, coll: string, a: map<string, Fields>, b: map<string, Fields>)
    ensures SetLocal(SetLocal(local, db, coll, a), db, coll, b) == SetLocal(local, db, coll, b)
  {
    var colls := LocalDb(local, db);
    assert LocalDb(SetLocal(local, db, coll, a), db) == colls[coll := a];
    assert colls[coll := a][coll := b] == colls[coll := b];
    assert local[db := colls[coll := a]][db := colls[coll := b]] == local[db := colls[coll := b]];
  }

  lemma PutTwice(local: Local, db: string, coll: string, name: string, a: Fields, b: Fields)
    ensures var was := LocalColl(local, db, coll);
      var put := SetLocal(local, db, coll, was[name := a]);
      SetLocal(put, db, coll, LocalColl(put, db, coll)[name := b]) == SetLocal(local, db, coll, was[name := b])
  {
    var was := LocalColl(local, db, coll);
    assert was[name := a][name := b] == was[name := b];
    SetTwice(local, db, coll, was[name := a], was[name := b]);
  }

  lemma StampTwice(body: Fields, name: string, now: Json)
    ensures Stamped(Stamped(body, name, now), name, now) == Stamped(body, name, now)
    ensures Bare(Stamped(body, name, now)) == Bare(body)
  {
    var once := Stamped(body, name, now);
    assert once["_id" := Str(name)] == once && once["_version" := now] == once;
  }

  lemma LocalKeysKept(local: Local, db: string, coll: string, docs: map<string, Fields>)
    requires db in local
    ensures SetLocal(local, db, coll, docs).Keys == local.Keys
  {
  }

  lemma ExtractedWhole(mongo: Mongo, db: string, colls: map<string, map<string, Fields>>)
    requires colls.Keys == MongoDb(mongo, db).Keys
    requires forall coll | coll in colls :: colls[coll] == ExtractedColl(MongoDb(mongo, db)[coll])
    ensures colls == ExtractedDb(mongo, db)
  {
    hide ExtractedColl, MongoDb;
  }

  lemma ExtractedNone()
    ensures ExtractedColl(map[]) == map[]
  {
  }

  lemma ExtractedMore(done: map<Json, Fields>, id: Json, body: Fields)
    requires id !in done
    ensures ExtractedColl(done[id := body])
      == if id.Str? then ExtractedColl(done)[id.text := body - {"_id"} - {"_version"}] else ExtractedColl(done)
  {
    var more := done[id := body];
    assert body - {"_id"} - {"_version"} == Bare(body);
    forall name: string ensures name in ExtractedColl(more) <==> Str(name) in more {
      ExtractCollFinds(more, name);
    }
    forall name: string ensures name in ExtractedColl(done) <==> Str(name) in done {
      ExtractCollFinds(done, name);
    }
  }

  lemma KeyedAt(mongo: Mongo, db: string, coll: string)
    requires Keyed(mongo)
    ensures KeyedColl(MongoColl(mongo, db, coll))
    ensures coll in MongoDb(mongo, db) ==> MongoDb(mongo, db)[coll] == MongoColl(mongo, db, coll)
  {
  }
}
