/** What each request leaves at every address, locally and after a restart from Mongo. */
module DbiRequests {
  import opened Text
  import opened DbiJson
  import opened DbiLens
  import opened DbiEdits
  import opened DbiStore

  predicate Kept(db: string) {
    db == "dbi" || db == "audit"
  }

  /** One body laid over another, without metadata. */
  ghost predicate Overlaid(found: Fields, body: Fields, under: Fields) {
    forall k: string ::
      (k in found <==> k !in META && (k in body || k in under))
      && (k in found ==> found[k] == if k in body then body[k] else under[k])
  }

  /** Every address but those of one collection finds what it found. */
  ghost predicate OtherCollectionsKept(s: Store, t: Store, db: string, coll: string) {
    forall d, c, n | d != db || c != coll :: Find(t.local, d, c, n) == Find(s.local, d, c, n)
  }

  /** Every address but one finds what it found. */
  ghost predicate OtherDocumentsKept(s: Store, t: Store, db: string, coll: string, name: string) {
    forall d, c, n | d != db || c != coll || n != name :: Find(t.local, d, c, n) == Find(s.local, d, c, n)
  }

  /** What Mongo holds for a document that has just been written. */
  predicate StampedInMongo(mongo: Mongo, db: string, coll: string, name: string, now: Json) {
    var docs := MongoColl(mongo, db, coll);
    Str(name) in docs
    && "_id" in docs[Str(name)] && docs[Str(name)]["_id"] == Str(name)
    && "_version" in docs[Str(name)] && docs[Str(name)]["_version"] == now
  }

  lemma ElsewhereFinds(s: Store, t: Store, db: string, coll: string)
    requires LocalElsewhere(s.local, t.local, db, coll)
    ensures OtherCollectionsKept(s, t, db, coll)
  {
    hide LocalColl;
  }

  lemma SyncFinds(s: Store, db: string, coll: string, name: string, body: Fields, now: Json)
    requires db in s.local
    ensures var t := Sync(s, db, coll, name, body, now);
      Find(t.local, db, coll, name) == Some(Bare(body))
      && OtherDocumentsKept(s, t, db, coll, name)
      && StampedInMongo(t.mongo, db, coll, name, now)
  {
    hide SetLocal, SetMongo, LocalElsewhere, MongoElsewhere, LocalColl, MongoColl, DropLocal, DropMongo, Bare;
    var t := Sync(s, db, coll, name, body, now);
    LocalChanges(s.local, db, coll, LocalColl(s.local, db, coll)[name := Bare(body)]);
    MongoChanges(s.mongo, db, coll, MongoColl(s.mongo, db, coll)[Str(name) := Stamped(body, name, now)]);
    ElsewhereFinds(s, t, db, coll);
  }

  // ---- Documents -----------------------------------------------------------------------------

  /** An edited document holds the body sent, over what it held when it is a POST, and no
      other document changes. A body that is no map changes none. */
  lemma DocumentAfterEdit(s: Store, db: string, coll: string, name: string, body: Json, isSet: bool, stamp: string -> Json)
    requires Mirror(s) && Kept(db)
    ensures var t := Serve(s, EditDocument(db, coll, name, body, isSet), stamp);
      OtherDocumentsKept(s, t, db, coll, name)
      && (!body.Obj? ==> Find(t.local, db, coll, name) == Find(s.local, db, coll, name) && t.mongo == s.mongo)
      && (body.Obj? ==>
            Find(t.local, db, coll, name).Some?
            && Overlaid(Find(t.local, db, coll, name).value, body.fields, if isSet then map[] else Doc(s.local, db, coll, name))
            && StampedInMongo(t.mongo, db, coll, name, stamp(name)))
  {
    hide SetLocal, LocalElsewhere, LocalColl, DropLocal, StampedInMongo, Sync, MirrorsDb;
    var t := Serve(s, EditDocument(db, coll, name, body, isSet), stamp);
    if body.Obj? {
      SyncFinds(s, db, coll, name, (if isSet then map[] else Doc(s.local, db, coll, name)) + body.fields, stamp(name));
    } else {
      LocalChanges(s.local, db, coll, LocalColl(s.local, db, coll));
      ElsewhereFinds(s, t, db, coll);
    }
  }

  /** A deleted document is no longer found, and every other one is. */
  lemma DocumentAfterDelete(s: Store, db: string, coll: string, name: string, stamp: string -> Json)
    requires Mirror(s) && Kept(db)
    ensures var t := Serve(s, DeleteDocument(db, coll, name), stamp);
      Find(t.local, db, coll, name) == None && OtherDocumentsKept(s, t, db, coll, name)
  {
    hide SetLocal, LocalElsewhere, LocalColl, DropLocal, WithoutDocument, MirrorsDb;
    var t := Serve(s, DeleteDocument(db, coll, name), stamp);
    if Find(s.local, db, coll, name).Some? {
      LocalChanges(s.local, db, coll, LocalColl(s.local, db, coll) - {name});
      ElsewhereFinds(s, t, db, coll);
    }
  }

  // ---- Collections ---------------------------------------------------------------------------

  lemma MergeFinds(s: Store, db: string, coll: string, docs: Fields, stamp: string -> Json, n: string)
    requires db in s.local
    ensures var t := MergedDocuments(s, db, coll, docs, stamp);
      OtherCollectionsKept(s, t, db, coll)
      && (if n in docs && docs[n].Obj?
          then Find(t.local, db, coll, n) == Some(Bare(MergedBody(LocalColl(s.local, db, coll), n, docs[n])))
               && StampedInMongo(t.mongo, db, coll, n, stamp(n))
          else Find(t.local, db, coll, n) == Find(s.local, db, coll, n))
  {
    hide SetLocal, SetMongo, LocalElsewhere, MongoElsewhere, LocalColl, MongoColl, DropLocal, DropMongo, Bare, MergedBody, MergedLocal, StampedInMongo, MergedMongo;
    if docs != map[] {
      var t := MergedDocuments(s, db, coll, docs, stamp);
      var was, stored := LocalColl(s.local, db, coll), MongoColl(s.mongo, db, coll);
      LocalChanges(s.local, db, coll, MergedLocal(was, docs));
      MongoChanges(s.mongo, db, coll, MergedMongo(stored, was, docs, stamp));
      ElsewhereFinds(s, t, db, coll);
      MergeLookups(was, stored, docs, stamp, n);
      if n in docs && docs[n].Obj? {
        MergeStamps(was, stored, docs, stamp, n);
        StampedThere(t.mongo, db, coll, n, stamp(n));
      }
    }
  }

  lemma StampedThere(mongo: Mongo, db: string, coll: string, n: string, now: Json)
    requires Str(n) in MongoColl(mongo, db, coll)
    requires var doc := MongoColl(mongo, db, coll)[Str(n)];
      "_id" in doc && doc["_id"] == Str(n) && "_version" in doc && doc["_version"] == now
    ensures StampedInMongo(mongo, db, coll, n, now)
  {
  }

  lemma MergeStamps(was: map<string, Fields>, stored: map<Json, Fields>, docs: Fields, stamp: string -> Json, n: string)
    requires n in docs && docs[n].Obj?
    ensures var all := MergedMongo(stored, was, docs, stamp);
      Str(n) in all
      && "_id" in all[Str(n)] && all[Str(n)]["_id"] == Str(n)
      && "_version" in all[Str(n)] && all[Str(n)]["_version"] == stamp(n)
  {
    hide MergedBody;
    var bodies := MongoBodies(was, docs, stamp);
    assert Str(n) in bodies && bodies[Str(n)] == Stamped(MergedBody(was, n, docs[n]), n, stamp(n));
  }

  lemma ClearFinds(s: Store, db: string, coll: string, n: string)
    requires db in s.local
    ensures var t := Cleared(s, db, coll);
      OtherCollectionsKept(s, t, db, coll) && db in t.local && Find(t.local, db, coll, n) == None
  {
    hide SetLocal, LocalElsewhere, LocalColl, DropLocal, DropMongo;
    LocalChanges(s.local, db, coll, map[]);
    ElsewhereFinds(s, Cleared(s, db, coll), db, coll);
  }

  lemma KeptTwice(s: Store, t: Store, u: Store, db: string, coll: string)
    requires OtherCollectionsKept(s, t, db, coll) && OtherCollectionsKept(t, u, db, coll)
    ensures OtherCollectionsKept(s, u, db, coll)
  {
    hide Find;
    forall d, c, n | d != db || c != coll ensures Find(u.local, d, c, n) == Find(s.local, d, c, n) {
      assert Find(u.local, d, c, n) == Find(t.local, d, c, n);
    }
  }

  /** After a SET of a collection exactly the map-valued members of the body are found in
      it, after a POST also what was there; each member found reads the body sent, over
      what the document held when it is a POST. Other collections are kept. */
  lemma CollectionAfterEdit(s: Store, db: string, coll: string, docs: Json, isSet: bool, stamp: string -> Json, n: string)
    requires Mirror(s) && Kept(db)
    ensures var t := Serve(s, EditCollection(db, coll, docs, isSet), stamp);
      OtherCollectionsKept(s, t, db, coll)
      && if docs.Obj? && n in docs.fields && docs.fields[n].Obj?
         then Find(t.local, db, coll, n).Some?
              && Overlaid(Find(t.local, db, coll, n).value, docs.fields[n].fields, if isSet then map[] else Doc(s.local, db, coll, n))
              && StampedInMongo(t.mongo, db, coll, n, stamp(n))
         else Find(t.local, db, coll, n) == if isSet then None else Find(s.local, db, coll, n)
  {
    hide Cleared, MergedDocuments, OtherCollectionsKept, LocalColl, StampedInMongo, MirrorsDb;
    var base := if isSet then Cleared(s, db, coll) else s;
    var t := Serve(s, EditCollection(db, coll, docs, isSet), stamp);
    ClearFinds(s, db, coll, n);
    NoChange(s, db, coll);
    if docs.Obj? {
      MergeFinds(base, db, coll, docs.fields, stamp, n);
      KeptTwice(s, base, t, db, coll);
    }
  }

  lemma NoChange(s: Store, db: string, coll: string)
    ensures OtherCollectionsKept(s, s, db, coll)
  {
    hide Find;
  }

  /** No document of a deleted collection is found, and every other one is. */
  lemma CollectionAfterDelete(s: Store, db: string, coll: string, n: string, stamp: string -> Json)
    requires Mirror(s) && Kept(db)
    ensures var t := Serve(s, DeleteCollection(db, coll), stamp);
      OtherCollectionsKept(s, t, db, coll) && Find(t.local, db, coll, n) == None
  {
    hide LocalElsewhere, SetLocal, DropLocal, DropMongo, MirrorsDb;
    var t := Serve(s, DeleteCollection(db, coll), stamp);
    if coll in LocalDb(s.local, db) {
      LocalChanges(s.local, db, coll, map[]);
      ElsewhereFinds(s, t, db, coll);
    }
  }

  // ---- Fields --------------------------------------------------------------------------------

  /** The two ways to read a field: from the local copy, and after a restart from Mongo. */
  predicate ReadsBothWays(t: Store, db: string, coll: string, name: string, field: string, r: Result<Json>) {
    GetField(t.local, db, coll, name, field) == r && GetField(Extracted(t.mongo), db, coll, name, field) == r
  }

  /** The document of a successful field edit is the edited body in both copies. */
  lemma FieldEditReads(s: Store, db: string, coll: string, name: string, field: string, data: Json, isSet: bool, stamp: string -> Json, q: string)
    requires Mirror(s) && Kept(db)
    requires field != "" && field !in META && Head(q) !in META
    requires Edit(Obj(Doc(s.local, db, coll, name)), field, data, isSet).Done?
    ensures var t := Serve(s, EditField(db, coll, name, field, data, isSet), stamp);
      ReadsBothWays(t, db, coll, name, q, Get(Edit(Obj(Doc(s.local, db, coll, name)), field, data, isSet).layer, q))
      && OtherDocumentsKept(s, t, db, coll, name)
      && StampedInMongo(t.mongo, db, coll, name, stamp(name))
  {
    hide Edit, Get, Bare, Extracted, Head, Mirror, Stored, Sync, EditedBody, Find;
    MirrorHolds(s, db);
    var doc := Doc(s.local, db, coll, name);
    EditedBodyIsEdit(doc, field, data, isSet);
    var body := EditedBody(doc, field, data, isSet);
    BareReads(body, q);
    SyncReads(s, db, coll, name, body, stamp(name), q);
  }

  lemma MirrorHolds(s: Store, db: string)
    requires Mirror(s) && Kept(db)
    ensures db in s.local
  {
    hide MirrorsDb;
  }

  lemma SyncReads(s: Store, db: string, coll: string, name: string, body: Fields, now: Json, q: string)
    requires Mirror(s) && Kept(db)
    ensures var t := Sync(s, db, coll, name, body, now);
      ReadsBothWays(t, db, coll, name, q, Get(Obj(Bare(body)), q))
      && OtherDocumentsKept(s, t, db, coll, name)
      && StampedInMongo(t.mongo, db, coll, name, now)
  {
    hide Get, Bare, Extracted, Mirror, Stored, Sync, Find, StampedInMongo, OtherDocumentsKept;
    MirrorHolds(s, db);
    SyncFinds(s, db, coll, name, body, now);
    SyncMirrors(s, db, coll, name, body, now);
    var t := Sync(s, db, coll, name, body, now);
    MirrorSettles(t);
    assert Find(Extracted(t.mongo), db, coll, name) == Find(t.local, db, coll, name);
  }

  lemma SegmentedBelow(p: string, q: string)
    requires Segmented(p) && Head(p) !in META
    ensures p != "" && p !in META && Head(p + "/" + q) !in META
  {
    hide Head, HasTail, Tail, Segmented;
    HeadIsWhole(p);
    PathBelow(p, q);
  }

  /** A map posted at a path where a map or nothing stood. Below the path GET reads the
      payload at its keys and what was read before at every other, in the running process
      and after a restart. */
  lemma PostedMapIsServed(s: Store, db: string, coll: string, name: string, p: string, k: string, data: Json, stamp: string -> Json)
    requires Mirror(s) && Kept(db)
    requires Segmented(p) && Head(p) !in META && '/' !in k
    requires var doc := Obj(Doc(s.local, db, coll, name));
      !Crosses(doc, p) && Edit(doc, p, data, false).Done?
      && (Before(doc, p).Obj? || Resolve(doc, p).None?)
    requires data.Obj? && !SoleValue(data)
    ensures var t := Serve(s, EditField(db, coll, name, p, data, false), stamp);
      ReadsBothWays(t, db, coll, name, p + "/" + k,
        if k in data.fields then Ok(data.fields[k])
        else GetField(s.local, db, coll, name, p + "/" + k))
  {
    hide Segmented, Crosses, Edit, Payload, Resolve, Head, Get, Mirror, Find, Serve, ReadsBothWays, SoleValue, StampedInMongo, OtherDocumentsKept;
    var doc := Obj(Doc(s.local, db, coll, name));
    SegmentedBelow(p, k);
    FieldEditReads(s, db, coll, name, p, data, false, stamp, p + "/" + k);
    PlainPayload(p, data);
    PostedMapIsRead(doc, p, k, data);
    KeyOfMap(data.fields, k);
    DocReads(s, db, coll, name, p + "/" + k);
  }

  lemma DocReads(s: Store, db: string, coll: string, name: string, field: string)
    ensures GetField(s.local, db, coll, name, field) == Get(Obj(Doc(s.local, db, coll, name)), field)
  {
  }

  /** A SET, and a POST of kinds that do not combine, are read as what was sent. */
  lemma SetIsServed(s: Store, db: string, coll: string, name: string, p: string, data: Json, isSet: bool, stamp: string -> Json)
    requires Mirror(s) && Kept(db)
    requires Segmented(p) && Head(p) !in META && !SoleValue(data)
    requires var doc := Obj(Doc(s.local, db, coll, name));
      !Crosses(doc, p) && Edit(doc, p, data, isSet).Done?
      && (isSet || ((data.Obj? ==> !Before(doc, p).Obj?) && (data.Arr? ==> !Before(doc, p).Arr?)))
    ensures var t := Serve(s, EditField(db, coll, name, p, data, isSet), stamp);
      ReadsBothWays(t, db, coll, name, p, Ok(data))
  {
    hide Segmented, Crosses, Edit, Payload, Resolve, Head, Get, Mirror, Find, Serve, Before, ReadsBothWays, SoleValue, StampedInMongo, OtherDocumentsKept;
    var doc := Obj(Doc(s.local, db, coll, name));
    HeadIsWhole(p);
    FieldEditReads(s, db, coll, name, p, data, isSet, stamp, p);
    PlainPayload(p, data);
    if isSet {
      SetIsRead(doc, p, "", data);
    } else {
      PostedOtherwiseReplaces(doc, p, "", data);
    }
  }

  /** An array posted onto an array: the old elements, then those sent. */
  lemma PostedArrayIsServed(s: Store, db: string, coll: string, name: string, p: string, data: Json, stamp: string -> Json)
    requires Mirror(s) && Kept(db)
    requires Segmented(p) && Head(p) !in META
    requires var doc := Obj(Doc(s.local, db, coll, name));
      !Crosses(doc, p) && Edit(doc, p, data, false).Done? && Before(doc, p).Arr? && data.Arr?
    ensures var t := Serve(s, EditField(db, coll, name, p, data, false), stamp);
      var stood := Before(Obj(Doc(s.local, db, coll, name)), p).items;
      var r := GetField(t.local, db, coll, name, p);
      ReadsBothWays(t, db, coll, name, p, r)
      && r.Ok? && r.value.Arr? && |r.value.items| == |stood| + |data.items|
      && (forall i | 0 <= i < |stood| :: r.value.items[i] == stood[i])
      && (forall i | 0 <= i < |data.items| :: r.value.items[|stood| + i] == data.items[i])
  {
    hide Segmented, Crosses, Edit, Payload, Resolve, Head, Get, Mirror, Find, Serve, Before, GetField, StampedInMongo, OtherDocumentsKept;
    HeadIsWhole(p);
    FieldEditReads(s, db, coll, name, p, data, false, stamp, p);
    PlainPayload(p, data);
    PostedArrayIsAppended(Obj(Doc(s.local, db, coll, name)), p, data);
  }

  /** A deleted map key is no longer read, nor is anything below it. */
  lemma DeletedKeyIsServed(s: Store, db: string, coll: string, name: string, p: string, below: string, stamp: string -> Json)
    requires Mirror(s) && Kept(db)
    requires var doc := Obj(Doc(s.local, db, coll, name));
      Resolve(doc, p).Some? && Container(doc, p).Some? && Container(doc, p).value.Obj?
    requires Find(s.local, db, coll, name).Some? && Leads(p, below) && Head(p) !in META
    ensures ReadsBothWays(Serve(s, DeleteField(db, coll, name, p), stamp), db, coll, name, below, Err)
  {
    hide Resolve, Head, Get, Bare, Mirror, Delete, Container, Leads, Sync, ReadsBothWays, StampedInMongo, OtherDocumentsKept;
    var doc := Obj(Doc(s.local, db, coll, name));
    DeleteIsExact(doc, p);
    DeletedKeyIsUnreadable(doc, p, below);
    LeadsFromHead(p, below);
    DeleteKeepsMap(doc.fields, p);
    var after := Delete(doc, p).layer.fields;
    BareReads(after, below);
    SyncReads(s, db, coll, name, after, stamp(name), below);
  }

  lemma DeleteKeepsMap(m: Fields, p: string)
    ensures Delete(Obj(m), p).Done? ==> Delete(Obj(m), p).layer.Obj?
  {
    hide Head;
  }

  /** An edit of a protected field or through an array it cannot index changes neither copy,
      and neither does a delete of what is not there. */
  lemma RefusedRequestsChangeNothing(s: Store, db: string, coll: string, name: string, field: string, data: Json, isSet: bool, stamp: string -> Json)
    ensures field == "_id" || field == "_version" || Misindexed(Obj(Doc(s.local, db, coll, name)), field) ==>
      Serve(s, EditField(db, coll, name, field, data, isSet), stamp) == s
    ensures Find(s.local, db, coll, name).None? || Resolve(Obj(Doc(s.local, db, coll, name)), field).None? ==>
      Serve(s, DeleteField(db, coll, name, field), stamp) == s
  {
    hide Edit, Delete, Sync, Find, Misindexed, Overlong, Resolve;
    EditSucceedsExactly(Obj(Doc(s.local, db, coll, name)), field, data, isSet);
    DeleteIsExact(Obj(Doc(s.local, db, coll, name)), field);
  }

  // ---- The empty path ------------------------------------------------------------------------

  /** A POST of a map to the empty path lays it over the document; any other edit there
      leaves the document's fields as they were. */
  lemma EmptyPathEdits(s: Store, db: string, coll: string, name: string, data: Json, isSet: bool, stamp: string -> Json)
    requires Mirror(s) && Kept(db) && !SoleValue(data)
    ensures var t := Serve(s, EditField(db, coll, name, "", data, isSet), stamp);
      OtherDocumentsKept(s, t, db, coll, name)
      && Find(t.local, db, coll, name).Some?
      && Overlaid(Find(t.local, db, coll, name).value,
                  if !isSet && data.Obj? then data.fields else map[],
                  Doc(s.local, db, coll, name))
  {
    hide Mirror, Find, Sync, StampedInMongo, OtherDocumentsKept, Edit, EditedBody, Overlaid, Bare, SoleValue;
    MirrorHolds(s, db);
    var doc := Doc(s.local, db, coll, name);
    EmptyPathBody(doc, data, isSet);
    SyncFinds(s, db, coll, name, EditedBody(doc, "", data, isSet), stamp(name));
  }

  lemma EmptyPathBody(doc: Fields, data: Json, isSet: bool)
    requires !SoleValue(data)
    ensures Edit(Obj(doc), "", data, isSet).Done?
    ensures Overlaid(Bare(EditedBody(doc, "", data, isSet)), if !isSet && data.Obj? then data.fields else map[], doc)
  {
    hide Atoi, Unwrap, Combine, Head;
    UnwrapOfWrapped(0, data);
  }
}
