/**
 The document store as maps from document id to document. A document is a
 dictionary of top-level fields. `Set` replaces a whole document; `Update`
 merges top-level fields into an existing document and raises when there is
 none (the store's `update` on a missing document reports "not found").
 */
module Store {
  import opened Values

  type Collection = map<string, Doc>

  /** The collections the application uses; `videos` is the per-user sub-collection. */
  datatype Db = Db(
    users: Collection,
    videos: map<string, Collection>,
    transcripts: Collection,
    videoJobs: Collection,
    scrapingJobs: Collection)

  /** The store after running some code, and how that code ended (it may raise after writing). */
  datatype Effect<+T> = Effect(db: Db, result: Res<T>)

  /** `collection.document(id).get()`: absent documents read as `None`. */
  function Read(c: Collection, id: string): (r: Option<Doc>)
    ensures r.Some? <==> id in c
    ensures r.Some? ==> r.value == c[id]
  {
    if id in c then Some(c[id]) else None
  }

  /** `collection.document(id).set(doc)`: the stored document is exactly `doc`. */
  function Set(c: Collection, id: string, doc: Doc): (r: Collection)
    ensures r.Keys == c.Keys + {id}
    ensures r[id] == doc
    ensures forall other :: other in c && other != id ==> r[other] == c[other]
  {
    c[id := doc]
  }

  /** Merge `fields` over `doc`: new values win, untouched fields keep their value. */
  function Merge(doc: Doc, fields: Doc): (r: Doc)
    ensures r.Keys == doc.Keys + fields.Keys
    ensures forall k :: k in fields ==> r[k] == fields[k]
    ensures forall k :: k in doc && k !in fields ==> r[k] == doc[k]
  {
    doc + fields
  }

  /** `collection.document(id).update(fields)`. */
  function Update(c: Collection, id: string, fields: Doc): (r: Res<Collection>)
    ensures r.Ok? <==> id in c
    ensures r.Ok? ==> r.value.Keys == c.Keys
    ensures r.Ok? ==> r.value[id] == Merge(c[id], fields)
    ensures r.Ok? ==> forall other :: other in c && other != id ==> r.value[other] == c[other]
  {
    if id in c then Ok(c[id := Merge(c[id], fields)]) else Raise("NotFound: no document to update")
  }

  /** `update({key: value})`: an update of one top-level field replaces that field only. */
  function UpdateField(c: Collection, id: string, key: string, value: Json): (r: Res<Collection>)
    ensures r.Ok? <==> id in c
    ensures r.Ok? ==> r.value == c[id := c[id][key := value]]
  {
    var r := Update(c, id, map[key := value]);
    if r.Ok? then
      assert Merge(c[id], map[key := value]) == c[id][key := value];
      r
    else r
  }

  /** The per-user `videos` sub-collection, empty when the user has none yet. */
  function UserVideos(db: Db, userId: string): Collection {
    if userId in db.videos then db.videos[userId] else map[]
  }

  /** Two updates with the same fields have the effect of one: merging is idempotent. */
  lemma UpdateIdempotent(c: Collection, id: string, fields: Doc)
    requires id in c
    ensures Update(Update(c, id, fields).value, id, fields) == Update(c, id, fields)
  {
    var once := Update(c, id, fields).value;
    assert Merge(once[id], fields) == Merge(c[id], fields);
    assert once[id := Merge(once[id], fields)] == once;
  }

  /** Set forgets the previous document: two sets keep only the second one. */
  lemma SetOverwrites(c: Collection, id: string, first: Doc, second: Doc)
    ensures Set(Set(c, id, first), id, second) == Set(c, id, second)
  {
  }
}
