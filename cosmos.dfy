/** A document container as the repositories use it: documents keyed by
    their `id`, read, created, replaced and deleted one at a time, each call
    either succeeding or raising the SDK's exception. Queries are not
    evaluated here; the repositories only build their text and parameters.
    Also the field-by-field update the repositories share. */
module Cosmos {
  import opened Wrappers
  import opened Json

  const NotFoundError := "CosmosResourceNotFoundError"
  const ConflictError := "CosmosResourceExistsError"
  const BadRequestError := "CosmosHttpResponseError"

  /** The document's `id` when it is a string. */
  function IdOf(d: Document): (r: Option<string>)
    ensures r.Some? <==> "id" in d && d["id"].JStr?
    ensures r.Some? ==> d["id"] == JStr(r.value)
  {
    if "id" in d && d["id"].JStr? then Some(d["id"].s) else None
  }

  /** Every stored document carries the id it is stored under. */
  ghost predicate Keyed(items: map<string, Document>)
  {
    forall id :: id in items ==> IdOf(items[id]) == Some(id)
  }

  /** Writing a document's own id back into it changes nothing. */
  lemma KeepsOwnId(d: Document, id: string)
    requires IdOf(d) == Some(id)
    ensures d["id" := JStr(id)] == d
  {
  }

  class Container {
    var items: map<string, Document>

    ghost predicate Valid()
      reads this
    {
      Keyed(items)
    }

    constructor(initial: map<string, Document>)
      requires Keyed(initial)
      ensures Valid() && items == initial
    {
      items := initial;
    }

    /** `read_item`: the document with that id, or not-found. */
    method ReadItem(id: string) returns (r: Result<Document>)
      requires Valid()
      ensures id in items ==> r == Ok(items[id])
      ensures id !in items ==> r == Err(NotFoundError)
      ensures r.Ok? ==> IdOf(r.value) == Some(id)
    {
      if id in items {
        r := Ok(items[id]);
      } else {
        r := Err(NotFoundError);
      }
    }

    /** `create_item`: a body without a string id is refused, an id already
      in use is a conflict, otherwise the body is stored and returned. */
    method CreateItem(body: Document) returns (r: Result<Document>)
      requires Valid()
      modifies this
      ensures Valid()
      ensures IdOf(body).None? ==> r == Err(BadRequestError) && items == old(items)
      ensures IdOf(body).Some? && IdOf(body).value in old(items) ==>
        r == Err(ConflictError) && items == old(items)
      ensures IdOf(body).Some? && IdOf(body).value !in old(items) ==>
        r == Ok(body) && items == old(items)[IdOf(body).value := body]
    {
      var id := IdOf(body);
      if id.None? {
        return Err(BadRequestError);
      }
      if id.value in items {
        return Err(ConflictError);
      }
      items := items[id.value := body];
      r := Ok(body);
    }

    /** `replace_item`: the document must exist and the body must keep its
      id; then the body takes its place. */
    method ReplaceItem(id: string, body: Document) returns (r: Result<Document>)
      requires Valid()
      modifies this
      ensures Valid()
      ensures id !in old(items) ==> r == Err(NotFoundError) && items == old(items)
      ensures id in old(items) && IdOf(body) != Some(id) ==>
        r == Err(BadRequestError) && items == old(items)
      ensures id in old(items) && IdOf(body) == Some(id) ==>
        r == Ok(body) && items == old(items)[id := body]
    {
      if id !in items {
        return Err(NotFoundError);
      }
      if IdOf(body) != Some(id) {
        return Err(BadRequestError);
      }
      items := items[id := body];
      r := Ok(body);
    }

    /** `delete_item`: removes the document (the SDK returns None), or
      not-found. */
    method DeleteItem(id: string) returns (r: Result<Json>)
      requires Valid()
      modifies this
      ensures Valid()
      ensures id !in old(items) ==> r == Err(NotFoundError) && items == old(items)
      ensures id in old(items) ==> r == Ok(JNull) && items == old(items) - {id}
    {
      if id !in items {
        return Err(NotFoundError);
      }
      items := items - {id};
      r := Ok(JNull);
    }
  }

  // ---------------------------------------------------------------------
  // Field-by-field updates

  /** Whether the update loop writes `data[k]` over the document: the value
      is not None and the key is not one the repository protects. */
  predicate Writes(data: Document, protected: set<string>, k: string)
  {
    k in data && data[k] != JNull && k !in protected
  }

  /** The document after `for key, value in data.items(): if value is not
      None [and key not protected]: existing[key] = value`. */
  function Overlay(existing: Document, data: Document, protected: set<string>): (r: Document)
    ensures r.Keys == existing.Keys + set k | k in data && Writes(data, protected, k)
    ensures forall k :: k in r && Writes(data, protected, k) ==> r[k] == data[k]
    ensures forall k :: k in existing && !Writes(data, protected, k) ==> r[k] == existing[k]
  {
    map k | k in existing.Keys + data.Keys && (k in existing || Writes(data, protected, k)) ::
      if Writes(data, protected, k) then data[k] else existing[k]
  }

  /** Applying the same update twice is applying it once. */
  lemma OverlayIdempotent(existing: Document, data: Document, protected: set<string>)
    ensures Overlay(Overlay(existing, data, protected), data, protected) == Overlay(existing, data, protected)
  {
  }

  /** An update whose values are all None or protected changes nothing. */
  lemma OverlayNothingToWrite(existing: Document, data: Document, protected: set<string>)
    requires forall k :: k in data ==> !Writes(data, protected, k)
    ensures Overlay(existing, data, protected) == existing
  {
  }

  /** The update loop itself, one request key at a time. */
  method OverlayLoop(existing: Document, data: Document, protected: set<string>) returns (r: Document)
    ensures r == Overlay(existing, data, protected)
  {
    r := existing;
    var pending := data.Keys;
    while pending != {}
      invariant pending <= data.Keys
      invariant forall k :: k in r <==> k in existing || (k in data && k !in pending && Writes(data, protected, k))
      invariant forall k :: k in r ==>
        r[k] == if k !in pending && Writes(data, protected, k) then data[k] else existing[k]
      decreases pending
    {
      var key :| key in pending;
      if data[key] != JNull && key !in protected {
        r := r[key := data[key]];
      }
      pending := pending - {key};
    }
  }

  /** The document after an update: the overlay, then `updatedAt` set to
      the clock reading. */
  function Updated(existing: Document, data: Document, protected: set<string>, now: string): (r: Document)
    ensures r.Keys == existing.Keys + (set k | k in data && Writes(data, protected, k)) + {"updatedAt"}
    ensures r["updatedAt"] == JStr(now)
    ensures forall k :: k != "updatedAt" && Writes(data, protected, k) ==> r[k] == data[k]
    ensures forall k :: k in existing && k != "updatedAt" && !Writes(data, protected, k) ==> r[k] == existing[k]
  {
    Overlay(existing, data, protected)["updatedAt" := JStr(now)]
  }

  /** The updated document keeps the id it is stored under exactly when the
      update does not write an id, or writes that same id. */
  lemma UpdatedId(existing: Document, data: Document, protected: set<string>, now: string, id: string)
    requires IdOf(existing) == Some(id)
    ensures IdOf(Updated(existing, data, protected, now)) == Some(id) <==>
      !Writes(data, protected, "id") || data["id"] == JStr(id)
  {
  }

  /** The read-update-replace the repositories share: None for a missing
      document or a failed replace (the update changed the id); otherwise
      the updated document is stored and returned. */
  method UpdateDocument(c: Container, id: string, data: Document, protected: set<string>, now: string)
    returns (r: Option<Document>)
    requires c.Valid()
    modifies c
    ensures c.Valid()
    ensures id !in old(c.items) ==> r == None && c.items == old(c.items)
    ensures id in old(c.items) ==>
      var u := Updated(old(c.items)[id], data, protected, now);
      if IdOf(u) == Some(id) then
        r == Some(u) && c.items == old(c.items)[id := u]
      else
        r == None && c.items == old(c.items)
  {
    var existing := c.ReadItem(id);
    if existing.Err? {
      return None;
    }
    var updated := OverlayLoop(existing.value, data, protected);
    updated := updated["updatedAt" := JStr(now)];
    var replaced := c.ReplaceItem(id, updated);
    r := if replaced.Ok? then Some(replaced.value) else None;
  }

  // ---------------------------------------------------------------------
  // New documents

  /** `if k not in d: d[k] = v`. */
  function WithDefault(d: Document, k: string, v: Json): (r: Document)
    ensures r.Keys == d.Keys + {k}
    ensures r[k] == Get(d, k, v)
    ensures forall j :: j in d && j != k ==> r[j] == d[j]
  {
    if k in d then d else d[k := v]
  }

  /** A new document: a generated id only when none is given, and one clock
      reading for both `createdAt` and `updatedAt`. */
  function Stamped(data: Document, uuid: string, now: string): (r: Document)
    ensures r.Keys == data.Keys + {"id", "createdAt", "updatedAt"}
    ensures r["id"] == Get(data, "id", JStr(uuid))
    ensures r["createdAt"] == JStr(now) && r["updatedAt"] == r["createdAt"]
    ensures forall k :: k in data && k !in {"id", "createdAt", "updatedAt"} ==> r[k] == data[k]
  {
    WithDefault(data, "id", JStr(uuid))["createdAt" := JStr(now)]["updatedAt" := JStr(now)]
  }

  /** Stamping again keeps the id and replaces only the two time stamps. */
  lemma StampedTwice(data: Document, uuid: string, uuid': string, now: string, now': string)
    ensures Stamped(Stamped(data, uuid, now), uuid', now') ==
      Stamped(data, uuid, now)["createdAt" := JStr(now')]["updatedAt" := JStr(now')]
  {
  }
}
