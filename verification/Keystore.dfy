/**
 The in-memory key store: two indexes over the same records.

 `keys` is indexed by UUID and `byHash` by the hash of the internal key.  The specification
 is the history of additions and deletions: a record is live when it was added and its UUID
 has not been deleted since.  SHA-256 is a function given to the store; that it does not
 collide on the keys in play, and that generated identities are fresh, are preconditions.
 */
module Keystore {
  import opened Wrappers

  datatype KeyRecord = KeyRecord(
    uuid: string, alias: string, route: string, realKey: string, internalKey: string, keyHash: string)

  datatype Event = Added(rec: KeyRecord) | Deleted(uuid: string)

  datatype Index = Index(keys: map<string, KeyRecord>, byHash: map<string, KeyRecord>)

  const EMPTY := Index(map[], map[])

  function Insert(ix: Index, r: KeyRecord): Index {
    Index(ix.keys[r.uuid := r], ix.byHash[r.keyHash := r])
  }

  function Remove(ix: Index, uuid: string): Index {
    if uuid !in ix.keys then ix
    else Index(ix.keys - {uuid}, ix.byHash - {ix.keys[uuid].keyHash})
  }

  function Find(ix: Index, hash: string): Option<KeyRecord> {
    if hash in ix.byHash then Some(ix.byHash[hash]) else None
  }

  predicate Registered(ix: Index, route: string, realKey: string) {
    exists u :: u in ix.keys && ix.keys[u].route == route && ix.keys[u].realKey == realKey
  }

  // ---- the history specification ----

  ghost predicate LiveFrom(h: seq<Event>, r: KeyRecord, i: nat) {
    i < |h| && h[i] == Added(r) && forall j :: i < j < |h| ==> h[j] != Deleted(r.uuid)
  }

  /** Added, and not deleted since. */
  ghost predicate Live(h: seq<Event>, r: KeyRecord) {
    exists i :: LiveFrom(h, r, i)
  }

  ghost predicate Issued(h: seq<Event>, r: KeyRecord) {
    Added(r) in h
  }

  /** The two indexes hold the same records, each under its own key. */
  ghost predicate Indexed(ix: Index) {
    && (forall u :: u in ix.keys ==>
          ix.keys[u].uuid == u && ix.keys[u].keyHash in ix.byHash && ix.byHash[ix.keys[u].keyHash] == ix.keys[u])
    && (forall x :: x in ix.byHash ==>
          ix.byHash[x].keyHash == x && ix.byHash[x].uuid in ix.keys && ix.keys[ix.byHash[x].uuid] == ix.byHash[x])
  }

  /** The indexes hold exactly the live records. */
  ghost predicate Represents(ix: Index, h: seq<Event>) {
    && Indexed(ix)
    && (forall r :: Live(h, r) <==> r.uuid in ix.keys && ix.keys[r.uuid] == r)
  }

  /** No two records share route and upstream key. */
  ghost predicate NoDuplicates(ix: Index) {
    forall u, v :: u in ix.keys && v in ix.keys
      && ix.keys[u].route == ix.keys[v].route && ix.keys[u].realKey == ix.keys[v].realKey
      ==> u == v
  }

  ghost predicate HashesOf(h: seq<Event>, hash: string -> string) {
    forall r :: Issued(h, r) ==> r.keyHash == hash(r.internalKey)
  }

  ghost predicate FreshRecord(h: seq<Event>, r: KeyRecord) {
    forall q :: Issued(h, q) ==> q.uuid != r.uuid && q.keyHash != r.keyHash
  }

  lemma LiveIsIssued(h: seq<Event>, r: KeyRecord)
    requires Live(h, r)
    ensures Issued(h, r)
  {
    var i: nat :| LiveFrom(h, r, i);
  }

  lemma LiveAdded(h: seq<Event>, r: KeyRecord, q: KeyRecord)
    ensures Live(h + [Added(r)], q) <==> Live(h, q) || q == r
  {
    var h' := h + [Added(r)];
    if Live(h', q) {
      var i: nat :| LiveFrom(h', q, i);
      if i < |h| {
        assert forall j :: i < j < |h| ==> h[j] == h'[j];
        assert LiveFrom(h, q, i);
      }
    }
    if Live(h, q) {
      var i: nat :| LiveFrom(h, q, i);
      assert LiveFrom(h', q, i);
    }
    if q == r {
      assert LiveFrom(h', q, |h|);
    }
  }

  lemma LiveDeleted(h: seq<Event>, uuid: string, q: KeyRecord)
    ensures Live(h + [Deleted(uuid)], q) <==> Live(h, q) && q.uuid != uuid
  {
    var h' := h + [Deleted(uuid)];
    if Live(h', q) {
      var i: nat :| LiveFrom(h', q, i);
      assert h'[|h|] == Deleted(uuid);
      assert forall j :: i < j < |h| ==> h[j] == h'[j];
      assert LiveFrom(h, q, i);
    }
    if Live(h, q) && q.uuid != uuid {
      var i: nat :| LiveFrom(h, q, i);
      assert LiveFrom(h', q, i);
    }
  }

  lemma FreshIsAbsent(ix: Index, h: seq<Event>, r: KeyRecord)
    requires Represents(ix, h) && FreshRecord(h, r)
    ensures r.uuid !in ix.keys && r.keyHash !in ix.byHash
  {
    hide Live;
    if r.uuid in ix.keys {
      LiveIsIssued(h, ix.keys[r.uuid]);
    }
    if r.keyHash in ix.byHash {
      LiveIsIssued(h, ix.byHash[r.keyHash]);
    }
  }

  lemma InsertIndexed(ix: Index, r: KeyRecord)
    requires Indexed(ix) && r.uuid !in ix.keys && r.keyHash !in ix.byHash
    ensures Indexed(Insert(ix, r))
  {
  }

  lemma RemoveIndexed(ix: Index, uuid: string)
    requires Indexed(ix)
    ensures Indexed(Remove(ix, uuid))
  {
  }

  lemma InsertNoDuplicates(ix: Index, r: KeyRecord)
    requires NoDuplicates(ix) && !Registered(ix, r.route, r.realKey)
    ensures NoDuplicates(Insert(ix, r))
  {
  }

  /** A fresh record keeps the indexes and the history in step. */
  lemma InsertRepresents(ix: Index, h: seq<Event>, r: KeyRecord)
    requires Represents(ix, h) && FreshRecord(h, r)
    ensures Represents(Insert(ix, r), h + [Added(r)])
  {
    var ix' := Insert(ix, r);
    FreshIsAbsent(ix, h, r);
    InsertIndexed(ix, r);
    hide Live, FreshRecord, Indexed;
    forall q ensures Live(h + [Added(r)], q) <==> q.uuid in ix'.keys && ix'.keys[q.uuid] == q {
      LiveAdded(h, r, q);
    }
  }

  lemma RemoveRepresents(ix: Index, h: seq<Event>, uuid: string)
    requires Represents(ix, h) && uuid in ix.keys
    ensures Represents(Remove(ix, uuid), h + [Deleted(uuid)])
  {
    var ix' := Remove(ix, uuid);
    RemoveIndexed(ix, uuid);
    assert ix.keys[uuid].uuid == uuid;
    hide Live, Indexed;
    forall q ensures Live(h + [Deleted(uuid)], q) <==> q.uuid in ix'.keys && ix'.keys[q.uuid] == q {
      LiveDeleted(h, uuid, q);
    }
  }

  /** Looking up a hash finds the one live record with that hash, or there is none. */
  lemma FindIsLive(ix: Index, h: seq<Event>, x: string)
    requires Represents(ix, h)
    ensures match Find(ix, x)
            case Some(r) => Live(h, r) && r.keyHash == x && (forall q :: Live(h, q) && q.keyHash == x ==> q == r)
            case None => forall q :: Live(h, q) ==> q.keyHash != x
  {
  }

  // ---- the store ----

  /** The loop of ListKeys: the map's records in whatever order it enumerates them. */
  method Collect(m: map<string, KeyRecord>) returns (list: seq<KeyRecord>)
    requires forall u :: u in m ==> m[u].uuid == u
    ensures forall i :: 0 <= i < |list| ==> list[i].uuid in m && m[list[i].uuid] == list[i]
    ensures forall u :: u in m ==> m[u] in list
    ensures forall i, j :: 0 <= i < j < |list| ==> list[i].uuid != list[j].uuid
  {
    list := [];
    var todo := m.Keys;
    while todo != {}
      invariant todo <= m.Keys
      invariant forall i :: 0 <= i < |list| ==> list[i].uuid in m && list[i].uuid !in todo && m[list[i].uuid] == list[i]
      invariant forall u :: u in m && u !in todo ==> m[u] in list
      invariant forall i, j :: 0 <= i < j < |list| ==> list[i].uuid != list[j].uuid
      decreases |todo|
    {
      var u :| u in todo;
      list := list + [m[u]];
      todo := todo - {u};
    }
  }

  class Store {
    var keys: map<string, KeyRecord>
    var byHash: map<string, KeyRecord>
    const hash: string -> string
    ghost var history: seq<Event>

    ghost predicate Valid()
      reads this
    {
      && Represents(Index(keys, byHash), history)
      && NoDuplicates(Index(keys, byHash))
      && HashesOf(history, hash)
    }

    constructor (hash: string -> string)
      ensures Valid() && history == [] && this.hash == hash
    {
      this.hash := hash;
      keys, byHash := map[], map[];
      history := [];
    }

    /** The duplicate scan: a loop over the map in any order, stopping at a hit. */
    method FindDuplicate(route: string, realKey: string) returns (found: Option<KeyRecord>)
      ensures found.Some? <==> Registered(Index(keys, byHash), route, realKey)
      ensures found.Some? ==> found.value.route == route && found.value.realKey == realKey
    {
      var todo := keys.Keys;
      while todo != {}
        invariant todo <= keys.Keys
        invariant forall u :: u in keys && u !in todo ==> !(keys[u].route == route && keys[u].realKey == realKey)
        decreases |todo|
      {
        var u :| u in todo;
        if keys[u].route == route && keys[u].realKey == realKey {
          return Some(keys[u]);
        }
        todo := todo - {u};
      }
      found := None;
    }

    /** AddKey.  `id` and `token` are the results of the two random generators; `None` is their failure. */
    method AddKey(route: string, realKey: string, alias: string, id: Option<string>, token: Option<string>)
      returns (res: Result<KeyRecord>)
      requires Valid()
      requires id.Some? ==> forall r :: Issued(history, r) ==> r.uuid != id.value
      requires token.Some? ==>
        forall r :: Issued(history, r) ==> hash(r.internalKey) != hash("sk-local-" + token.value)
      modifies this`keys, this`byHash, this`history
      ensures Valid()
      ensures res.Ok? <==> id.Some? && token.Some? &&
                           forall r :: Live(old(history), r) ==> !(r.route == route && r.realKey == realKey)
      ensures res.Ok? ==>
        && res.value ==
           KeyRecord(id.value, alias, route, realKey, "sk-local-" + token.value, hash("sk-local-" + token.value))
        && history == old(history) + [Added(res.value)]
        && Index(keys, byHash) == Insert(old(Index(keys, byHash)), res.value)
      ensures res.Err? ==> Index(keys, byHash) == old(Index(keys, byHash)) && history == old(history)
    {
      var dup := FindDuplicate(route, realKey);
      if dup.Some? {
        return Err("upstream key already registered as " + dup.value.alias);
      }
      if id.None? { return Err("no identity"); }
      if token.None? { return Err("no token"); }
      var internalKey := "sk-local-" + token.value;
      var rec := KeyRecord(id.value, alias, route, realKey, internalKey, hash(internalKey));
      InsertRepresents(Index(keys, byHash), history, rec);
      InsertNoDuplicates(Index(keys, byHash), rec);
      hide Represents, NoDuplicates, Registered;
      keys := keys[rec.uuid := rec];
      byHash := byHash[rec.keyHash := rec];
      history := history + [Added(rec)];
      res := Ok(rec);
    }

    method DeleteKey(uuid: string) returns (ok: bool)
      requires Valid()
      modifies this`keys, this`byHash, this`history
      ensures Valid()
      ensures ok <==> uuid in old(keys)
      ensures Index(keys, byHash) == Remove(old(Index(keys, byHash)), uuid)
      ensures history == if ok then old(history) + [Deleted(uuid)] else old(history)
    {
      if uuid !in keys {
        return false;
      }
      var record := keys[uuid];
      RemoveRepresents(Index(keys, byHash), history, uuid);
      keys := keys - {uuid};
      byHash := byHash - {record.keyHash};
      history := history + [Deleted(uuid)];
      ok := true;
    }

    /**
     GetKeyByInternal.  If the hash does not collide with the presented key on the issued keys, it succeeds exactly
     for a key that some AddKey returned and whose UUID has not been deleted since, and returns that one record.
     */
    method GetKeyByInternal(internalKey: string) returns (rec: Option<KeyRecord>)
      requires Valid()
      requires forall r :: Issued(history, r) && hash(r.internalKey) == hash(internalKey) ==>
                 r.internalKey == internalKey
      ensures rec == Find(Index(keys, byHash), hash(internalKey))
      ensures rec.Some? <==> exists r :: Live(history, r) && r.internalKey == internalKey
      ensures rec.Some? ==> forall r :: Live(history, r) && r.internalKey == internalKey ==> rec.value == r
      ensures rec.Some? ==> Live(history, rec.value) && rec.value.internalKey == internalKey
    {
      var x := hash(internalKey);
      FindIsLive(Index(keys, byHash), history, x);
      forall r | Live(history, r) ensures Issued(history, r) { LiveIsIssued(history, r); }
      rec := if x in byHash then Some(byHash[x]) else None;
    }

    /** ListKeys: every live record exactly once, in some order. */
    method ListKeys() returns (list: seq<KeyRecord>)
      requires Valid()
      ensures forall r :: r in list <==> Live(history, r)
      ensures forall i, j :: 0 <= i < j < |list| ==> list[i].uuid != list[j].uuid
    {
      list := Collect(keys);
    }
  }
}
