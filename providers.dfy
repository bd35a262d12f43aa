/**
 * The per-user credential table behind `/api/providers`: at most one stored
 * API key per (user, provider) pair, upserted by POST, removed by DELETE and
 * listed without its secret by GET.
 */
module Providers {
  import opened Wrappers
  import opened Js
  import opened Http

  /** A stored `apiKey` row; the owning user and the provider are its key in the table. */
  datatype KeyRecord = KeyRecord(id: nat, apiKey: string, baseUrl: Option<string>, isActive: bool, createdAt: nat)

  /** The table, keyed by the unique `userId_provider` pair. */
  type KeyTable = map<(UserId, string), KeyRecord>

  /** What GET returns for one row: every column but the secret. */
  datatype KeyView = KeyView(id: nat, provider: string, baseUrl: Option<string>, isActive: bool, createdAt: nat)

  /** The JSON body of a POST. */
  datatype SaveRequest = SaveRequest(provider: Option<string>, apiKey: Option<string>, baseUrl: Option<string>)

  function View(provider: string, rec: KeyRecord): KeyView {
    KeyView(rec.id, provider, rec.baseUrl, rec.isActive, rec.createdAt)
  }

  /** The rows GET selects for `user`, projected to their public columns. */
  function Listing(rows: KeyTable, user: UserId): (vs: set<KeyView>)
    ensures forall v :: v in vs ==> (user, v.provider) in rows && v == View(v.provider, rows[(user, v.provider)])
    ensures forall p :: (user, p) in rows ==> View(p, rows[(user, p)]) in vs
  {
    set k | k in rows && k.0 == user :: View(k.1, rows[k])
  }

  /**
   * Prisma's `upsert` on `(user, provider)`: an existing row keeps its id and
   * creation time and takes the new key, base URL and `isActive = true`; a
   * missing row is created with `freshId` and `now`.
   */
  function Upsert(rows: KeyTable, user: UserId, provider: string, apiKey: string, baseUrl: Option<string>,
                  freshId: nat, now: nat): (r: KeyTable)
    ensures r.Keys == rows.Keys + {(user, provider)}
    ensures var rec := r[(user, provider)];
      rec.apiKey == apiKey && rec.baseUrl == baseUrl && rec.isActive
    ensures (user, provider) in rows ==>
      r[(user, provider)].id == rows[(user, provider)].id &&
      r[(user, provider)].createdAt == rows[(user, provider)].createdAt
    ensures (user, provider) !in rows ==>
      r[(user, provider)].id == freshId && r[(user, provider)].createdAt == now
    ensures forall k :: k in rows && k != (user, provider) ==> r[k] == rows[k]
  {
    var key := (user, provider);
    if key in rows then
      rows[key := rows[key].(apiKey := apiKey, baseUrl := baseUrl, isActive := true)]
    else
      rows[key := KeyRecord(freshId, apiKey, baseUrl, true, now)]
  }

  /** Every id in the table is below the next one to hand out. */
  ghost predicate IdsBelow(rows: KeyTable, bound: nat) {
    forall k :: k in rows ==> rows[k].id < bound
  }

  /** No two rows share an id. */
  ghost predicate IdsUnique(rows: KeyTable) {
    forall k1, k2 :: k1 in rows && k2 in rows && k1 != k2 ==> rows[k1].id != rows[k2].id
  }

  /** Saving the same credential twice leaves the table as saving it once. */
  lemma UpsertIdempotent(rows: KeyTable, user: UserId, provider: string, apiKey: string, baseUrl: Option<string>,
                         freshId: nat, now: nat, freshId': nat, now': nat)
    ensures var once := Upsert(rows, user, provider, apiKey, baseUrl, freshId, now);
      Upsert(once, user, provider, apiKey, baseUrl, freshId', now') == once
  {
    var once := Upsert(rows, user, provider, apiKey, baseUrl, freshId, now);
    var twice := Upsert(once, user, provider, apiKey, baseUrl, freshId', now');
    assert twice[(user, provider)] == once[(user, provider)];
  }

  /** Deleting a credential just created gives back the table from before. */
  lemma DeleteUndoesCreate(rows: KeyTable, user: UserId, provider: string, apiKey: string, baseUrl: Option<string>,
                           freshId: nat, now: nat)
    requires (user, provider) !in rows
    ensures Upsert(rows, user, provider, apiKey, baseUrl, freshId, now) - {(user, provider)} == rows
  {
  }

  /** An upsert with a fresh id keeps ids distinct and below the next fresh id. */
  lemma UpsertKeepsIds(rows: KeyTable, user: UserId, provider: string, apiKey: string, baseUrl: Option<string>,
                       freshId: nat, now: nat)
    requires IdsBelow(rows, freshId) && IdsUnique(rows)
    ensures var r := Upsert(rows, user, provider, apiKey, baseUrl, freshId, now);
      IdsBelow(r, freshId + 1) && IdsUnique(r)
  {
  }

  class KeyStore {
    var rows: KeyTable
    var nextId: nat

    ghost predicate Valid()
      reads this
    {
      IdsBelow(rows, nextId) && IdsUnique(rows)
    }

    constructor ()
      ensures Valid() && rows == map[]
    {
      rows := map[];
      nextId := 0;
    }

    /** GET: exactly the caller's rows, without the `apiKey` column. */
    function Get(session: Option<UserId>): (r: Response<set<KeyView>>)
      reads this
      ensures !SignedIn(session) ==> r == Error(401, "Unauthorized")
      ensures SignedIn(session) ==> r.Ok?
      ensures SignedIn(session) ==> forall v :: v in r.body ==>
        (session.value, v.provider) in rows && v == View(v.provider, rows[(session.value, v.provider)])
      ensures SignedIn(session) ==> forall p :: (session.value, p) in rows ==>
        View(p, rows[(session.value, p)]) in r.body
    {
      if !SignedIn(session) then Unauthorized()
      else Ok(Listing(rows, session.value))
    }

    /** POST: validate the body, then upsert the caller's key for the provider; replies with the row id. */
    method Post(session: Option<UserId>, body: SaveRequest, now: nat) returns (r: Response<nat>)
      requires Valid()
      modifies this
      ensures Valid()
      ensures !SignedIn(session) ==> r == Error(401, "Unauthorized") && rows == old(rows)
      ensures SignedIn(session) && !(Truthy(body.provider) && Truthy(body.apiKey)) ==>
        r == Error(400, "Provider and API key are required") && rows == old(rows)
      ensures SignedIn(session) && Truthy(body.provider) && Truthy(body.apiKey) ==>
        rows == Upsert(old(rows), session.value, body.provider.value, body.apiKey.value, OrNull(body.baseUrl),
                       old(nextId), now) &&
        r == Ok(rows[(session.value, body.provider.value)].id)
    {
      if !SignedIn(session) {
        return Unauthorized();
      }
      if !Truthy(body.provider) || !Truthy(body.apiKey) {
        return Error(400, "Provider and API key are required");
      }
      var user, provider := session.value, body.provider.value;
      UpsertKeepsIds(rows, user, provider, body.apiKey.value, OrNull(body.baseUrl), nextId, now);
      rows := Upsert(rows, user, provider, body.apiKey.value, OrNull(body.baseUrl), nextId, now);
      nextId := nextId + 1;
      r := Ok(rows[(user, provider)].id);
    }

    /** DELETE: remove the caller's key for the `provider` query parameter; a missing row is a 500. */
    method Delete(session: Option<UserId>, provider: Option<string>) returns (r: Response<()>)
      requires Valid()
      modifies this
      ensures Valid()
      ensures !SignedIn(session) ==> r == Error(401, "Unauthorized") && rows == old(rows)
      ensures SignedIn(session) && !Truthy(provider) ==>
        r == Error(400, "Provider is required") && rows == old(rows)
      ensures SignedIn(session) && Truthy(provider) && (session.value, provider.value) in old(rows) ==>
        r == Ok(()) && rows == old(rows) - {(session.value, provider.value)}
      ensures SignedIn(session) && Truthy(provider) && (session.value, provider.value) !in old(rows) ==>
        r == Error(500, InternalError) && rows == old(rows)
    {
      if !SignedIn(session) {
        return Unauthorized();
      }
      if !Truthy(provider) {
        return Error(400, "Provider is required");
      }
      var key := (session.value, provider.value);
      if key !in rows {
        return Error(500, InternalError);
      }
      rows := rows - {key};
      r := Ok(());
    }
  }
}
