/** Queries over the whole table: a user's avatars, the current one, and what is left to do. */
module Queries {
  import opened Domain
  import opened Repository

  type Rows = map<Id, Row>

  predicate NoDuplicates(ids: seq<Id>) {
    forall i, j :: 0 <= i < j < |ids| ==> ids[i] != ids[j]
  }

  // A user's avatars

  /** Live, with its original uploaded. */
  predicate Shown(rows: Rows, user: string, id: Id) {
    id in rows && rows[id].user == user && rows[id].Live() && rows[id].upload == Uploaded
  }

  /** A result of the list query: all of them, from new to old. */
  ghost predicate Listing(rows: Rows, user: string, ids: seq<Id>) {
    && NoDuplicates(ids)
    && (forall id :: id in ids <==> Shown(rows, user, id))
    && (forall i, j :: 0 <= i < j < |ids| && ids[i] in rows && ids[j] in rows ==>
         rows[ids[i]].createdAt >= rows[ids[j]].createdAt)
  }

  /** A result of the query for one: the latest, or nothing if there is none. */
  ghost predicate Current(rows: Rows, user: string, found: Option<Id>) {
    match found
    case None => forall id :: !Shown(rows, user, id)
    case Some(id) => Shown(rows, user, id) && forall other :: Shown(rows, user, other) ==>
      rows[other].createdAt <= rows[id].createdAt
  }

  ghost predicate DistinctTimes(rows: Rows, user: string) {
    forall i, j :: Shown(rows, user, i) && Shown(rows, user, j) && rows[i].createdAt == rows[j].createdAt ==> i == j
  }

  /** The current avatar is the head of the list, in every table whose creation times differ. */
  lemma CurrentIsHead(rows: Rows, user: string, ids: seq<Id>, found: Option<Id>)
    requires Listing(rows, user, ids) && Current(rows, user, found) && DistinctTimes(rows, user)
    ensures found == if ids == [] then None else Some(ids[0])
  {
    if ids != [] {
      assert ids[0] in ids && Shown(rows, user, ids[0]);
      if found.Some? {
        assert found.value in ids;
        var i :| 0 <= i < |ids| && ids[i] == found.value;
        assert rows[ids[0]].createdAt >= rows[ids[i]].createdAt;
      }
    }
  }

  class Table {
    var rows: Rows

    constructor (rows: Rows)
      ensures this.rows == rows
    {
      this.rows := rows;
    }

    method GetCurrent(user: string) returns (found: Option<Id>)
      ensures Current(rows, user, found)
    {
      found := None;
      var ids := rows.Keys;
      while ids != {}
        invariant ids <= rows.Keys
        invariant found.Some? ==> Shown(rows, user, found.value)
        invariant forall id :: Shown(rows, user, id) && id !in ids ==>
                    found.Some? && rows[id].createdAt <= rows[found.value].createdAt
        decreases |ids|
      {
        var id :| id in ids;
        if Shown(rows, user, id) && (found.None? || rows[id].createdAt > rows[found.value].createdAt) {
          found := Some(id);
        }
        ids := ids - {id};
      }
    }

    method Latest(ids: set<Id>) returns (latest: Id)
      requires ids != {} && ids <= rows.Keys
      ensures latest in ids && forall id :: id in ids ==> rows[id].createdAt <= rows[latest].createdAt
    {
      latest :| latest in ids;
      var rest := ids - {latest};
      while rest != {}
        invariant rest <= ids && latest in ids
        invariant forall id :: id in ids && id !in rest ==> rows[id].createdAt <= rows[latest].createdAt
        decreases |rest|
      {
        var id :| id in rest;
        if rows[id].createdAt > rows[latest].createdAt {
          latest := id;
        }
        rest := rest - {id};
      }
    }

    method ListByUser(user: string) returns (ids: seq<Id>)
      ensures Listing(rows, user, ids)
      ensures forall id :: id in ids <==>
                id in rows && rows[id].user == user && rows[id].deletedAt.None? && rows[id].upload == Uploaded
      ensures forall i, j :: 0 <= i < j < |ids| ==> rows[ids[i]].createdAt >= rows[ids[j]].createdAt
    {
      ids := [];
      var rest := set id | id in rows && Shown(rows, user, id);
      while rest != {}
        invariant NoDuplicates(ids) && rest <= rows.Keys
        invariant forall i :: 0 <= i < |ids| ==> ids[i] in rows && ids[i] !in rest
        invariant forall id :: id in ids || id in rest <==> Shown(rows, user, id)
        invariant forall i, id :: 0 <= i < |ids| && id in rest ==> rows[ids[i]].createdAt >= rows[id].createdAt
        invariant forall i, j :: 0 <= i < j < |ids| ==> rows[ids[i]].createdAt >= rows[ids[j]].createdAt
        decreases |rest|
      {
        var id := Latest(rest);
        ids := ids + [id];
        rest := rest - {id};
      }
    }

    /** Deletes the row of the avatar unless somebody else asks for it. */
    method Remove(id: Id, requester: string, now: nat) returns (error: DeleteError)
      requires id in rows
      modifies this
      ensures error == if old(rows)[id].user != requester then Forbidden
                       else if old(rows)[id].deletedAt.Some? then NotFound
                       else NoError
      ensures rows == if error == NoError then old(rows)[id := SoftDelete(old(rows)[id], now).value] else old(rows)
    {
      if rows[id].user != requester {
        return Forbidden;
      }
      var r := SoftDelete(rows[id], now);
      if r.None? {
        return NotFound;
      }
      rows := rows[id := r.value];
      return NoError;
    }

    /**
     * Deletes the user's current avatar: every listing of the user loses its head and nothing
     * else, and the listings of all other users stay what they were.
     */
    method DeleteCurrent(user: string, requester: string, now: nat) returns (error: DeleteError)
      modifies this
      ensures error == NotFound <==> forall id :: !Shown(old(rows), user, id)
      ensures error != NotFound ==> (error == Forbidden <==> requester != user)
      ensures error != NoError ==> rows == old(rows)
      ensures error == NoError && DistinctTimes(old(rows), user) ==>
                forall ids :: Listing(old(rows), user, ids) ==> ids != [] && Listing(rows, user, ids[1..])
      ensures forall other, ids :: other != user || error != NoError ==>
                (Listing(old(rows), other, ids) <==> Listing(rows, other, ids))
    {
      var found := GetCurrent(user);
      if found.None? {
        return NotFound;
      }
      error := Remove(found.value, requester, now);
      if error == NoError {
        forall ids | DistinctTimes(old(rows), user) && Listing(old(rows), user, ids)
          ensures ids != [] && Listing(rows, user, ids[1..]) {
          CurrentIsHead(old(rows), user, ids, found);
          ListLosesHead(old(rows), rows, user, ids);
        }
        forall other, ids | other != user ensures Listing(old(rows), other, ids) <==> Listing(rows, other, ids) {
          SameListing(old(rows), rows, other, ids);
        }
      }
    }
  }

  datatype DeleteError = NoError | NotFound | Forbidden

  lemma ListLosesHead(rows: Rows, rows': Rows, user: string, ids: seq<Id>)
    requires Listing(rows, user, ids) && ids != []
    requires rows'.Keys == rows.Keys && forall id :: id in rows && id != ids[0] ==> rows'[id] == rows[id]
    requires ids[0] in rows && !rows'[ids[0]].Live()
    ensures Listing(rows', user, ids[1..])
  {
    var rest := ids[1..];
    assert forall i :: 0 <= i < |rest| ==> rest[i] == ids[i + 1];
    forall id ensures id in rest <==> Shown(rows', user, id) {
      if id in rest {
        var i :| 0 <= i < |rest| && rest[i] == id;
        assert ids[i + 1] in ids && ids[0] != ids[i + 1];
      }
      if Shown(rows', user, id) {
        assert id in ids;
        var i :| 0 <= i < |ids| && ids[i] == id;
        assert i > 0 && rest[i - 1] == id;
      }
    }
    forall i, j | 0 <= i < j < |rest| && rest[i] in rows' && rest[j] in rows'
      ensures rows'[rest[i]].createdAt >= rows'[rest[j]].createdAt
    {
      assert rest[i] != ids[0] && rest[j] != ids[0];
    }
  }

  lemma SameListing(rows: Rows, rows': Rows, user: string, ids: seq<Id>)
    requires rows'.Keys == rows.Keys
    requires forall id :: id in rows ==>
               (rows[id].user == user ==> rows'[id] == rows[id]) && rows'[id].user == rows[id].user
    ensures Listing(rows, user, ids) <==> Listing(rows', user, ids)
  {
    assert forall id :: Shown(rows, user, id) <==> Shown(rows', user, id);
    assert forall i, j :: 0 <= i < j < |ids| && ids[i] in rows && ids[j] in rows &&
                          rows[ids[i]].user == user && rows[ids[j]].user == user ==>
      rows[ids[i]].createdAt == rows'[ids[i]].createdAt && rows[ids[j]].createdAt == rows'[ids[j]].createdAt;
    if Listing(rows, user, ids) || Listing(rows', user, ids) {
      assert forall i :: 0 <= i < |ids| ==> ids[i] in ids;
    }
  }
}
