/**
  The `visitors` collection of the document database, as the dashboards
  and the cleanup endpoint use it. Each call's outcome (did the write go
  through, which identifier did the database assign) is a parameter:
  network failures and identifier generation belong to the environment.
 */
module Backend {
  import opened Wrappers
  import opened UserTypes
  import opened VisitorList

  /** Whether some visitor in `docs` has identifier `id`. */
  predicate HasId(docs: seq<Visitor>, id: string) {
    exists i :: 0 <= i < |docs| && docs[i].id == id
  }

  /** `getDoc(doc(db, "visitors", id))`: the document with that identifier, if any. */
  function Lookup(docs: seq<Visitor>, id: string): (r: Option<Visitor>)
    ensures r.Some? ==> r.value in docs && r.value.id == id
    ensures r.None? <==> !HasId(docs, id)
  {
    if docs == [] then None
    else if docs[0].id == id then Some(docs[0])
    else
      var r := Lookup(docs[1..], id);
      assert HasId(docs, id) ==> HasId(docs[1..], id) by {
        if HasId(docs, id) {
          var i :| 0 <= i < |docs| && docs[i].id == id;
          assert docs[1..][i - 1] == docs[i];
        }
      }
      assert HasId(docs[1..], id) ==> HasId(docs, id) by {
        if HasId(docs[1..], id) {
          var i :| 0 <= i < |docs[1..]| && docs[1..][i].id == id;
          assert docs[i + 1] == docs[1..][i];
        }
      }
      r
  }

  /** The documents left after deleting the document with identifier `id`, in order. */
  function Without(docs: seq<Visitor>, id: string): (r: seq<Visitor>)
    ensures |r| <= |docs|
    ensures forall v :: v in r <==> v in docs && v.id != id
  {
    if docs == [] then []
    else (if docs[0].id == id then [] else [docs[0]]) + Without(docs[1..], id)
  }

  /** Identifiers the database assigns are unique within the collection. */
  predicate UniqueIds(docs: seq<Visitor>) {
    forall i, j :: 0 <= i < j < |docs| ==> docs[i].id != docs[j].id
  }

  class Store {
    var docs: seq<Visitor>

    constructor (initial: seq<Visitor>)
      ensures docs == initial
    {
      docs := initial;
    }

    /** `addDoc`: on success the record is appended under the identifier `id` the database assigned. */
    method Add(v: Visitor, id: string, ok: bool) returns (written: bool)
      modifies this
      ensures written == ok
      ensures docs == if ok then old(docs) + [v.(id := id)] else old(docs)
    {
      written := ok;
      if ok {
        docs := docs + [v.(id := id)];
      }
    }

    /** `updateDoc(ref, { status })`: fails when the write fails or no such document exists. */
    method UpdateStatus(id: string, st: Status, ok: bool) returns (written: bool)
      modifies this
      ensures written <==> ok && HasId(old(docs), id)
      ensures docs == if written then SetStatus(old(docs), id, st) else old(docs)
    {
      written := ok && Lookup(docs, id).Some?;
      if written {
        docs := SetStatus(docs, id, st);
      }
    }

    /** `deleteDoc(doc(db, "visitors", id))`; deleting a missing document succeeds and changes nothing. */
    method Delete(id: string, ok: bool) returns (done: bool)
      modifies this
      ensures done == ok
      ensures docs == if ok then Without(old(docs), id) else old(docs)
    {
      done := ok;
      if ok {
        docs := Without(docs, id);
      }
    }
  }

  /** The `users` collection: profile documents by user id. */
  class Users {
    var docs: map<string, ProfileDoc>

    constructor (initial: map<string, ProfileDoc>)
      ensures docs == initial
    {
      docs := initial;
    }

    /** `setDoc(doc(db, "users", uid), d)`: replaces the whole document on success. */
    method Set(uid: string, d: ProfileDoc, ok: bool) returns (written: bool)
      modifies this
      ensures written == ok
      ensures docs == if ok then old(docs)[uid := d] else old(docs)
    {
      written := ok;
      if ok {
        docs := docs[uid := d];
      }
    }
  }
}
