/**
  The cleanup endpoint `POST /api/delete-visitor-data`: it deletes every
  visitor of a society, or every visitor added by a user. The society
  takes precedence when both are given. The deletes are issued together
  and awaited as a whole, so a failure answers 500 while the other deletes
  still take effect.
 */
module DeleteRoute {
  import opened Wrappers
  import opened Text
  import opened UserTypes
  import opened Backend

  /** The request body's two fields (non-string JSON values are not modelled). */
  datatype Body = Body(societyId: Option<string>, userId: Option<string>)

  /** Which field the deletion query filters on. */
  datatype Selector = BySociety(societyId: string) | ByAddedBy(userId: string)

  /** The parameter rule: a truthy `societyId` wins, then a truthy `userId`; neither selects nothing. */
  function Select(b: Body): (r: Option<Selector>)
    ensures r.None? <==> !Truthy(b.societyId) && !Truthy(b.userId)
    ensures Truthy(b.societyId) ==> r == Some(BySociety(b.societyId.value))
    ensures !Truthy(b.societyId) && Truthy(b.userId) ==> r == Some(ByAddedBy(b.userId.value))
  {
    if Truthy(b.societyId) then Some(BySociety(b.societyId.value))
    else if Truthy(b.userId) then Some(ByAddedBy(b.userId.value))
    else None
  }

  /** `where("societyId", "==", s)` or `where("addedBy", "==", u)`. */
  predicate Matches(sel: Selector, v: Visitor) {
    match sel
    case BySociety(s) => v.societyId == Some(s)
    case ByAddedBy(u) => v.addedBy == u
  }

  /** The identifiers of the query's result, in collection order. */
  function MatchIds(docs: seq<Visitor>, sel: Selector): (ids: seq<string>)
    ensures forall i :: 0 <= i < |docs| && Matches(sel, docs[i]) ==> docs[i].id in ids
    ensures forall k :: k in ids ==> exists i :: 0 <= i < |docs| && Matches(sel, docs[i]) && docs[i].id == k
  {
    if docs == [] then []
    else
      var rest := MatchIds(docs[1..], sel);
      assert forall i :: 1 <= i < |docs| ==> docs[i] == docs[1..][i - 1];
      (if Matches(sel, docs[0]) then [docs[0].id] else []) + rest
  }

  /** What the collection keeps: everything except the matching visitors whose delete went through, in order. */
  function Kept(docs: seq<Visitor>, sel: Selector, failing: set<string>): (r: seq<Visitor>)
    ensures |r| <= |docs|
    ensures forall v :: v in r <==> v in docs && !(Matches(sel, v) && v.id !in failing)
  {
    if docs == [] then []
    else (if Matches(sel, docs[0]) && docs[0].id !in failing then [] else [docs[0]]) + Kept(docs[1..], sel, failing)
  }

  /**
    With every delete through, no matching visitor remains and every other
    visitor stays; with some failing, only the failing ones of the matching
    visitors stay.
   */
  lemma DeletesExactlyMatching(docs: seq<Visitor>, sel: Selector, failing: set<string>)
    ensures forall v :: v in Kept(docs, sel, {}) <==> v in docs && !Matches(sel, v)
    ensures forall v :: v in docs && Matches(sel, v) && v in Kept(docs, sel, failing) ==> v.id in failing
    ensures forall v :: v in docs && !Matches(sel, v) ==> v in Kept(docs, sel, failing)
  {
  }

  /** What is left after deleting the identifiers `targets`, except those whose delete fails. */
  function AfterDeleting(docs: seq<Visitor>, targets: seq<string>, failing: set<string>): seq<Visitor> {
    if docs == [] then []
    else (if docs[0].id in targets && docs[0].id !in failing then [] else [docs[0]]) + AfterDeleting(docs[1..], targets, failing)
  }

  /** Deleting no identifier leaves every document. */
  lemma {:induction false} AfterDeletingNothing(docs: seq<Visitor>, failing: set<string>)
    ensures AfterDeleting(docs, [], failing) == docs
  {
    if docs != [] {
      AfterDeletingNothing(docs[1..], failing);
    }
  }

  /** One more delete: a successful one removes its identifier, a failing one changes nothing. */
  lemma {:induction false} DeleteStep(docs: seq<Visitor>, targets: seq<string>, t: string, failing: set<string>)
    ensures t !in failing ==> Without(AfterDeleting(docs, targets, failing), t) == AfterDeleting(docs, targets + [t], failing)
    ensures t in failing ==> AfterDeleting(docs, targets, failing) == AfterDeleting(docs, targets + [t], failing)
  {
    if docs != [] {
      DeleteStep(docs[1..], targets, t, failing);
      var a := AfterDeleting(docs, targets, failing);
      var tail := AfterDeleting(docs[1..], targets, failing);
      if docs[0].id in targets && docs[0].id !in failing {
        assert a == tail;
      } else {
        assert a == [docs[0]] + tail;
        assert a[0] == docs[0] && a[1..] == tail;
      }
    }
  }

  /** Deleting identifiers that pick out exactly the matching visitors deletes exactly those. */
  lemma {:induction false} TargetsPickMatches(docs: seq<Visitor>, sel: Selector, targets: seq<string>, failing: set<string>)
    requires forall i :: 0 <= i < |docs| ==> (docs[i].id in targets <==> Matches(sel, docs[i]))
    ensures AfterDeleting(docs, targets, failing) == Kept(docs, sel, failing)
  {
    if docs != [] {
      assert forall i :: 0 <= i < |docs[1..]| ==> docs[1..][i] == docs[i + 1];
      TargetsPickMatches(docs[1..], sel, targets, failing);
    }
  }

  /** With unique identifiers, the query's identifiers pick out exactly the matching visitors. */
  lemma TargetsAreMatches(docs: seq<Visitor>, sel: Selector, failing: set<string>)
    requires UniqueIds(docs)
    ensures AfterDeleting(docs, MatchIds(docs, sel), failing) == Kept(docs, sel, failing)
  {
    var ids := MatchIds(docs, sel);
    forall i | 0 <= i < |docs|
      ensures docs[i].id in ids <==> Matches(sel, docs[i])
    {
      if docs[i].id in ids {
        var j :| 0 <= j < |docs| && Matches(sel, docs[j]) && docs[j].id == docs[i].id;
        assert i == j;
      }
    }
    TargetsPickMatches(docs, sel, ids, failing);
  }

  /** `Promise.all` of one delete per target: every delete is attempted; `failed` says whether any failed. */
  method DeleteAll(store: Store, targets: seq<string>, failing: set<string>) returns (failed: bool)
    modifies store
    ensures store.docs == AfterDeleting(old(store.docs), targets, failing)
    ensures failed <==> exists k :: k in targets && k in failing
  {
    failed := false;
    var i := 0;
    AfterDeletingNothing(store.docs, failing);
    while i < |targets|
      invariant 0 <= i <= |targets|
      invariant store.docs == AfterDeleting(old(store.docs), targets[..i], failing)
      invariant failed <==> exists j :: 0 <= j < i && targets[j] in failing
    {
      var done := store.Delete(targets[i], targets[i] !in failing);
      DeleteStep(old(store.docs), targets[..i], targets[i], failing);
      assert targets[..i + 1] == targets[..i] + [targets[i]];
      failed := failed || !done;
      i := i + 1;
    }
    assert targets[..i] == targets;
  }

  /**
    `POST`: `body` is the parsed request (`None` when it does not parse),
    `readOk` the outcome of the query, `failing` the identifiers whose
    delete fails. Answers 400 when neither field is given, 500 on any
    failure, 200 otherwise.
   */
  method Post(store: Store, body: Option<Body>, readOk: bool, failing: set<string>) returns (status: int)
    requires UniqueIds(store.docs)
    modifies store
    ensures body.None? ==> status == 500 && store.docs == old(store.docs)
    ensures body.Some? && Select(body.value).None? ==> status == 400 && store.docs == old(store.docs)
    ensures body.Some? && Select(body.value).Some? && !readOk ==> status == 500 && store.docs == old(store.docs)
    ensures body.Some? && Select(body.value).Some? && readOk ==>
      && store.docs == Kept(old(store.docs), Select(body.value).value, failing)
      && (status == 200 <==> forall k :: k in MatchIds(old(store.docs), Select(body.value).value) ==> k !in failing)
      && (status == 200 || status == 500)
  {
    if body.None? {
      return 500;
    }
    var b := body.value;
    if !Truthy(b.societyId) && !Truthy(b.userId) {
      return 400;
    }
    var sel: Selector;
    if Truthy(b.societyId) {
      sel := BySociety(b.societyId.value);
    } else {
      sel := ByAddedBy(b.userId.value);
    }
    if !readOk {
      return 500;
    }
    var targets := MatchIds(store.docs, sel);
    TargetsAreMatches(store.docs, sel, failing);
    var failed := DeleteAll(store, targets, failing);
    status := if failed then 500 else 200;
  }
}
