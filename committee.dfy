/**
  The committee dashboard's approve/reject action: the button toggles a
  visitor between approved and rejected, and the local list is updated
  only once the database write has gone through.
 */
module Committee {
  import opened UserTypes
  import opened VisitorList
  import opened Backend

  /** The status the button sends: an approved visitor is rejected, any other is approved. */
  function Toggle(st: Status): (r: Status)
    ensures r != Pending && r != st
    ensures r == Rejected <==> st == Approved
  {
    if st == Approved then Rejected else Approved
  }

  /** The button's label. */
  function ToggleLabel(st: Status): (l: string)
    ensures l == "Reject" <==> st == Approved
    ensures l == "Approve" <==> st != Approved
  {
    if st == Approved then "Reject" else "Approve"
  }

  /** The label names the action: "Reject" exactly when the button sends `rejected`, "Approve" when it sends `approved`. */
  lemma LabelMatchesAction(st: Status)
    ensures ToggleLabel(st) == "Reject" <==> Toggle(st) == Rejected
    ensures ToggleLabel(st) == "Approve" <==> Toggle(st) == Approved
  {
  }

  /** Pressing the button twice returns a decided visitor to where it was; a pending one ends up rejected. */
  lemma ToggleTwice(st: Status)
    ensures st != Pending ==> Toggle(Toggle(st)) == st
    ensures st == Pending ==> Toggle(Toggle(st)) == Rejected
  {
  }

  class Dashboard {
    var visitors: seq<Visitor>

    constructor (visitors: seq<Visitor>)
      ensures this.visitors == visitors
    {
      this.visitors := visitors;
    }

    /**
      `handleStatusUpdate`: nothing without database services; otherwise the
      status is written, and only if the write succeeded is the local list
      updated, changing only the visitors with that id.
     */
    method HandleStatusUpdate(store: Store, services: bool, id: string, st: Status, ok: bool) returns (updated: bool)
      requires st != Pending
      modifies this, store
      ensures updated <==> services && ok && HasId(old(store.docs), id)
      ensures updated ==> visitors == SetStatus(old(visitors), id, st) && store.docs == SetStatus(old(store.docs), id, st)
      ensures !updated ==> visitors == old(visitors) && store.docs == old(store.docs)
    {
      updated := false;
      if !services {
        return;
      }
      updated := store.UpdateStatus(id, st, ok);
      if updated {
        visitors := SetStatus(visitors, id, st);
      }
    }
  }
}
