/**
  What the dashboards compute from the list of visitors they hold: status
  counts, the committee's status filter, the local status update made
  after a successful write, and the resident's "recent visitors" slice.
 */
module VisitorList {
  import opened Seqs
  import opened UserTypes

  /** `visitors.filter((v) => v.status === st)` */
  function WithStatus(vs: seq<Visitor>, st: Status): seq<Visitor> {
    Filter(vs, (v: Visitor) => v.status == st)
  }

  function CountStatus(vs: seq<Visitor>, st: Status): nat {
    |WithStatus(vs, st)|
  }

  /** The committee's filter selector: `"all"` or one status. */
  datatype StatusFilter = All | Only(status: Status)

  predicate Admits(f: StatusFilter, v: Visitor) {
    f.All? || v.status == f.status
  }

  /** `visitors.filter((visitor) => filter === "all" || visitor.status === filter)` */
  function FilterByStatus(vs: seq<Visitor>, f: StatusFilter): seq<Visitor> {
    Filter(vs, (v: Visitor) => Admits(f, v))
  }

  /**
    `all` keeps every visitor; a status keeps exactly the visitors with that
    status, in their original order.
   */
  lemma FilterByStatusSpec(vs: seq<Visitor>, f: StatusFilter)
    ensures f.All? ==> FilterByStatus(vs, f) == vs
    ensures f.Only? ==> FilterByStatus(vs, f) == WithStatus(vs, f.status)
    ensures forall a, b :: FilterByStatus(a + b, f) == FilterByStatus(a, f) + FilterByStatus(b, f)
  {
    if f.All? {
      FilterAll(vs, (v: Visitor) => Admits(f, v));
    } else {
      FilterCongruent(vs, (v: Visitor) => Admits(f, v), (v: Visitor) => v.status == f.status);
    }
    forall a, b ensures FilterByStatus(a + b, f) == FilterByStatus(a, f) + FilterByStatus(b, f) {
      FilterConcat(a, b, (v: Visitor) => Admits(f, v));
    }
  }

  /** The committee's `stats` panel; the other dashboards show the same counts. */
  datatype Stats = Stats(total: nat, pending: nat, approved: nat, rejected: nat)

  function StatsOf(vs: seq<Visitor>): Stats {
    Stats(|vs|, CountStatus(vs, Pending), CountStatus(vs, Approved), CountStatus(vs, Rejected))
  }

  /** Every visitor has one of the three statuses, so the three counts add up to the total. */
  lemma {:induction false} StatsAddUp(vs: seq<Visitor>)
    ensures StatsOf(vs).pending + StatsOf(vs).approved + StatsOf(vs).rejected == StatsOf(vs).total
  {
    if vs != [] {
      StatsAddUp(vs[1..]);
    }
  }

  /** `prev.map((v) => (v.id === visitorId ? { ...v, status } : v))` */
  function SetStatus(vs: seq<Visitor>, id: string, st: Status): (r: seq<Visitor>)
    ensures |r| == |vs|
    ensures forall i :: 0 <= i < |vs| && vs[i].id != id ==> r[i] == vs[i]
    ensures forall i :: 0 <= i < |vs| && vs[i].id == id ==>
      r[i].status == st && r[i].(status := vs[i].status) == vs[i]
  {
    seq(|vs|, i requires 0 <= i < |vs| => if vs[i].id == id then vs[i].(status := st) else vs[i])
  }

  /** Applying the same update twice is applying it once. */
  lemma SetStatusIdempotent(vs: seq<Visitor>, id: string, st: Status)
    ensures SetStatus(SetStatus(vs, id, st), id, st) == SetStatus(vs, id, st)
  {
  }

  /** The visitors with `id` whose status is not already `st`. */
  function Changing(vs: seq<Visitor>, id: string, st: Status): seq<Visitor> {
    Filter(vs, (v: Visitor) => v.id == id && v.status != st)
  }

  /**
    The update leaves the total alone and adds to the count of `st` exactly
    the visitors with that id that did not have it; a visitor with a
    different id is never counted in or out.
   */
  lemma {:induction false} SetStatusCounts(vs: seq<Visitor>, id: string, st: Status)
    ensures StatsOf(SetStatus(vs, id, st)).total == StatsOf(vs).total
    ensures CountStatus(SetStatus(vs, id, st), st) == CountStatus(vs, st) + |Changing(vs, id, st)|
  {
    if vs != [] {
      var r := SetStatus(vs, id, st);
      assert r[1..] == SetStatus(vs[1..], id, st);
      SetStatusCounts(vs[1..], id, st);
      assert CountStatus(r, st) == (if r[0].status == st then 1 else 0) + CountStatus(r[1..], st);
      assert CountStatus(vs, st) == (if vs[0].status == st then 1 else 0) + CountStatus(vs[1..], st);
      assert |Changing(vs, id, st)| == (if vs[0].id == id && vs[0].status != st then 1 else 0) + |Changing(vs[1..], id, st)|;
    }
  }

  /** `visitors.slice(0, 10)`: the first ten visitors, or all of them when there are fewer. */
  function RecentVisitors(vs: seq<Visitor>): (r: seq<Visitor>)
    ensures |r| <= 10 && |r| <= |vs|
    ensures |r| == |vs| || |r| == 10
    ensures r == vs[..|r|]
  {
    if |vs| <= 10 then vs else vs[..10]
  }
}
