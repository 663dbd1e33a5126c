/**
  The two autocomplete lists of the watchman's visitor form.

  Resident names: `residentMap` maps a resident's name to their resident
  and society ids, built from the user documents in order (a later
  document with the same name overwrites an earlier one); the suggestions
  are the names that start with the input, ignoring case.

  Purposes: a frequency table of the lower-cased purposes of all visitors
  (empty purposes skipped), sorted by count, highest first; the
  suggestions are the sorted purposes that start with the lower-cased
  input.
 */
module Suggestions {
  import opened Wrappers
  import opened Text
  import opened Seqs
  import opened UserTypes
  import opened Dict

  /** A dropdown: its items and whether it is shown. */
  datatype Dropdown = Dropdown(items: seq<string>, shown: bool)

  // ---------------------------------------------------------------------
  // Resident names.

  datatype ResidentRef = ResidentRef(residentId: string, societyId: string)

  /** A document enters the map only if its resident name, resident id and society id are all non-empty. */
  predicate Listed(d: ProfileDoc) {
    Truthy(d.residentName) && Truthy(d.residentId) && Truthy(d.societyId)
  }

  function RefOf(d: ProfileDoc): ResidentRef
    requires Listed(d)
  {
    ResidentRef(d.residentId.value, d.societyId.value)
  }

  predicate ListedAs(d: ProfileDoc, name: string) {
    Listed(d) && d.residentName.value == name
  }

  function ResidentMapOf(docs: seq<ProfileDoc>): Dict<ResidentRef> {
    if docs == [] then []
    else
      var m, d := ResidentMapOf(docs[..|docs| - 1]), docs[|docs| - 1];
      if Listed(d) then Put(m, d.residentName.value, RefOf(d)) else m
  }

  /** The `snapshot.forEach` loop that fills `residentMap`. */
  method BuildResidentMap(docs: seq<ProfileDoc>) returns (m: Dict<ResidentRef>)
    ensures m == ResidentMapOf(docs)
  {
    m := [];
    var i := 0;
    while i < |docs|
      invariant 0 <= i <= |docs|
      invariant m == ResidentMapOf(docs[..i])
    {
      var d := docs[i];
      if Truthy(d.residentName) && Truthy(d.residentId) && Truthy(d.societyId) {
        m := Put(m, d.residentName.value, ResidentRef(d.residentId.value, d.societyId.value));
      }
      assert docs[..i + 1][..i] == docs[..i];
      i := i + 1;
    }
    assert docs[..|docs|] == docs;
  }

  /** Reference reading: the entry of the latest listed document with that name. */
  function LatestListed(docs: seq<ProfileDoc>, name: string): Option<ResidentRef> {
    if docs == [] then None
    else if ListedAs(docs[|docs| - 1], name) then Some(RefOf(docs[|docs| - 1]))
    else LatestListed(docs[..|docs| - 1], name)
  }

  /** The map has no duplicate names, and each name reads the entry of its latest listed document. */
  lemma {:induction false} ResidentMapLookup(docs: seq<ProfileDoc>)
    ensures Valid(ResidentMapOf(docs))
    ensures forall name :: Get(ResidentMapOf(docs), name) == LatestListed(docs, name)
  {
    if docs != [] {
      var front, d := docs[..|docs| - 1], docs[|docs| - 1];
      ResidentMapLookup(front);
      if Listed(d) {
        PutSpec(ResidentMapOf(front), d.residentName.value, RefOf(d));
      }
    }
  }

  /**
    `LatestListed` means what it says: it yields `r` iff some listed document
    with that name has entry `r` and no later document is listed with that name.
   */
  lemma {:induction false} LatestListedMeans(docs: seq<ProfileDoc>, name: string, r: ResidentRef)
    ensures LatestListed(docs, name) == Some(r) <==>
      exists i :: 0 <= i < |docs| && ListedAs(docs[i], name) && RefOf(docs[i]) == r &&
        forall j :: i < j < |docs| ==> !ListedAs(docs[j], name)
  {
    if docs != [] {
      var n := |docs| - 1;
      var front := docs[..n];
      LatestListedMeans(front, name, r);
      if ListedAs(docs[n], name) {
        if LatestListed(docs, name) != Some(r) {
          forall i | 0 <= i < |docs| && ListedAs(docs[i], name) && RefOf(docs[i]) == r
            ensures exists j :: i < j < |docs| && ListedAs(docs[j], name)
          {
            assert i != n;
          }
        }
      } else {
        if LatestListed(docs, name) == Some(r) {
          var i :| 0 <= i < |front| && ListedAs(front[i], name) && RefOf(front[i]) == r &&
            forall j :: i < j < |front| ==> !ListedAs(front[j], name);
          assert docs[i] == front[i];
          assert forall j :: i < j < |docs| ==> !ListedAs(docs[j], name) by {
            forall j | i < j < |docs| ensures !ListedAs(docs[j], name) {
              if j < n { assert docs[j] == front[j]; }
            }
          }
        } else {
          forall i | 0 <= i < |docs| && ListedAs(docs[i], name) && RefOf(docs[i]) == r
            ensures exists j :: i < j < |docs| && ListedAs(docs[j], name)
          {
            assert i < n && docs[i] == front[i];
            var j :| i < j < |front| && ListedAs(front[j], name);
            assert docs[j] == front[j];
          }
        }
      }
    }
  }

  /**
    `updateResidentSuggestions`: an empty input hides an empty list;
    otherwise the list is the map's names that start with the input when
    both are lower-cased, in key order, shown iff it is non-empty.
   */
  function ResidentSuggestions(m: Dict<ResidentRef>, input: string): (r: Dropdown)
    ensures input == "" ==> r == Dropdown([], false)
    ensures input != "" ==>
      && (forall i :: 0 <= i < |r.items| ==> r.items[i] in Keys(m) && StartsWith(Lower(r.items[i]), Lower(input)))
      && (forall k :: k in Keys(m) && StartsWith(Lower(k), Lower(input)) ==> k in r.items)
      && KeepsOrder(r.items, Keys(m))
      && (r.shown <==> r.items != [])
  {
    if input == "" then Dropdown([], false)
    else
      var matches := (name: string) => StartsWith(Lower(name), Lower(input));
      var filtered := Filter(Keys(m), matches);
      FilterKeepsOrder(Keys(m), matches);
      assert forall k :: k in Keys(m) ==> exists i :: 0 <= i < |Keys(m)| && Keys(m)[i] == k;
      Dropdown(filtered, |filtered| > 0)
  }

  // ---------------------------------------------------------------------
  // Purposes.

  /** The number of visitors whose lower-cased purpose is `p`. */
  function PurposeCount(vs: seq<Visitor>, p: string): nat {
    if vs == [] then 0
    else PurposeCount(vs[..|vs| - 1], p) + (if Lower(vs[|vs| - 1].purpose) == p then 1 else 0)
  }

  function PurposeFrequencyOf(vs: seq<Visitor>): Dict<nat> {
    if vs == [] then []
    else
      var f, p := PurposeFrequencyOf(vs[..|vs| - 1]), Lower(vs[|vs| - 1].purpose);
      if p == "" then f else Put(f, p, Get(f, p).GetOr(0) + 1)
  }

  /** The `visitors.forEach` loop that fills `purposeFrequencyMap`. */
  method BuildPurposeFrequency(vs: seq<Visitor>) returns (f: Dict<nat>)
    ensures f == PurposeFrequencyOf(vs)
  {
    f := [];
    var i := 0;
    while i < |vs|
      invariant 0 <= i <= |vs|
      invariant f == PurposeFrequencyOf(vs[..i])
    {
      var p := Lower(vs[i].purpose);
      assert vs[..i + 1][..i] == vs[..i] && vs[..i + 1][i] == vs[i];
      if p != "" {
        f := Put(f, p, Get(f, p).GetOr(0) + 1);
      }
      i := i + 1;
    }
    assert vs[..|vs|] == vs;
  }

  /**
    The table has each purpose once; a non-empty lower-cased purpose reads
    the number of visitors with that purpose, and the empty purpose is absent.
   */
  lemma {:induction false} PurposeFrequencyCounts(vs: seq<Visitor>)
    ensures Valid(PurposeFrequencyOf(vs))
    ensures forall p :: Get(PurposeFrequencyOf(vs), p) ==
                        if p != "" && PurposeCount(vs, p) > 0 then Some(PurposeCount(vs, p)) else None
  {
    if vs != [] {
      var front, v := vs[..|vs| - 1], vs[|vs| - 1];
      PurposeFrequencyCounts(front);
      var f, p := PurposeFrequencyOf(front), Lower(v.purpose);
      if p != "" {
        PutSpec(f, p, Get(f, p).GetOr(0) + 1);
      }
      forall q ensures Get(PurposeFrequencyOf(vs), q) ==
                       if q != "" && PurposeCount(vs, q) > 0 then Some(PurposeCount(vs, q)) else None
      {
        assert PurposeCount(vs, q) == PurposeCount(front, q) + (if p == q then 1 else 0);
      }
    }
  }

  predicate NonIncreasing(s: Dict<nat>) {
    forall i, j :: 0 <= i < j < |s| ==> s[i].val >= s[j].val
  }

  /** Inserts `e` after every entry whose count is at least `e`'s. */
  function InsertByCount(e: Entry<nat>, s: Dict<nat>): Dict<nat> {
    if s == [] then [e]
    else if s[0].val >= e.val then [s[0]] + InsertByCount(e, s[1..])
    else [e] + s
  }

  /** `Object.entries(m).sort((a, b) => b[1] - a[1])`, as an insertion sort. */
  function SortByCount(s: Dict<nat>): Dict<nat> {
    if s == [] then [] else InsertByCount(s[|s| - 1], SortByCount(s[..|s| - 1]))
  }

  /** Inserting adds exactly `e`: one entry more, the same entries and keys besides, and no key twice. */
  lemma {:induction false} InsertByCountContents(e: Entry<nat>, s: Dict<nat>)
    ensures |InsertByCount(e, s)| == |s| + 1
    ensures forall x :: x in InsertByCount(e, s) <==> x == e || x in s
    ensures forall k :: k in Keys(InsertByCount(e, s)) <==> k == e.key || k in Keys(s)
    ensures Valid(s) && e.key !in Keys(s) ==> Valid(InsertByCount(e, s))
  {
    var r := InsertByCount(e, s);
    if s != [] {
      KeysTail(s);
      KeysTail(r);
      if s[0].val >= e.val {
        var t := InsertByCount(e, s[1..]);
        InsertByCountContents(e, s[1..]);
        assert r[0] == s[0] && r[1..] == t;
        if Valid(s) && e.key !in Keys(s) {
          ValidTail(s);
          assert s[0].key !in Keys(t);
        }
      } else {
        assert r[1..] == s;
      }
    } else {
      assert Keys(r) == [e.key];
    }
  }

  /** Inserting into a table with non-increasing counts keeps the counts non-increasing. */
  lemma {:induction false} InsertByCountOrdered(e: Entry<nat>, s: Dict<nat>)
    requires NonIncreasing(s)
    ensures NonIncreasing(InsertByCount(e, s))
  {
    var r := InsertByCount(e, s);
    if s != [] {
      if s[0].val >= e.val {
        var t := InsertByCount(e, s[1..]);
        InsertByCountOrdered(e, s[1..]);
        InsertByCountContents(e, s[1..]);
        assert r[0] == s[0] && r[1..] == t;
        forall i, j | 0 <= i < j < |r| ensures r[i].val >= r[j].val {
          if i == 0 {
            assert r[j] in t;
            if r[j] != e {
              var k :| 0 <= k < |s[1..]| && s[1..][k] == r[j];
              assert s[k + 1] == r[j];
            }
          } else {
            assert r[i] == t[i - 1] && r[j] == t[j - 1];
          }
        }
      } else {
        assert r[1..] == s;
        forall i, j | 0 <= i < j < |r| ensures r[i].val >= r[j].val {
          if i == 0 { assert r[j] == s[j - 1]; assert s[0].val >= s[j - 1].val || j == 1; }
          else { assert r[i] == s[i - 1] && r[j] == s[j - 1]; }
        }
      }
    }
  }

  lemma InsertByCountSpec(e: Entry<nat>, s: Dict<nat>)
    requires NonIncreasing(s)
    ensures NonIncreasing(InsertByCount(e, s))
    ensures |InsertByCount(e, s)| == |s| + 1
    ensures forall x :: x in InsertByCount(e, s) <==> x == e || x in s
    ensures forall k :: k in Keys(InsertByCount(e, s)) <==> k == e.key || k in Keys(s)
    ensures Valid(s) && e.key !in Keys(s) ==> Valid(InsertByCount(e, s))
  {
    InsertByCountContents(e, s);
    InsertByCountOrdered(e, s);
  }

  /**
    Sorting gives non-increasing counts and is a rearrangement of the
    table: the same entries, as many, each key still once.
   */
  lemma {:induction false} SortByCountSpec(s: Dict<nat>)
    requires Valid(s)
    ensures NonIncreasing(SortByCount(s))
    ensures |SortByCount(s)| == |s|
    ensures forall x :: x in SortByCount(s) <==> x in s
    ensures forall k :: k in Keys(SortByCount(s)) <==> k in Keys(s)
    ensures Valid(SortByCount(s))
  {
    if s != [] {
      var n := |s| - 1;
      var front := s[..n];
      assert s == front + [s[n]];
      assert Keys(s) == Keys(front) + [s[n].key];
      assert Valid(front) by {
        forall i, j | 0 <= i < j < |Keys(front)| ensures Keys(front)[i] != Keys(front)[j] {
          assert Keys(front)[i] == Keys(s)[i] && Keys(front)[j] == Keys(s)[j];
        }
      }
      assert s[n].key !in Keys(front) by {
        forall i | 0 <= i < |Keys(front)| ensures Keys(front)[i] != s[n].key {
          assert Keys(front)[i] == Keys(s)[i] && Keys(s)[n] == s[n].key;
        }
      }
      SortByCountSpec(front);
      InsertByCountSpec(s[n], SortByCount(front));
    }
  }

  /** The entries with count `c`, in table order. */
  function WithCount(s: Dict<nat>, c: nat): Dict<nat> {
    if s == [] then [] else (if s[0].val == c then [s[0]] else []) + WithCount(s[1..], c)
  }

  lemma {:induction false} WithCountConcat(a: Dict<nat>, b: Dict<nat>, c: nat)
    ensures WithCount(a + b, c) == WithCount(a, c) + WithCount(b, c)
  {
    if a == [] {
      assert a + b == b;
    } else {
      var h := if a[0].val == c then [a[0]] else [];
      assert (a + b)[0] == a[0] && (a + b)[1..] == a[1..] + b;
      assert WithCount(a + b, c) == h + WithCount(a[1..] + b, c);
      assert WithCount(a, c) == h + WithCount(a[1..], c);
      WithCountConcat(a[1..], b, c);
      assert h + (WithCount(a[1..], c) + WithCount(b, c)) == (h + WithCount(a[1..], c)) + WithCount(b, c);
    }
  }

  lemma {:induction false} WithCountNone(s: Dict<nat>, c: nat)
    requires forall i :: 0 <= i < |s| ==> s[i].val < c
    ensures WithCount(s, c) == []
  {
    if s != [] {
      WithCountNone(s[1..], c);
    }
  }

  /** Inserting `e` places it after every entry of its own count already in the table. */
  lemma {:induction false} InsertByCountStable(e: Entry<nat>, s: Dict<nat>, c: nat)
    requires NonIncreasing(s)
    ensures WithCount(InsertByCount(e, s), c) == WithCount(s, c) + (if e.val == c then [e] else [])
  {
    var r := InsertByCount(e, s);
    if s == [] {
      assert r == [e];
    } else if s[0].val >= e.val {
      var t := InsertByCount(e, s[1..]);
      assert r[0] == s[0] && r[1..] == t;
      InsertByCountStable(e, s[1..], c);
      assert WithCount(r, c) == (if s[0].val == c then [s[0]] else []) + WithCount(t, c);
      assert WithCount(s, c) == (if s[0].val == c then [s[0]] else []) + WithCount(s[1..], c);
    } else {
      assert r[0] == e && r[1..] == s;
      assert WithCount(r, c) == (if e.val == c then [e] else []) + WithCount(s, c);
      if e.val == c {
        WithCountNone(s, c);
      }
    }
  }

  lemma {:induction false} SortByCountOrdered(s: Dict<nat>)
    ensures NonIncreasing(SortByCount(s))
  {
    if s != [] {
      SortByCountOrdered(s[..|s| - 1]);
      InsertByCountOrdered(s[|s| - 1], SortByCount(s[..|s| - 1]));
    }
  }

  /**
    The sort is stable: for every count, the entries with that count come
    out in the order they had in the table.
   */
  lemma {:induction false} SortByCountStable(s: Dict<nat>, c: nat)
    ensures WithCount(SortByCount(s), c) == WithCount(s, c)
  {
    if s != [] {
      var front, last := s[..|s| - 1], s[|s| - 1];
      SortByCountStable(front, c);
      SortByCountOrdered(front);
      InsertByCountStable(last, SortByCount(front), c);
      assert s == front + [last];
      WithCountConcat(front, [last], c);
      assert WithCount([last], c) == (if last.val == c then [last] else []) + WithCount([], c);
    }
  }

  /** `sortedPurposes` */
  function SortedPurposes(f: Dict<nat>): seq<string> {
    Keys(SortByCount(f))
  }

  /**
    The sorted purposes are the distinct non-empty lower-cased purposes,
    each once, with non-increasing visitor counts.
   */
  lemma SortedPurposesSpec(vs: seq<Visitor>)
    ensures NoDup(SortedPurposes(PurposeFrequencyOf(vs)))
    ensures forall p :: p in SortedPurposes(PurposeFrequencyOf(vs)) <==> p != "" && PurposeCount(vs, p) > 0
    ensures forall i, j :: 0 <= i < j < |SortedPurposes(PurposeFrequencyOf(vs))| ==>
      PurposeCount(vs, SortedPurposes(PurposeFrequencyOf(vs))[i]) >= PurposeCount(vs, SortedPurposes(PurposeFrequencyOf(vs))[j])
  {
    var f := PurposeFrequencyOf(vs);
    PurposeFrequencyCounts(vs);
    SortByCountSpec(f);
    var s := SortByCount(f);
    forall p ensures p in Keys(f) <==> p != "" && PurposeCount(vs, p) > 0 {
      GetPresent(f, p);
    }
    forall i | 0 <= i < |s| ensures PurposeCount(vs, s[i].key) == s[i].val {
      assert s[i] in f;
      var k :| 0 <= k < |f| && f[k] == s[i];
      GetEntry(f, k);
    }
  }

  /**
    `updatePurposeSuggestions`: an empty input hides an empty list;
    otherwise the list is the sorted purposes that start with the
    lower-cased input, in sorted order, shown iff non-empty.
   */
  function PurposeSuggestions(sorted: seq<string>, input: string): (r: Dropdown)
    ensures input == "" ==> r == Dropdown([], false)
    ensures input != "" ==>
      && (forall i :: 0 <= i < |r.items| ==> r.items[i] in sorted && StartsWith(r.items[i], Lower(input)))
      && (forall p :: p in sorted && StartsWith(p, Lower(input)) ==> p in r.items)
      && KeepsOrder(r.items, sorted)
      && (r.shown <==> r.items != [])
  {
    if input == "" then Dropdown([], false)
    else
      var matches := (p: string) => StartsWith(p, Lower(input));
      var filtered := Filter(sorted, matches);
      FilterKeepsOrder(sorted, matches);
      assert forall p :: p in sorted ==> exists i :: 0 <= i < |sorted| && sorted[i] == p;
      Dropdown(filtered, |filtered| > 0)
  }

  /** Neither dropdown lists a name or a purpose twice. */
  lemma SuggestionsDistinct(m: Dict<ResidentRef>, sorted: seq<string>, input: string)
    requires Valid(m) && NoDup(sorted)
    ensures NoDup(ResidentSuggestions(m, input).items)
    ensures NoDup(PurposeSuggestions(sorted, input).items)
  {
    if input != "" {
      FilterNoDup(Keys(m), (name: string) => StartsWith(Lower(name), Lower(input)));
      FilterNoDup(sorted, (p: string) => StartsWith(p, Lower(input)));
    }
  }

  /**
    The purpose dropdown lists the matching purposes most frequent first,
    each once.
   */
  lemma PurposeSuggestionsByFrequency(vs: seq<Visitor>, input: string)
    ensures NoDup(PurposeSuggestions(SortedPurposes(PurposeFrequencyOf(vs)), input).items)
    ensures var items := PurposeSuggestions(SortedPurposes(PurposeFrequencyOf(vs)), input).items;
      forall i, j :: 0 <= i < j < |items| ==> PurposeCount(vs, items[i]) >= PurposeCount(vs, items[j])
  {
    var sorted := SortedPurposes(PurposeFrequencyOf(vs));
    var items := PurposeSuggestions(sorted, input).items;
    var count := (p: string) => PurposeCount(vs, p);
    SortedPurposesSpec(vs);
    SuggestionsDistinct([], sorted, input);
    assert forall i, j :: 0 <= i < j < |sorted| ==> count(sorted[i]) >= count(sorted[j]);
    if input != "" {
      KeepsOrderDescending(items, sorted, count);
    }
  }
}
