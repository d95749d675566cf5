/** The record of the places the agent gives up, and its ranking. */
module Friction {
  import opened Text
  import opened StableSort

  const DETAIL_MAX: nat := 400
  const MAX_RECORDS: nat := 5000

  datatype Record = Record(at: string, session: string, kind: string, tool: Option<string>, attempts: nat,
                           detail: string, model: string)

  type Key = (string, Option<string>)

  datatype Group = Group(kind: string, tool: Option<string>, count: nat, attemptsMax: nat, lastAt: string,
                         detail: string, model: string)

  function KeyOf(r: Record): Key {
    (r.kind, r.tool)
  }

  /** a <= b, character by character */
  predicate Leq(a: string, b: string) {
    a == "" || (b != "" && (a[0] < b[0] || (a[0] == b[0] && Leq(a[1..], b[1..]))))
  }

  lemma {:induction false} LeqTotal(a: string, b: string)
    ensures Leq(a, b) || Leq(b, a)
    ensures Leq(a, b) && Leq(b, a) ==> a == b
    decreases |a|
  {
    if a != "" && b != "" {
      LeqTotal(a[1..], b[1..]);
      assert a == [a[0]] + a[1..] && b == [b[0]] + b[1..];
    }
  }

  lemma {:induction false} LeqTrans(a: string, b: string, c: string)
    requires Leq(a, b) && Leq(b, c)
    ensures Leq(a, c)
    decreases |a|
  {
    if a != "" && b != "" && c != "" && a[0] == b[0] == c[0] { LeqTrans(a[1..], b[1..], c[1..]); }
  }

  // ---- grouping ----------------------------------------------------------------------

  function Fresh(k: Key): Group {
    Group(k.0, k.1, 0, 0, "", "", "")
  }

  /** One more record of a group. */
  function Counted(g: Group, r: Record): Group {
    var more := g.(count := g.count + 1, attemptsMax := if r.attempts > g.attemptsMax then r.attempts else g.attemptsMax);
    if Leq(g.lastAt, r.at) then more.(lastAt := r.at, detail := r.detail, model := r.model) else more
  }

  /** The records of one kind and tool. */
  function Of(records: seq<Record>, k: Key): seq<Record> {
    if records == [] then []
    else
      var n := |records| - 1;
      Of(records[..n], k) + if KeyOf(records[n]) == k then [records[n]] else []
  }

  function GroupOf(records: seq<Record>, k: Key): Group {
    if records == [] then Fresh(k)
    else
      var n := |records| - 1;
      var before := GroupOf(records[..n], k);
      if KeyOf(records[n]) == k then Counted(before, records[n]) else before
  }

  /** Kinds and tools in order of first appearance. */
  function Keys(records: seq<Record>): seq<Key> {
    if records == [] then []
    else
      var n := |records| - 1;
      var before := Keys(records[..n]);
      if KeyOf(records[n]) in before then before else before + [KeyOf(records[n])]
  }

  function Groups(records: seq<Record>): seq<Group> {
    var ks := Keys(records);
    seq(|ks|, i requires 0 <= i < |ks| => GroupOf(records, ks[i]))
  }

  /** Record i is the last with the group's date, and the group shows it. */
  predicate Shows(g: Group, rs: seq<Record>, i: nat) {
    && i < |rs| && rs[i].at == g.lastAt && rs[i].detail == g.detail && rs[i].model == g.model
    && forall j :: i < j < |rs| ==> rs[j].at != g.lastAt
  }

  /** The group counts these records; its date is the latest of theirs, and its detail and model are
      those of the last record with that date. */
  ghost predicate Means(g: Group, rs: seq<Record>, k: Key) {
    && g.kind == k.0 && g.tool == k.1 && g.count == |rs|
    && (forall i :: 0 <= i < |rs| ==> rs[i].attempts <= g.attemptsMax && Leq(rs[i].at, g.lastAt))
    && (rs != [] ==> exists i :: 0 <= i < |rs| && rs[i].attempts == g.attemptsMax)
    && (if rs == [] then g == Fresh(k) else exists i :: Shows(g, rs, i))
  }

  lemma {:induction false} GroupMeans(records: seq<Record>, k: Key)
    ensures Means(GroupOf(records, k), Of(records, k), k)
    decreases |records|
  {
    hide Means;
    if records == [] {
      FreshMeans(k);
    } else {
      var n := |records| - 1;
      var r, init := records[n], records[..n];
      GroupMeans(init, k);
      if KeyOf(r) == k {
        GroupMeansNext(GroupOf(init, k), Of(init, k), r, k);
      } else {
        assert Of(init, k) + [] == Of(init, k);
      }
    }
  }

  lemma FreshMeans(k: Key)
    ensures Means(Fresh(k), [], k)
  {}

  lemma GroupMeansNext(g: Group, rs: seq<Record>, r: Record, k: Key)
    requires Means(g, rs, k)
    ensures Means(Counted(g, r), rs + [r], k)
  {
    var g', all := Counted(g, r), rs + [r];
    assert rs == [] ==> Leq(g.lastAt, r.at);
    hide Leq;
    LeqTotal(g.lastAt, r.at);
    LeqTotal(r.at, r.at);
    forall i | 0 <= i < |rs| && Leq(g.lastAt, r.at) ensures Leq(rs[i].at, r.at) {
      LeqTrans(rs[i].at, g.lastAt, r.at);
    }
    if g'.attemptsMax == r.attempts {
      assert all[|rs|].attempts == g'.attemptsMax;
    } else {
      var i :| 0 <= i < |rs| && rs[i].attempts == g.attemptsMax;
      assert all[i].attempts == g'.attemptsMax;
    }
    if Leq(g.lastAt, r.at) {
      assert Shows(g', all, |rs|);
    } else {
      var i: nat :| Shows(g, rs, i);
      assert Shows(g', all, i);
    }
  }

  lemma {:induction false} KeysMean(records: seq<Record>, k: Key)
    ensures k in Keys(records) <==> Of(records, k) != []
    ensures forall i, j :: 0 <= i < j < |Keys(records)| ==> Keys(records)[i] != Keys(records)[j]
    decreases |records|
  {
    if records != [] { KeysMean(records[..|records| - 1], k); }
  }

  function Total(groups: seq<Group>): nat {
    if groups == [] then 0 else groups[0].count + Total(groups[1..])
  }

  lemma {:induction false} TotalConcat(a: seq<Group>, b: seq<Group>)
    ensures Total(a + b) == Total(a) + Total(b)
    decreases |a|
  {
    if a == [] {
      assert a + b == b;
    } else {
      TotalConcat(a[1..], b);
      assert (a + b)[1..] == a[1..] + b;
    }
  }

  lemma {:induction false} TotalSwap(gs: seq<Group>, i: nat, g: Group)
    requires i < |gs|
    ensures Total(gs[i := g]) == Total(gs) - gs[i].count + g.count
    decreases |gs|
  {
    if i > 0 {
      TotalSwap(gs[1..], i - 1, g);
      assert gs[i := g][1..] == gs[1..][i - 1 := g];
    } else {
      assert gs[i := g][1..] == gs[1..];
    }
  }

  /** Every record is counted in one group. */
  lemma {:induction false} CountsPartition(records: seq<Record>)
    ensures Total(Groups(records)) == |records|
    decreases |records|
  {
    if records != [] {
      var n := |records| - 1;
      var r, init := records[n], records[..n];
      var k := KeyOf(r);
      CountsPartition(init);
      GroupsNext(init, r);
      assert init + [r] == records;
      KeysMean(init, k);
      if k in Keys(init) {
        var i :| 0 <= i < |Keys(init)| && Keys(init)[i] == k;
        TotalSwap(Groups(init), i, Counted(GroupOf(init, k), r));
      } else {
        TotalConcat(Groups(init), [Counted(GroupOf(init, k), r)]);
        GroupMeans(init, k);
      }
    }
  }

  /** One more record changes one group, or adds one. */
  lemma GroupsNext(records: seq<Record>, r: Record)
    ensures var k, gs := KeyOf(r), Groups(records);
            && (forall i :: 0 <= i < |gs| && Keys(records)[i] == k ==>
                  Groups(records + [r]) == gs[i := Counted(GroupOf(records, k), r)])
            && (k !in Keys(records) ==> Groups(records + [r]) == gs + [Counted(GroupOf(records, k), r)])
  {
    var all, k := records + [r], KeyOf(r);
    assert all[..|records|] == records;
    KeysMean(records, k);
    forall j ensures GroupOf(all, j) == if j == k then Counted(GroupOf(records, k), r) else GroupOf(records, j) {}
  }

  // ---- the log --------------------------------------------------------------------------

  function Count(g: Group): int {
    g.count
  }

  predicate Newer(x: Group, y: Group) {
    Leq(y.lastAt, x.lastAt)
  }

  lemma NewerIsOrder()
    ensures Order(Newer)
  {
    forall x: Group, y: Group ensures Newer(x, y) || Newer(y, x) { LeqTotal(x.lastAt, y.lastAt); }
    forall x: Group, y: Group, z: Group | Newer(x, y) && Newer(y, z) ensures Newer(x, z) {
      LeqTrans(z.lastAt, y.lastAt, x.lastAt);
    }
  }

  /** Most frequent first, and among equals the most recent first. */
  predicate Above(x: Group, y: Group) {
    x.count > y.count || (x.count == y.count && Newer(x, y))
  }

  class FrictionLog {
    var records: seq<Record>

    constructor (records: seq<Record>)
      ensures this.records == records
    {
      this.records := records;
    }

    /** Append a record, dropping the oldest past the limit; `saved` is whether the file could be
        written, which the caller is told and nothing else. */
    method Add(at: string, session: string, kind: string, tool: Option<string>, attempts: nat, detail: string,
               model: string, saved: bool) returns (r: Option<Record>)
      modifies this
      ensures |records| <= 5000 && records != []
      ensures var all := old(records) + [records[|records| - 1]];
              records == if |all| > 5000 then all[|all| - 5000..] else all
      ensures r.Some? <==> saved
      ensures r.Some? ==> r.value == records[|records| - 1]
      ensures var last := records[|records| - 1];
              && last.at == at && last.session == session && last.kind == kind && last.attempts == attempts && last.model == model
              && last.tool == (if tool == Some("") then None else tool)
              && last.detail <= detail && |last.detail| == (if |detail| > 400 then 400 else |detail|)
    {
      var rec := Record(at, session, kind, if tool == Some("") then None else tool, attempts,
                        if |detail| > DETAIL_MAX then detail[..DETAIL_MAX] else detail, model);
      records := records + [rec];
      if |records| > MAX_RECORDS {
        records := records[|records| - MAX_RECORDS..];
      }
      return if saved then Some(rec) else None;
    }

    /** The groups of the records, ranked. */
    method Summary() returns (out: seq<Group>)
      ensures multiset(out) == multiset(Groups(records))
      ensures forall i, j :: 0 <= i < j < |out| ==> Above(out[i], out[j])
      ensures out == Sort(Groups(records), Then(Count, Newer))
    {
      hide Sort;
      hide Groups;
      hide Above;
      out := Grouped();
      out := Sort(out, Newer);
      out := Sort(out, By(Count));
      Ranked(Groups(records));
    }

    /** The dictionary of groups, filled record by record; its values in order of insertion. */
    method Grouped() returns (values: seq<Group>)
      ensures values == Groups(records)
    {
      hide Keys;
      hide GroupOf;
      hide Leq;
      var groups: map<Key, Group>, order: seq<Key> := map[], [];
      NoKeys();
      assert records[..0] == [];
      for i := 0 to |records|
        invariant order == Keys(records[..i])
        invariant forall k :: k in groups <==> k in order
        invariant forall k :: k in groups ==> groups[k] == GroupOf(records[..i], k)
      {
        var r := records[i];
        var k := KeyOf(r);
        assert records[..i + 1] == records[..i] + [r];
        OneMore(records[..i], r);
        if k !in groups {
          groups := groups[k := Fresh(k)];
          order := order + [k];
        }
        var g := CountIn(groups[k], r);
        groups := groups[k := g];
      }
      assert records[..|records|] == records;
      values := seq(|order|, i requires 0 <= i < |order| && order[i] in groups => groups[order[i]]);
    }

    static method CountIn(g0: Group, r: Record) returns (g: Group)
      ensures g == Counted(g0, r)
    {
      g := g0.(count := g0.count + 1, attemptsMax := if r.attempts > g0.attemptsMax then r.attempts else g0.attemptsMax);
      if Leq(g.lastAt, r.at) {
        g := g.(lastAt := r.at, detail := r.detail, model := r.model);
      }
    }
  }

  lemma NoKeys()
    ensures Keys([]) == []
  {}

  lemma OneMore(records: seq<Record>, r: Record)
    ensures var k, ks := KeyOf(r), Keys(records);
            && Keys(records + [r]) == (if k in ks then ks else ks + [k])
            && (forall j :: j != k ==> GroupOf(records + [r], j) == GroupOf(records, j))
            && GroupOf(records + [r], k) == Counted(if k in ks then GroupOf(records, k) else Fresh(k), r)
  {
    assert (records + [r])[..|records|] == records;
    if KeyOf(r) !in Keys(records) { NoGroupYet(records, KeyOf(r)); }
  }

  lemma NoGroupYet(records: seq<Record>, k: Key)
    requires k !in Keys(records)
    ensures GroupOf(records, k) == Fresh(k)
  {
    KeysMean(records, k);
    GroupMeans(records, k);
  }

  lemma AboveIs(x: Group, y: Group)
    ensures Then(Count, Newer)(x, y) <==> Above(x, y)
  {
    var first: Group -> int, second: (Group, Group) -> bool := Count, Newer;
    assert first(x) == x.count && first(y) == y.count;
    assert second(x, y) == Newer(x, y);
    assert Then(first, second)(x, y) == (first(x) > first(y) || (first(x) == first(y) && second(x, y)));
  }

  /** Sorting by date and then by count ranks by both. */
  lemma Ranked(gs: seq<Group>)
    ensures var out := Sort(Sort(gs, Newer), By(Count));
            && out == Sort(gs, Then(Count, Newer)) && multiset(out) == multiset(gs)
            && forall i, j :: 0 <= i < j < |out| ==> Above(out[i], out[j])
  {
    hide Order;
    hide Sort;
    hide Leq;
    NewerIsOrder();
    TwoSortsAreOne(gs, Count, Newer);
    ThenIsOrder(Count, Newer);
    SortSorts(gs, Then(Count, Newer));
    var out := Sort(gs, Then(Count, Newer));
    forall i, j | 0 <= i < j < |out| ensures Above(out[i], out[j]) {
      AboveIs(out[i], out[j]);
    }
  }
}
