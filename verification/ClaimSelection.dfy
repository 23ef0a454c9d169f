/** Filtering and sorting the hosts that a machine may claim. */
module ClaimSelection {
  import opened Common
  import opened Records
  import opened MachineProtocol

  // ---------- Candidates ----------

  predicate SortedByName(items: seq<Listed>) {
    forall i, j :: 0 <= i < j < |items| ==> !StringLess(items[j].name, items[i].name)
  }

  function InsertByName(item: Listed, sorted: seq<Listed>): (r: seq<Listed>)
    ensures multiset(r) == multiset{item} + multiset(sorted)
  {
    if sorted == [] then [item]
    else if StringLess(item.name, sorted[0].name) then [item] + sorted
    else
      assert sorted == [sorted[0]] + sorted[1..];
      [sorted[0]] + InsertByName(item, sorted[1..])
  }

  lemma {:induction false} InsertSorted(item: Listed, sorted: seq<Listed>)
    requires SortedByName(sorted)
    ensures SortedByName(InsertByName(item, sorted))
  {
    if sorted != [] {
      if StringLess(item.name, sorted[0].name) {
        HeadFirst(item, sorted);
      } else {
        InsertSorted(item, sorted[1..]);
        var rest := InsertByName(item, sorted[1..]);
        forall x | x in rest
          ensures !StringLess(x.name, sorted[0].name)
        {
          assert x in multiset(rest);
          if x != item {
            assert x in sorted[1..];
          }
        }
      }
    }
  }

  lemma HeadFirst(item: Listed, sorted: seq<Listed>)
    requires SortedByName(sorted) && sorted != [] && StringLess(item.name, sorted[0].name)
    ensures SortedByName([item] + sorted)
  {
    forall x | x in sorted
      ensures !StringLess(x.name, item.name)
    {
      if StringLess(x.name, item.name) {
        StringLessTransitive(x.name, item.name, sorted[0].name);
        StringLessTotal(x.name, x.name);
      }
    }
  }

  /** sort.Slice by name. */
  method SortByName(items: seq<Listed>) returns (sorted: seq<Listed>)
    ensures SortedByName(sorted) && multiset(sorted) == multiset(items)
  {
    sorted := [];
    var i := 0;
    while i < |items|
      invariant 0 <= i <= |items|
      invariant SortedByName(sorted) && multiset(sorted) == multiset(items[..i])
    {
      InsertSorted(items[i], sorted);
      assert items[..i + 1] == items[..i] + [items[i]];
      sorted := InsertByName(items[i], sorted);
      i := i + 1;
    }
    assert items[..i] == items;
  }

  /** filterClaimCandidates */
  method FilterClaimCandidates(items: seq<Listed>, u: Uid, want: string) returns (kept: seq<Listed>)
    ensures kept == Candidates(items, u, want)
    ensures forall c :: c in kept <==>
              && c in items && c.rec.phase == Available && c.rec.probed
              && (c.rec.claimRef == None || c.rec.claimRef == Some(u))
              && (want == "" || c.rec.failureDomain == "" || c.rec.failureDomain == want)
  {
    kept := [];
    for i := 0 to |items|
      invariant kept + Candidates(items[i..], u, want) == Candidates(items, u, want)
    {
      var host := items[i].rec;
      assert items[i..][0] == items[i] && items[i..][1..] == items[i + 1..];
      if host.phase != Available {
        continue;
      }
      if !host.probed {
        continue;
      }
      if host.claimRef.Some? && host.claimRef.value != u {
        continue;
      }
      if !MatchesFailureDomain(host, want) {
        continue;
      }
      kept := kept + [items[i]];
    }
  }

  /** The head of the sorted candidates is the least one. */
  lemma {:induction false} SortedHead(items: seq<Listed>, sorted: seq<Listed>, u: Uid, want: string)
    requires forall i, j :: 0 <= i < j < |items| ==> items[i].name != items[j].name
    requires SortedByName(sorted) && multiset(sorted) == multiset(Candidates(items, u, want))
    ensures LeastCandidate(items, u, want) == if sorted == [] then None else Some(sorted[0])
  {
    var best := LeastCandidate(items, u, want);
    forall c: Listed
      ensures c in sorted <==> c in Candidates(items, u, want)
    {
      assert c in sorted <==> c in multiset(sorted);
    }
    if sorted != [] {
      assert sorted[0] in Candidates(items, u, want);
      assert best.value in sorted;
      StringLessTotal(best.value.name, sorted[0].name);
    }
  }
}
