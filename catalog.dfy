/** The concert catalogue: the per-continent summary built by a loop over the
    fetched concerts, and the continent filter offered with the summary's keys. */
module Catalog {
  import opened Records
  import opened Sequences

  const AllContinents := "All"

  /** Reference count: how many concerts are in continent `k`. */
  function Count(concerts: seq<Concert>, k: string): nat
  {
    if concerts == [] then 0
    else Count(concerts[..|concerts| - 1], k) + (if concerts[|concerts| - 1].continent == k then 1 else 0)
  }

  ghost function Continents(concerts: seq<Concert>): set<string>
  {
    set i | 0 <= i < |concerts| :: concerts[i].continent
  }

  /** `calculateContinentSummary`: a map from each continent that occurs to its count. */
  method ContinentSummary(concerts: seq<Concert>) returns (summary: map<string, nat>)
    ensures summary.Keys == Continents(concerts)
    ensures forall k :: k in summary ==> summary[k] == Count(concerts, k)
  {
    summary := map[];
    var i := 0;
    while i < |concerts|
      invariant 0 <= i <= |concerts|
      invariant summary.Keys == Continents(concerts[..i])
      invariant forall k :: k in summary ==> summary[k] == Count(concerts[..i], k)
    {
      var k := concerts[i].continent;
      assert concerts[..i + 1] == concerts[..i] + [concerts[i]];
      ContinentsSnoc(concerts[..i], concerts[i]);
      // the entry is truthy exactly when present, since stored counts are at least 1
      if k in summary {
        summary := summary[k := summary[k] + 1];
      } else {
        CountAbsent(concerts[..i], k);
        summary := summary[k := 1];
      }
      forall k' | k' in summary
        ensures summary[k'] == Count(concerts[..i + 1], k')
      {
        CountSnoc(concerts[..i], concerts[i], k');
      }
      i := i + 1;
    }
    assert concerts[..i] == concerts;
  }

  lemma CountSnoc(concerts: seq<Concert>, c: Concert, k: string)
    ensures Count(concerts + [c], k) == Count(concerts, k) + if c.continent == k then 1 else 0
  {
    assert (concerts + [c])[..|concerts|] == concerts;
  }

  lemma ContinentsSnoc(concerts: seq<Concert>, c: Concert)
    ensures Continents(concerts + [c]) == Continents(concerts) + {c.continent}
  {
    var s := concerts + [c];
    assert s[|concerts|] == c;
    forall k | k in Continents(concerts)
      ensures k in Continents(s)
    {
      var i :| 0 <= i < |concerts| && concerts[i].continent == k;
      assert s[i] == concerts[i];
    }
  }

  /** A continent that does not occur has count 0. */
  lemma {:induction false} CountAbsent(concerts: seq<Concert>, k: string)
    requires k !in Continents(concerts)
    ensures Count(concerts, k) == 0
  {
    if concerts != [] {
      var init := concerts[..|concerts| - 1];
      forall i | 0 <= i < |init|
        ensures init[i].continent != k
      {
        assert init[i] == concerts[i];
      }
      assert concerts[|concerts| - 1].continent in Continents(concerts);
      CountAbsent(init, k);
    }
  }

  /** `filterContinent === "All" ? concerts : concerts.filter(c => c.continent === filterContinent)`. */
  function FilterByContinent(concerts: seq<Concert>, selected: string): (r: seq<Concert>)
    ensures selected == AllContinents ==> r == concerts
    ensures selected != AllContinents ==> forall i :: 0 <= i < |r| ==> r[i].continent == selected
  {
    if selected == AllContinents then concerts
    else Filter(concerts, (c: Concert) => c.continent == selected)
  }

  /** Choosing a continent lists every concert of that continent, as often as it
      occurs and in catalogue order, and no other. */
  lemma FilterByContinentExactly(concerts: seq<Concert>, selected: string) returns (pos: seq<nat>)
    requires selected != AllContinents
    ensures forall c :: multiset(FilterByContinent(concerts, selected))[c] ==
                          if c.continent == selected then multiset(concerts)[c] else 0
    ensures var r := FilterByContinent(concerts, selected);
            && |pos| == |r|
            && (forall i :: 0 <= i < |r| ==> pos[i] < |concerts| && r[i] == concerts[pos[i]])
            && (forall i, j :: 0 <= i < j < |r| ==> pos[i] < pos[j])
  {
    FilterContents(concerts, (c: Concert) => c.continent == selected);
    pos := FilterPositions(concerts, (c: Concert) => c.continent == selected);
  }

  /** Choosing a continent the summary offers lists exactly as many concerts as the
      summary shows for it (an "All" continent in the data is shadowed by the "All" option). */
  lemma {:induction false} FilterMatchesCount(concerts: seq<Concert>, k: string)
    requires k != AllContinents
    ensures |FilterByContinent(concerts, k)| == Count(concerts, k)
  {
    if concerts != [] {
      var init, last := concerts[..|concerts| - 1], concerts[|concerts| - 1];
      assert concerts == init + [last];
      FilterAppend(init, [last], (c: Concert) => c.continent == k);
      FilterMatchesCount(init, k);
    }
  }

  /** Number of times `x` occurs in `ks`. */
  function Occurrences(ks: seq<string>, x: string): nat
  {
    if ks == [] then 0 else (if ks[0] == x then 1 else 0) + Occurrences(ks[1..], x)
  }

  ghost predicate NoDuplicates(ks: seq<string>)
  {
    forall i, j :: 0 <= i < j < |ks| ==> ks[i] != ks[j]
  }

  /** The total of the summary entries listed in `ks`. */
  function SummaryTotal(summary: map<string, nat>, ks: seq<string>): int
    requires forall i :: 0 <= i < |ks| ==> ks[i] in summary
  {
    if ks == [] then 0 else summary[ks[0]] + SummaryTotal(summary, ks[1..])
  }

  /** The total of `Count` over `ks`. */
  function CountTotal(concerts: seq<Concert>, ks: seq<string>): int
  {
    if ks == [] then 0 else Count(concerts, ks[0]) + CountTotal(concerts, ks[1..])
  }

  lemma {:induction false} CountTotalSnoc(concerts: seq<Concert>, c: Concert, ks: seq<string>)
    ensures CountTotal(concerts + [c], ks) == CountTotal(concerts, ks) + Occurrences(ks, c.continent)
  {
    if ks != [] {
      assert (concerts + [c])[..|concerts + [c]| - 1] == concerts;
      CountTotalSnoc(concerts, c, ks[1..]);
    }
  }

  lemma {:induction false} OccursOnce(ks: seq<string>, x: string)
    requires NoDuplicates(ks) && x in ks
    ensures Occurrences(ks, x) == 1
  {
    if ks[0] == x {
      assert x !in ks[1..] by {
        forall j | 0 <= j < |ks[1..]| ensures ks[1..][j] != x {
          assert ks[j + 1] != ks[0];
        }
      }
      NotOccurring(ks[1..], x);
    } else {
      OccursOnce(ks[1..], x);
    }
  }

  lemma {:induction false} NotOccurring(ks: seq<string>, x: string)
    requires x !in ks
    ensures Occurrences(ks, x) == 0
  {
    if ks != [] {
      NotOccurring(ks[1..], x);
    }
  }

  lemma {:induction false} CountTotalIsLength(concerts: seq<Concert>, ks: seq<string>)
    requires NoDuplicates(ks)
    requires forall k :: k in Continents(concerts) ==> k in ks
    ensures CountTotal(concerts, ks) == |concerts|
  {
    if concerts == [] {
      ZeroCounts(ks);
    } else {
      var init, last := concerts[..|concerts| - 1], concerts[|concerts| - 1];
      assert concerts == init + [last];
      assert last.continent in Continents(concerts);
      assert Continents(init) <= Continents(concerts) by {
        forall k | k in Continents(init) ensures k in Continents(concerts) {
          var i :| 0 <= i < |init| && init[i].continent == k;
          assert concerts[i] == init[i];
        }
      }
      CountTotalIsLength(init, ks);
      CountTotalSnoc(init, last, ks);
      OccursOnce(ks, last.continent);
    }
  }

  lemma {:induction false} ZeroCounts(ks: seq<string>)
    ensures CountTotal([], ks) == 0
  {
    if ks != [] {
      ZeroCounts(ks[1..]);
    }
  }

  lemma {:induction false} SummaryTotalIsCountTotal(concerts: seq<Concert>, summary: map<string, nat>, ks: seq<string>)
    requires forall i :: 0 <= i < |ks| ==> ks[i] in summary && summary[ks[i]] == Count(concerts, ks[i])
    ensures SummaryTotal(summary, ks) == CountTotal(concerts, ks)
  {
    if ks != [] {
      SummaryTotalIsCountTotal(concerts, summary, ks[1..]);
    }
  }

  /** Listing each continent of the summary once (as `Object.entries` does), the
      counts add up to the number of concerts. */
  lemma SummaryAddsUp(concerts: seq<Concert>, summary: map<string, nat>, ks: seq<string>)
    requires summary.Keys == Continents(concerts)
    requires forall k :: k in summary ==> summary[k] == Count(concerts, k)
    requires NoDuplicates(ks) && forall k :: k in ks <==> k in summary
    ensures SummaryTotal(summary, ks) == |concerts|
  {
    SummaryTotalIsCountTotal(concerts, summary, ks);
    CountTotalIsLength(concerts, ks);
  }
}
