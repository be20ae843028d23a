/**
 * The hero section (website/app/sections/hero.tsx) and the Open Graph page
 * (website/app/og-image/page.tsx) both show the three fastest frameworks:
 * getAllFrameworks() sorted by mean response time, ascending, and cut to
 * three. The hero also shows one badge per language, coloured by name.
 */
module TopFrameworks {
  import opened JsCollections
  import opened DashboardData

  predicate NonDecreasing(s: seq<Framework>) {
    forall i, j | 0 <= i < j < |s| :: s[i].avgResponseTime <= s[j].avgResponseTime
  }

  /** A sorted list stays sorted with an entry no slower put in front. */
  lemma SortedCons(a: Framework, s: seq<Framework>)
    requires NonDecreasing(s)
    requires s != [] ==> a.avgResponseTime <= s[0].avgResponseTime
    ensures NonDecreasing([a] + s)
  {
    forall i, j | 0 <= i < j < |[a] + s|
      ensures ([a] + s)[i].avgResponseTime <= ([a] + s)[j].avgResponseTime
    {
      if i > 0 {
        assert ([a] + s)[i] == s[i - 1] && ([a] + s)[j] == s[j - 1];
      } else {
        assert ([a] + s)[j] == s[j - 1];
        assert s[0].avgResponseTime <= s[j - 1].avgResponseTime;
      }
    }
  }

  /** Put f into a sorted list, ahead of the first entry that is not faster. */
  function Insert(f: Framework, sorted: seq<Framework>): (r: seq<Framework>)
    requires NonDecreasing(sorted)
    ensures NonDecreasing(r)
    ensures multiset(r) == multiset(sorted) + multiset{f}
    ensures |r| == |sorted| + 1
    ensures r[0] == f || (sorted != [] && r[0] == sorted[0])
    decreases |sorted|
  {
    if sorted == [] || f.avgResponseTime <= sorted[0].avgResponseTime then
      SortedCons(f, sorted);
      [f] + sorted
    else
      assert sorted == [sorted[0]] + sorted[1..];
      var rest := Insert(f, sorted[1..]);
      SortedCons(sorted[0], rest);
      [sorted[0]] + rest
  }

  /** `.sort((a, b) => a.avgResponseTime - b.avgResponseTime)`: the same frameworks, fastest first. */
  function SortByAvg(s: seq<Framework>): (r: seq<Framework>)
    ensures NonDecreasing(r)
    ensures multiset(r) == multiset(s)
    decreases |s|
  {
    if s == [] then []
    else
      assert s == [s[0]] + s[1..];
      Insert(s[0], SortByAvg(s[1..]))
  }

  function Min(a: int, b: int): int { if a <= b then a else b }

  /** `.slice(0, 3)` of the sorted list: the top frameworks both pages show. */
  function Top(all: seq<Framework>): (r: seq<Framework>)
    ensures |r| == Min(3, |all|)
    ensures NonDecreasing(r)
  {
    var sorted := SortByAvg(all);
    assert |sorted| == |multiset(all)|;
    sorted[..Min(3, |sorted|)]
  }

  /** What the slice drops. */
  function Omitted(all: seq<Framework>): (r: seq<Framework>) {
    var sorted := SortByAvg(all);
    assert |sorted| == |multiset(all)|;
    sorted[Min(3, |sorted|)..]
  }

  /**
   * The selection is taken from the frameworks, and none of those left out
   * is faster than any selected.
   */
  lemma NoneOmittedIsFaster(all: seq<Framework>)
    ensures multiset(Top(all)) + multiset(Omitted(all)) == multiset(all)
    ensures forall i, j | 0 <= i < |Top(all)| && 0 <= j < |Omitted(all)| ::
              Top(all)[i].avgResponseTime <= Omitted(all)[j].avgResponseTime
  {
    var sorted := SortByAvg(all);
    var n := Min(3, |sorted|);
    assert Top(all) == sorted[..n] && Omitted(all) == sorted[n..];
    SplitSorted(sorted, n);
  }

  /** Cutting a sorted list in two keeps every entry, and the front half is no slower than the back. */
  lemma SplitSorted(s: seq<Framework>, n: nat)
    requires NonDecreasing(s) && n <= |s|
    ensures multiset(s[..n]) + multiset(s[n..]) == multiset(s)
    ensures forall i, j | 0 <= i < n && 0 <= j < |s| - n :: s[..n][i].avgResponseTime <= s[n..][j].avgResponseTime
  {
    assert s == s[..n] + s[n..];
    forall i, j | 0 <= i < n && 0 <= j < |s| - n
      ensures s[..n][i].avgResponseTime <= s[n..][j].avgResponseTime
    {
      assert s[..n][i] == s[i] && s[n..][j] == s[n + j];
    }
  }

  /** Every framework the Open Graph page leaves out is at least as slow as the last one it shows. */
  lemma OmittedAfterLastShown(all: seq<Framework>)
    requires |all| > 0
    ensures forall j | 0 <= j < |Omitted(all)| ::
              Top(all)[|Top(all)| - 1].avgResponseTime <= Omitted(all)[j].avgResponseTime
  {
    NoneOmittedIsFaster(all);
  }

  /** The badge colours. */
  datatype Colour = Red | Blue | Green

  /** Red for "Rust", blue for "Go", green for every other label. */
  function BadgeColour(language: string): (c: Colour)
    ensures c == Red <==> language == "Rust"
    ensures c == Blue <==> language == "Go"
    ensures c == Green <==> language != "Rust" && language != "Go"
  {
    if language == "Rust" then Red else if language == "Go" then Blue else Green
  }

  /** `Array.from(new Set(frameworks.map(f => f.language)))`: each label once, in order of first appearance. */
  function Badges(all: seq<Framework>): (r: seq<string>)
    ensures forall i | 0 <= i < |all| :: all[i].language in r
    ensures forall i, j | 0 <= i < j < |r| :: r[i] != r[j]
    ensures InFirstOrder(LanguagesOf(all), r)
  {
    DistinctOrder(LanguagesOf(all));
    Distinct(LanguagesOf(all))
  }

  /** Two frameworks come out fastest first. */
  lemma SortPair(s: seq<Framework>)
    requires |s| == 2 && s[1].avgResponseTime < s[0].avgResponseTime
    ensures SortByAvg(s) == [s[1], s[0]]
  {
    var a, b := s[0], s[1];
    assert s[1..] == [b] && [b][1..] == [];
    assert SortByAvg([b]) == Insert(b, []) == [b];
    assert [b][1..] == [];
    assert Insert(a, [b]) == [b] + Insert(a, []) == [b, a];
  }

  /** Two frameworks of one language show a single badge. */
  lemma OneLanguagePair(s: seq<Framework>)
    requires |s| == 2 && s[0].language == s[1].language
    ensures Badges(s) == [s[0].language]
  {
    var l := s[0].language;
    var ls := LanguagesOf(s);
    assert ls[..1][..0] == [];
    assert Distinct(ls[..1]) == [l];
  }

  /** The two shipped records, Gin first: the fields the hero reads. */
  lemma ShippedRecords()
    ensures AllHaveFigures(FrameworkData)
    ensures var all := AllFrameworks(FrameworkData);
            && |all| == 2
            && all[0].framework == "Gin" && all[1].framework == "Echo"
            && all[0].avgResponseTime == 1.0027 && all[1].avgResponseTime == 0.54206
            && all[0].language == "Golang" && all[1].language == "Golang"
  {
    ShippedFigures();
    GolangLabel();
    var all := AllFrameworks(FrameworkData);
    assert FrameworkData[..0] == [];
    assert AllFrameworks(FrameworkData[..0]) == [];
    assert all == Block("golang", FrameworkData[0].1);
  }

  /**
   * With the shipped data the top list is Echo then Gin, and the one badge
   * reads "Golang", which is green: the label is derived from the key
   * "golang", so the blue branch for "Go" is never taken.
   */
  lemma ShippedSelection()
    ensures AllHaveFigures(FrameworkData)
    ensures var all := AllFrameworks(FrameworkData);
            && [Top(all)[0].framework, Top(all)[1].framework] == ["Echo", "Gin"]
            && Badges(all) == ["Golang"] && BadgeColour(Badges(all)[0]) == Green
  {
    ShippedRecords();
    var all := AllFrameworks(FrameworkData);
    SortPair(all);
    OneLanguagePair(all);
  }
}
