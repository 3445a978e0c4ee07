/**
 * The ward ("location") chart of the overview page (src/pages/Dashboard.tsx): every project's
 * comma-separated `locations` are split, trimmed and tallied into a dictionary, which is then
 * ranked by count and cut to the seven largest.
 */
module Dashboard {
  import opened Types
  import opened Text
  import opened Seqs

  /** The pieces of `p.locations.split(',')`, or none when the project has no locations. */
  function Pieces(p: Project): seq<string>
  {
    match p.locations
    case None => []
    case Some(l) => if l == "" then [] else Split(l, ',')
  }

  /** What one piece contributes: its trimmed form, unless that is empty. */
  function KeepOne(piece: string, trim: string -> string): seq<string>
  {
    var t := trim(piece);
    if t == "" then [] else [t]
  }

  /** The trimmed, non-empty pieces, in order. */
  function Kept(pieces: seq<string>, trim: string -> string): seq<string>
  {
    if pieces == [] then []
    else Kept(pieces[..|pieces| - 1], trim) + KeepOne(pieces[|pieces| - 1], trim)
  }

  /** Every location segment the tally counts, project by project, in order. */
  function Segments(projects: seq<Project>, trim: string -> string): seq<string>
  {
    if projects == [] then []
    else Segments(projects[..|projects| - 1], trim) + Kept(Pieces(projects[|projects| - 1]), trim)
  }

  predicate Clean(seg: string)
  {
    seg != "" && Trim(seg) == seg
  }

  lemma {:induction false} KeptClean(pieces: seq<string>)
    ensures forall k :: 0 <= k < |Kept(pieces, Trim)| ==> Clean(Kept(pieces, Trim)[k])
  {
    if pieces != [] {
      KeptClean(pieces[..|pieces| - 1]);
      TrimIdempotent(pieces[|pieces| - 1]);
    }
  }

  /** Every counted segment is non-empty and has no white space at either end. */
  lemma {:induction false} SegmentsClean(projects: seq<Project>)
    ensures forall k :: 0 <= k < |Segments(projects, Trim)| ==> Clean(Segments(projects, Trim)[k])
  {
    if projects != [] {
      SegmentsClean(projects[..|projects| - 1]);
      KeptClean(Pieces(projects[|projects| - 1]));
    }
  }

  /** How often `n` occurs in `s`. */
  function Occurrences(s: seq<string>, n: string): nat
  {
    if s == [] then 0
    else Occurrences(s[..|s| - 1], n) + (if s[|s| - 1] == n then 1 else 0)
  }

  /** The distinct elements of `s` in the order of their first occurrence (the dictionary's key order). */
  function FirstSeen(s: seq<string>): seq<string>
  {
    if s == [] then []
    else
      var prev := FirstSeen(s[..|s| - 1]);
      if s[|s| - 1] in prev then prev else prev + [s[|s| - 1]]
  }

  /** The key order lists every segment name, each exactly once. */
  lemma {:induction false} FirstSeenFacts(s: seq<string>)
    ensures forall x :: x in FirstSeen(s) <==> x in s
    ensures Distinct(FirstSeen(s))
  {
    if s != [] {
      var init := s[..|s| - 1];
      assert s == init + [s[|s| - 1]];
      FirstSeenFacts(init);
    }
  }

  /** The dictionary the loops build from the segments `s`, counting them one after another. */
  function Tally(s: seq<string>): map<string, nat>
  {
    if s == [] then map[]
    else
      var m, t := Tally(s[..|s| - 1]), s[|s| - 1];
      if t in m then m[t := m[t] + 1] else m[t := 1]
  }

  lemma {:induction false} OccurrencesPositive(s: seq<string>, n: string)
    ensures Occurrences(s, n) > 0 <==> n in s
  {
    if s != [] {
      assert s == s[..|s| - 1] + [s[|s| - 1]];
      OccurrencesPositive(s[..|s| - 1], n);
    }
  }

  /** Occurrences add up over concatenation: a name repeated anywhere is counted each time. */
  lemma {:induction false} OccurrencesConcat(a: seq<string>, b: seq<string>, n: string)
    ensures Occurrences(a + b, n) == Occurrences(a, n) + Occurrences(b, n)
  {
    if b == [] {
      assert a + b == a;
    } else {
      assert (a + b)[..|a + b| - 1] == a + b[..|b| - 1];
      OccurrencesConcat(a, b[..|b| - 1], n);
    }
  }

  /** Each project adds its own kept pieces, in order, after those of the projects before it. */
  lemma SegmentsAppend(projects: seq<Project>, p: Project, trim: string -> string)
    ensures Segments(projects + [p], trim) == Segments(projects, trim) + Kept(Pieces(p), trim)
  {
    assert (projects + [p])[..|projects|] == projects;
  }

  /** The segments up to project `i` extend those before it by that project's kept pieces, if it has locations. */
  lemma ProjectStep(projects: seq<Project>, i: nat, trim: string -> string)
    requires i < |projects|
    ensures var p, before := projects[i], Segments(projects[..i], trim);
      Segments(projects[..i + 1], trim) ==
        if p.locations.Some? && p.locations.value != "" then before + Kept(Split(p.locations.value, ','), trim)
        else before
  {
    var p := projects[i];
    assert projects[..i + 1] == projects[..i] + [p];
    SegmentsAppend(projects[..i], p, trim);
    if !(p.locations.Some? && p.locations.value != "") {
      assert Segments(projects[..i], trim) + [] == Segments(projects[..i], trim);
    }
  }

  /** A project whose `locations` is missing or empty adds no segment. */
  lemma NoLocationsNoSegments(projects: seq<Project>, p: Project, trim: string -> string)
    requires p.locations == None || p.locations == Some("")
    ensures Segments(projects + [p], trim) == Segments(projects, trim)
  {
    assert (projects + [p])[..|projects|] == projects;
  }

  lemma OccurrencesAppend(s: seq<string>, t: string, n: string)
    ensures Occurrences(s + [t], n) == Occurrences(s, n) + (if t == n then 1 else 0)
  {
    assert (s + [t])[..|s|] == s;
  }

  /** One more piece adds its trimmed form, unless that is empty, to the segments counted so far. */
  lemma KeptStep(done: seq<string>, pieces: seq<string>, j: nat, trim: string -> string)
    requires j < |pieces|
    ensures var sofar, t := done + Kept(pieces[..j], trim), trim(pieces[j]);
      done + Kept(pieces[..j + 1], trim) == if t == "" then sofar else sofar + [t]
  {
    assert pieces[..j + 1][..j] == pieces[..j];
  }

  /** Counting one more segment: its name's count goes up by one, a new name starting at one. */
  lemma TallyAppend(s: seq<string>, t: string)
    ensures Tally(s + [t]) == if t in Tally(s) then Tally(s)[t := Tally(s)[t] + 1] else Tally(s)[t := 1]
  {
    assert (s + [t])[..|s|] == s;
  }

  /** The dictionary maps exactly the segment names, each to its number of occurrences. */
  lemma {:induction false} TallyCounts(s: seq<string>)
    ensures forall n :: n in Tally(s) <==> n in s
    ensures forall n :: n in Tally(s) ==> Tally(s)[n] == Occurrences(s, n)
  {
    if s != [] {
      var init, t := s[..|s| - 1], s[|s| - 1];
      assert s == init + [t];
      TallyCounts(init);
      forall n ensures Occurrences(s, n) == Occurrences(init, n) + (if t == n then 1 else 0) {
        OccurrencesAppend(init, t, n);
      }
      OccurrencesPositive(init, t);
    }
  }

  lemma TallyHas(s: seq<string>, t: string)
    ensures t in Tally(s) <==> t in s
  {
    TallyCounts(s);
  }

  /** One more segment, in the loop's terms: a known name counts one more, a new one starts at one and joins the key order. */
  lemma TallyStep(s: seq<string>, t: string)
    ensures t in Tally(s) ==> Tally(s + [t]) == Tally(s)[t := Tally(s)[t] + 1] && FirstSeen(s + [t]) == FirstSeen(s)
    ensures t !in Tally(s) ==> Tally(s + [t]) == Tally(s)[t := 1] && FirstSeen(s + [t]) == FirstSeen(s) + [t]
  {
    TallyAppend(s, t);
    FirstSeenAppend(s, t);
    TallyHas(s, t);
  }

  /** A new name joins the key order at the end; a name already seen leaves it as it is. */
  lemma FirstSeenAppend(s: seq<string>, t: string)
    ensures FirstSeen(s + [t]) == if t in s then FirstSeen(s) else FirstSeen(s) + [t]
  {
    assert (s + [t])[..|s|] == s;
    FirstSeenFacts(s);
  }

  /**
   * The inner loop of the overview page's tally: each piece of one project's comma split is
   * trimmed and, unless empty, counted into the dictionary (`counts`, with key order `names`)
   * built so far from the segments `done`.
   */
  method CountPieces(pieces: seq<string>, trim: string -> string, names0: seq<string>, counts0: map<string, nat>,
                     ghost done: seq<string>)
    returns (names: seq<string>, counts: map<string, nat>)
    requires names0 == FirstSeen(done) && counts0 == Tally(done)
    ensures names == FirstSeen(done + Kept(pieces, trim))
    ensures counts == Tally(done + Kept(pieces, trim))
  {
    names, counts := names0, counts0;
    var j := 0;
    ghost var sofar := done;
    assert done + Kept(pieces[..0], trim) == done by {
      assert pieces[..0] == [];
    }
    while j < |pieces|
      invariant j <= |pieces|
      invariant sofar == done + Kept(pieces[..j], trim)
      invariant names == FirstSeen(sofar) && counts == Tally(sofar)
    {
      var trimmed := trim(pieces[j]);
      KeptStep(done, pieces, j, trim);
      if trimmed != "" {
        TallyStep(sofar, trimmed);
        if trimmed in counts {
          counts := counts[trimmed := counts[trimmed] + 1];
        } else {
          counts := counts[trimmed := 1];
          names := names + [trimmed];
        }
        sofar := sofar + [trimmed];
      }
      j := j + 1;
    }
    assert pieces[..j] == pieces;
  }

  /**
   * The loops of the overview page: for each project with locations, its pieces are counted
   * into the dictionary. `names` is the dictionary's key order. The tally is stated for any
   * trimming function; the page uses `Trim`.
   */
  method TallyLocations(projects: seq<Project>, trim: string -> string) returns (names: seq<string>, counts: map<string, nat>)
    ensures names == FirstSeen(Segments(projects, trim))
    ensures counts == Tally(Segments(projects, trim))
  {
    names, counts := [], map[];
    var i := 0;
    assert projects[..0] == [];
    while i < |projects|
      invariant i <= |projects|
      invariant names == FirstSeen(Segments(projects[..i], trim))
      invariant counts == Tally(Segments(projects[..i], trim))
    {
      var p := projects[i];
      ProjectStep(projects, i, trim);
      if p.locations.Some? && p.locations.value != "" {
        names, counts := CountPieces(Split(p.locations.value, ','), trim, names, counts, Segments(projects[..i], trim));
      }
      i := i + 1;
    }
    assert projects[..i] == projects;
  }

  /** The sum over `names` of each name's occurrences in `s`. */
  function SumOccurrences(names: seq<string>, s: seq<string>): nat
  {
    if names == [] then 0
    else SumOccurrences(names[..|names| - 1], s) + Occurrences(s, names[|names| - 1])
  }

  lemma {:induction false} SumOccurrencesAppendSegment(names: seq<string>, s: seq<string>, t: string)
    requires Distinct(names)
    ensures SumOccurrences(names, s + [t]) == SumOccurrences(names, s) + (if t in names then 1 else 0)
  {
    assert (s + [t])[..|s|] == s;
    if names != [] {
      var init := names[..|names| - 1];
      assert names == init + [names[|names| - 1]];
      SumOccurrencesAppendSegment(init, s, t);
    }
  }

  /** Counting every distinct name once covers every segment once. */
  lemma {:induction false} SumOccurrencesFirstSeen(s: seq<string>)
    ensures SumOccurrences(FirstSeen(s), s) == |s|
  {
    if s != [] {
      var init, t := s[..|s| - 1], s[|s| - 1];
      assert s == init + [t];
      SumOccurrencesFirstSeen(init);
      FirstSeenFacts(init);
      TallyAppend(init, t);
      SumOccurrencesAppendSegment(FirstSeen(init), init, t);
      if t !in init {
        var names := FirstSeen(init) + [t];
        assert names[..|names| - 1] == FirstSeen(init);
        OccurrencesPositive(init, t);
      }
    }
  }

  /** One bar of the chart: a ward name and how many segments name it. */
  datatype LocationCount = LocationCount(name: string, count: nat)

  /** `Object.entries(locCounts).map(([name, count]) => ({ name, count }))`. */
  function Entries(names: seq<string>, counts: map<string, nat>): (r: seq<LocationCount>)
    requires forall n :: n in names ==> n in counts
    ensures |r| == |names|
    ensures forall k :: 0 <= k < |r| ==> r[k] == LocationCount(names[k], counts[names[k]])
  {
    if names == [] then []
    else Entries(names[..|names| - 1], counts) + [LocationCount(names[|names| - 1], counts[names[|names| - 1]])]
  }

  /** `Object.entries` of the dictionary built from the segments `s`, in key order. */
  function DictionaryEntries(s: seq<string>): seq<LocationCount>
  {
    FirstSeenFacts(s);
    TallyCounts(s);
    Entries(FirstSeen(s), Tally(s))
  }

  function TotalCount(entries: seq<LocationCount>): nat
  {
    if entries == [] then 0 else TotalCount(entries[..|entries| - 1]) + entries[|entries| - 1].count
  }

  lemma {:induction false} TotalCountEntries(names: seq<string>, s: seq<string>)
    requires forall n :: n in names ==> n in Tally(s)
    ensures TotalCount(Entries(names, Tally(s))) == SumOccurrences(names, s)
  {
    TallyCounts(s);
    if names != [] {
      var init := names[..|names| - 1];
      assert forall n :: n in init ==> n in names;
      TotalCountEntries(init, s);
      var es := Entries(names, Tally(s));
      assert es[..|es| - 1] == Entries(init, Tally(s));
    }
  }

  /** The counts of the whole dictionary add up to the number of non-empty trimmed segments. */
  lemma TallyTotal(s: seq<string>)
    ensures TotalCount(DictionaryEntries(s)) == |s|
  {
    FirstSeenFacts(s);
    TallyCounts(s);
    TotalCountEntries(FirstSeen(s), s);
    SumOccurrencesFirstSeen(s);
  }

  predicate NonIncreasing(s: seq<LocationCount>)
  {
    forall i, j :: 0 <= i < j < |s| ==> s[i].count >= s[j].count
  }

  /**
   * No two entries share a name: `Seqs.Distinct` of the names, stated on the entries
   * themselves so that the sorting lemmas can speak of `s[i].name` directly.
   */
  predicate DistinctNames(s: seq<LocationCount>)
  {
    forall i, j :: 0 <= i < j < |s| ==> s[i].name != s[j].name
  }

  /** Insert `e` before the first entry whose count is not larger (ties keep their original order). */
  function InsertByCount(e: LocationCount, s: seq<LocationCount>): seq<LocationCount>
  {
    if s == [] || s[0].count <= e.count then [e] + s
    else [s[0]] + InsertByCount(e, s[1..])
  }

  /** `sort((a, b) => b.count - a.count)`: the entries by count, largest first, ties in original order. */
  function SortByCount(s: seq<LocationCount>): seq<LocationCount>
  {
    if s == [] then [] else InsertByCount(s[0], SortByCount(s[1..]))
  }

  /** Inserting adds exactly `e`. */
  lemma {:induction false} InsertByCountPermutes(e: LocationCount, s: seq<LocationCount>)
    ensures multiset(InsertByCount(e, s)) == multiset(s) + multiset{e}
    ensures |InsertByCount(e, s)| == |s| + 1
  {
    if s != [] && s[0].count > e.count {
      assert s == [s[0]] + s[1..];
      InsertByCountPermutes(e, s[1..]);
    }
  }

  lemma OrderedCons(h: LocationCount, t: seq<LocationCount>)
    requires NonIncreasing(t) && (t == [] || h.count >= t[0].count)
    ensures NonIncreasing([h] + t)
  {
    var r := [h] + t;
    forall i, j | 0 <= i < j < |r| ensures r[i].count >= r[j].count {
      assert r[j] == t[j - 1];
      if i > 0 {
        assert r[i] == t[i - 1];
      }
    }
  }

  /** Inserting keeps a list ordered largest first. */
  lemma {:induction false} InsertByCountOrdered(e: LocationCount, s: seq<LocationCount>)
    requires NonIncreasing(s)
    ensures NonIncreasing(InsertByCount(e, s))
  {
    if s == [] || s[0].count <= e.count {
      OrderedCons(e, s);
    } else {
      var rest := InsertByCount(e, s[1..]);
      InsertByCountOrdered(e, s[1..]);
      assert rest[0] == e || rest[0] == s[1];
      OrderedCons(s[0], rest);
    }
  }

  /** Sorting rearranges the entries (a permutation) into an order largest first. */
  lemma {:induction false} SortByCountFacts(s: seq<LocationCount>)
    ensures multiset(SortByCount(s)) == multiset(s)
    ensures |SortByCount(s)| == |s|
    ensures NonIncreasing(SortByCount(s))
  {
    if s != [] {
      assert s == [s[0]] + s[1..];
      SortByCountFacts(s[1..]);
      InsertByCountPermutes(s[0], SortByCount(s[1..]));
      InsertByCountOrdered(s[0], SortByCount(s[1..]));
    }
  }

  lemma DistinctCons(h: LocationCount, t: seq<LocationCount>)
    requires DistinctNames(t) && forall x :: x in t ==> x.name != h.name
    ensures DistinctNames([h] + t)
  {
    forall i, j | 0 <= i < j < |[h] + t| ensures ([h] + t)[i].name != ([h] + t)[j].name {
      if i == 0 {
        assert ([h] + t)[j] == t[j - 1];
      } else {
        assert ([h] + t)[i] == t[i - 1] && ([h] + t)[j] == t[j - 1];
      }
    }
  }

  lemma DistinctTail(s: seq<LocationCount>)
    requires s != [] && DistinctNames(s)
    ensures DistinctNames(s[1..]) && forall x :: x in s[1..] ==> x.name != s[0].name
  {
    forall x | x in s[1..] ensures x.name != s[0].name {
      var j :| 0 <= j < |s[1..]| && s[1..][j] == x;
      assert s[j + 1] == x;
    }
  }

  lemma {:induction false} InsertKeepsDistinct(e: LocationCount, s: seq<LocationCount>)
    requires DistinctNames(s) && forall x :: x in s ==> x.name != e.name
    ensures DistinctNames(InsertByCount(e, s))
  {
    if s == [] || s[0].count <= e.count {
      DistinctCons(e, s);
    } else {
      var rest := InsertByCount(e, s[1..]);
      DistinctTail(s);
      assert forall x :: x in s[1..] ==> x in s;
      InsertKeepsDistinct(e, s[1..]);
      InsertByCountPermutes(e, s[1..]);
      forall x | x in rest ensures x.name != s[0].name {
        assert x in multiset(rest);
        if x != e {
          assert x in multiset(s[1..]);
        }
      }
      DistinctCons(s[0], rest);
    }
  }

  lemma {:induction false} SortKeepsDistinct(s: seq<LocationCount>)
    requires DistinctNames(s)
    ensures DistinctNames(SortByCount(s))
  {
    if s != [] {
      SortKeepsDistinct(s[1..]);
      SortByCountFacts(s[1..]);
      var sorted := SortByCount(s[1..]);
      forall x | x in sorted ensures x.name != s[0].name {
        assert x in multiset(s[1..]);
      }
      InsertKeepsDistinct(s[0], sorted);
    }
  }

  /** `.slice(0, 7)` of the sorted entries: the chart's bars. */
  function TopLocations(entries: seq<LocationCount>): (r: seq<LocationCount>)
    ensures |r| == if |entries| < 7 then |entries| else 7
    ensures NonIncreasing(r)
  {
    SortByCountFacts(entries);
    var sorted := SortByCount(entries);
    if |sorted| <= 7 then sorted else sorted[..7]
  }

  /** An entry that does not make the top seven counts no more than any entry that does. */
  lemma TopLocationsAreLargest(entries: seq<LocationCount>, e: LocationCount)
    requires e in entries && e !in TopLocations(entries)
    ensures forall k :: 0 <= k < |TopLocations(entries)| ==> e.count <= TopLocations(entries)[k].count
  {
    var sorted := SortByCount(entries);
    SortByCountFacts(entries);
    assert e in multiset(sorted);
    var j :| 0 <= j < |sorted| && sorted[j] == e;
    var top := TopLocations(entries);
    assert j >= |top|;
  }

  /** The bars of the ward chart drawn from the segments `s`. */
  function Chart(s: seq<string>): seq<LocationCount>
  {
    TopLocations(DictionaryEntries(s))
  }

  /** The bars of the overview page's ward chart for a project list. */
  function LocationChart(projects: seq<Project>): seq<LocationCount>
  {
    Chart(Segments(projects, Trim))
  }

  /**
   * The chart has one bar per ward, up to seven, largest first: all wards when there are
   * fewer than seven, and no ward twice.
   */
  lemma ChartShape(s: seq<string>)
    ensures var top := Chart(s);
      && |top| == (if |FirstSeen(s)| < 7 then |FirstSeen(s)| else 7)
      && DistinctNames(top)
      && NonIncreasing(top)
  {
    var entries := DictionaryEntries(s);
    FirstSeenFacts(s);
    SortByCountFacts(entries);
    assert DistinctNames(entries);
    SortKeepsDistinct(entries);
  }

  /** Every bar carries its ward's number of segments, which is at least one. */
  lemma ChartCounts(s: seq<string>)
    ensures var top := Chart(s);
      forall k :: 0 <= k < |top| ==> top[k].count == Occurrences(s, top[k].name) >= 1
  {
    var entries := DictionaryEntries(s);
    var top := Chart(s);
    FirstSeenFacts(s);
    TallyCounts(s);
    SortByCountFacts(entries);
    forall k | 0 <= k < |top|
      ensures top[k].count == Occurrences(s, top[k].name) >= 1
    {
      assert top[k] in multiset(entries);
      var m :| 0 <= m < |entries| && entries[m] == top[k];
      OccurrencesPositive(s, FirstSeen(s)[m]);
    }
  }

  /** A ward left off the chart has no more segments than any ward on it. */
  lemma ChartTop(s: seq<string>, n: string)
    requires n in s
    requires forall k :: 0 <= k < |Chart(s)| ==> Chart(s)[k].name != n
    ensures forall k :: 0 <= k < |Chart(s)| ==> Occurrences(s, n) <= Chart(s)[k].count
  {
    var entries := DictionaryEntries(s);
    FirstSeenFacts(s);
    TallyCounts(s);
    var m :| 0 <= m < |FirstSeen(s)| && FirstSeen(s)[m] == n;
    var e := entries[m];
    assert e !in Chart(s);
    TopLocationsAreLargest(entries, e);
  }
}
