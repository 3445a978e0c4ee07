/**
 * The city dashboard (src/pages/CityDashboard.tsx): the issue-type chart counted from the
 * stored issues, the "not started" card summed from the status counts, and the colour of a
 * ward's progress bar.
 */
module CityDashboard {
  import opened Types
  import opened Seqs
  import opened JsNumbers

  const LEGAL: string := "Pháp lý"
  const LAND_PRICE: string := "Giá đất"
  const RESIDENTS: string := "Người dân"
  const RESETTLEMENT: string := "Tái định cư"
  const COORDINATION: string := "Phối hợp"

  /** `issues.filter(i => i.type === kind).length`, whatever the issues' status. */
  function KindCount(issues: seq<Issue>, kind: string): nat
  {
    Count(issues, (i: Issue) => i.kind == kind)
  }

  /** One slice of the issue-type chart. */
  datatype TypeCount = TypeCount(name: string, value: nat)

  /** `issueTypes`: five types in a fixed order; the residents' slice shows 2 when there is none (`|| 2`). */
  function IssueTypes(issues: seq<Issue>): seq<TypeCount>
  {
    var residents := KindCount(issues, RESIDENTS);
    [ TypeCount(LEGAL, KindCount(issues, LEGAL)),
      TypeCount(LAND_PRICE, KindCount(issues, LAND_PRICE)),
      TypeCount(RESIDENTS, if residents == 0 then 2 else residents),
      TypeCount(RESETTLEMENT, KindCount(issues, RESETTLEMENT)),
      TypeCount(COORDINATION, KindCount(issues, COORDINATION)) ]
  }

  /** The issues of the listed types, counted type by type. */
  function KindsTotal(issues: seq<Issue>, kinds: seq<string>): nat
  {
    if kinds == [] then 0 else KindCount(issues, kinds[0]) + KindsTotal(issues, kinds[1..])
  }

  /** The first issue adds one to its own type's count and nothing to any other. */
  lemma KindCountCons(issues: seq<Issue>, kind: string)
    requires issues != []
    ensures KindCount(issues, kind) == KindCount(issues[1..], kind) + (if issues[0].kind == kind then 1 else 0)
  {
  }

  /** Over distinct types, the first issue adds one to the total when its type is listed, and nothing otherwise. */
  lemma {:induction false} KindsTotalCons(issues: seq<Issue>, kinds: seq<string>)
    requires issues != [] && Distinct(kinds)
    ensures KindsTotal(issues, kinds) == KindsTotal(issues[1..], kinds) + (if issues[0].kind in kinds then 1 else 0)
  {
    if kinds != [] {
      KindCountCons(issues, kinds[0]);
      assert Distinct(kinds[1..]) by {
        forall i, j | 0 <= i < j < |kinds[1..]| ensures kinds[1..][i] != kinds[1..][j] {
          assert kinds[1..][i] == kinds[i + 1] && kinds[1..][j] == kinds[j + 1];
        }
      }
      KindsTotalCons(issues, kinds[1..]);
      if issues[0].kind == kinds[0] {
        assert issues[0].kind !in kinds[1..] by {
          forall j | 0 <= j < |kinds[1..]| ensures kinds[1..][j] != kinds[0] {
            assert kinds[1..][j] == kinds[j + 1];
          }
        }
      }
    }
  }

  /** An issue belongs to at most one type, so counts over distinct types add up to no more than the number of issues. */
  lemma {:induction false} KindsTotalBounded(issues: seq<Issue>, kinds: seq<string>)
    requires Distinct(kinds)
    ensures KindsTotal(issues, kinds) <= |issues|
  {
    if issues == [] {
      KindsTotalEmpty(kinds);
    } else {
      KindsTotalCons(issues, kinds);
      KindsTotalBounded(issues[1..], kinds);
    }
  }

  lemma {:induction false} KindsTotalEmpty(kinds: seq<string>)
    ensures KindsTotal([], kinds) == 0
  {
    if kinds != [] {
      KindsTotalEmpty(kinds[1..]);
    }
  }

  /**
   * The chart's slices: the five types in source order; four show exactly how many issues
   * have their type; the residents' slice shows its count when there is one and 2 otherwise,
   * so it is never 0; and the five types together never count more issues than there are.
   */
  lemma IssueTypesFacts(issues: seq<Issue>)
    ensures var r := IssueTypes(issues);
      && |r| == 5
      && r[0].name == LEGAL && r[1].name == LAND_PRICE && r[2].name == RESIDENTS
      && r[3].name == RESETTLEMENT && r[4].name == COORDINATION
      && r[0].value == KindCount(issues, LEGAL) && r[1].value == KindCount(issues, LAND_PRICE)
      && r[3].value == KindCount(issues, RESETTLEMENT) && r[4].value == KindCount(issues, COORDINATION)
      && r[2].value >= 1
      && (KindCount(issues, RESIDENTS) > 0 ==> r[2].value == KindCount(issues, RESIDENTS))
      && (KindCount(issues, RESIDENTS) == 0 ==> r[2].value == 2)
      && r[0].value + r[1].value + r[3].value + r[4].value + KindCount(issues, RESIDENTS) <= |issues|
  {
    var kinds := [LEGAL, LAND_PRICE, RESIDENTS, RESETTLEMENT, COORDINATION];
    KindsTotalBounded(issues, kinds);
    var k1, k2, k3, k4 := kinds[1..], kinds[2..], kinds[3..], kinds[4..];
    assert KindsTotal(issues, k4) == KindCount(issues, COORDINATION) by {
      assert k4[1..] == [];
    }
    assert KindsTotal(issues, k3) == KindCount(issues, RESETTLEMENT) + KindsTotal(issues, k4) by {
      assert k3[1..] == k4;
    }
    assert KindsTotal(issues, k2) == KindCount(issues, RESIDENTS) + KindsTotal(issues, k3) by {
      assert k2[1..] == k3;
    }
    assert KindsTotal(issues, k1) == KindCount(issues, LAND_PRICE) + KindsTotal(issues, k2) by {
      assert k1[1..] == k2;
    }
    assert KindsTotal(issues, kinds) == KindCount(issues, LEGAL) + KindsTotal(issues, k1);
  }

  const APPROVAL_IN_PRINCIPLE: string := "Chủ trương đầu tư"
  const PROJECT_SUBMITTED: string := "Trình duyệt dự án"
  const INVESTMENT_DECIDED: string := "Quyết định đầu tư"

  /** A status count as JavaScript reads it: a missing key is `undefined`, which turns a sum into NaN. */
  function CountOf(statusCounts: map<string, int>, key: string): Num
  {
    if key in statusCounts then FromInt(statusCounts[key]) else NaN
  }

  /** JavaScript's `+` on the numbers the card adds: NaN absorbs, finite values add. */
  function Add(a: Num, b: Num): Num
  {
    if a.Finite? && b.Finite? then Finite(a.value + b.value) else NaN
  }

  /** The "not started" card: projects at the three stages before construction. */
  function NotStarted(statusCounts: map<string, int>): Num
  {
    Add(Add(CountOf(statusCounts, APPROVAL_IN_PRINCIPLE), CountOf(statusCounts, PROJECT_SUBMITTED)),
        CountOf(statusCounts, INVESTMENT_DECIDED))
  }

  /** With the three stages present the card shows their sum; if any is missing it shows NaN. */
  lemma NotStartedFacts(statusCounts: map<string, int>)
    ensures NotStarted(statusCounts) != NaN <==>
      APPROVAL_IN_PRINCIPLE in statusCounts && PROJECT_SUBMITTED in statusCounts && INVESTMENT_DECIDED in statusCounts
    ensures NotStarted(statusCounts) != NaN ==>
      NotStarted(statusCounts) == FromInt(statusCounts[APPROVAL_IN_PRINCIPLE] + statusCounts[PROJECT_SUBMITTED]
                                          + statusCounts[INVESTMENT_DECIDED])
  {
  }

  /** A ward's bar: green above 80 per cent, blue above 60, red otherwise. */
  function WardBarColor(progress: real): Tone
  {
    if progress > 80.0 then Emerald else if progress > 60.0 then Blue else Red
  }

  /**
   * Green exactly above 80, blue exactly in (60, 80], red exactly from 60 down; the thresholds
   * are strict (80 is blue, 60 is red), and more progress never gives a worse colour.
   */
  lemma WardBarColorFacts(p: real, q: real)
    ensures WardBarColor(p) == Emerald <==> p > 80.0
    ensures WardBarColor(p) == Blue <==> 60.0 < p <= 80.0
    ensures WardBarColor(p) == Red <==> p <= 60.0
    ensures WardBarColor(80.0) == Blue && WardBarColor(60.0) == Red
    ensures WardBarColor(p) in {Emerald, Blue, Red}
    ensures p <= q ==> Rank(WardBarColor(p)) <= Rank(WardBarColor(q))
  {
  }
}
