/**
 * The detail page of one project (src/pages/ProjectDetail.tsx): the route's `id` is parsed
 * with `parseInt`, the project is looked up in the store, and the page shows it merged with
 * mock figures and with the stored issues of that project, or a "not found" view.
 */
module ProjectDetail {
  import opened Types
  import opened Text
  import opened Seqs
  import opened JsNumbers
  import opened StorageService
  import IsoDates

  // ---------------------------------------------------------------------------------------
  // `parseInt(s)` without a radix, as section 19.2.5 of ECMA-262 defines it.

  /** `c` is a digit of base 10 or base 16. */
  predicate IsDigitIn(c: char, radix: nat)
  {
    IsoDates.IsDigit(c) || (radix == 16 && (('a' <= c <= 'f') || ('A' <= c <= 'F')))
  }

  function DigitOf(c: char, radix: nat): (d: nat)
    requires IsDigitIn(c, radix)
    ensures d < (if radix == 16 then 16 else 10)
  {
    if IsoDates.IsDigit(c) then IsoDates.DigitValue(c)
    else if 'a' <= c <= 'f' then c as int - 'a' as int + 10
    else c as int - 'A' as int + 10
  }

  /** The longest prefix of `s` made of digits of the radix. */
  function LeadingDigits(s: string, radix: nat): (r: string)
    ensures |r| <= |s| && r == s[..|r|]
    ensures forall k :: 0 <= k < |r| ==> IsDigitIn(r[k], radix)
    ensures |r| < |s| ==> !IsDigitIn(s[|r|], radix)
  {
    if s != [] && IsDigitIn(s[0], radix) then [s[0]] + LeadingDigits(s[1..], radix) else []
  }

  /** The value of a string of digits in the radix, most significant digit first. */
  function DigitsValue(s: string, radix: nat): nat
    requires forall k :: 0 <= k < |s| ==> IsDigitIn(s[k], radix)
  {
    if s == [] then 0
    else DigitsValue(s[..|s| - 1], radix) * radix + DigitOf(s[|s| - 1], radix)
  }

  /** A leading "0x" or "0X". */
  predicate HexPrefixed(s: string)
  {
    |s| >= 2 && s[0] == '0' && (s[1] == 'x' || s[1] == 'X')
  }

  /**
   * `parseInt(s)`: skip leading white space, take an optional sign, read hexadecimal after
   * "0x" and decimal otherwise, up to the first character that is not a digit. None is NaN:
   * no digit at all.
   */
  function ParseInt(s: string): Option<int>
  {
    var t := TrimStart(s);
    var negative := t != [] && t[0] == '-';
    var u := if t != [] && (t[0] == '-' || t[0] == '+') then t[1..] else t;
    var radix := if HexPrefixed(u) then 16 else 10;
    var body := if HexPrefixed(u) then u[2..] else u;
    var digits := LeadingDigits(body, radix);
    if digits == [] then None
    else
      var v: int := DigitsValue(digits, radix);
      Some(if negative then -v else v)
  }

  function DigitChar(d: nat): (c: char)
    requires d < 10
    ensures IsDigitIn(c, 10) && DigitOf(c, 10) == d
  {
    ('0' as int + d) as char
  }

  /**
   * The decimal rendering of a natural number. A link to the detail page writes its id this way
   * only below 10^21; from there on JavaScript writes exponent notation such as "1e+21".
   */
  function ToDecimal(n: nat): (r: string)
    ensures r != []
    ensures forall k :: 0 <= k < |r| ==> IsDigitIn(r[k], 10)
  {
    if n < 10 then [DigitChar(n)] else ToDecimal(n / 10) + [DigitChar(n % 10)]
  }

  /** Reading back a decimal rendering gives the number. */
  lemma {:induction false} DigitsValueToDecimal(n: nat)
    ensures DigitsValue(ToDecimal(n), 10) == n
  {
    if n >= 10 {
      DigitsValueToDecimal(n / 10);
      var s := ToDecimal(n);
      assert s[..|s| - 1] == ToDecimal(n / 10);
    }
  }

  /** A string of digits is its own longest digit prefix. */
  lemma {:induction false} LeadingDigitsAll(s: string, radix: nat)
    requires forall k :: 0 <= k < |s| ==> IsDigitIn(s[k], radix)
    ensures LeadingDigits(s, radix) == s
  {
    if s != [] {
      LeadingDigitsAll(s[1..], radix);
    }
  }

  /** `parseInt` gives back the number whose decimal rendering it reads. */
  lemma ParseIntToDecimal(n: nat)
    ensures ParseInt(ToDecimal(n)) == Some(n)
  {
    var s := ToDecimal(n);
    assert TrimStart(s) == s;
    assert !HexPrefixed(s);
    LeadingDigitsAll(s, 10);
    DigitsValueToDecimal(n);
  }

  /** `parseInt` is NaN for a string that starts with neither white space, a sign nor a digit. */
  lemma ParseIntNoDigit(s: string)
    requires s == [] || (!IsSpace(s[0]) && s[0] != '-' && s[0] != '+' && !IsoDates.IsDigit(s[0]))
    ensures ParseInt(s) == None
  {
  }

  // ---------------------------------------------------------------------------------------
  // The detail record and the page's views.

  datatype Capital = Capital(annualPlan: int, annualDisbursement: int)
  datatype Land = Land(totalArea: int, recoveredArea: int)
  datatype Step = Step(id: int, stepName: string, actualValue: int)
  datatype Households = Households(totalHouseholds: int, handedOverHouseholds: int)

  /** `{ ...data, capital, land, steps, households, issues }`: a stored project's fields followed by the detail fields. */
  datatype Detail = Detail(
    id: int,
    code: string,
    name: string,
    investorId: int,
    investorName: string,
    isPriority: int,
    legalStatus: string,
    totalInvestment: int,
    totalCompensationCapital: int,
    startDate: string,
    endDate: string,
    handoverDeadline: string,
    locations: Option<string>,
    capital: Capital,
    land: Land,
    steps: seq<Step>,
    households: seq<Households>,
    issues: seq<Issue>)

  /** The mock steps the page attaches to every project. */
  function MockSteps(): seq<Step>
  {
    [ Step(1, "Thông báo thu hồi đất", 100), Step(2, "Kiểm đếm", 85),
      Step(3, "Xác nhận pháp lý", 60), Step(4, "Lập phương án", 20) ]
  }

  /** The object the page builds from a stored project and its issues. */
  function Merge(p: Project, issues: seq<Issue>): Detail
  {
    Detail(p.id, p.code, p.name, p.investorId, p.investorName, p.isPriority, p.legalStatus,
           p.totalInvestment, p.totalCompensationCapital, p.startDate, p.endDate,
           p.handoverDeadline, p.locations,
           Capital(100000000000, 45000000000), Land(5000, 2500), MockSteps(),
           [Households(120, 40)], issues)
  }

  /** The stored project inside a detail record: its first thirteen fields. */
  function Base(d: Detail): Project
  {
    Project(d.id, d.code, d.name, d.investorId, d.investorName, d.isPriority, d.legalStatus,
            d.totalInvestment, d.totalCompensationCapital, d.startDate, d.endDate,
            d.handoverDeadline, d.locations)
  }

  /** Merging keeps every stored field and attaches exactly the given issues. */
  lemma MergeKeepsProject(p: Project, issues: seq<Issue>)
    ensures Base(Merge(p, issues)) == p
    ensures Merge(p, issues).issues == issues
  {
  }

  /** `getIssues().filter(i => i.project_id === id)`. */
  function ProjectIssues(issues: seq<Issue>, id: int): seq<Issue>
  {
    Filter(issues, (i: Issue) => i.projectId == id)
  }

  /** The project's issues are exactly the stored issues with that project id, in stored order. */
  lemma ProjectIssuesSelects(issues: seq<Issue>, id: int)
    ensures forall i :: i in ProjectIssues(issues, id) <==> i in issues && i.projectId == id
    ensures IsSubseq(ProjectIssues(issues, id), issues)
  {
    FilterIsSubseq(issues, (i: Issue) => i.projectId == id);
  }

  /** What the page shows once its effect has run. */
  datatype View = Loading | NotFound | Found(detail: Detail)

  /**
   * The page for the route parameter `id` (None when the route has none): without a truthy
   * id the loading flag is never cleared; otherwise the project is looked up by the parsed
   * id, and `parseInt` giving NaN matches no project.
   */
  function DetailView(items: map<string, Entry>, id: Option<string>): View
  {
    if id == None || id == Some("") then Loading
    else
      match ParseInt(id.value)
      case None => NotFound
      case Some(n) =>
        match GetProjectById(items, n)
        case None => NotFound
        case Some(p) => Found(Merge(p, ProjectIssues(GetIssues(items), n)))
  }

  /**
   * The three views: loading without an id, "not found" when the parsed id matches no
   * stored project, and otherwise the first project with that id and its issues.
   */
  lemma DetailViewCases(items: map<string, Entry>, id: Option<string>)
    ensures DetailView(items, id) == Loading <==> id == None || id == Some("")
    ensures DetailView(items, id) == NotFound <==>
      id != None && id != Some("")
      && (ParseInt(id.value) == None || FindById(GetProjects(items), ParseInt(id.value).value) == None)
    ensures DetailView(items, id).Found? ==>
      var n := ParseInt(id.value).value;
      var d := DetailView(items, id).detail;
      && FindById(GetProjects(items), n) == Some(Base(d))
      && d.issues == ProjectIssues(GetIssues(items), n)
  {
    if DetailView(items, id).Found? {
      var n := ParseInt(id.value).value;
      var p := GetProjectById(items, n).value;
      MergeKeepsProject(p, ProjectIssues(GetIssues(items), n));
    }
  }

  /** The link `/projects/<n>` shows project `n` exactly when the store holds a project with id `n`. */
  lemma LinkFindsProject(items: map<string, Entry>, n: nat)
    ensures DetailView(items, Some(ToDecimal(n))).Found? <==> FindById(GetProjects(items), n) != None
    ensures DetailView(items, Some(ToDecimal(n))) == NotFound <==> FindById(GetProjects(items), n) == None
  {
    ParseIntToDecimal(n);
  }

  // ---------------------------------------------------------------------------------------
  // Colours and ratios.

  /** A step bar is emerald when the step is complete (at least 100), blue otherwise. */
  function StepTone(actual: int): Tone
  {
    if actual >= 100 then Emerald else Blue
  }

  /**
   * A bar is emerald exactly from 100 on and blue below it; raising a step's value never turns
   * an emerald bar blue; of the mock steps only the first is complete.
   */
  lemma StepToneFacts(a: int, b: int)
    ensures StepTone(a) == Emerald <==> a >= 100
    ensures StepTone(a) == Blue <==> a < 100
    ensures a <= b && StepTone(a) == Emerald ==> StepTone(b) == Emerald
    ensures StepTone(a) in {Emerald, Blue}
    ensures forall k :: 0 <= k < |MockSteps()| ==> (StepTone(MockSteps()[k].actualValue) == Emerald <==> k == 0)
  {
  }

  /** `(part / whole) * 100 || 0`. */
  function PercentOrZero(part: int, whole: int): Num
  {
    OrZero(Mul(Div(FromInt(part), FromInt(whole)), FromInt(100)))
  }

  /** The exact percentage for a non-zero whole; 0 for 0 / 0; an infinity for anything else over 0; never NaN. */
  lemma PercentOrZeroCases(part: int, whole: int)
    ensures PercentOrZero(part, whole) != NaN
    ensures whole != 0 ==> PercentOrZero(part, whole) == Finite(part as real / whole as real * 100.0)
    ensures whole == 0 ==>
      PercentOrZero(part, whole) == (if part == 0 then Finite(0.0) else if part > 0 then PosInf else NegInf)
  {
    OrZeroFacts(Mul(Div(FromInt(part), FromInt(whole)), FromInt(100)));
    if whole != 0 && part as real / whole as real * 100.0 == 0.0 {
      assert OrZero(Finite(0.0)) == Finite(0.0);
    }
  }

  function SumHandedOver(hs: seq<Households>): int
  {
    if hs == [] then 0 else SumHandedOver(hs[..|hs| - 1]) + hs[|hs| - 1].handedOverHouseholds
  }

  function SumTotal(hs: seq<Households>): int
  {
    if hs == [] then 0 else SumTotal(hs[..|hs| - 1]) + hs[|hs| - 1].totalHouseholds
  }

  /** The hand-over ratio card: handed-over households over all households, in percent. */
  function HandoverPercent(d: Detail): Num
  {
    PercentOrZero(SumHandedOver(d.households), SumTotal(d.households))
  }

  /** The land recovery bar: recovered area over total area, in percent. */
  function LandPercent(d: Detail): Num
  {
    PercentOrZero(d.land.recoveredArea, d.land.totalArea)
  }

  /** With the mock figures every project shows a third of its households handed over and half its land recovered. */
  lemma MockPercents(p: Project, issues: seq<Issue>)
    ensures HandoverPercent(Merge(p, issues)) == Finite(100.0 / 3.0)
    ensures LandPercent(Merge(p, issues)) == Finite(50.0)
  {
    var hs := [Households(120, 40)];
    assert hs[..0] == [];
    PercentOrZeroCases(40, 120);
    PercentOrZeroCases(2500, 5000);
  }
}
