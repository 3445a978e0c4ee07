/**
 * The persisted store (src/services/storageService.ts). The browser's key-value storage is a
 * map from keys to entries; the JSON encoding is the identity, so an entry holds the list itself.
 */
module StorageService {
  import opened Types
  import opened Seqs
  import opened Text
  import IsoDates

  const PROJECTS_KEY: string := "bt_projects"
  const ISSUES_KEY: string := "bt_issues"

  /**
   * What a key can hold: the empty string (which `getItem` returns as a falsy value),
   * or the JSON text of a project list or of an issue list.
   */
  datatype Entry = Blank | ProjectRows(projects: seq<Project>) | IssueRows(issues: seq<Issue>)

  /** `localStorage.getItem(key)` is truthy: the key is present and not the empty string. */
  predicate IsSet(items: map<string, Entry>, key: string)
  {
    key in items && items[key] != Blank
  }

  /** The five seed projects. */
  function InitialProjects(): seq<Project>
  {
    [ Project(1, "DA-001", "Dự án Mở rộng đường Nguyễn Huệ", 1, "Ban Quản lý Dự án Đầu tư Xây dựng A", 1,
              "Đã duyệt phương án BTHTTĐC", 500000000000, 200000000000,
              "2025-01-01", "2027-12-31", "2026-12-31", Some("Phường Bến Nghé, Phường Đa Kao")),
      Project(2, "DA-002", "Dự án Xây dựng Cầu Thủ Thiêm 4", 2, "Ban Quản lý Dự án Đầu tư Xây dựng B", 1,
              "Đã duyệt dự án đầu tư", 1200000000000, 450000000000,
              "2025-06-01", "2028-06-30", "2027-06-30", Some("Phường Tân Định")),
      Project(3, "DA-003", "Dự án Công viên Cây xanh Khu vực 3", 3, "Sở Giao thông Vận tải", 0,
              "Có chủ trương đầu tư", 150000000000, 80000000000,
              "2026-01-01", "2026-12-31", "2026-09-15", Some("Phường Phạm Ngũ Lão")),
      Project(4, "DA-004", "Dự án Nâng cấp hệ thống thoát nước Quận 1", 1, "Ban Quản lý Dự án Đầu tư Xây dựng A", 1,
              "Đã duyệt dự án đầu tư", 800000000000, 350000000000,
              "2025-03-01", "2027-03-01", "2026-11-20", Some("Phường Bến Nghé")),
      Project(5, "DA-005", "Dự án Chỉnh trang đô thị rạch Xuyên Tâm", 4, "Sở Xây dựng", 0,
              "Có chủ trương đầu tư", 1500000000000, 420000000000,
              "2025-01-01", "2029-12-31", "2028-12-31", Some("Phường Đa Kao")) ]
  }

  /**
   * The five seed issues. Their `created_at` stamps are the clock readings taken when the
   * module was loaded, one per issue, passed in as `stamps`.
   */
  function InitialIssues(stamps: seq<string>): seq<Issue>
    requires |stamps| == 5
  {
    [ Issue(1, 1, Some("Dự án Mở rộng đường Nguyễn Huệ"), "Pháp lý",
            "Vướng mắc về nguồn gốc đất tại hộ ông A", High, "Phòng TN&MT", "2026-04-15", Processing, "", stamps[0]),
      Issue(2, 2, Some("Dự án Xây dựng Cầu Thủ Thiêm 4"), "Giá đất",
            "Người dân chưa đồng ý với đơn giá bồi thường", High, "Ban Bồi thường", "2026-05-20", Pending, "", stamps[1]),
      Issue(3, 3, Some("Dự án Công viên Cây xanh Khu vực 3"), "Tái định cư",
            "Thiếu quỹ nhà tái định cư tại chỗ", Medium, "UBND Quận", "2026-06-10", Processing, "", stamps[2]),
      Issue(4, 4, Some("Dự án Nâng cấp hệ thống thoát nước Quận 1"), "Phối hợp",
            "Chậm trễ trong việc di dời hạ tầng kỹ thuật", Medium, "Điện lực", "2026-04-30", Pending, "", stamps[3]),
      Issue(5, 5, Some("Dự án Chỉnh trang đô thị rạch Xuyên Tâm"), "Pháp lý",
            "Tranh chấp ranh giới đất giữa các hộ dân", Low, "Phường Bến Nghé", "2026-05-05", Processing, "", stamps[4]) ]
  }

  /**
   * The store after `init`: each of the two keys receives its seed list when it is absent
   * or empty, and keeps what it holds otherwise; every other key is untouched.
   */
  function Seeded(items: map<string, Entry>, seedIssues: seq<Issue>): (r: map<string, Entry>)
    ensures r.Keys == items.Keys + {PROJECTS_KEY, ISSUES_KEY}
    ensures forall k :: k in items && k != PROJECTS_KEY && k != ISSUES_KEY ==> r[k] == items[k]
    ensures r[PROJECTS_KEY] == if IsSet(items, PROJECTS_KEY) then items[PROJECTS_KEY] else ProjectRows(InitialProjects())
    ensures r[ISSUES_KEY] == if IsSet(items, ISSUES_KEY) then items[ISSUES_KEY] else IssueRows(seedIssues)
  {
    var withProjects := if IsSet(items, PROJECTS_KEY) then items else items[PROJECTS_KEY := ProjectRows(InitialProjects())];
    if IsSet(withProjects, ISSUES_KEY) then withProjects else withProjects[ISSUES_KEY := IssueRows(seedIssues)]
  }

  /** `getProjects`: the stored project list, or the empty list when the key holds none. */
  function GetProjects(items: map<string, Entry>): (r: seq<Project>)
    ensures !IsSet(items, PROJECTS_KEY) ==> r == []
  {
    if PROJECTS_KEY in items && items[PROJECTS_KEY].ProjectRows? then items[PROJECTS_KEY].projects else []
  }

  /** `getIssues`: the stored issue list, or the empty list when the key holds none. */
  function GetIssues(items: map<string, Entry>): (r: seq<Issue>)
    ensures !IsSet(items, ISSUES_KEY) ==> r == []
  {
    if ISSUES_KEY in items && items[ISSUES_KEY].IssueRows? then items[ISSUES_KEY].issues else []
  }

  /** `projects.find(p => p.id === id)`: the first project with that id, if there is one. */
  function FindById(projects: seq<Project>, id: int): (r: Option<Project>)
    ensures r.None? <==> forall p :: p in projects ==> p.id != id
    ensures r.Some? ==> r.value in projects && r.value.id == id
  {
    if projects == [] then None
    else if projects[0].id == id then Some(projects[0])
    else FindById(projects[1..], id)
  }

  /** The project `find` returns is the first one with the id: every earlier project has another id. */
  lemma {:induction false} FindByIdFirst(projects: seq<Project>, id: int, k: nat)
    requires k < |projects| && projects[k].id == id
    requires forall j :: 0 <= j < k ==> projects[j].id != id
    ensures FindById(projects, id) == Some(projects[k])
  {
    if k > 0 {
      FindByIdFirst(projects[1..], id, k - 1);
    }
  }

  /** `getProjectById`. */
  function GetProjectById(items: map<string, Entry>, id: int): (r: Option<Project>)
    ensures r.None? <==> forall p :: p in GetProjects(items) ==> p.id != id
    ensures r.Some? ==> r.value in GetProjects(items) && r.value.id == id
  {
    FindById(GetProjects(items), id)
  }

  /** The integer fields of `getDashboardStats` (the floating-point ones are not modelled). */
  datatype DashboardStats = DashboardStats(
    totalProjects: nat,
    priorityProjects: nat,
    totalLandArea: nat,
    totalLandRecovered: nat,
    activeIssues: nat,
    compensationCapital: int,
    delayedProjects: nat,
    notApprovedProjects: nat,
    appraisingDossiers: nat,
    completedDirectives: nat,
    pendingDirectives: nat,
    totalAffectedHouseholds: nat,
    inventoriedHouseholds: nat,
    confirmedLandOriginHouseholds: nat,
    resettlementHouseholds: nat,
    draftPlanHouseholds: nat,
    totalPayableHouseholds: nat,
    paidHouseholds: nat,
    handedOverHouseholds: nat)

  /** The sum of `total_compensation_capital` (a `reduce` from 0). */
  function TotalCompensation(projects: seq<Project>): int
  {
    if projects == [] then 0 else projects[0].totalCompensationCapital + TotalCompensation(projects[1..])
  }

  predicate IsPriority(p: Project) { p.isPriority == 1 }

  predicate IsActive(i: Issue) { i.status != Resolved }

  /** The deadline is earlier than `today` in JavaScript's string order. */
  predicate IsDelayed(p: Project, today: string) { LexLess(p.handoverDeadline, today) }

  /** The deadline is an earlier calendar day than `today`. */
  predicate DeadlinePassed(p: Project, today: string)
  {
    IsoDates.IsIsoDate(p.handoverDeadline) && IsoDates.IsIsoDate(today) && IsoDates.Before(p.handoverDeadline, today)
  }

  /** `getDashboardStats`, with today's date (YYYY-MM-DD) passed in instead of read from the clock. */
  function GetDashboardStats(items: map<string, Entry>, today: string): DashboardStats
  {
    var projects := GetProjects(items);
    var issues := GetIssues(items);
    DashboardStats(
      totalProjects := |projects|,
      priorityProjects := Count(projects, IsPriority),
      totalLandArea := 10000,
      totalLandRecovered := 4500,
      activeIssues := Count(issues, IsActive),
      compensationCapital := TotalCompensation(projects),
      delayedProjects := Count(projects, p => IsDelayed(p, today)),
      notApprovedProjects := 2,
      appraisingDossiers := 5,
      completedDirectives := 12,
      pendingDirectives := 8,
      totalAffectedHouseholds := 450,
      inventoriedHouseholds := 380,
      confirmedLandOriginHouseholds := 320,
      resettlementHouseholds := 45,
      draftPlanHouseholds := 280,
      totalPayableHouseholds := 250,
      paidHouseholds := 180,
      handedOverHouseholds := 120)
  }

  /** The browser storage the service writes to: `init` changes it in place. */
  class Store {
    var items: map<string, Entry>
    /** The seed issues, fixed when the module was loaded. */
    const initialIssues: seq<Issue>

    constructor (existing: map<string, Entry>, stamps: seq<string>)
      requires |stamps| == 5
      ensures items == existing && initialIssues == InitialIssues(stamps)
    {
      items := existing;
      initialIssues := InitialIssues(stamps);
    }

    /** `init`: write each seed list only where its key is absent or empty. */
    method Init()
      modifies this
      ensures items == Seeded(old(items), initialIssues)
      ensures forall k :: IsSet(old(items), k) ==> items[k] == old(items)[k]
    {
      if !IsSet(items, PROJECTS_KEY) {
        items := items[PROJECTS_KEY := ProjectRows(InitialProjects())];
      }
      if !IsSet(items, ISSUES_KEY) {
        items := items[ISSUES_KEY := IssueRows(initialIssues)];
      }
    }
  }

  /** Running `init` twice leaves the store as running it once. */
  lemma SeededIdempotent(items: map<string, Entry>, seedIssues: seq<Issue>)
    ensures Seeded(Seeded(items, seedIssues), seedIssues) == Seeded(items, seedIssues)
  {
    var once := Seeded(items, seedIssues);
    assert IsSet(once, PROJECTS_KEY) && IsSet(once, ISSUES_KEY);
  }

  /** A key that holds a value is never overwritten by `init`. */
  lemma SeededKeepsSetKeys(items: map<string, Entry>, seedIssues: seq<Issue>, key: string)
    requires IsSet(items, key)
    ensures key in Seeded(items, seedIssues) && Seeded(items, seedIssues)[key] == items[key]
  {
  }

  /** On a store with neither key set, `init` followed by the readers gives back the seed lists. */
  lemma InitThenRead(items: map<string, Entry>, stamps: seq<string>)
    requires |stamps| == 5
    requires !IsSet(items, PROJECTS_KEY) && !IsSet(items, ISSUES_KEY)
    ensures GetProjects(Seeded(items, InitialIssues(stamps))) == InitialProjects()
    ensures GetIssues(Seeded(items, InitialIssues(stamps))) == InitialIssues(stamps)
    ensures |GetProjects(Seeded(items, InitialIssues(stamps)))| == 5
  {
  }

  /** Every count is bounded by the list it counts, and the active issues are the pending plus the processing ones. */
  lemma StatsBounds(items: map<string, Entry>, today: string)
    ensures var s := GetDashboardStats(items, today);
      && s.totalProjects == |GetProjects(items)|
      && s.priorityProjects <= s.totalProjects
      && s.delayedProjects <= s.totalProjects
      && s.activeIssues <= |GetIssues(items)|
      && s.activeIssues == Count(GetIssues(items), (i: Issue) => i.status == Pending)
                           + Count(GetIssues(items), (i: Issue) => i.status == Processing)
  {
    var issues := GetIssues(items);
    var pending := (i: Issue) => i.status == Pending;
    var processing := (i: Issue) => i.status == Processing;
    var resolved := (i: Issue) => i.status == Resolved;
    CountDisjoint3(issues, pending, processing, resolved);
    CountComplement(issues, IsActive, resolved);
  }

  /** The compensation total of a concatenation is the sum of the two totals. */
  lemma {:induction false} TotalCompensationConcat(a: seq<Project>, b: seq<Project>)
    ensures TotalCompensation(a + b) == TotalCompensation(a) + TotalCompensation(b)
  {
    if a != [] {
      assert (a + b)[1..] == a[1..] + b;
      TotalCompensationConcat(a[1..], b);
    } else {
      assert a + b == b;
    }
  }

  /** With ISO 8601 dates throughout, the delayed projects are those whose deadline is an earlier day than today. */
  lemma DelayedIsChronological(items: map<string, Entry>, today: string)
    requires IsoDates.IsIsoDate(today)
    requires forall p :: p in GetProjects(items) ==> IsoDates.IsIsoDate(p.handoverDeadline)
    ensures GetDashboardStats(items, today).delayedProjects
      == Count(GetProjects(items), p => DeadlinePassed(p, today))
  {
    var projects := GetProjects(items);
    forall p | p in projects
      ensures IsDelayed(p, today) <==> DeadlinePassed(p, today)
    {
      IsoDates.LexLessIsChronological(p.handoverDeadline, today);
    }
    FilterExt(projects, p => IsDelayed(p, today), p => DeadlinePassed(p, today));
  }
}
