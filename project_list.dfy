/**
 * The project list of src/pages/ProjectList.tsx: a case-insensitive search over names and
 * codes, and the colour given to a project's legal status.
 */
module ProjectList {
  import opened Types
  import opened Text
  import opened Seqs

  /** The search test: the lower-cased name or the lower-cased code contains the lower-cased term. */
  predicate Matches(p: Project, term: string, lower: char -> char)
  {
    Contains(Lower(p.name, lower), Lower(term, lower)) || Contains(Lower(p.code, lower), Lower(term, lower))
  }

  /** `filteredProjects`: the projects the search term selects, `lower` being the case mapping of `toLowerCase`. */
  function FilteredProjects(projects: seq<Project>, term: string, lower: char -> char): seq<Project>
  {
    Filter(projects, p => Matches(p, term, lower))
  }

  /** A project is listed exactly when it matches, and the list keeps the projects' order. */
  lemma FilteredProjectsSelects(projects: seq<Project>, term: string, lower: char -> char)
    ensures forall p :: p in FilteredProjects(projects, term, lower) <==> p in projects && Matches(p, term, lower)
    ensures IsSubseq(FilteredProjects(projects, term, lower), projects)
  {
    FilterIsSubseq(projects, p => Matches(p, term, lower));
  }

  /** An empty search lists every project. */
  lemma EmptySearchKeepsAll(projects: seq<Project>, lower: char -> char)
    ensures FilteredProjects(projects, "", lower) == projects
  {
    forall p | p in projects ensures Matches(p, "", lower) {
      ContainsEmpty(Lower(p.name, lower));
    }
    FilterAll(projects, p => Matches(p, "", lower));
  }

  /** Typing more characters never brings a project back: the longer search lists a selection of the shorter one's. */
  lemma LongerSearchNarrows(projects: seq<Project>, term: string, more: string, lower: char -> char)
    ensures IsSubseq(FilteredProjects(projects, term + more, lower), FilteredProjects(projects, term, lower))
  {
    LowerConcat(term, more, lower);
    forall p | p in projects && Matches(p, term + more, lower) ensures Matches(p, term, lower) {
      if Contains(Lower(p.name, lower), Lower(term + more, lower)) {
        ContainsPrefix(Lower(p.name, lower), Lower(term, lower), Lower(more, lower));
      } else {
        ContainsPrefix(Lower(p.code, lower), Lower(term, lower), Lower(more, lower));
      }
    }
    FilterStronger(projects, p => Matches(p, term, lower), p => Matches(p, term + more, lower));
  }

  const APPROVED_PLAN: string := "Đã duyệt phương án"
  const APPROVED_PROJECT: string := "Đã duyệt dự án"

  /** `getStatusColor`: an approved compensation plan is emerald, else an approved project blue, else amber. */
  function StatusColor(status: string): Tone
  {
    if Contains(status, APPROVED_PLAN) then Emerald
    else if Contains(status, APPROVED_PROJECT) then Blue
    else Amber
  }

  /** Exactly one of the three colours applies, and an approved plan wins over an approved project. */
  lemma StatusColorCases(status: string)
    ensures StatusColor(status) in {Emerald, Blue, Amber}
    ensures StatusColor(status) == Emerald <==> Contains(status, APPROVED_PLAN)
    ensures StatusColor(status) == Blue <==> !Contains(status, APPROVED_PLAN) && Contains(status, APPROVED_PROJECT)
    ensures StatusColor(status) == Amber <==> !Contains(status, APPROVED_PLAN) && !Contains(status, APPROVED_PROJECT)
  {
  }

  /** A status without the letter 'p' cannot hold an approved plan, so an approved project there is blue. */
  lemma ApprovedProjectIsBlue(status: string)
    requires Contains(status, APPROVED_PROJECT) && 'p' !in status
    ensures StatusColor(status) == Blue
  {
    assert APPROVED_PLAN[9] == 'p';
    MissingCharNotContained(status, APPROVED_PLAN, 'p');
  }

  /** The three legal statuses of the seed projects get emerald, blue and amber. */
  lemma SeedStatusColors()
    ensures StatusColor("Đã duyệt phương án BTHTTĐC") == Emerald
    ensures StatusColor("Đã duyệt dự án đầu tư") == Blue
    ensures StatusColor("Có chủ trương đầu tư") == Amber
  {
    var plan := "Đã duyệt phương án BTHTTĐC";
    assert plan[..|APPROVED_PLAN|] == APPROVED_PLAN;
    assert StartsWith(plan, APPROVED_PLAN);
    var project := "Đã duyệt dự án đầu tư";
    assert project[..|APPROVED_PROJECT|] == APPROVED_PROJECT;
    assert StartsWith(project, APPROVED_PROJECT);
    ApprovedProjectIsBlue(project);
    var other := "Có chủ trương đầu tư";
    assert APPROVED_PLAN[0] == 'Đ' && APPROVED_PROJECT[0] == 'Đ';
    MissingCharNotContained(other, APPROVED_PLAN, 'Đ');
    MissingCharNotContained(other, APPROVED_PROJECT, 'Đ');
  }
}
