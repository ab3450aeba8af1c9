/**
 * The short professional summary that both document builders of `app.py` compose when
 * the record carries none.  Both read the same three pieces of the record: the first
 * education entry, the first three main skills and the first two project names.  They
 * differ in three details: the PDF builder drops empty project names, joins the parts
 * with `". "` and has its own fixed default sentence, while the LaTeX builder keeps
 * empty names and joins with `" . "`.
 */
module Summary {
  import opened Wrappers
  import opened Text
  import opened Resume

  /** `xs[:n]`. */
  function Take<T>(xs: seq<T>, n: nat): (r: seq<T>)
    ensures |r| == if |xs| < n then |xs| else n
    ensures forall i :: 0 <= i < |r| ==> r[i] == xs[i]
  {
    if |xs| <= n then xs else xs[..n]
  }

  /** `[s.get('mainskill', '') for s in skills]`. */
  function MainSkills(skills: seq<Skill>): (r: seq<string>)
    ensures |r| == |skills|
    ensures forall i :: 0 <= i < |skills| ==> r[i] == skills[i].mainskill
  {
    seq(|skills|, i requires 0 <= i < |skills| => skills[i].mainskill)
  }

  /** `[p.get('name', '') for p in projects]`. */
  function ProjectNames(projects: seq<Project>): (r: seq<string>)
    ensures |r| == |projects|
    ensures forall i :: 0 <= i < |projects| ==> r[i] == projects[i].name
  {
    seq(|projects|, i requires 0 <= i < |projects| => projects[i].name)
  }

  /** The course and the college of the first education entry, when present. */
  function EducationParts(education: seq<Education>): seq<string> {
    if education == [] then []
    else
      var e := education[0];
      (if OrEmpty(e.course) != [] then [OrEmpty(e.course) + " graduate"] else [])
      + (if OrEmpty(e.college) != [] then ["from " + OrEmpty(e.college)] else [])
  }

  /** The non-empty names among the first three main skills, when there are any. */
  function SkillsPart(skills: seq<Skill>): seq<string> {
    if skills == [] then []
    else
      var tops := NonEmpty(Take(MainSkills(skills), 3));
      if tops != [] then ["Skills: " + Join(tops, ", ")] else []
  }

  /** The first two project names, the empty ones dropped when `dropEmpty` holds. */
  function ProjectsPart(projects: seq<Project>, dropEmpty: bool): seq<string> {
    if projects == [] then []
    else
      var first := Take(ProjectNames(projects), 2);
      var names := if dropEmpty then NonEmpty(first) else first;
      if names != [] then ["Projects: " + Join(names, ", ")] else []
  }

  /** The parts of the summary, in the order both builders add them. */
  function Parts(d: Record, dropEmpty: bool): seq<string> {
    EducationParts(d.education) + SkillsPart(d.skills) + ProjectsPart(d.projects, dropEmpty)
  }

  /** The PDF builder's sentence for a record with nothing to summarise. */
  const PdfDefault: string :=
    "Computer Science graduate with practical experience in software development and AI projects."

  /** The LaTeX builder's sentence for a record with nothing to summarise. */
  const LatexDefault: string :=
    "Computer Science graduate with practical experience in software and AI projects."

  /** The PDF builder's summary text, before it is escaped: the stored summary if there is
      one, otherwise the parts joined by `". "`, otherwise its default sentence. */
  function PdfSummary(d: Record): string {
    var prof := OrEmpty(d.professionalSummary);
    if prof != [] then prof
    else
      var parts := Parts(d, true);
      if parts != [] then Join(parts, ". ") else PdfDefault
  }

  /** The LaTeX builder's composed summary, before it is escaped: the parts joined by
      `" . "`, or its default sentence when that join is empty. */
  function LatexSummaryText(d: Record): string {
    var joined := Join(Parts(d, false), " . ");
    if joined != [] then joined else LatexDefault
  }

  // ---------------------------------------------------------------------------
  // properties

  /** Every part has text in it. */
  lemma {:induction false} PartsNonEmpty(d: Record, dropEmpty: bool)
    ensures forall i :: 0 <= i < |Parts(d, dropEmpty)| ==> Parts(d, dropEmpty)[i] != []
  {
    var ed, sk, pr := EducationParts(d.education), SkillsPart(d.skills), ProjectsPart(d.projects, dropEmpty);
    assert forall i :: 0 <= i < |ed| ==> ed[i] != [];
    assert forall i :: 0 <= i < |sk| ==> |sk[i]| >= |"Skills: "|;
    assert forall i :: 0 <= i < |pr| ==> |pr[i]| >= |"Projects: "|;
    assert Parts(d, dropEmpty) == ed + sk + pr;
  }

  /** A join of non-empty strings is empty only when there is nothing to join. */
  lemma {:induction false} JoinEmptyIff(parts: seq<string>, sep: string)
    requires forall i :: 0 <= i < |parts| ==> parts[i] != []
    ensures Join(parts, sep) == [] <==> parts == []
  {
    if |parts| >= 2 {
      assert |Join(parts, sep)| >= |parts[0]|;
    }
  }

  /** The LaTeX builder's `or` falls back to its default exactly when there are no parts, so
      both builders use their default sentences under the same condition. */
  lemma {:induction false} LatexDefaultRule(d: Record)
    ensures LatexSummaryText(d)
      == if Parts(d, false) == [] then LatexDefault else Join(Parts(d, false), " . ")
  {
    PartsNonEmpty(d, false);
    JoinEmptyIff(Parts(d, false), " . ");
  }

  /** Only the first education entry, the first three skills and the first two projects
      matter: the parts of a record are the parts of the record cut down to those. */
  lemma {:induction false} PartsReadOnlyTheFirst(d: Record, dropEmpty: bool)
    ensures Parts(d, dropEmpty)
      == Parts(d.(education := Take(d.education, 1), skills := Take(d.skills, 3),
                  projects := Take(d.projects, 2)), dropEmpty)
  {
    assert Take(MainSkills(Take(d.skills, 3)), 3) == Take(MainSkills(d.skills), 3);
    assert Take(ProjectNames(Take(d.projects, 2)), 2) == Take(ProjectNames(d.projects), 2);
  }

  /** The two builders compose the same parts whenever the first two projects have names. */
  lemma {:induction false} PartsAgreeWhenNamed(d: Record)
    requires forall i :: 0 <= i < |d.projects| && i < 2 ==> d.projects[i].name != []
    ensures Parts(d, true) == Parts(d, false)
  {
    var first := Take(ProjectNames(d.projects), 2);
    NonEmptyKeepsAll(first);
  }

  /** A list without empty strings passes `NonEmpty` unchanged. */
  lemma {:induction false} NonEmptyKeepsAll(xs: seq<string>)
    requires forall i :: 0 <= i < |xs| ==> xs[i] != []
    ensures NonEmpty(xs) == xs
  {
    if xs != [] {
      NonEmptyKeepsAll(xs[1..]);
    }
  }

  /** A record whose only project has no name: the PDF builder falls back to its default
      sentence, the LaTeX builder writes `"Projects: "`. */
  lemma {:induction false} UnnamedProjectSummaries()
    ensures var d := EmptyRecord.(projects := [Project([], None, None, None)]);
      PdfSummary(d) == PdfDefault && LatexSummaryText(d) == "Projects: "
  {
    var d := EmptyRecord.(projects := [Project([], None, None, None)]);
    assert ProjectNames(d.projects) == [[]];
    assert Take(ProjectNames(d.projects), 2) == [[]];
    assert NonEmpty([[]]) == [];
    assert Parts(d, true) == [];
    assert Parts(d, false) == ["Projects: " + Join([[]], ", ")];
  }
}
