/**
 * The three HTML resume layouts of `templates.py`: the four section builders shared by
 * the modern and classic pages, the two pages themselves, and the ATS-friendly page
 * that prints preformatted lines.
 *
 * Every value taken from the record passes through `Esc` first, so no record text can
 * open or close a tag; the markup around it depends only on which fields are present.
 */
module Templates {
  import opened Wrappers
  import opened Text
  import opened Html
  import opened Resume

  // ---------------------------------------------------------------------------
  // escaping

  /** `_esc`: a missing value renders as empty text, any other value HTML-escaped. */
  function Esc(v: Option<string>): (r: string)
    ensures v.None? ==> r == []
    ensures r == [] <==> OrEmpty(v) == []
    ensures '<' !in r && '>' !in r && '"' !in r && '\'' !in r
  {
    Escape(OrEmpty(v))
  }

  /** Text without markup characters is shown as it is. */
  lemma {:induction false} EscPlain(s: string)
    requires forall i :: 0 <= i < |s| ==> !IsMarkup(s[i])
    ensures Esc(Some(s)) == s
  {
  }

  /** The escaped text still determines the value: decoding the entities gives it back. */
  lemma {:induction false} EscRoundTrip(s: string)
    ensures Unescape(Esc(Some(s))) == s
  {
    UnescapeEscape(s);
  }

  /** Each string of `xs` escaped. */
  function EscAll(xs: seq<string>): (r: seq<string>)
    ensures |r| == |xs|
    ensures forall i :: 0 <= i < |xs| ==> r[i] == Escape(xs[i])
  {
    seq(|xs|, i requires 0 <= i < |xs| => Escape(xs[i]))
  }

  /** `", ".join(_esc(x) for x in xs if x)`: the non-empty strings, escaped, comma-separated. */
  function JoinEscaped(xs: seq<string>): (r: string)
    ensures '<' !in r && '>' !in r
  {
    var parts := EscAll(NonEmpty(xs));
    JoinKeepsOut(parts, ", ", '<');
    JoinKeepsOut(parts, ", ", '>');
    Join(parts, ", ")
  }

  /** An empty string in the list leaves no trace: no empty item, no doubled comma. */
  lemma {:induction false} JoinEscapedSkipsEmpty(xs: seq<string>, ys: seq<string>)
    ensures JoinEscaped(xs + [""] + ys) == JoinEscaped(xs + ys)
  {
    NonEmptyAppend(xs + [""], ys);
    NonEmptyAppend(xs, [""]);
    NonEmptyAppend(xs, ys);
    assert NonEmpty([""]) == [];
    assert NonEmpty(xs + [""]) == NonEmpty(xs);
  }

  // ---------------------------------------------------------------------------
  // section builders

  /** The opening tag of a `div` of class `cls`. */
  function Opening(cls: string): string {
    "<div " + ("class='" + cls + "'>")
  }

  /** A `div` of class `cls` around `body`. */
  function Div(cls: string, body: string): string {
    Opening(cls) + body + "</div>"
  }

  /** Text appended to the body of a `div` lands just before its closing tag. */
  lemma {:induction false} DivAppend(cls: string, body: string, more: string)
    ensures Div(cls, body + more) == Opening(cls) + body + more + "</div>"
  {
    assert Opening(cls) + (body + more) == Opening(cls) + body + more;
  }

  lemma {:induction false} DivShape(cls: string, body: string)
    ensures StartsWith(Div(cls, body), Opening(cls)) && EndsWith(Div(cls, body), "</div>")
    ensures StartsWith(Opening(cls), "<div ")
  {
    AppendEnds(Opening(cls) + body, "</div>");
    AppendEnds(Opening(cls), body);
    StartsWithTrans(Div(cls, body), Opening(cls) + body, Opening(cls));
    AppendEnds("<div ", "class='" + cls + "'>");
  }

  /** The text of an empty section in a bare `div`. */
  function Placeholder(text: string): string {
    "<div>" + text + "</div>"
  }

  lemma {:induction false} PlaceholderShape(text: string)
    ensures StartsWith(Placeholder(text), "<div>")
  {
    AppendEnds("<div>" + text, "</div>");
    AppendEnds("<div>", text);
    StartsWithTrans(Placeholder(text), "<div>" + text, "<div>");
  }

  const NoEducation: string := Placeholder("No education details provided.")
  const NoSkills: string := Placeholder("No skills provided.")
  const NoProjects: string := Placeholder("No projects provided.")
  const NoCertifications: string := Placeholder("No certifications listed.")

  /** The items joined by newlines, or the placeholder when there are none. */
  function Section(items: seq<string>, placeholder: string): string {
    if items != [] then Join(items, "\n") else placeholder
  }

  /** A section shows its placeholder exactly when it has no item, provided the items
      open with an attributed `<div ` and the placeholder with a bare `<div>`. */
  lemma {:induction false} SectionPlaceholderIffEmpty(items: seq<string>, placeholder: string)
    requires StartsWith(placeholder, "<div>")
    requires forall i :: 0 <= i < |items| ==> StartsWith(items[i], "<div ")
    ensures Section(items, placeholder) == placeholder <==> items == []
  {
    if items != [] {
      JoinStartsWithFirst(items, "\n");
      StartsWithTrans(Join(items, "\n"), items[0], "<div ");
      assert Join(items, "\n")[4] == "<div "[4];
      assert placeholder[4] == "<div>"[4];
    }
  }

  /** When every item `f` yields opens a `div` of class `cls`, the collected items all
      open with an attributed `<div `. */
  lemma {:induction false} CollectedOpenDivs<T>(xs: seq<T>, f: T -> Option<string>, cls: string)
    requires forall i :: 0 <= i < |xs| && f(xs[i]).Some? ==> StartsWith(f(xs[i]).value, Opening(cls))
    ensures forall i :: 0 <= i < |Collect(xs, f)| ==> StartsWith(Collect(xs, f)[i], "<div ")
  {
    DivShape(cls, "");
    forall i | 0 <= i < |Collect(xs, f)|
      ensures StartsWith(Collect(xs, f)[i], "<div ")
    {
      CollectFrom(xs, f, i);
      StartsWithTrans(Collect(xs, f)[i], Opening(cls), "<div ");
    }
  }

  /** An education entry with its course, college and year all empty. */
  predicate EducationBlank(e: Education) {
    OrEmpty(e.course) == [] && OrEmpty(e.college) == [] && OrEmpty(e.year) == []
  }

  /** The bold course, the dash when there is a college too, and the college. */
  function CourseAndCollege(course: string, college: string): string {
    (if course != [] then "<b>" + course + "</b>" else [])
      + (if course != [] && college != [] then " \U{2014} " else [])
      + college
  }

  /** One `edu-item` div: the course in bold, the college, the year in a floated span;
      a blank entry yields nothing. */
  function EducationItem(e: Education): (r: Option<string>)
    ensures r.None? <==> EducationBlank(e)
    ensures r.Some? ==> StartsWith(r.value, Opening("edu-item")) && EndsWith(r.value, "</div>")
  {
    var course := Esc(e.course);
    var college := Esc(e.college);
    var year := Esc(e.year);
    if course == [] && college == [] && year == [] then None
    else
      var body := CourseAndCollege(course, college)
        + (if year != [] then " <span class='yr'>" + year + "</span>" else []);
      DivShape("edu-item", body);
      Some(Div("edu-item", body))
  }

  /** With both a course and a college, the bold course is followed by the dash and the
      college. */
  lemma {:induction false} EducationSeparator(e: Education)
    requires OrEmpty(e.course) != [] && OrEmpty(e.college) != []
    ensures Contains(EducationItem(e).value, "<b>" + Esc(e.course) + "</b>" + " \U{2014} " + Esc(e.college))
  {
    var course := Esc(e.course);
    var college := Esc(e.college);
    var year := Esc(e.year);
    var pair := CourseAndCollege(course, college);
    var yearHtml := if year != [] then " <span class='yr'>" + year + "</span>" else [];
    assert pair == "<b>" + course + "</b>" + " \U{2014} " + college;
    ContainsSelf(pair);
    ContainsLeft(pair, yearHtml, pair);
    ContainsRight(Opening("edu-item"), pair + yearHtml, pair);
    ContainsLeft(Opening("edu-item") + (pair + yearHtml), "</div>", pair);
  }

  /** Unless both a course and a college are present, no dash is written: the item is the
      bold course (if any), the college, and the year span (if any), side by side. */
  lemma {:induction false} EducationNoSeparator(e: Education)
    requires !EducationBlank(e)
    requires OrEmpty(e.course) == [] || OrEmpty(e.college) == []
    ensures EducationItem(e).value == Div("edu-item",
      (if Esc(e.course) != [] then "<b>" + Esc(e.course) + "</b>" else [])
      + Esc(e.college)
      + (if Esc(e.year) != [] then " <span class='yr'>" + Esc(e.year) + "</span>" else []))
  {
    var course := Esc(e.course);
    var college := Esc(e.college);
    assert CourseAndCollege(course, college) == (if course != [] then "<b>" + course + "</b>" else []) + college;
  }

  /** `_build_education_html`, as a function of the record. */
  function EducationHtml(d: Record): string {
    Section(Collect(d.education, EducationItem), NoEducation)
  }

  /** `_build_education_html`. */
  method BuildEducationHtml(d: Record) returns (html: string)
    ensures html == EducationHtml(d)
  {
    var items := Gather(d.education, EducationItem);
    html := if items != [] then Join(items, "\n") else NoEducation;
  }

  /** The education placeholder appears exactly when every entry is blank. */
  lemma {:induction false} EducationPlaceholderIffAllBlank(d: Record)
    ensures EducationHtml(d) == NoEducation
        <==> forall i :: 0 <= i < |d.education| ==> EducationBlank(d.education[i])
  {
    CollectEmpty(d.education, EducationItem);
    CollectedOpenDivs(d.education, EducationItem, "edu-item");
    PlaceholderShape("No education details provided.");
    SectionPlaceholderIffEmpty(Collect(d.education, EducationItem), NoEducation);
  }

  /** One `skill-pill` div: the main skill in bold, then its non-empty sub-skills; a skill
      without a main skill yields nothing. */
  function SkillItem(s: Skill): (r: Option<string>)
    ensures r.None? <==> s.mainskill == []
    ensures r.Some? ==> StartsWith(r.value, Opening("skill-pill")) && EndsWith(r.value, "</div>")
  {
    var mainskill := Esc(Some(s.mainskill));
    var subsText := JoinEscaped(OrNone(s.subskills));
    if mainskill == [] then None
    else
      var body := "<b>" + mainskill + "</b>: " + subsText;
      DivShape("skill-pill", body);
      Some(Div("skill-pill", body))
  }

  /** `_build_skills_html`, as a function of the record. */
  function SkillsHtml(d: Record): string {
    Section(Collect(d.skills, SkillItem), NoSkills)
  }

  /** `_build_skills_html`. */
  method BuildSkillsHtml(d: Record) returns (html: string)
    ensures html == SkillsHtml(d)
  {
    var pills := Gather(d.skills, SkillItem);
    html := if pills != [] then Join(pills, "\n") else NoSkills;
  }

  /** The skills placeholder appears exactly when no skill has a main skill. */
  lemma {:induction false} SkillsPlaceholderIffNoMainSkill(d: Record)
    ensures SkillsHtml(d) == NoSkills <==> forall i :: 0 <= i < |d.skills| ==> d.skills[i].mainskill == []
  {
    CollectEmpty(d.skills, SkillItem);
    CollectedOpenDivs(d.skills, SkillItem, "skill-pill");
    PlaceholderShape("No skills provided.");
    SectionPlaceholderIffEmpty(Collect(d.skills, SkillItem), NoSkills);
  }

  /** The repository link of a project. */
  function RepoLink(repo: string): string {
    " &nbsp;<a class='proj-link' href='" + Escape(repo) + "' target='_blank'>[Repo]</a>"
  }

  /** The name line of a project: the bold name and, when there is one, the repository
      link; nothing without a name. */
  function ProjectNameLine(name: string, repo: string): string {
    if name != [] then Div("proj-name", "<b>" + name + "</b>" + (if repo != [] then RepoLink(repo) else [])) else []
  }

  /** The technologies line and the description of a project, each when non-empty. */
  function ProjectDetails(p: Project): string {
    var techsText := JoinEscaped(OrNone(p.technologies));
    var desc := Esc(p.description);
    (if techsText != [] then Div("proj-tech", "<em>" + techsText + "</em>") else [])
      + (if desc != [] then Div("proj-desc", desc) else [])
  }

  /** The inside of a project's div: the name line, then the details. */
  function ProjectBody(p: Project): string {
    ProjectNameLine(Esc(Some(p.name)), OrEmpty(p.repository)) + ProjectDetails(p)
  }

  /** One `project-item` div; a project with neither name nor description yields nothing. */
  function ProjectItem(p: Project): (r: Option<string>)
    ensures r.None? <==> p.name == [] && OrEmpty(p.description) == []
    ensures r.Some? ==> StartsWith(r.value, Opening("project-item")) && EndsWith(r.value, "</div>")
  {
    if Esc(Some(p.name)) == [] && Esc(p.description) == [] then None
    else
      DivShape("project-item", ProjectBody(p));
      Some(Div("project-item", ProjectBody(p)))
  }

  /** A name line with a repository carries the repository link. */
  lemma {:induction false} NameLineHasLink(name: string, repo: string)
    requires name != [] && repo != []
    ensures Contains(ProjectNameLine(name, repo), RepoLink(repo))
  {
    var link := RepoLink(repo);
    var bold := "<b>" + name + "</b>";
    assert ProjectNameLine(name, repo) == Opening("proj-name") + (bold + link) + "</div>";
    ContainsSelf(link);
    ContainsRight(bold, link, link);
    ContainsRight(Opening("proj-name"), bold + link, link);
    ContainsLeft(Opening("proj-name") + (bold + link), "</div>", link);
  }

  /** The repository link appears when the project has a name and a repository. */
  lemma {:induction false} ProjectRepoLink(p: Project)
    requires p.name != [] && OrEmpty(p.repository) != []
    ensures Contains(ProjectItem(p).value, RepoLink(OrEmpty(p.repository)))
  {
    var repo := OrEmpty(p.repository);
    var name := Esc(Some(p.name));
    var nameLine := ProjectNameLine(name, repo);
    var link := RepoLink(repo);
    NameLineHasLink(name, repo);
    ContainsLeft(nameLine, ProjectDetails(p), link);
    ContainsRight(Opening("project-item"), ProjectBody(p), link);
    ContainsLeft(Opening("project-item") + ProjectBody(p), "</div>", link);
  }

  /** Without a name the repository is ignored. */
  lemma {:induction false} ProjectRepoNeedsName(p: Project)
    requires p.name == []
    ensures ProjectItem(p) == ProjectItem(p.(repository := None))
  {
    assert ProjectNameLine(Esc(Some(p.name)), OrEmpty(p.repository)) == [];
    assert ProjectDetails(p) == ProjectDetails(p.(repository := None));
    assert ProjectBody(p) == ProjectBody(p.(repository := None));
  }

  /** `_build_projects_html`, as a function of the record. */
  function ProjectsHtml(d: Record): string {
    Section(Collect(d.projects, ProjectItem), NoProjects)
  }

  /** `_build_projects_html`. */
  method BuildProjectsHtml(d: Record) returns (html: string)
    ensures html == ProjectsHtml(d)
  {
    var blocks := Gather(d.projects, ProjectItem);
    html := if blocks != [] then Join(blocks, "\n") else NoProjects;
  }

  /** The projects placeholder appears exactly when no project has a name or a description. */
  lemma {:induction false} ProjectsPlaceholderIffNoneNamed(d: Record)
    ensures ProjectsHtml(d) == NoProjects
        <==> forall i :: 0 <= i < |d.projects| ==> d.projects[i].name == [] && OrEmpty(d.projects[i].description) == []
  {
    CollectEmpty(d.projects, ProjectItem);
    CollectedOpenDivs(d.projects, ProjectItem, "project-item");
    PlaceholderShape("No projects provided.");
    SectionPlaceholderIffEmpty(Collect(d.projects, ProjectItem), NoProjects);
  }

  /** The certificate link for a source that looks like a URL. */
  function CertificateLink(src: string): string {
    " &nbsp;<a href='" + Escape(src) + "' target='_blank'>[Certificate]</a>"
  }

  /** What a certification source adds to its line: a link when it starts with `http`,
      the escaped text after a dash otherwise, nothing when it is empty. */
  function SourceSuffix(src: string): string {
    if src == [] then []
    else if StartsWith(src, "http") then CertificateLink(src)
    else " \U{2014} " + Escape(src)
  }

  /** The name and the id in parentheses, the start of every certification line. */
  function NameAndId(name: string, cid: string): string {
    name + (if cid != [] then " (ID: " + cid + ")" else [])
  }

  /** One `cert-item` div: the name, the id, the source. */
  function CertificationItem(c: Certification): (r: string)
    ensures StartsWith(r, Opening("cert-item")) && EndsWith(r, "</div>")
  {
    var body := NameAndId(Esc(Some(c.name)), Esc(c.id)) + SourceSuffix(OrEmpty(c.source));
    DivShape("cert-item", body);
    Div("cert-item", body)
  }

  /** Relative to the same certification without a source, the source inserts exactly a
      `[Certificate]` link when it starts with `http`, and exactly the dash and the escaped
      source otherwise, just before the closing tag. */
  lemma {:induction false} CertificationSourceShown(c: Certification)
    ensures var src := OrEmpty(c.source);
      var bare := CertificationItem(c.(source := None));
      |bare| >= 6
      && (src == [] ==> CertificationItem(c) == bare)
      && (src != [] && StartsWith(src, "http") ==> InsertedAt(CertificationItem(c), bare, CertificateLink(src), |bare| - 6))
      && (src != [] && !StartsWith(src, "http") ==> InsertedAt(CertificationItem(c), bare, " \U{2014} " + Escape(src), |bare| - 6))
  {
    var src := OrEmpty(c.source);
    var body := NameAndId(Esc(Some(c.name)), Esc(c.id));
    var head := Opening("cert-item") + body;
    var suffix := SourceSuffix(src);
    var bare := CertificationItem(c.(source := None));
    assert bare == Div("cert-item", body + []);
    DivAppend("cert-item", body, []);
    assert bare == head + [] + "</div>";
    assert head + [] == head;
    assert CertificationItem(c) == Div("cert-item", body + suffix);
    DivAppend("cert-item", body, suffix);
    InsertMiddle(head, suffix, "</div>");
  }

  function CertificationLine(c: Certification): Option<string> {
    Some(CertificationItem(c))
  }

  /** `_build_certs_html`, as a function of the record. */
  function CertificationsHtml(d: Record): string {
    Section(Collect(d.certifications, CertificationLine), NoCertifications)
  }

  /** `_build_certs_html`. */
  method BuildCertificationsHtml(d: Record) returns (html: string)
    ensures html == CertificationsHtml(d)
  {
    var items := Gather(d.certifications, CertificationLine);
    html := if items != [] then Join(items, "\n") else NoCertifications;
  }

  /** Every certification yields a line, so the placeholder appears exactly when there
      are none. */
  lemma {:induction false} CertificationsPlaceholderIffNone(d: Record)
    ensures |Collect(d.certifications, CertificationLine)| == |d.certifications|
    ensures CertificationsHtml(d) == NoCertifications <==> d.certifications == []
  {
    CollectTotal(d.certifications, CertificationLine);
    CollectedOpenDivs(d.certifications, CertificationLine, "cert-item");
    PlaceholderShape("No certifications listed.");
    SectionPlaceholderIffEmpty(Collect(d.certifications, CertificationLine), NoCertifications);
  }

  // ---------------------------------------------------------------------------
  // modern and classic pages

  const DocumentOpen: string := "<!doctype html><html><head><meta charset='utf-8'/>"

  const ModernCss: string :=
    "<style>"
    + "body { font-family: Arial, sans-serif; margin: 36px; color:#222; }"
    + ".header { text-align:center; margin-bottom:6px; }"
    + "h1 { color:#2E86C1; margin:0; font-size:26px; }"
    + ".contact { color:#666; font-size:11px; margin-top:6px; }"
    + ".links { color:#0b5394; font-size:11px; margin-top:4px; }"
    + ".section { margin-top:18px; }"
    + "h2 { color:#117A65; font-size:13px; margin-bottom:6px; border-bottom:1px solid #eaeaea; padding-bottom:6px; }"
    + ".skill-pill { display:inline-block; background:#f0f6fb; color:#0b5394; padding:6px 10px; border-radius:12px; margin:4px; font-size:11px; }"
    + ".project-item, .edu-item, .cert-item { margin-bottom:8px; }"
    + ".proj-name { font-weight:bold; }"
    + ".proj-link { color:#0b5394; text-decoration:none; font-size:11px; }"
    + ".proj-tech { font-style:italic; color:#444; font-size:11px; margin-top:2px; }"
    + ".proj-desc { margin-top:4px; }"
    + ".yr { float:right; color:#444; }"
    + "a { color:#0b5394; text-decoration:none; }"
    + "</style>"

  const ClassicCss: string :=
    "<style>"
    + "body { font-family: Georgia, 'Times New Roman', serif; margin: 40px; color:#111; }"
    + "h1 { margin:0; font-size:26px; }"
    + ".meta { font-size:12px; color:#333; margin-top:6px; }"
    + "h2 { font-size:13px; margin-top:20px; margin-bottom:8px; border-bottom:1px solid #ccc; padding-bottom:6px; }"
    + ".section { margin-top:12px; }"
    + "a { color:#0b5394; text-decoration:none; }"
    + "</style>"

  /** The separator of the modern contact and link lines. */
  const ModernSeparator: string := " &nbsp;\U{2022}&nbsp; "

  /** The separator of the classic contact line. */
  const ClassicSeparator: string := " \U{2022} "

  /** The present values among location, phone and e-mail, in that order, escaped and
      joined by `sep`. */
  function ContactLine(d: Record, sep: string): string {
    Join(NonEmpty([Esc(d.location), Esc(d.phone), Esc(Some(d.email))]), sep)
  }

  /** The contact line is empty exactly when location, phone and e-mail all are. */
  lemma {:induction false} ContactLineEmptyIff(d: Record, sep: string)
    ensures ContactLine(d, sep) == [] <==> OrEmpty(d.location) == [] && OrEmpty(d.phone) == [] && d.email == []
  {
    var xs := [Esc(d.location), Esc(d.phone), Esc(Some(d.email))];
    var parts := NonEmpty(xs);
    if parts != [] {
      assert parts[0] in parts;
      JoinStartsWithFirst(parts, sep);
    } else {
      assert xs[0] !in parts && xs[1] !in parts && xs[2] !in parts;
    }
  }

  /** With location, phone and e-mail all present, the contact line lists them in that order. */
  lemma {:induction false} ContactLineOrder(d: Record, sep: string)
    requires OrEmpty(d.location) != [] && OrEmpty(d.phone) != [] && d.email != []
    ensures ContactLine(d, sep) == Esc(d.location) + sep + Esc(d.phone) + sep + Esc(Some(d.email))
  {
    var xs := [Esc(d.location), Esc(d.phone), Esc(Some(d.email))];
    var parts := NonEmpty(xs);
    assert xs[1..] == [xs[1], xs[2]];
    assert xs[1..][1..] == [xs[2]];
    assert NonEmpty([xs[2]]) == [xs[2]] + NonEmpty([]);
    assert NonEmpty([xs[1], xs[2]]) == [xs[1]] + NonEmpty([xs[2]]);
    assert parts == [xs[0]] + [xs[1], xs[2]];
    JoinAfter(xs[0], [xs[1], xs[2]], sep);
    assert [xs[1], xs[2]] == [xs[1]] + [xs[2]];
    JoinAfter(xs[1], [xs[2]], sep);
    assert Join(parts, sep) == xs[0] + sep + (xs[1] + sep + xs[2]);
  }

  /** The modern links line: LinkedIn, then GitHub, each when present. */
  function ModernLinks(d: Record): string {
    var linkedin := Esc(d.linkedin);
    var github := Esc(d.github);
    var parts := (if linkedin != [] then ["<a href='" + linkedin + "' target='_blank'>LinkedIn</a>"] else [])
      + (if github != [] then ["<a href='" + github + "' target='_blank'>GitHub</a>"] else []);
    Join(parts, ModernSeparator)
  }

  /** A titled section wrapping `body`. */
  function SectionBlock(title: string, body: string): string {
    "<div class='section'><h2>" + title + "</h2>" + body + "</div>"
  }

  /** `page` shows the body `body` inside its own section under the heading `title`. */
  ghost predicate ShowsSection(page: string, title: string, body: string) {
    Contains(page, SectionBlock(title, body))
  }

  /** A section shows itself. */
  lemma {:induction false} SectionBlockShows(title: string, body: string)
    ensures ShowsSection(SectionBlock(title, body), title, body)
  {
    ContainsSelf(SectionBlock(title, body));
  }

  /** Text after a shown section does not hide it. */
  lemma {:induction false} ShowsExtended(page: string, more: string, title: string, body: string)
    requires ShowsSection(page, title, body)
    ensures ShowsSection(page + more, title, body)
  {
    ContainsLeft(page, more, SectionBlock(title, body));
  }

  /** A section appended to a page is shown by it. */
  lemma {:induction false} ShowsAppended(page: string, title: string, body: string)
    ensures ShowsSection(page + SectionBlock(title, body), title, body)
  {
    ContainsSelf(SectionBlock(title, body));
    ContainsRight(page, SectionBlock(title, body), SectionBlock(title, body));
  }

  /** A shown section stays shown behind any prefix. */
  lemma {:induction false} ShowsBehind(top: string, page: string, title: string, body: string)
    requires ShowsSection(page, title, body)
    ensures ShowsSection(top + page, title, body)
  {
    ContainsRight(top, page, SectionBlock(title, body));
  }

  /** Four sections one after another, then the closing tags, show all four. */
  lemma {:induction false} FourSectionsShown(t1: string, b1: string, t2: string, b2: string, t3: string, b3: string, t4: string, b4: string)
    ensures var page := SectionBlock(t1, b1) + SectionBlock(t2, b2) + SectionBlock(t3, b3) + SectionBlock(t4, b4) + "</body></html>";
      ShowsSection(page, t1, b1) && ShowsSection(page, t2, b2) && ShowsSection(page, t3, b3) && ShowsSection(page, t4, b4)
  {
    var p1 := SectionBlock(t1, b1);
    SectionBlockShows(t1, b1);
    var p2 := p1 + SectionBlock(t2, b2);
    ShowsExtended(p1, SectionBlock(t2, b2), t1, b1);
    ShowsAppended(p1, t2, b2);
    var p3 := p2 + SectionBlock(t3, b3);
    ShowsExtended(p2, SectionBlock(t3, b3), t1, b1);
    ShowsExtended(p2, SectionBlock(t3, b3), t2, b2);
    ShowsAppended(p2, t3, b3);
    var p4 := p3 + SectionBlock(t4, b4);
    ShowsExtended(p3, SectionBlock(t4, b4), t1, b1);
    ShowsExtended(p3, SectionBlock(t4, b4), t2, b2);
    ShowsExtended(p3, SectionBlock(t4, b4), t3, b3);
    ShowsAppended(p3, t4, b4);
    ShowsExtended(p4, "</body></html>", t1, b1);
    ShowsExtended(p4, "</body></html>", t2, b2);
    ShowsExtended(p4, "</body></html>", t3, b3);
    ShowsExtended(p4, "</body></html>", t4, b4);
  }

  /** The summary section, present only for a non-empty summary. */
  function SummaryBlock(prof: string): string {
    if prof != [] then SectionBlock("Professional Summary", "<div>" + prof + "</div>") else []
  }

  /** The centred header: name, contact line and links line, each line only when non-empty. */
  function ModernHeader(d: Record): string {
    var contact := ContactLine(d, ModernSeparator);
    var links := ModernLinks(d);
    "<div class='header'>" + "<h1>" + Esc(Some(d.name)) + "</h1>"
      + (if contact != [] then "<div class='contact'>" + contact + "</div>" else [])
      + (if links != [] then "<div class='links'>" + links + "</div>" else [])
      + "</div>"
  }

  /** The fixed head of the modern page: document opening and style sheet. */
  const ModernHead: string := DocumentOpen + ModernCss + "</head><body>"

  /** The four fixed sections of the modern page, in its order, and the closing tags. */
  function ModernSections(d: Record): string {
    SectionBlock("Core Skills", SkillsHtml(d))
      + SectionBlock("Key Projects", ProjectsHtml(d))
      + SectionBlock("Education", EducationHtml(d))
      + SectionBlock("Certifications", CertificationsHtml(d))
      + "</body></html>"
  }

  /** Everything of the modern page after its head. */
  function ModernBody(d: Record): string {
    ModernHeader(d) + SummaryBlock(Esc(d.professionalSummary)) + ModernSections(d)
  }

  /** `modern_template`. */
  function ModernTemplate(d: Record): string {
    ModernHead + ModernBody(d)
  }

  /** The modern page always shows all four sections with their bodies. */
  lemma {:induction false} ModernShowsEverySection(d: Record)
    ensures ShowsSection(ModernTemplate(d), "Core Skills", SkillsHtml(d))
    ensures ShowsSection(ModernTemplate(d), "Key Projects", ProjectsHtml(d))
    ensures ShowsSection(ModernTemplate(d), "Education", EducationHtml(d))
    ensures ShowsSection(ModernTemplate(d), "Certifications", CertificationsHtml(d))
  {
    var top := ModernHeader(d) + SummaryBlock(Esc(d.professionalSummary));
    var sections := ModernSections(d);
    FourSectionsShown("Core Skills", SkillsHtml(d), "Key Projects", ProjectsHtml(d),
                      "Education", EducationHtml(d), "Certifications", CertificationsHtml(d));
    ShowsBehind(top, sections, "Core Skills", SkillsHtml(d));
    ShowsBehind(top, sections, "Key Projects", ProjectsHtml(d));
    ShowsBehind(top, sections, "Education", EducationHtml(d));
    ShowsBehind(top, sections, "Certifications", CertificationsHtml(d));
    ShowsBehind(ModernHead, ModernBody(d), "Core Skills", SkillsHtml(d));
    ShowsBehind(ModernHead, ModernBody(d), "Key Projects", ProjectsHtml(d));
    ShowsBehind(ModernHead, ModernBody(d), "Education", EducationHtml(d));
    ShowsBehind(ModernHead, ModernBody(d), "Certifications", CertificationsHtml(d));
  }

  /** The header of the modern page reads only the name and the contact and link fields. */
  lemma {:induction false} ModernHeaderReads(d: Record, e: Record)
    requires d.name == e.name && d.location == e.location && d.phone == e.phone && d.email == e.email
    requires d.linkedin == e.linkedin && d.github == e.github
    ensures ModernHeader(d) == ModernHeader(e)
  {
    assert ContactLine(d, ModernSeparator) == ContactLine(e, ModernSeparator);
    assert ModernLinks(d) == ModernLinks(e);
  }

  /** The sections of the modern page read only the four lists. */
  lemma {:induction false} ModernSectionsReads(d: Record, e: Record)
    requires d.education == e.education && d.skills == e.skills
    requires d.certifications == e.certifications && d.projects == e.projects
    ensures ModernSections(d) == ModernSections(e)
  {
    assert SkillsHtml(d) == SkillsHtml(e);
    assert ProjectsHtml(d) == ProjectsHtml(e);
    assert EducationHtml(d) == EducationHtml(e);
    assert CertificationsHtml(d) == CertificationsHtml(e);
  }

  /** Without a summary the body of the modern page is its header followed by its sections. */
  lemma {:induction false} ModernWithoutSummary(d: Record)
    ensures ModernBody(d.(professionalSummary := None)) == ModernHeader(d) + ModernSections(d)
  {
    var d0 := d.(professionalSummary := None);
    ModernHeaderReads(d0, d);
    ModernSectionsReads(d0, d);
    assert SummaryBlock(Esc(d0.professionalSummary)) == [];
    assert ModernHeader(d) + [] == ModernHeader(d);
  }

  /** An empty summary leaves the modern page as if there were none; a non-empty one
      inserts exactly its section, between the header and the skills. */
  lemma {:induction false} ModernSummaryOnlyWhenGiven(d: Record)
    ensures OrEmpty(d.professionalSummary) == [] ==> ModernTemplate(d) == ModernTemplate(d.(professionalSummary := None))
    ensures OrEmpty(d.professionalSummary) != [] ==>
      InsertedAt(ModernBody(d), ModernBody(d.(professionalSummary := None)),
                 SummaryBlock(Esc(d.professionalSummary)), |ModernHeader(d)|)
  {
    ModernWithoutSummary(d);
    var header := ModernHeader(d);
    var rest := ModernSections(d);
    var summary := SummaryBlock(Esc(d.professionalSummary));
    assert ModernBody(d) == header + summary + rest;
    if summary == [] {
      assert header + summary == header;
    }
    InsertMiddle(header, summary, rest);
  }

  /** Everything of the classic page before the sections. */
  function ClassicTop(d: Record): string {
    var contact := ContactLine(d, ClassicSeparator);
    DocumentOpen + ClassicCss + "</head><body>" + "<h1>" + Esc(Some(d.name)) + "</h1>"
      + (if contact != [] then "<div class='meta'>" + contact + "</div>" else [])
  }

  /** The four sections of the classic page, in its order, and the closing tags. */
  function ClassicSections(d: Record): string {
    SectionBlock("Education", EducationHtml(d))
      + SectionBlock("Work / Projects", ProjectsHtml(d))
      + SectionBlock("Skills", SkillsHtml(d))
      + SectionBlock("Certifications", CertificationsHtml(d))
      + "</body></html>"
  }

  /** `classic_template`. */
  function ClassicTemplate(d: Record): string {
    ClassicTop(d) + ClassicSections(d)
  }

  /** The classic page always shows all four sections with their bodies. */
  lemma {:induction false} ClassicShowsEverySection(d: Record)
    ensures ShowsSection(ClassicTemplate(d), "Education", EducationHtml(d))
    ensures ShowsSection(ClassicTemplate(d), "Work / Projects", ProjectsHtml(d))
    ensures ShowsSection(ClassicTemplate(d), "Skills", SkillsHtml(d))
    ensures ShowsSection(ClassicTemplate(d), "Certifications", CertificationsHtml(d))
  {
    FourSectionsShown("Education", EducationHtml(d), "Work / Projects", ProjectsHtml(d),
                      "Skills", SkillsHtml(d), "Certifications", CertificationsHtml(d));
    ShowsBehind(ClassicTop(d), ClassicSections(d), "Education", EducationHtml(d));
    ShowsBehind(ClassicTop(d), ClassicSections(d), "Work / Projects", ProjectsHtml(d));
    ShowsBehind(ClassicTop(d), ClassicSections(d), "Skills", SkillsHtml(d));
    ShowsBehind(ClassicTop(d), ClassicSections(d), "Certifications", CertificationsHtml(d));
  }

  /** For the record a session starts with, both pages show all four placeholders. */
  lemma {:induction false} EmptyRecordShowsPlaceholders()
    ensures ShowsSection(ModernTemplate(EmptyRecord), "Core Skills", NoSkills)
    ensures ShowsSection(ModernTemplate(EmptyRecord), "Key Projects", NoProjects)
    ensures ShowsSection(ModernTemplate(EmptyRecord), "Education", NoEducation)
    ensures ShowsSection(ModernTemplate(EmptyRecord), "Certifications", NoCertifications)
    ensures ShowsSection(ClassicTemplate(EmptyRecord), "Education", NoEducation)
    ensures ShowsSection(ClassicTemplate(EmptyRecord), "Work / Projects", NoProjects)
    ensures ShowsSection(ClassicTemplate(EmptyRecord), "Skills", NoSkills)
    ensures ShowsSection(ClassicTemplate(EmptyRecord), "Certifications", NoCertifications)
  {
    ModernShowsEverySection(EmptyRecord);
    ClassicShowsEverySection(EmptyRecord);
  }

  // ---------------------------------------------------------------------------
  // ATS-friendly page

  const AtsOpen: string :=
    "<!doctype html><html><head><meta charset='utf-8'/><style>pre{font-family:monospace; font-size:10px; white-space:pre-wrap;}</style></head><body><pre>"

  const AtsClose: string := "</pre></body></html>"

  /** No line holds a `<`. */
  predicate NoOpenTag(lines: seq<string>) {
    forall i :: 0 <= i < |lines| ==> '<' !in lines[i]
  }

  lemma {:induction false} NoOpenTagAppend(a: seq<string>, b: seq<string>)
    requires NoOpenTag(a) && NoOpenTag(b)
    ensures NoOpenTag(a + b)
  {
    assert forall i :: |a| <= i < |a + b| ==> (a + b)[i] == b[i - |a|];
  }

  /** A skill line, for a skill with a main skill. */
  function AtsSkillLine(s: Skill): (r: Option<string>)
    ensures r.None? <==> s.mainskill == []
    ensures r.Some? ==> '<' !in r.value
  {
    var ms := Esc(Some(s.mainskill));
    if ms == [] then None else Some(ms + ": " + JoinEscaped(OrNone(s.subskills)))
  }

  /** A project line: the name, the description after a dash, the repository in parentheses. */
  function AtsProjectLine(p: Project): (r: Option<string>)
    ensures r.Some? && '<' !in r.value
  {
    var desc := Esc(p.description);
    var repo := OrEmpty(p.repository);
    var middle := if desc != [] then " \U{2014} " + desc else [];
    var tail := if repo != [] then " (Repo: " + Escape(repo) + ")" else [];
    assert '<' !in " \U{2014} " && '<' !in " (Repo: " && '<' !in ")";
    assert '<' !in middle && '<' !in tail;
    Some(Esc(Some(p.name)) + middle + tail)
  }

  /** An education line; every entry yields one, blank fields included. */
  function AtsEducationLine(e: Education): (r: Option<string>)
    ensures r.Some? && '<' !in r.value
  {
    Some(Esc(e.course) + " \U{2014} " + Esc(e.college) + " (" + Esc(e.year) + ")")
  }

  /** A certification line: the name, the id in parentheses, the source after a dash. */
  function AtsCertificationLine(c: Certification): (r: Option<string>)
    ensures r.Some? && '<' !in r.value
  {
    var src := OrEmpty(c.source);
    var head := NameAndId(Esc(Some(c.name)), Esc(c.id));
    var tail := if src != [] then " \U{2014} " + Escape(src) else [];
    assert '<' !in " (ID: " && '<' !in ")" && '<' !in " \U{2014} ";
    assert '<' !in head && '<' !in tail;
    Some(head + tail)
  }

  /** A titled block of lines closed by a blank line, or nothing at all. */
  function AtsBlock(present: bool, title: string, body: seq<string>): (r: seq<string>)
    ensures r == [] <==> !present
    ensures present ==> |r| == |body| + 2 && r[0] == title && r[|r| - 1] == ""
    ensures present ==> r[1..|r| - 1] == body
  {
    if present then [title] + body + [""] else []
  }

  /** The line `caption` + `v` when `v` is present. */
  function AtsField(caption: string, v: string): seq<string> {
    if v != [] then [caption + v] else []
  }

  /** The name in capitals, then a blank line, when there is a name. */
  function AtsNameLines(d: Record): seq<string> {
    var name := Upper(Esc(Some(d.name)));
    if name != [] then [name, ""] else []
  }

  /** The e-mail, phone and location lines, each when its value is present. */
  function AtsFieldLines(d: Record): seq<string> {
    AtsField("Email: ", Esc(Some(d.email))) + AtsField("Phone: ", Esc(d.phone)) + AtsField("Location: ", Esc(d.location))
  }

  /** The summary block, when there is a summary. */
  function AtsSummaryLines(d: Record): seq<string> {
    var prof := Esc(d.professionalSummary);
    if prof != [] then ["SUMMARY", prof, ""] else []
  }

  /** The contact values, a spacer, and the summary. */
  function AtsContactLines(d: Record): seq<string> {
    AtsFieldLines(d) + [""] + AtsSummaryLines(d)
  }

  /** The four list sections, each omitted when its list is empty. */
  function AtsListLines(d: Record): seq<string> {
    AtsBlock(d.skills != [], "SKILLS", Collect(d.skills, AtsSkillLine))
      + AtsBlock(d.projects != [], "PROJECTS", Collect(d.projects, AtsProjectLine))
      + AtsBlock(d.education != [], "EDUCATION", Collect(d.education, AtsEducationLine))
      + AtsBlock(d.certifications != [], "CERTIFICATIONS", Collect(d.certifications, AtsCertificationLine))
  }

  /** The lines of the ATS page, in order. */
  function AtsLines(d: Record): seq<string> {
    AtsNameLines(d) + AtsContactLines(d) + AtsListLines(d)
  }

  /** `ats_template`: the fixed prefix, the lines joined by newlines, the fixed suffix. */
  function AtsTemplate(d: Record): string {
    AtsOpen + Join(AtsLines(d), "\n") + AtsClose
  }

  /** The contact value lines, appended one by one. */
  method AtsFields(d: Record) returns (lines: seq<string>)
    ensures lines == AtsFieldLines(d)
  {
    lines := [];
    if d.email != [] {
      lines := lines + ["Email: " + Esc(Some(d.email))];
    }
    ghost var expected := AtsField("Email: ", Esc(Some(d.email)));
    assert lines == expected;
    if OrEmpty(d.phone) != [] {
      lines := lines + ["Phone: " + Esc(d.phone)];
    }
    expected := expected + AtsField("Phone: ", Esc(d.phone));
    assert lines == expected;
    if OrEmpty(d.location) != [] {
      lines := lines + ["Location: " + Esc(d.location)];
    }
  }

  /** The name and contact lines, appended one by one. */
  method AtsHead(d: Record) returns (lines: seq<string>)
    ensures lines == AtsNameLines(d) + AtsContactLines(d)
  {
    lines := [];
    var name := Upper(Esc(Some(d.name)));
    if name != [] {
      lines := lines + [name, ""];
    }
    assert lines == AtsNameLines(d);
    ghost var head := lines;
    var fields := AtsFields(d);
    lines := lines + fields;
    lines := lines + [""];
    var prof := Esc(d.professionalSummary);
    if prof != [] {
      lines := lines + ["SUMMARY", prof, ""];
    }
    assert lines == head + fields + [""] + AtsSummaryLines(d);
    AppendAssoc(head, fields, [""]);
    AppendAssoc(head, fields + [""], AtsSummaryLines(d));
  }

  /** One list section: when the list is non-empty, its title, a line for each entry
      that yields one, and a blank line. */
  method AtsSection<T>(xs: seq<T>, title: string, f: T -> Option<string>) returns (block: seq<string>)
    ensures block == AtsBlock(xs != [], title, Collect(xs, f))
  {
    block := [];
    if xs != [] {
      var entries := Gather(xs, f);
      block := block + [title] + entries + [""];
    }
  }

  /** The list sections, one after another. */
  method AtsLists(d: Record) returns (lines: seq<string>)
    ensures lines == AtsListLines(d)
  {
    var skills := AtsSection(d.skills, "SKILLS", AtsSkillLine);
    var projects := AtsSection(d.projects, "PROJECTS", AtsProjectLine);
    var education := AtsSection(d.education, "EDUCATION", AtsEducationLine);
    var certifications := AtsSection(d.certifications, "CERTIFICATIONS", AtsCertificationLine);
    lines := skills + projects + education + certifications;
  }

  /** `ats_template` as the source runs it: one list of lines, appended to part by part. */
  method BuildAts(d: Record) returns (html: string)
    ensures html == AtsTemplate(d)
  {
    var lines := AtsHead(d);
    var more := AtsLists(d);
    lines := lines + more;
    html := AtsOpen;
    html := html + Join(lines, "\n");
    html := html + AtsClose;
  }

  /** The list sections: each present one is a title, a closing blank line and one line
      per entry (for skills, per entry with a main skill). */
  lemma {:induction false} AtsListLineCount(d: Record)
    ensures |AtsListLines(d)|
      == (if d.skills != [] then 2 + |Collect(d.skills, AtsSkillLine)| else 0)
       + (if d.projects != [] then 2 + |d.projects| else 0)
       + (if d.education != [] then 2 + |d.education| else 0)
       + (if d.certifications != [] then 2 + |d.certifications| else 0)
  {
    CollectTotal(d.projects, AtsProjectLine);
    CollectTotal(d.education, AtsEducationLine);
    CollectTotal(d.certifications, AtsCertificationLine);
  }

  /** When there is a name it opens the page, in capitals, followed by a blank line. */
  lemma {:induction false} AtsNameFirst(d: Record)
    requires d.name != []
    ensures AtsLines(d)[0] == Upper(Escape(d.name)) && AtsLines(d)[1] == ""
    ensures forall i :: 0 <= i < |AtsLines(d)[0]| ==> !IsLower(AtsLines(d)[0][i])
  {
    assert AtsNameLines(d) == [Upper(Escape(d.name)), ""];
    AppendAssoc(AtsNameLines(d), AtsContactLines(d), AtsListLines(d));
    assert AtsLines(d) == [Upper(Escape(d.name)), ""] + (AtsContactLines(d) + AtsListLines(d));
  }

  /** No line of the ATS page holds a `<`, so record text can never close the `<pre>`. */
  lemma {:induction false} AtsBodyHasNoMarkup(d: Record)
    ensures '<' !in Join(AtsLines(d), "\n")
  {
    UpperKeepsOut(Esc(Some(d.name)), '<');
    assert NoOpenTag(AtsNameLines(d));
    AtsContactNoOpenTag(d);
    AtsListNoOpenTag(d);
    NoOpenTagAppend(AtsNameLines(d), AtsContactLines(d));
    NoOpenTagAppend(AtsNameLines(d) + AtsContactLines(d), AtsListLines(d));
    JoinKeepsOut(AtsLines(d), "\n", '<');
  }

  lemma {:induction false} AtsFieldNoOpenTag(caption: string, v: string)
    requires '<' !in caption && '<' !in v
    ensures NoOpenTag(AtsField(caption, v))
  {
  }

  lemma {:induction false} AtsSummaryNoOpenTag(d: Record)
    ensures NoOpenTag(AtsSummaryLines(d))
  {
    var prof := Esc(d.professionalSummary);
    assert '<' !in prof;
    assert '<' !in "SUMMARY";
  }

  lemma {:induction false} AtsContactNoOpenTag(d: Record)
    ensures NoOpenTag(AtsContactLines(d))
  {
    var email := AtsField("Email: ", Esc(Some(d.email)));
    var phone := AtsField("Phone: ", Esc(d.phone));
    var location := AtsField("Location: ", Esc(d.location));
    AtsFieldNoOpenTag("Email: ", Esc(Some(d.email)));
    AtsFieldNoOpenTag("Phone: ", Esc(d.phone));
    AtsFieldNoOpenTag("Location: ", Esc(d.location));
    AtsSummaryNoOpenTag(d);
    NoOpenTagAppend(email, phone);
    NoOpenTagAppend(email + phone, location);
    assert NoOpenTag([""]);
    NoOpenTagAppend(AtsFieldLines(d), [""]);
    NoOpenTagAppend(AtsFieldLines(d) + [""], AtsSummaryLines(d));
  }

  lemma {:induction false} AtsListNoOpenTag(d: Record)
    ensures NoOpenTag(AtsListLines(d))
  {
    var b1 := AtsBlock(d.skills != [], "SKILLS", Collect(d.skills, AtsSkillLine));
    var b2 := AtsBlock(d.projects != [], "PROJECTS", Collect(d.projects, AtsProjectLine));
    var b3 := AtsBlock(d.education != [], "EDUCATION", Collect(d.education, AtsEducationLine));
    var b4 := AtsBlock(d.certifications != [], "CERTIFICATIONS", Collect(d.certifications, AtsCertificationLine));
    AtsListBlockNoOpenTag(d.skills, "SKILLS", AtsSkillLine);
    AtsListBlockNoOpenTag(d.projects, "PROJECTS", AtsProjectLine);
    AtsListBlockNoOpenTag(d.education, "EDUCATION", AtsEducationLine);
    AtsListBlockNoOpenTag(d.certifications, "CERTIFICATIONS", AtsCertificationLine);
    NoOpenTagAppend4(b1, b2, b3, b4);
  }

  lemma {:induction false} NoOpenTagAppend4(a: seq<string>, b: seq<string>, c: seq<string>, e: seq<string>)
    requires NoOpenTag(a) && NoOpenTag(b) && NoOpenTag(c) && NoOpenTag(e)
    ensures NoOpenTag(a + b + c + e)
  {
    NoOpenTagAppend(a, b);
    NoOpenTagAppend(a + b, c);
    NoOpenTagAppend(a + b + c, e);
  }

  /** The block of one list, when no line it yields has an opening angle bracket. */
  lemma {:induction false} AtsListBlockNoOpenTag<T>(xs: seq<T>, title: string, f: T -> Option<string>)
    requires '<' !in title
    requires forall x :: f(x).Some? ==> '<' !in f(x).value
    ensures NoOpenTag(AtsBlock(xs != [], title, Collect(xs, f)))
  {
    CollectAll(xs, f, '<');
    AtsBlockNoOpenTag(xs != [], title, Collect(xs, f));
  }

  lemma {:induction false} AtsBlockNoOpenTag(present: bool, title: string, body: seq<string>)
    requires '<' !in title && NoOpenTag(body)
    ensures NoOpenTag(AtsBlock(present, title, body))
  {
    if present {
      NoOpenTagAppend([title], body);
      NoOpenTagAppend([title] + body, [""]);
    }
  }
}
