/**
 * The text that `generate_resume` of `app.py` hands to the PDF layout engine: the file
 * name, and the story, an ordered list of paragraphs, spacers and the skills table.
 * Every value from the record passes through `rr_escape` (HTML escaping, then line breaks
 * as `<br/>` tags) before it goes into a paragraph's markup.
 */
module Pdf {
  import opened Wrappers
  import opened Text
  import opened Html
  import opened Resume
  import opened Summary

  // ---------------------------------------------------------------------------
  // rr_escape

  /** The paragraph markup for a line break. */
  const LineBreak: string := "<br/>"

  /** What `rr_escape` writes for one character. */
  function RrChar(c: char): (r: string)
    ensures r != []
  {
    if c == '\n' then LineBreak else EscapeChar(c)
  }

  /** `rr_escape`: nothing for a missing value, otherwise the HTML-escaped text with every
      line break replaced by `<br/>`; no newline is left. */
  function RrEscaped(text: Option<string>): (r: string)
    ensures text.None? ==> r == []
    ensures '\n' !in r
  {
    if text.None? then [] else Replace(Escape(text.value), '\n', LineBreak)
  }

  /** The line-break pass on one escaped character. */
  lemma {:induction false} RrCharPasses(c: char)
    ensures Replace(EscapeChar(c), '\n', LineBreak) == RrChar(c)
  {
    if c == '\n' {
      assert EscapeChar(c) == [c];
    } else if IsMarkup(c) {
      assert '\n' !in EscapeChar(c);
    } else {
      assert EscapeChar(c) == [c];
    }
  }

  /** The two passes act character by character, as `RrChar` says. */
  lemma {:induction false} RrPerChar(s: string)
    ensures RrEscaped(Some(s)) == FlatMap(s, RrChar)
  {
    if s != [] {
      assert Escape(s) == EscapeChar(s[0]) + Escape(s[1..]);
      ReplaceAppend(EscapeChar(s[0]), Escape(s[1..]), '\n', LineBreak);
      RrCharPasses(s[0]);
      RrPerChar(s[1..]);
    }
  }

  /** Text without markup characters and newlines is shown as it is. */
  lemma {:induction false} RrPlain(s: string)
    requires forall i :: 0 <= i < |s| ==> !IsMarkup(s[i]) && s[i] != '\n'
    ensures RrEscaped(Some(s)) == s
  {
    RrPerChar(s);
  }

  /** Only empty text escapes to empty text. */
  lemma {:induction false} RrEmptyIff(o: Option<string>)
    ensures RrEscaped(o) == [] <==> OrEmpty(o) == []
  {
    if o.Some? {
      RrPerChar(o.value);
      if o.value != [] {
        assert FlatMap(o.value, RrChar) == RrChar(o.value[0]) + FlatMap(o.value[1..], RrChar);
      }
    }
  }

  /** The character that the escaped text `s` starts with, and how many characters of `s`
      encode it. */
  function RrDecodeToken(s: string): (r: (char, nat))
    requires s != []
    ensures 1 <= r.1 <= |s|
  {
    if StartsWith(s, LineBreak) then ('\n', |LineBreak|) else DecodeToken(s)
  }

  /** Reads `rr_escape`'s output back, one token at a time. */
  function RrUnescape(s: string): string
    decreases |s|
  {
    if s == [] then []
    else
      var (c, n) := RrDecodeToken(s);
      [c] + RrUnescape(s[n..])
  }

  /** The token `RrChar(c)` decodes to `c`, whatever follows it. */
  lemma {:induction false} RrDecodeChar(c: char, rest: string)
    ensures RrDecodeToken(RrChar(c) + rest) == (c, |RrChar(c)|)
  {
    var t := RrChar(c) + rest;
    assert t[..|RrChar(c)|] == RrChar(c);
    if c != '\n' {
      assert t[0] == EscapeChar(c)[0];
      assert t[0] != '<';
      assert !StartsWith(t, LineBreak);
      DecodeEscapeChar(c, rest);
    }
  }

  /** `rr_escape` loses nothing: decoding recovers the text. */
  lemma {:induction false} RrRoundTrip(s: string)
    ensures RrUnescape(RrEscaped(Some(s))) == s
  {
    RrPerChar(s);
    RrUnescapeFlat(s);
  }

  lemma {:induction false} RrUnescapeFlat(s: string)
    ensures RrUnescape(FlatMap(s, RrChar)) == s
  {
    if s != [] {
      var rest := FlatMap(s[1..], RrChar);
      assert FlatMap(s, RrChar) == RrChar(s[0]) + rest;
      RrDecodeChar(s[0], rest);
      assert (RrChar(s[0]) + rest)[|RrChar(s[0])|..] == rest;
      RrUnescapeFlat(s[1..]);
    }
  }

  // ---------------------------------------------------------------------------
  // the file name

  /** The moment `datetime.now()` reports, field by field. */
  datatype Timestamp = Timestamp(year: nat, month: nat, day: nat, hour: nat, minute: nat, second: nat)

  /** A moment with a four-digit year. */
  predicate ValidTimestamp(t: Timestamp) {
    1000 <= t.year <= 9999 && 1 <= t.month <= 12 && 1 <= t.day <= 31
    && t.hour < 24 && t.minute < 60 && t.second < 60
  }

  function Pow10(w: nat): (r: nat)
    ensures r >= 1
  {
    if w == 0 then 1 else 10 * Pow10(w - 1)
  }

  /** `n` in decimal, zero-padded to `width` digits. */
  function Decimal(n: nat, width: nat): (r: string)
    requires n < Pow10(width)
    ensures |r| == width
    ensures forall i :: 0 <= i < |r| ==> IsDigit(r[i])
  {
    if width == 0 then [] else Decimal(n / 10, width - 1) + [('0' as int + n % 10) as char]
  }

  /** The number written by a string of decimal digits. */
  function ReadDecimal(s: string): nat {
    if s == [] then 0
    else
      var c := s[|s| - 1];
      ReadDecimal(s[..|s| - 1]) * 10 + (if IsDigit(c) then c as int - '0' as int else 0)
  }

  /** Reading the padded digits back gives the number. */
  lemma {:induction false} DecimalRead(n: nat, width: nat)
    requires n < Pow10(width)
    ensures ReadDecimal(Decimal(n, width)) == n
  {
    if width > 0 {
      var s := Decimal(n, width);
      assert s[..|s| - 1] == Decimal(n / 10, width - 1);
      DecimalRead(n / 10, width - 1);
    }
  }

  /** `strftime("%Y%m%d%H%M%S")`. */
  function Stamp(t: Timestamp): (r: string)
    requires ValidTimestamp(t)
    ensures |r| == 14
  {
    Decimal(t.year, 4) + Decimal(t.month, 2) + Decimal(t.day, 2)
    + Decimal(t.hour, 2) + Decimal(t.minute, 2) + Decimal(t.second, 2)
  }

  /** Every field can be read back from its place in the stamp. */
  lemma {:induction false} StampFields(t: Timestamp)
    requires ValidTimestamp(t)
    ensures ReadDecimal(Stamp(t)[..4]) == t.year
    ensures ReadDecimal(Stamp(t)[4..6]) == t.month
    ensures ReadDecimal(Stamp(t)[6..8]) == t.day
    ensures ReadDecimal(Stamp(t)[8..10]) == t.hour
    ensures ReadDecimal(Stamp(t)[10..12]) == t.minute
    ensures ReadDecimal(Stamp(t)[12..]) == t.second
  {
    var s := Stamp(t);
    assert s[..4] == Decimal(t.year, 4);
    assert s[4..6] == Decimal(t.month, 2);
    assert s[6..8] == Decimal(t.day, 2);
    assert s[8..10] == Decimal(t.hour, 2);
    assert s[10..12] == Decimal(t.minute, 2);
    assert s[12..] == Decimal(t.second, 2);
    DecimalRead(t.year, 4);
    DecimalRead(t.month, 2);
    DecimalRead(t.day, 2);
    DecimalRead(t.hour, 2);
    DecimalRead(t.minute, 2);
    DecimalRead(t.second, 2);
  }

  /** The name part: the stripped name with its spaces turned to underscores. */
  function FileStem(name: string): (r: string)
    ensures ' ' !in r
  {
    Replace(Strip(name), ' ', "_")
  }

  /** The stem is the name without the whitespace around it, each space turned into an
      underscore; it keeps that text's length, so it is empty exactly when the name is blank. */
  lemma {:induction false} FileStemOfName(name: string)
    ensures exists k: nat, t: string :: SpaceAround(name, k, t) && FileStem(name) == Replace(t, ' ', "_")
    ensures |FileStem(name)| == |Strip(name)|
    ensures FileStem(name) == [] <==> Blank(name)
  {
    StripSlice(name);
    ReplaceKeepsLength(Strip(name), ' ', "_");
    assert SpaceAround(name, |name| - |TrimLeft(name)|, Strip(name));
  }

  /** The PDF's file name. */
  function PdfFileName(name: string, t: Timestamp): string
    requires ValidTimestamp(t)
  {
    FileStem(name) + "_Resume_" + Stamp(t) + ".pdf"
  }

  /** The file name ends in `.pdf` and holds the stamp right after `_Resume_`. */
  lemma {:induction false} PdfFileNameShape(name: string, t: Timestamp)
    requires ValidTimestamp(t)
    ensures var n := |FileStem(name)|;
      EndsWith(PdfFileName(name, t), ".pdf")
      && PdfFileName(name, t)[n..n + 8] == "_Resume_"
      && PdfFileName(name, t)[n + 8..n + 22] == Stamp(t)
  {
    var stem := FileStem(name);
    AppendEnds(stem + "_Resume_" + Stamp(t), ".pdf");
  }

  /** Two moments give the same file name for a name only when they are the same moment. */
  lemma {:induction false} PdfFileNameInjective(name: string, t1: Timestamp, t2: Timestamp)
    requires ValidTimestamp(t1) && ValidTimestamp(t2)
    requires PdfFileName(name, t1) == PdfFileName(name, t2)
    ensures t1 == t2
  {
    PdfFileNameShape(name, t1);
    PdfFileNameShape(name, t2);
    StampFields(t1);
    StampFields(t2);
  }

  // ---------------------------------------------------------------------------
  // the story

  /** The paragraph styles the story uses. */
  datatype Style = HeaderStyle | ContactStyle | SectionHeading | NormalText | BulletText

  /** One element of the story: a paragraph of markup, the skills table (each row a bold
      main skill and its sub-skills), or vertical space in points. */
  datatype Flowable =
    | Paragraph(style: Style, text: string)
    | SkillsTable(rows: seq<(string, string)>)
    | Spacer(height: nat)

  /** The separator between contact items and between links. */
  const Dot: string := " \U{2022} "

  /** The separator before a project's technologies, a year and a certification's source. */
  const Dash: string := " \U{2014} "

  /** The contact items: location, phone and e-mail, each when the value is non-empty. */
  function ContactItems(d: Record): (r: seq<string>)
    ensures |r| <= 3
  {
    (if OrEmpty(d.location) != [] then [RrEscaped(d.location)] else [])
    + (if OrEmpty(d.phone) != [] then [RrEscaped(d.phone)] else [])
    + (if d.email != [] then [RrEscaped(Some(d.email))] else [])
  }

  /** The LinkedIn and GitHub addresses as plain text, each when present. */
  function LinkItems(d: Record): (r: seq<string>)
    ensures |r| <= 2
  {
    (if OrEmpty(d.linkedin) != [] then ["LinkedIn: " + RrEscaped(d.linkedin)] else [])
    + (if OrEmpty(d.github) != [] then ["GitHub: " + RrEscaped(d.github)] else [])
  }

  /** The contact line as a paragraph, when it has anything in it. */
  function ContactBlock(d: Record): (r: seq<Flowable>)
    ensures forall i :: 0 <= i < |r| ==> r[i].Paragraph? && r[i].style == ContactStyle
  {
    var contact := Join(ContactItems(d), Dot);
    if contact != [] then [Paragraph(ContactStyle, contact)] else []
  }

  /** The link line as a paragraph, when there is a link. */
  function LinkBlock(d: Record): (r: seq<Flowable>)
    ensures forall i :: 0 <= i < |r| ==> r[i].Paragraph? && r[i].style == ContactStyle
  {
    var links := LinkItems(d);
    if links != [] then [Paragraph(ContactStyle, Join(links, Dot))] else []
  }

  /** The name in capitals, the contact line and the link line, then a spacer. */
  function HeaderBlock(d: Record): seq<Flowable> {
    [Paragraph(HeaderStyle, Upper(RrEscaped(Some(d.name))))] + ContactBlock(d) + LinkBlock(d) + [Spacer(8)]
  }

  /** The summary heading and the escaped summary paragraph. */
  function SummaryBlock(d: Record): seq<Flowable> {
    [Paragraph(SectionHeading, "<b>PROFESSIONAL SUMMARY</b>"),
     Paragraph(NormalText, RrEscaped(Some(PdfSummary(d))))]
  }

  /** One row of the skills table: the bold main skill and its sub-skills, joined by `", "`
      before escaping. */
  function SkillRow(sk: Skill): seq<(string, string)> {
    [("<b>" + RrEscaped(Some(sk.mainskill)) + "</b>", RrEscaped(Some(Join(OrNone(sk.subskills), ", "))))]
  }

  /** The skills heading, then the table, or its placeholder when there are no skills. */
  function SkillsBlock(skills: seq<Skill>): (r: seq<Flowable>)
    ensures |r| == 3
    ensures r[2] == Paragraph(NormalText, "No skills provided.") <==> skills == []
  {
    [Spacer(6), Paragraph(SectionHeading, "<b>CORE SKILLS</b>")]
    + (if skills != [] then [SkillsTable(Concat(skills, SkillRow))]
       else [Paragraph(NormalText, "No skills provided.")])
  }

  /** A project's name, with its technologies after a dash when they join to something. */
  function ProjectHeader(p: Project): string {
    var tech := Join(OrNone(p.technologies), ", ");
    RrEscaped(Some(p.name)) + (if tech != [] then Dash + RrEscaped(Some(tech)) else [])
  }

  /** One project: its bold header, its description when present, a spacer. */
  function ProjectFlowables(p: Project): (r: seq<Flowable>)
    ensures NoHeading(r)
  {
    var desc := RrEscaped(p.description);
    [Paragraph(NormalText, "<b>" + ProjectHeader(p) + "</b>")]
    + (if desc != [] then [Paragraph(BulletText, desc)] else [])
    + [Spacer(4)]
  }

  /** The projects section: absent when there are no projects. */
  function ProjectsBlock(projects: seq<Project>): (r: seq<Flowable>)
    ensures r == [] <==> projects == []
  {
    if projects == [] then []
    else [Spacer(6), Paragraph(SectionHeading, "<b>KEY PROJECTS</b>")] + Concat(projects, ProjectFlowables)
  }

  /** The bold course, with the year after a dash when present. */
  function EducationLine(e: Education): string {
    var year := RrEscaped(e.year);
    "<b>" + RrEscaped(e.course) + "</b>" + (if year != [] then Dash + year else [])
  }

  /** One education entry: its line, the college below it when present, a spacer. */
  function EducationFlowables(e: Education): (r: seq<Flowable>)
    ensures NoHeading(r)
  {
    var college := RrEscaped(e.college);
    [Paragraph(NormalText, EducationLine(e))]
    + (if college != [] then [Paragraph(NormalText, college)] else [])
    + [Spacer(4)]
  }

  /** The education section: absent when there are no entries. */
  function EducationBlock(education: seq<Education>): (r: seq<Flowable>)
    ensures r == [] <==> education == []
  {
    if education == [] then []
    else [Spacer(6), Paragraph(SectionHeading, "<b>EDUCATION</b>")] + Concat(education, EducationFlowables)
  }

  /** The name and the identifier of a certification. */
  function CertNameAndId(c: Certification): string {
    var cid := RrEscaped(c.id);
    RrEscaped(Some(c.name)) + (if cid != [] then " (ID: " + cid + ")" else [])
  }

  /** A certification's line: name, identifier, and any non-empty source after a dash. */
  function CertificationLine(c: Certification): string {
    var src := RrEscaped(c.source);
    CertNameAndId(c) + (if src != [] then Dash + src else [])
  }

  /** One certification: its line and a spacer. */
  function CertificationFlowables(c: Certification): (r: seq<Flowable>)
    ensures NoHeading(r)
  {
    [Paragraph(NormalText, CertificationLine(c)), Spacer(2)]
  }

  /** The certifications section: absent when there are none. */
  function CertificationsBlock(certs: seq<Certification>): (r: seq<Flowable>)
    ensures r == [] <==> certs == []
  {
    if certs == [] then []
    else [Spacer(6), Paragraph(SectionHeading, "<b>CERTIFICATIONS</b>")] + Concat(certs, CertificationFlowables)
  }

  /** The whole story, in the order the source appends it. */
  function Story(d: Record): seq<Flowable> {
    HeaderBlock(d) + SummaryBlock(d) + SkillsBlock(d.skills)
    + ProjectsBlock(d.projects) + EducationBlock(d.education) + CertificationsBlock(d.certifications)
  }

  /** The list sections as the source appends them, one loop per section. */
  method BuildSections(d: Record) returns (projects: seq<Flowable>, education: seq<Flowable>, certs: seq<Flowable>)
    ensures projects == ProjectsBlock(d.projects)
    ensures education == EducationBlock(d.education)
    ensures certs == CertificationsBlock(d.certifications)
  {
    projects, education, certs := [], [], [];
    if d.projects != [] {
      projects := Emit([Spacer(6), Paragraph(SectionHeading, "<b>KEY PROJECTS</b>")], d.projects, ProjectFlowables);
    }
    if d.education != [] {
      education := Emit([Spacer(6), Paragraph(SectionHeading, "<b>EDUCATION</b>")], d.education, EducationFlowables);
    }
    if d.certifications != [] {
      certs := Emit([Spacer(6), Paragraph(SectionHeading, "<b>CERTIFICATIONS</b>")], d.certifications, CertificationFlowables);
    }
  }

  /** The skills section, the table filled row by row. */
  method BuildSkills(skills: seq<Skill>) returns (block: seq<Flowable>)
    ensures block == SkillsBlock(skills)
  {
    block := [Spacer(6), Paragraph(SectionHeading, "<b>CORE SKILLS</b>")];
    if skills != [] {
      var rows := Emit([], skills, SkillRow);
      assert rows == Concat(skills, SkillRow);
      block := block + [SkillsTable(rows)];
    } else {
      block := block + [Paragraph(NormalText, "No skills provided.")];
    }
  }

  /** The story as `generate_resume` appends it. */
  method BuildStory(d: Record) returns (story: seq<Flowable>)
    ensures story == Story(d)
  {
    var skills := BuildSkills(d.skills);
    var projects, education, certs := BuildSections(d);
    story := HeaderBlock(d);
    story := story + SummaryBlock(d);
    story := story + skills;
    story := story + projects;
    story := story + education;
    story := story + certs;
  }

  // ---------------------------------------------------------------------------
  // properties of the story

  /** The heading text of one element, if it is a section heading. */
  function HeadingOf(x: Flowable): (r: seq<string>)
    ensures |r| <= 1
  {
    if x.Paragraph? && x.style == SectionHeading then [x.text] else []
  }

  /** The texts of the section headings in a story, in order. */
  function Headings(story: seq<Flowable>): seq<string> {
    Concat(story, HeadingOf)
  }

  /** No element is a section heading. */
  predicate NoHeading(story: seq<Flowable>) {
    forall i :: 0 <= i < |story| ==> HeadingOf(story[i]) == []
  }

  /** Entry blocks without headings concatenate to a block without headings. */
  lemma {:induction false} NoHeadingConcat<T>(xs: seq<T>, f: T -> seq<Flowable>)
    requires forall i :: 0 <= i < |xs| ==> NoHeading(f(xs[i]))
    ensures NoHeading(Concat(xs, f))
  {
    if xs != [] {
      NoHeadingConcat(xs[..|xs| - 1], f);
    }
  }

  /** Some element followed by a heading holds that one heading. */
  lemma {:induction false} HeadingPair(x: Flowable, heading: string)
    requires HeadingOf(x) == []
    ensures Headings([x, Paragraph(SectionHeading, heading)]) == [heading]
  {
    assert [x, Paragraph(SectionHeading, heading)] == [x] + [Paragraph(SectionHeading, heading)];
    ConcatAppend([x], [Paragraph(SectionHeading, heading)], HeadingOf);
    ConcatOne(x, HeadingOf);
    ConcatOne(Paragraph(SectionHeading, heading), HeadingOf);
  }

  /** A list section: its heading, then only entries. */
  lemma {:induction false} SectionHeadings<T>(heading: string, xs: seq<T>, f: T -> seq<Flowable>)
    requires forall i :: 0 <= i < |xs| ==> NoHeading(f(xs[i]))
    ensures Headings([Spacer(6), Paragraph(SectionHeading, heading)] + Concat(xs, f)) == [heading]
  {
    var body := Concat(xs, f);
    NoHeadingConcat(xs, f);
    ConcatNone(body, HeadingOf);
    HeadingPair(Spacer(6), heading);
    ConcatAppend([Spacer(6), Paragraph(SectionHeading, heading)], body, HeadingOf);
  }

  lemma {:induction false} HeaderHeadings(d: Record)
    ensures Headings(HeaderBlock(d)) == []
  {
    var name := Paragraph(HeaderStyle, Upper(RrEscaped(Some(d.name))));
    var c, l := ContactBlock(d), LinkBlock(d);
    ConcatOne(name, HeadingOf);
    ConcatOne(Spacer(8), HeadingOf);
    ConcatNone(c, HeadingOf);
    ConcatNone(l, HeadingOf);
    ConcatAppend([name], c, HeadingOf);
    ConcatAppend([name] + c, l, HeadingOf);
    ConcatAppend([name] + c + l, [Spacer(8)], HeadingOf);
  }

  lemma {:induction false} SummaryHeadings(d: Record)
    ensures Headings(SummaryBlock(d)) == ["<b>PROFESSIONAL SUMMARY</b>"]
  {
    var summary := Paragraph(NormalText, RrEscaped(Some(PdfSummary(d))));
    var heading := Paragraph(SectionHeading, "<b>PROFESSIONAL SUMMARY</b>");
    assert SummaryBlock(d) == [heading] + [summary];
    ConcatAppend([heading], [summary], HeadingOf);
    ConcatOne(heading, HeadingOf);
    ConcatOne(summary, HeadingOf);
  }

  lemma {:induction false} SkillsHeadings(skills: seq<Skill>)
    ensures Headings(SkillsBlock(skills)) == ["<b>CORE SKILLS</b>"]
  {
    var sk := SkillsBlock(skills);
    var pair := [Spacer(6), Paragraph(SectionHeading, "<b>CORE SKILLS</b>")];
    assert sk == pair + [sk[2]];
    HeadingPair(Spacer(6), "<b>CORE SKILLS</b>");
    ConcatOne(sk[2], HeadingOf);
    ConcatAppend(pair, [sk[2]], HeadingOf);
  }

  /** Six blocks with the given headings: the two fixed ones, then the optional three. */
  lemma {:induction false} HeadingsOfSix(h: seq<Flowable>, su: seq<Flowable>, sk: seq<Flowable>,
                      pr: seq<Flowable>, ed: seq<Flowable>, ce: seq<Flowable>,
                      hp: seq<string>, he: seq<string>, hc: seq<string>)
    requires Headings(h) == [] && Headings(su) == ["<b>PROFESSIONAL SUMMARY</b>"]
    requires Headings(sk) == ["<b>CORE SKILLS</b>"]
    requires Headings(pr) == hp && Headings(ed) == he && Headings(ce) == hc
    ensures Headings(h + su + sk + pr + ed + ce)
      == ["<b>PROFESSIONAL SUMMARY</b>", "<b>CORE SKILLS</b>"] + hp + he + hc
  {
    ConcatAppend(h, su, HeadingOf);
    ConcatAppend(h + su, sk, HeadingOf);
    ConcatAppend(h + su + sk, pr, HeadingOf);
    ConcatAppend(h + su + sk + pr, ed, HeadingOf);
    ConcatAppend(h + su + sk + pr + ed, ce, HeadingOf);
    assert [] + ["<b>PROFESSIONAL SUMMARY</b>"] + ["<b>CORE SKILLS</b>"]
      == ["<b>PROFESSIONAL SUMMARY</b>", "<b>CORE SKILLS</b>"];
  }

  /** The headings of the list sections, each present exactly when its list is non-empty. */
  lemma {:induction false} ProjectsHeadings(projects: seq<Project>)
    ensures Headings(ProjectsBlock(projects)) == if projects != [] then ["<b>KEY PROJECTS</b>"] else []
  {
    if projects != [] {
      SectionHeadings("<b>KEY PROJECTS</b>", projects, ProjectFlowables);
    }
  }

  lemma {:induction false} EducationHeadings(education: seq<Education>)
    ensures Headings(EducationBlock(education)) == if education != [] then ["<b>EDUCATION</b>"] else []
  {
    if education != [] {
      SectionHeadings("<b>EDUCATION</b>", education, EducationFlowables);
    }
  }

  lemma {:induction false} CertificationsHeadings(certs: seq<Certification>)
    ensures Headings(CertificationsBlock(certs)) == if certs != [] then ["<b>CERTIFICATIONS</b>"] else []
  {
    if certs != [] {
      SectionHeadings("<b>CERTIFICATIONS</b>", certs, CertificationFlowables);
    }
  }

  /** The story's section headings: summary and skills always, each list section exactly
      when its list is non-empty, in the order projects, education, certifications. */
  lemma {:induction false} PdfHeadings(d: Record)
    ensures Headings(Story(d))
      == ["<b>PROFESSIONAL SUMMARY</b>", "<b>CORE SKILLS</b>"]
         + (if d.projects != [] then ["<b>KEY PROJECTS</b>"] else [])
         + (if d.education != [] then ["<b>EDUCATION</b>"] else [])
         + (if d.certifications != [] then ["<b>CERTIFICATIONS</b>"] else [])
  {
    var h, su, sk := HeaderBlock(d), SummaryBlock(d), SkillsBlock(d.skills);
    var pr, ed, ce := ProjectsBlock(d.projects), EducationBlock(d.education), CertificationsBlock(d.certifications);
    HeaderHeadings(d);
    SummaryHeadings(d);
    SkillsHeadings(d.skills);
    ProjectsHeadings(d.projects);
    EducationHeadings(d.education);
    CertificationsHeadings(d.certifications);
    HeadingsOfSix(h, su, sk, pr, ed, ce, Headings(pr), Headings(ed), Headings(ce));
    assert Story(d) == h + su + sk + pr + ed + ce;
  }

  /** The contact line keeps the non-empty values among location, phone and e-mail, in
      that order. */
  lemma {:induction false} PdfContactItems(d: Record)
    ensures ContactItems(d) == NonEmpty([RrEscaped(d.location), RrEscaped(d.phone), RrEscaped(Some(d.email))])
  {
    RrEmptyIff(d.location);
    RrEmptyIff(d.phone);
    RrEmptyIff(Some(d.email));
    var a, b, c := RrEscaped(d.location), RrEscaped(d.phone), RrEscaped(Some(d.email));
    assert [a, b, c] == [a] + [b] + [c];
    NonEmptyAppend([a] + [b], [c]);
    NonEmptyAppend([a], [b]);
    NonEmptyOne(a);
    NonEmptyOne(b);
    NonEmptyOne(c);
  }

  /** Any non-empty source is shown after a dash, whether or not it is a web address, and an
      empty one leaves no trace. */
  lemma {:induction false} PdfCertSource(c: Certification)
    ensures OrEmpty(c.source) == [] ==> CertificationLine(c) == CertificationLine(c.(source := None))
    ensures OrEmpty(c.source) != []
      ==> CertificationLine(c) == CertificationLine(c.(source := None)) + Dash + RrEscaped(c.source)
  {
    RrEmptyIff(c.source);
    assert CertNameAndId(c.(source := None)) == CertNameAndId(c);
    assert CertNameAndId(c) + [] == CertNameAndId(c);
  }

  /** An education entry gets a second paragraph exactly when it has a college, and its
      first line carries a dash exactly when it has a year. */
  lemma {:induction false} PdfEducationEntry(e: Education)
    ensures |EducationFlowables(e)| == if OrEmpty(e.college) != [] then 3 else 2
    ensures EducationLine(e) == "<b>" + RrEscaped(e.course) + "</b>" <==> OrEmpty(e.year) == []
  {
    RrEmptyIff(e.college);
    RrEmptyIff(e.year);
    var lead := "<b>" + RrEscaped(e.course) + "</b>";
    if OrEmpty(e.year) != [] {
      assert |EducationLine(e)| > |lead|;
    } else {
      assert lead + [] == lead;
    }
  }

  /** A project's header carries a dash exactly when its technologies join to something. */
  lemma {:induction false} PdfProjectHeader(p: Project)
    ensures ProjectHeader(p) == RrEscaped(Some(p.name)) <==> Join(OrNone(p.technologies), ", ") == []
  {
    var name := RrEscaped(Some(p.name));
    if Join(OrNone(p.technologies), ", ") == [] {
      assert name + [] == name;
    } else {
      assert |ProjectHeader(p)| > |name|;
    }
  }

  /** The summary paragraph is never empty. */
  lemma {:induction false} PdfSummaryNonEmpty(d: Record)
    ensures RrEscaped(Some(PdfSummary(d))) != []
  {
    if OrEmpty(d.professionalSummary) == [] && Parts(d, true) != [] {
      PartsNonEmpty(d, true);
      JoinEmptyIff(Parts(d, true), ". ");
    }
    assert PdfSummary(d) != [];
    RrEmptyIff(Some(PdfSummary(d)));
  }
}
