/**
 * `latex_escape` and `build_latex_from_data` of `app.py`: the LaTeX source that the
 * application renders from a record.
 *
 * Escaping is eleven replace-all passes after a first backslash pass; the passes run
 * one after another over the whole text, so what one pass writes is seen by the
 * passes after it.  The model states the passes as the source runs them and proves
 * that, taken together, they act character by character (`LatexChar`).
 */
module Latex {
  import opened Wrappers
  import opened Text
  import opened Resume
  import opened Summary

  // ---------------------------------------------------------------------------
  // latex_escape

  /** What the first pass writes for a backslash. */
  const BackslashText: string := BackslashWord + "{" + "}"

  /** The command name in it. */
  const BackslashWord: string := "\\textbackslash"

  /** The replace-all passes after the backslash pass, in the order the source runs them. */
  const Passes: seq<(char, string)> :=
    [('&', "\\&"), ('%', "\\%"), ('$', "\\$"), ('#', "\\#"), ('_', "\\_"),
     ('{', "\\{"), ('}', "\\}"), ('~', "\\textasciitilde{}"), ('^', "\\^{}"),
     ('<', "\\textless{}"), ('>', "\\textgreater{}")]

  /** The twelve characters some pass rewrites. */
  predicate IsLatexSpecial(c: char) {
    c == '\\' || c == '&' || c == '%' || c == '$' || c == '#' || c == '_'
    || c == '{' || c == '}' || c == '~' || c == '^' || c == '<' || c == '>'
  }

  /** The passes `ps` run in order over `s`, each replacing every occurrence of its character. */
  function ApplyPasses(s: string, ps: seq<(char, string)>): string
    decreases |ps|
  {
    if ps == [] then s else ApplyPasses(Replace(s, ps[0].0, ps[0].1), ps[1..])
  }

  /** `latex_escape` as the source states it: nothing for a missing value, otherwise the
      backslash pass and then the eleven others. */
  function LatexPasses(text: Option<string>): (r: string)
    ensures text.None? ==> r == []
  {
    if text.None? then [] else ApplyPasses(Replace(text.value, '\\', BackslashText), Passes)
  }

  /** The escaped text, character by character from the table `LatexChar`; `PassesAgree`
      proves it equal to what the passes produce. */
  function LatexEscaped(text: Option<string>): (r: string)
    ensures text.None? ==> r == []
  {
    if text.None? then [] else FlatMap(text.value, LatexChar)
  }

  /** `latex_escape` as the source runs it, reassigning the text once per pass. */
  method LatexEscape(text: Option<string>) returns (s: string)
    ensures s == LatexEscaped(text)
  {
    if text.None? {
      return [];
    }
    s := Replace(text.value, '\\', BackslashText);
    s := RunPasses(s, Passes);
    PassesAgree(text.value);
  }

  /** The loop of `latex_escape`: each pass replaces every occurrence of its character in
      the text the passes before it left. */
  method RunPasses(text: string, ps: seq<(char, string)>) returns (s: string)
    ensures s == ApplyPasses(text, ps)
  {
    s := text;
    for i := 0 to |ps|
      invariant ApplyPasses(s, ps[i..]) == ApplyPasses(text, ps)
    {
      assert ps[i..][1..] == ps[i + 1..];
      s := Replace(s, ps[i].0, ps[i].1);
    }
    assert ps[|ps|..] == [];
  }

  /** The escaped form of one character, written out as a table: the reference against
      which the passes are checked. A special character becomes a command, which has no
      digit in it. */
  function LatexChar(c: char): (r: string)
    ensures r != []
    ensures !IsLatexSpecial(c) ==> r == [c]
    ensures IsLatexSpecial(c) ==> r[0] == '\\'
    ensures IsLatexSpecial(c) ==> forall i :: 0 <= i < |r| ==> !IsDigit(r[i])
  {
    if c == '\\' then BackslashWord + "\\{" + "\\}"
    else if c == '&' then "\\&"
    else if c == '%' then "\\%"
    else if c == '$' then "\\$"
    else if c == '#' then "\\#"
    else if c == '_' then "\\_"
    else if c == '{' then "\\{"
    else if c == '}' then "\\}"
    else if c == '~' then "\\textasciitilde{}"
    else if c == '^' then "\\^{}"
    else if c == '<' then "\\textless{}"
    else if c == '>' then "\\textgreater{}"
    else [c]
  }

  /** Passes whose characters do not occur leave the text alone. */
  lemma {:induction false} PassesSkip(s: string, ps: seq<(char, string)>)
    requires forall k :: 0 <= k < |ps| ==> ps[k].0 !in s
    ensures ApplyPasses(s, ps) == s
    decreases |ps|
  {
    if ps != [] {
      PassesSkip(s, ps[1..]);
    }
  }

  /** Running passes over a concatenation runs them over each part. */
  lemma {:induction false} PassesAppend(s: string, t: string, ps: seq<(char, string)>)
    ensures ApplyPasses(s + t, ps) == ApplyPasses(s, ps) + ApplyPasses(t, ps)
    decreases |ps|
  {
    if ps != [] {
      ReplaceAppend(s, t, ps[0].0, ps[0].1);
      PassesAppend(Replace(s, ps[0].0, ps[0].1), Replace(t, ps[0].0, ps[0].1), ps[1..]);
    }
  }

  /** Running `a + b` is running `a`, then `b`. */
  lemma {:induction false} PassesSplit(s: string, a: seq<(char, string)>, b: seq<(char, string)>)
    ensures ApplyPasses(s, a + b) == ApplyPasses(ApplyPasses(s, a), b)
    decreases |a|
  {
    if a == [] {
      assert a + b == b;
    } else {
      assert (a + b)[0] == a[0] && (a + b)[1..] == a[1..] + b;
      PassesSplit(Replace(s, a[0].0, a[0].1), a[1..], b);
    }
  }

  /** Every pass has its own character, and nothing a pass writes is rewritten by a later one. */
  lemma {:induction false} PassesIndependent()
    ensures forall i, k :: 0 <= i < k < |Passes| ==> Passes[i].0 != Passes[k].0
    ensures forall i, k :: 0 <= i < k < |Passes| ==> Passes[k].0 !in Passes[i].1
  {
  }

  /** A character that only pass `j` rewrites, where nothing later rewrites what pass `j`
      writes, comes out as pass `j` writes it. */
  lemma {:induction false} PassImageOf(ps: seq<(char, string)>, j: nat)
    requires j < |ps|
    requires forall i :: 0 <= i < j ==> ps[i].0 != ps[j].0
    requires forall k :: j < k < |ps| ==> ps[k].0 !in ps[j].1
    ensures ApplyPasses([ps[j].0], ps) == ps[j].1
  {
    var c := ps[j].0;
    assert ps[..j] + ps[j..] == ps;
    PassesSplit([c], ps[..j], ps[j..]);
    PassesSkip([c], ps[..j]);
    assert ps[j..][0] == ps[j] && ps[j..][1..] == ps[j + 1..];
    assert Replace([c], c, ps[j].1) == ps[j].1;
    PassesSkip(ps[j].1, ps[j + 1..]);
  }

  /** A character that a pass of `latex_escape` rewrites comes out as that pass writes it. */
  lemma {:induction false} PassImage(j: nat)
    requires j < |Passes|
    ensures ApplyPasses([Passes[j].0], Passes) == Passes[j].1
  {
    PassesIndependent();
    PassImageOf(Passes, j);
  }

  /** No pass has the backslash for its character. */
  lemma {:induction false} PassCharsSpecial()
    ensures forall k :: 0 <= k < |Passes| ==> IsLatexSpecial(Passes[k].0) && Passes[k].0 != '\\'
  {
  }

  /** Text in which no pass after the first finds its character. */
  predicate PassFree(s: string) {
    forall i :: 0 <= i < |s| ==> s[i] == '\\' || !IsLatexSpecial(s[i])
  }

  /** Text whose only special characters are backslashes is left alone by the eleven passes. */
  lemma {:induction false} PassesSkipPlain(s: string)
    requires PassFree(s)
    ensures ApplyPasses(s, Passes) == s
  {
    PassCharsSpecial();
    PassesSkip(s, Passes);
  }

  /** A character that some pass rewrites, after such text, is the only part rewritten. */
  lemma {:induction false} PlainThenPass(word: string, j: nat)
    requires PassFree(word)
    requires j < |Passes|
    ensures ApplyPasses(word + [Passes[j].0], Passes) == word + Passes[j].1
  {
    PassesAppend(word, [Passes[j].0], Passes);
    PassesSkipPlain(word);
    PassImage(j);
  }

  /** An opening and a closing brace after such text are both escaped. */
  lemma {:induction false} BracesPasses(word: string)
    requires PassFree(word)
    ensures ApplyPasses(word + "{" + "}", Passes) == word + "\\{" + "\\}"
  {
    PlainThenPass(word, 5);
    PassesAppend(word + "{", "}", Passes);
    PassImage(6);
  }

  /** The braces that the backslash pass writes are escaped by the brace passes after it. */
  lemma {:induction false} BackslashPasses()
    ensures ApplyPasses(BackslashText, Passes) == BackslashWord + "\\{" + "\\}"
  {
    assert forall i :: 1 <= i < |BackslashWord| ==> IsLower(BackslashWord[i]);
    BracesPasses(BackslashWord);
  }

  /** A character that one of the eleven passes rewrites comes out as the table says. */
  lemma {:induction false} PassesOnSpecial(c: char)
    requires IsLatexSpecial(c) && c != '\\'
    ensures ApplyPasses([c], Passes) == LatexChar(c)
  {
    if c == '&' { PassImage(0); }
    else if c == '%' { PassImage(1); }
    else if c == '$' { PassImage(2); }
    else if c == '#' { PassImage(3); }
    else if c == '_' { PassImage(4); }
    else if c == '{' { PassImage(5); }
    else if c == '}' { PassImage(6); }
    else if c == '~' { PassImage(7); }
    else if c == '^' { PassImage(8); }
    else if c == '<' { PassImage(9); }
    else { PassImage(10); }
  }

  /** What the passes do to the text one character leaves after the backslash pass. */
  lemma {:induction false} PassesOnChar(c: char)
    ensures ApplyPasses(Replace([c], '\\', BackslashText), Passes) == LatexChar(c)
  {
    if c == '\\' {
      assert Replace([c], '\\', BackslashText) == BackslashText;
      BackslashPasses();
    } else {
      assert Replace([c], '\\', BackslashText) == [c];
      if IsLatexSpecial(c) {
        PassesOnSpecial(c);
      } else {
        assert PassFree([c]);
        PassesSkipPlain([c]);
      }
    }
  }

  /** The passes together act character by character: `latex_escape` replaces each
      character by its entry in the table `LatexChar`. */
  lemma {:induction false} PassesAgree(s: string)
    ensures LatexPasses(Some(s)) == LatexEscaped(Some(s))
  {
    forall c ensures ApplyPasses(Replace([c], '\\', BackslashText), Passes) == LatexChar(c) {
      PassesOnChar(c);
    }
    CharwisePasses(s, Passes);
  }

  /** Passes that act on every single character as the table says act on any text as the
      table says, character by character. */
  lemma {:induction false} CharwisePasses(s: string, ps: seq<(char, string)>)
    requires forall c :: ApplyPasses(Replace([c], '\\', BackslashText), ps) == LatexChar(c)
    ensures ApplyPasses(Replace(s, '\\', BackslashText), ps) == FlatMap(s, LatexChar)
  {
    if s != [] {
      var head := Replace([s[0]], '\\', BackslashText);
      var tail := Replace(s[1..], '\\', BackslashText);
      assert s == [s[0]] + s[1..];
      ReplaceAppend([s[0]], s[1..], '\\', BackslashText);
      PassesAppend(head, tail, ps);
      assert ApplyPasses(head, ps) == LatexChar(s[0]);
      CharwisePasses(s[1..], ps);
    } else {
      PassesSkip(s, ps);
    }
  }

  /** Text free of the twelve characters is left as it is. */
  lemma {:induction false} LatexPlain(s: string)
    requires forall i :: 0 <= i < |s| ==> !IsLatexSpecial(s[i])
    ensures LatexPasses(Some(s)) == s
  {
    PassesAgree(s);
  }

  /** A lone backslash becomes `\textbackslash\{\}`: the braces of the first pass are escaped
      by the later brace passes. */
  lemma {:induction false} LatexBackslash()
    ensures LatexPasses(Some("\\")) == BackslashWord + "\\{" + "\\}"
  {
    PassesAgree("\\");
    assert FlatMap("\\", LatexChar) == LatexChar('\\') + FlatMap([], LatexChar);
  }

  /** Escaping a concatenation escapes each part. */
  lemma {:induction false} LatexAppend(s: string, t: string)
    ensures LatexEscaped(Some(s + t)) == LatexEscaped(Some(s)) + LatexEscaped(Some(t))
  {
    FlatMapAppend(s, t, LatexChar);
  }

  /** Only empty text escapes to empty text. */
  lemma {:induction false} LatexEmptyIff(s: string)
    ensures LatexEscaped(Some(s)) == [] <==> s == []
  {
    if s != [] {
      assert FlatMap(s, LatexChar) == LatexChar(s[0]) + FlatMap(s[1..], LatexChar);
    }
  }

  /** The escaped text starts with a prefix free of the twelve characters exactly when the
      text does. */
  lemma {:induction false} LatexKeepsPrefix(s: string, p: string)
    requires forall i :: 0 <= i < |p| ==> !IsLatexSpecial(p[i])
    ensures StartsWith(LatexEscaped(Some(s)), p) <==> StartsWith(s, p)
  {
    assert '\\' !in p;
    forall c | c !in p
      ensures LatexChar(c)[0] !in p
    {
      if !IsLatexSpecial(c) {
        assert LatexChar(c) == [c];
      }
    }
    FlatMapStartsWith(s, LatexChar, p);
  }

  /** In particular the escaped text starts with `http` exactly when the text does. */
  lemma {:induction false} LatexKeepsHttp(s: string)
    ensures StartsWith(LatexEscaped(Some(s)), "http") <==> StartsWith(s, "http")
  {
    LatexKeepsPrefix(s, "http");
  }

  /** No character's escape adds or drops a digit. */
  lemma {:induction false} LatexCharDigits(c: char)
    ensures DigitsOf(LatexChar(c)) == DigitsOf([c])
  {
    if IsLatexSpecial(c) {
      DigitsNone(LatexChar(c));
      DigitsNone([c]);
    }
  }

  /** The digits of the escaped text are the digits of the text. */
  lemma {:induction false} LatexKeepsDigits(s: string)
    ensures DigitsOf(LatexEscaped(Some(s))) == DigitsOf(s)
  {
    forall c ensures DigitsOf(LatexChar(c)) == DigitsOf([c]) {
      LatexCharDigits(c);
    }
    FlatMapDigits(s, LatexChar);
  }

  // ---------------------------------------------------------------------------
  // build_latex_from_data

  /** The fixed document preamble: packages, page geometry, section style, list macros. */
  const Preamble: string :=
    "\\documentclass[letterpaper,10pt]{article}\n" +
    "\\usepackage[dvipsnames]{xcolor}\n" +
    "\\usepackage[hidelinks]{hyperref}\n" +
    "\\usepackage{tabularx}\n" +
    "\\usepackage{geometry}\n" +
    "\\usepackage{titlesec}\n" +
    "\\usepackage{enumitem}\n" +
    "\\usepackage{fancyhdr}\n" +
    "\\usepackage[default]{lato}\n" +
    "\\usepackage{parskip}\n" +
    "\\usepackage{multicol}\n" +
    "\\hypersetup{colorlinks=true,urlcolor=blue}\n" +
    "\\geometry{left=0.6in, top=0.5in, right=0.6in, bottom=0.5in}\n" +
    "\\pagestyle{fancy}\n" +
    "\\fancyhf{}\n" +
    "\\renewcommand{\\headrulewidth}{0pt}\n" +
    "\\titleformat{\\section}{\\large\\bfseries\\color{MidnightBlue}\\uppercase}{}{0em}{}[\\titlerule]\n" +
    "\\titlespacing{\\section}{0pt}{6pt}{3pt}\n" +
    "\\setlength{\\parskip}{0pt}\n" +
    "\\setlength{\\itemsep}{2pt}\n" +
    "\\newcommand{\\resumeItem}[1]{\\item #1}\n" +
    "\\newcommand{\\resumeListStart}{\\begin{itemize}[leftmargin=*,noitemsep,topsep=0pt]}\n" +
    "\\newcommand{\\resumeListEnd}{\\end{itemize}}\n" +
    "\\begin{document}\n"

  /** The separator between contact items and between links. */
  const Quad: string := " \\quad | \\quad "

  /** The phone number as a `tel:` link whose target keeps only its digits. */
  function PhoneLink(phone: string): string {
    "\\href{tel:+" + DigitsOf(phone) + "}{" + phone + "}"
  }

  /** The e-mail address as a `mailto:` link. */
  function MailLink(email: string): string {
    "\\href{mailto:" + email + "}{" + email + "}"
  }

  /** The contact items: escaped location, phone link and e-mail link, each only when the
      escaped value is non-empty, in that order. */
  function ContactParts(d: Record): (r: seq<string>)
    ensures |r| <= 3
  {
    var location := LatexEscaped(d.location);
    var phone := LatexEscaped(d.phone);
    var email := LatexEscaped(Some(d.email));
    (if location != [] then [location] else [])
    + (if phone != [] then [PhoneLink(phone)] else [])
    + (if email != [] then [MailLink(email)] else [])
  }

  /** The LinkedIn and GitHub links, each only when the escaped address is non-empty. */
  function LinkParts(d: Record): (r: seq<string>)
    ensures |r| <= 2
  {
    var linkedin := LatexEscaped(d.linkedin);
    var github := LatexEscaped(d.github);
    (if linkedin != [] then ["\\href{" + linkedin + "}{LinkedIn}"] else [])
    + (if github != [] then ["\\href{" + github + "}{GitHub}"] else [])
  }

  /** The centred header: the escaped name in capitals, then the contact line and the link
      line when they have anything in them. */
  function LatexHeader(d: Record): string {
    HeaderBlock(Upper(LatexEscaped(Some(d.name))), Join(ContactParts(d), Quad), Join(LinkParts(d), Quad))
  }

  /** The header around a name, a contact line and a link line; an empty line is left out. */
  function HeaderBlock(name: string, contact: string, links: string): string {
    NameLine(name) + ContactLine(contact) + LinkLine(links) + "\\end{center}\n\n"
  }

  function NameLine(name: string): string {
    "\\begin{center}\n" + ("  {\\LARGE \\textbf{" + name + "}} \\\\\n")
  }

  function ContactLine(contact: string): string {
    if contact != [] then "  " + contact + " \\\\\n" else []
  }

  function LinkLine(links: string): string {
    if links != [] then "  " + links + " \n" else []
  }

  /** The summary paragraph: the escaped stored summary, or the escaped composed one. */
  function LatexSummary(d: Record): string {
    var prof := LatexEscaped(d.professionalSummary);
    if prof != [] then prof else LatexEscaped(Some(LatexSummaryText(d)))
  }

  /** The summary section, written for every record. */
  function SummarySection(d: Record): string {
    "\\section*{PROFESSIONAL SUMMARY}\n" + LatexSummary(d) + "\n\n"
  }

  /** The fixed skills table; the record's own skills do not appear in it. */
  const CoreSkills: string :=
    "\\section*{CORE SKILLS}\n\\begin{tabularx}{\\textwidth}{@{} l X @{} }\n" +
    "  \\textbf{Languages:} & Python, C++, Java, JavaScript, HTML/CSS \\\\\n" +
    "  \\textbf{Frameworks:} & Hugging Face, TensorFlow, PyTorch, React Native, OpenCV \\\\\n" +
    "  \\textbf{Tools:} & Git, Docker, VS Code, Firebase, Streamlit, Gradio, Postman \\\\\n" +
    "\\end{tabularx}\n\n"

  /** `[latex_escape(t) for t in xs]`. */
  function EscapeEach(xs: seq<string>): (r: seq<string>)
    ensures |r| == |xs|
    ensures forall i :: 0 <= i < |xs| ==> r[i] == LatexEscaped(Some(xs[i]))
  {
    seq(|xs|, i requires 0 <= i < |xs| => LatexEscaped(Some(xs[i])))
  }

  /** The `[Repo]` link after a project name, present when the escaped repository is. */
  function RepoText(repo: string): string {
    if repo != [] then " \\href{" + repo + "}{[Repo]}" else []
  }

  /** The technologies line, present when their joined text is non-empty. */
  function TechLine(techs: string): string {
    if techs != [] then "\\textit{" + techs + "}\\\\\n" else []
  }

  /** The one-item list around a description, present when the description is. */
  function DescriptionList(desc: string): string {
    if desc != [] then "\\resumeListStart\n" + ("  \\resumeItem{" + desc + "}\n") + "\\resumeListEnd\n\n" else []
  }

  /** The escaped technologies joined by `", "`, empty ones kept. */
  function TechText(p: Project): string {
    var techs := OrNone(p.technologies);
    if techs != [] then Join(EscapeEach(techs), ", ") else []
  }

  /** The bold project name. */
  function ProjectLead(p: Project): string {
    "\\textbf{" + LatexEscaped(Some(p.name)) + "}"
  }

  /** What follows the name line's links: the line break, the technologies line and the
      description list. */
  function ProjectTail(p: Project): string {
    " \\\\\n" + TechLine(TechText(p)) + DescriptionList(LatexEscaped(p.description))
  }

  /** One project block. */
  function ProjectLatex(p: Project): string {
    ProjectLead(p) + RepoText(LatexEscaped(p.repository)) + ProjectTail(p)
  }

  /** The projects section: absent when there are no projects. */
  function ProjectsLatex(projects: seq<Project>): (r: string)
    ensures r == [] <==> projects == []
  {
    if projects == [] then [] else "\\section*{KEY PROJECTS}\n" + Concat(projects, ProjectLatex)
  }

  /** One education entry: bold course and year on one line, the college below when present. */
  function EducationLatex(e: Education): string {
    var college := LatexEscaped(e.college);
    "\\textbf{" + LatexEscaped(e.course) + "} \\hfill " + LatexEscaped(e.year) + " \\\\\n"
    + (if college != [] then college + " \\\\\n" else [])
  }

  /** The education section: absent when there are no entries. */
  function EducationSection(education: seq<Education>): (r: string)
    ensures r == [] <==> education == []
  {
    if education == [] then [] else "\\section*{EDUCATION}\n" + Concat(education, EducationLatex) + "\n"
  }

  /** The `[Cert]` link, present for a non-empty escaped source starting with `http`. */
  function CertLink(src: string): string {
    if src != [] && StartsWith(src, "http") then " \\href{" + src + "}{[Cert]}" else []
  }

  /** The name and the identifier of a certification. */
  function CertNameAndId(c: Certification): string {
    var cid := LatexEscaped(c.id);
    LatexEscaped(Some(c.name)) + (if cid != [] then " (ID: " + cid + ")" else [])
  }

  /** One certification item. */
  function CertificationLatex(c: Certification): string {
    "  \\resumeItem{" + (CertNameAndId(c) + CertLink(LatexEscaped(c.source))) + "}\n"
  }

  /** The certifications section: absent when there are none. */
  function CertificationsSection(certs: seq<Certification>): (r: string)
    ensures r == [] <==> certs == []
  {
    if certs == [] then []
    else "\\section*{CERTIFICATIONS}\n\\resumeListStart\n" + Concat(certs, CertificationLatex) + "\\resumeListEnd\n\n"
  }

  /** The whole LaTeX source. */
  function LatexDocument(d: Record): string {
    Preamble + LatexHeader(d) + SummarySection(d) + CoreSkills
    + ProjectsLatex(d.projects) + EducationSection(d.education)
    + CertificationsSection(d.certifications) + "\\end{document}\n"
  }

  /** The header as the source writes it, from the escaped name. */
  method BuildHeader(d: Record) returns (header: string)
    ensures header == LatexHeader(d)
  {
    var name := LatexEscape(Some(d.name));
    var contact := Join(ContactParts(d), Quad);
    var links := Join(LinkParts(d), Quad);
    header := "\\begin{center}\n";
    header := header + ("  {\\LARGE \\textbf{" + Upper(name) + "}} \\\\\n");
    ghost var top := header;
    if contact != [] {
      header := header + ("  " + contact + " \\\\\n");
    }
    assert header == top + ContactLine(contact);
    ghost var middle := header;
    if links != [] {
      header := header + ("  " + links + " \n");
    }
    assert header == middle + LinkLine(links);
    header := header + "\\end{center}\n\n";
  }

  /** The summary section, composing a summary only when the stored one escapes to nothing. */
  method BuildSummary(d: Record) returns (section: string)
    ensures section == SummarySection(d)
  {
    var prof := LatexEscape(d.professionalSummary);
    if prof == [] {
      prof := LatexEscape(Some(LatexSummaryText(d)));
    }
    section := "\\section*{PROFESSIONAL SUMMARY}\n" + prof + "\n\n";
  }

  /** The three list sections, each a loop over its entries, each left out when empty. */
  method BuildLists(d: Record) returns (projects: string, education: string, certs: string)
    ensures projects == ProjectsLatex(d.projects)
    ensures education == EducationSection(d.education)
    ensures certs == CertificationsSection(d.certifications)
  {
    projects, education, certs := [], [], [];
    if d.projects != [] {
      projects := Emit("\\section*{KEY PROJECTS}\n", d.projects, ProjectLatex);
    }
    if d.education != [] {
      education := Emit("\\section*{EDUCATION}\n", d.education, EducationLatex);
      education := education + "\n";
    }
    if d.certifications != [] {
      certs := Emit("\\section*{CERTIFICATIONS}\n\\resumeListStart\n", d.certifications, CertificationLatex);
      certs := certs + "\\resumeListEnd\n\n";
    }
  }

  /** `build_latex_from_data` as the source runs it: the text is appended to piece by piece. */
  method BuildLatex(d: Record) returns (latex: string)
    ensures latex == LatexDocument(d)
  {
    var header := BuildHeader(d);
    var summary := BuildSummary(d);
    var projects, education, certs := BuildLists(d);
    latex := Preamble;
    latex := latex + header;
    latex := latex + summary;
    latex := latex + CoreSkills;
    latex := latex + projects;
    latex := latex + education;
    latex := latex + certs;
    latex := latex + "\\end{document}\n";
  }

  // ---------------------------------------------------------------------------
  // properties of the LaTeX document

  /** The `[Repo]` link is written exactly when the repository is non-empty, and it is the
      only difference it makes, right after the bold name. */
  lemma {:induction false} LatexRepoLink(p: Project)
    ensures var bare := ProjectLatex(p.(repository := None));
      if OrEmpty(p.repository) == [] then ProjectLatex(p) == bare
      else InsertedAt(ProjectLatex(p), bare, RepoText(LatexEscaped(p.repository)), |ProjectLead(p)|)
  {
    LatexOptionEmptyIff(p.repository);
    assert ProjectLead(p.(repository := None)) == ProjectLead(p);
    assert ProjectTail(p.(repository := None)) == ProjectTail(p);
    assert ProjectLead(p) + [] == ProjectLead(p);
    InsertMiddle(ProjectLead(p), RepoText(LatexEscaped(p.repository)), ProjectTail(p));
  }

  /** The `[Cert]` link is written exactly when the unescaped source starts with `http`;
      otherwise the source leaves no trace in the item. */
  lemma {:induction false} LatexCertLink(c: Certification)
    ensures CertLink(LatexEscaped(c.source)) != [] <==> StartsWith(OrEmpty(c.source), "http")
    ensures !StartsWith(OrEmpty(c.source), "http")
      ==> CertificationLatex(c) == CertificationLatex(c.(source := None))
  {
    if c.source.Some? {
      LatexKeepsHttp(c.source.value);
    }
  }

  /** The `tel:` target of the phone link holds the digits of the number as entered. */
  lemma {:induction false} LatexPhoneDigits(phone: string)
    ensures PhoneLink(LatexEscaped(Some(phone)))
      == "\\href{tel:+" + DigitsOf(phone) + "}{" + LatexEscaped(Some(phone)) + "}"
  {
    LatexKeepsDigits(phone);
  }

  /** The escaped value of an optional text is empty exactly when the text is. */
  lemma {:induction false} LatexOptionEmptyIff(o: Option<string>)
    ensures LatexEscaped(o) == [] <==> OrEmpty(o) == []
  {
    if o.Some? {
      LatexEmptyIff(o.value);
    }
  }

  /** Every contact item has text in it. */
  lemma {:induction false} ContactPartsNonEmpty(d: Record)
    ensures forall i :: 0 <= i < |ContactParts(d)| ==> ContactParts(d)[i] != []
  {
    var location := LatexEscaped(d.location);
    var phone := LatexEscaped(d.phone);
    var email := LatexEscaped(Some(d.email));
    assert |PhoneLink(phone)| > 0 && |MailLink(email)| > 0;
  }

  /** The contact line is left out exactly when location, phone and e-mail are all empty. */
  lemma {:induction false} LatexContactEmptyIff(d: Record)
    ensures Join(ContactParts(d), Quad) == []
      <==> OrEmpty(d.location) == [] && OrEmpty(d.phone) == [] && d.email == []
  {
    LatexOptionEmptyIff(d.location);
    LatexOptionEmptyIff(d.phone);
    LatexEmptyIff(d.email);
    ContactPartsNonEmpty(d);
    JoinEmptyIff(ContactParts(d), Quad);
  }

  /** The link parts: the LinkedIn link first, the GitHub link last, each present exactly
      when its raw address is non-empty; so the link line is left out exactly when both are. */
  lemma {:induction false} LatexLinkParts(d: Record)
    ensures |LinkParts(d)| == (if OrEmpty(d.linkedin) != [] then 1 else 0) + (if OrEmpty(d.github) != [] then 1 else 0)
    ensures OrEmpty(d.linkedin) != [] ==> LinkParts(d)[0] == "\\href{" + LatexEscaped(d.linkedin) + "}{LinkedIn}"
    ensures OrEmpty(d.github) != [] ==>
      LinkParts(d)[|LinkParts(d)| - 1] == "\\href{" + LatexEscaped(d.github) + "}{GitHub}"
    ensures Join(LinkParts(d), Quad) == [] <==> OrEmpty(d.linkedin) == [] && OrEmpty(d.github) == []
  {
    LatexOptionEmptyIff(d.linkedin);
    LatexOptionEmptyIff(d.github);
    assert forall i :: 0 <= i < |LinkParts(d)| ==> LinkParts(d)[i] != [];
    JoinEmptyIff(LinkParts(d), Quad);
  }

  /** The summary section always has text in it. */
  lemma {:induction false} LatexSummaryNonEmpty(d: Record)
    ensures LatexSummary(d) != []
  {
    var text := LatexSummaryText(d);
    assert text != [] by {
      if Join(Parts(d, false), " . ") == [] {
        assert |LatexDefault| > 0;
      }
    }
    LatexEmptyIff(text);
  }

  /** Without a stored summary and with nothing to compose one from, the summary section
      holds the escaped default sentence. */
  lemma {:induction false} LatexDefaultSummary(d: Record)
    requires OrEmpty(d.professionalSummary) == [] && Parts(d, false) == []
    ensures LatexSummary(d) == LatexEscaped(Some(LatexDefault))
  {
    LatexOptionEmptyIff(d.professionalSummary);
    LatexDefaultRule(d);
  }
}
