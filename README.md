# Resume-Building-Bot, modelled in Dafny

Resume-Building-Bot is a small Flask application. A chatbot asks a fixed questionnaire of 19
prompts and stores the answers in a per-user session record. That record is then rendered as:

- a PDF story, built with ReportLab;
- a LaTeX document;
- three HTML templates: modern, classic and ATS-friendly.

This project models that core as verified Dafny, module by module:

| module | file | models |
|---|---|---|
| `Wrappers` | wrappers.dfy | `Option` for absent dictionary keys and `None` values |
| `Text` | text.dfy | the Python `str` operations the core uses: `strip`, `lower`, `upper`, `split`, `join`, `replace`, `startswith`, the `\D` digit filter, and the accumulate-in-a-loop idiom (`Emit`, `Gather`) |
| `Html` | html.dfy | `html.escape(s, quote=True)` as a per-character map, with a decoder that undoes it |
| `Resume` | resume.dfy | the session record: name, e-mail, four lists of entries whose keys may be missing, and the optional enrichment fields |
| `Chat` | chat.dfy | the `/chat` handler as a state machine: the specification function `Transition`, and the class `ChatSession` whose fields `step` and `data` are updated in place |
| `Templates` | templates.dfy | `_esc`, the four section builders, and `modern_template`, `classic_template`, `ats_template` |
| `Latex` | latex.dfy | `latex_escape`, with its ordered replace passes, and `build_latex_from_data` |
| `Summary` | summary.dfy | the automatic professional summary; the PDF path and the LaTeX path differ slightly |
| `Pdf` | pdf.dfy | `rr_escape`, the PDF file name, and the ReportLab story as a list of paragraphs, a skills table and spacers |

Where the code loops and builds its result step by step, the model is a method with a loop. Each such method is proved equal to a specification function, and the properties are proved as lemmas about that function. The handler's loops are:

- the step-by-step handler;
- the `replace` passes of `latex_escape`;
- the `latex +=`, `story.append` and `items.append` loops.

Stored answers are lower-cased. `chat()` stores `raw_input.strip().lower()` at app.py:139-140, even though the comment there says the lower-cased value is only for yes/no decisions, and the model follows the code. Two related behaviours are also modelled as the code has them:

- the unguarded `[-1]` accesses at steps 3, 4 and 7;
- the lookup of `questions[19]` after step 18.

Both end in `Reply.IndexError`. The model leaves the machine unchanged there; what the source does with the step at 18 is described under "## Left out". `Chat.InvariantRulesOutFaults` and `Chat.ReachableStates` prove that neither can happen in a state reached from `index()` before the closing step.

## Model

| member | source | states |
|---|---|---|
| Chat.Answer | app.py:136-140 | the answer used is the stripped text: no upper-case letter, and no white space at either end |
| Chat.AnswerIsStrippedMessage | app.py:136-146 | the answer is the lower-cased slice of the message (the empty text when the message is missing or null) that is left once the white space around it is dropped; it is empty, and so refused, exactly when the message is all white space |
| Text.StripSlice | app.py:139 | `strip()` keeps one slice of the text, and only white space lies before and after that slice; the result is empty exactly when the text is all white space |
| Chat.Handle | app.py:148-260 | a non-blank answer is refused exactly when the step must fill an entry that does not exist, or the step is 18 or later; a refusal changes nothing; otherwise the step moves as the step table says and the reply asks the new step's question, with the suggestions at step 6 and "Enter another main skill:" after a "yes" at step 8 |
| Chat.HandleDetails | app.py:148-157 | steps 0 to 4 fault exactly at steps 3 and 4 with no education entry; otherwise they move to the next step and ask its question |
| Chat.HandleSkills | app.py:158-195 | steps 5 to 8 fault exactly at step 7 with no skill; otherwise they follow the step table, step 6 alone answers with suggestions, and a "yes" at step 8 asks for another main skill |
| Chat.HandleCertifications | app.py:197-230 | steps 9 to 13 answer "Error: Please enter the certificate name first." exactly at steps 11 and 12 with no certification, changing nothing; otherwise they follow the step table and ask the new step's question |
| Chat.HandleProjects | app.py:231-260 | steps 14 and later fault exactly from step 18 on, and answer "Error: Please enter the project name first." exactly at steps 15 and 16 with no project; a refusal changes nothing; otherwise they follow the step table |
| Chat.BlankAnswerRefused | app.py:145-146 | a blank or missing answer is refused with "Please enter a valid response." and changes neither step nor record; any other answer gets a different reply |
| Chat.StepFollowsTable | app.py:148-258 | from a reachable state, an accepted answer moves the step as the table says: the gates at 5, 13 and 17 advance only on "no", those at 8 and 9 branch only on "yes", and every other step goes to the next one |
| Chat.ReplyAsksNextQuestion | app.py:158-260 | the reply is the question of the new step, except that step 6 adds the suggestions and a "yes" at step 8 asks "Enter another main skill:" |
| Chat.CreateStepsAppendOne | app.py:153 | steps 2, 6, 10 and 14 append exactly one entry holding the answer to education, skills, certifications or projects, and leave the rest of the record equal |
| Chat.FillStepsChangeLastEntry | app.py:155-246 | steps 3, 4, 7, 11, 12, 15 and 16 replace one field of the last entry of one list and change nothing else; step 16 writes `technologies` |
| Chat.OtherStepsRecord | app.py:148-152 | steps 0 and 1 set name and e-mail; the yes/no gates leave the record as it was |
| Chat.AnswersAreSplit | app.py:178-185 | step 6 answers with the stripped service reply split on ", "; step 7 stores the answer split on ","; step 16 stores it split on ", "; each split joins back to its text |
| Chat.GuardsRefuseOutOfOrderFill | app.py:210-245 | at steps 11 and 12 with no certification, and at 15 and 16 with no project, the fixed "name first" error is answered and nothing changes |
| Chat.ClosingStepFaults | app.py:258-260 | an accepted answer at step 18 or later fails on the out-of-range question lookup; the model keeps the state as it was (see "## Left out" for the step the handler has already moved) |
| Chat.TransitionKeepsInvariant | app.py:153-246 | one call keeps the reachable-state invariant: step at most 18, and every fill step has an entry to fill |
| Chat.InvariantRulesOutFaults | app.py:155-245 | under the invariant, before step 18, no call faults and no empty-list guard fires |
| Chat.TransitionKeepsLowercased | app.py:139-140 | one call keeps every stored text free of upper-case letters |
| Chat.RunKeepsInvariants | app.py:134-260 | any sequence of answers from an invariant, lower-case state keeps both properties |
| Chat.ReachableStates | app.py:123-131 | every state reached from the initial state by any answers satisfies the invariant and holds only lower-case text |
| Chat.ChatSession.constructor | app.py:123-131 | a new session is at step 0 with empty name, e-mail and lists |
| Chat.ChatSession.Reset | app.py:122-131 | clearing the session returns it to the initial state |
| Chat.ChatSession.Advance | app.py:134-260 | updates step and record in place exactly as `Transition` does, returns its reply, and keeps the invariant and the lower-case property |
| Chat.ChatSession.AnswerDetails | app.py:148-157 | steps 0 to 4 store into the record in place, then fall through to the next step |
| Chat.ChatSession.AnswerSkills | app.py:158-195 | steps 5 to 8 update the fields in place as the specification `HandleSkills` does |
| Chat.ChatSession.AnswerCertifications | app.py:197-230 | steps 9 to 13 update the fields in place as the specification `HandleCertifications` does |
| Chat.ChatSession.AnswerProjects | app.py:231-260 | steps 14 and later update the fields in place as the specification `HandleProjects` does |
| Html.Escape | templates.py:12 | the escaped text has no `<`, `>`, `"` or `'`; it is unchanged when there is no markup character; it is empty exactly when the input is |
| Html.UnescapeEscape | templates.py:12 | decoding the character entities gives back the original text |
| Html.EscapeInjective | templates.py:12 | different texts escape to different texts |
| Templates.Esc | templates.py:8-12 | `None` gives the empty text; the result is empty exactly when the value is; it holds no `<`, `>`, `"` or `'` |
| Templates.EscPlain | templates.py:8-12 | a text free of `& < > " '` is returned unchanged |
| Templates.EscRoundTrip | templates.py:8-12 | unescaping the escaped value gives the value back |
| Templates.JoinEscaped | templates.py:41 | the joined, escaped sub-skills or technologies contain no tag brackets |
| Templates.JoinEscapedSkipsEmpty | templates.py:41 | empty entries are left out of the join |
| Templates.SectionPlaceholderIffEmpty | templates.py:33 | a section equals its placeholder exactly when no item was produced |
| Templates.EducationItem | templates.py:18-32 | an entry gives no item exactly when course, college and year are all empty; otherwise one `edu-item` div |
| Templates.EducationSeparator | templates.py:23-28 | with both course and college present, the item shows the bold course, " — ", then the college |
| Templates.EducationNoSeparator | templates.py:23-28 | unless course and college are both present no dash is written: the item is the bold course if any, the college, and the year span if any |
| Templates.BuildEducationHtml | templates.py:15-33 | the loop's result equals the specification: the items in input order, joined by newlines, or the placeholder |
| Templates.EducationPlaceholderIffAllBlank | templates.py:21-33 | the education placeholder appears exactly when every entry is blank |
| Templates.SkillItem | templates.py:39-43 | a skill gives a `skill-pill` div exactly when its main skill is non-empty |
| Templates.BuildSkillsHtml | templates.py:36-44 | the loop's result equals the specification of the skills section |
| Templates.SkillsPlaceholderIffNoMainSkill | templates.py:42-44 | the skills placeholder appears exactly when no skill has a main skill |
| Templates.ProjectItem | templates.py:50-68 | a project gives a `project-item` div exactly when its name or description is non-empty |
| Templates.ProjectRepoLink | templates.py:57-61 | with a name and a repository, the item holds the `[Repo]` link to the escaped repository |
| Templates.ProjectRepoNeedsName | templates.py:57-59 | without a name the repository leaves no trace in the item |
| Templates.BuildProjectsHtml | templates.py:47-69 | the loop's result equals the specification of the projects section |
| Templates.ProjectsPlaceholderIffNoneNamed | templates.py:55-69 | the projects placeholder appears exactly when no project has a name or a description |
| Templates.CertificationItem | templates.py:78-90 | every certification gives one `cert-item` div |
| Templates.CertificationSourceShown | templates.py:83-89 | an empty source adds nothing; a source starting with "http" inserts the `[Certificate]` link before the closing tag; any other source inserts " — " and the escaped source there |
| Templates.BuildCertificationsHtml | templates.py:72-92 | the loop's result equals the specification of the certifications section |
| Templates.CertificationsPlaceholderIffNone | templates.py:74-92 | there is one line per certification, and the placeholder appears exactly when there are none |
| Templates.ContactLineEmptyIff | templates.py:107-108 | the contact line is empty exactly when location, phone and e-mail are all empty |
| Templates.ContactLineOrder | templates.py:193 | with all three present, the line is location, phone, e-mail in that order with the separator between them |
| Templates.ModernShowsEverySection | templates.py:154-161 | the modern page always shows the Core Skills, Key Projects, Education and Certifications sections, each body inside its own `<div class='section'>` right after its `<h2>` heading |
| Templates.ModernWithoutSummary | templates.py:144-163 | without a summary the page is the header followed by the four sections |
| Templates.ModernSummaryOnlyWhenGiven | templates.py:117-153 | an empty summary adds nothing; a non-empty one inserts its section right after the header |
| Templates.ClassicShowsEverySection | templates.py:201-204 | the classic page always shows Education, Work / Projects, Skills and Certifications, each body inside its own section right after its heading |
| Templates.EmptyRecordShowsPlaceholders | templates.py:98-207 | for an empty record both pages show all four placeholders, each inside its own section right after its heading |
| Templates.AtsBlock | templates.py:237-286 | a section is omitted when its collection is empty; otherwise it is the title, its lines and a blank line |
| Templates.AtsSkillLine | templates.py:240-244 | a skill gives a line exactly when its main skill is non-empty, and the line holds no `<` |
| Templates.AtsProjectLine | templates.py:252-258 | every project gives a line, and the line holds no `<` |
| Templates.AtsEducationLine | templates.py:266-269 | every education entry gives a line, and the line holds no `<` |
| Templates.AtsCertificationLine | templates.py:277-285 | every certification gives a line, and the line holds no `<` |
| Templates.AtsFields | templates.py:221-226 | the e-mail, phone and location lines, each appended only when its value is non-empty, equal their specification |
| Templates.AtsHead | templates.py:215-228 | the loop's name and contact lines equal their specification |
| Templates.AtsSection | templates.py:237-286 | one list section built by the loop equals its specification block |
| Templates.AtsLists | templates.py:235-286 | the loop's four list sections equal their specification |
| Templates.BuildAts | templates.py:213-292 | the page equals the fixed prefix, the lines joined by newlines, and the fixed suffix |
| Templates.AtsListLineCount | templates.py:237-286 | the number of list lines is two per non-empty section plus one per entry shown |
| Templates.AtsNameFirst | templates.py:216-219 | a non-empty name gives the upper-cased escaped name as the first line, then a blank line; the first line has no lower-case letter |
| Templates.AtsBodyHasNoMarkup | templates.py:289-291 | the text inside `<pre>` holds no `<`, so no value can open a tag |
| Latex.LatexPasses | app.py:264-273 | `None` gives the empty text |
| Latex.LatexEscape | app.py:264-273 | the loop of ordered replace passes equals the per-character escape `LatexEscaped` |
| Latex.LatexChar | app.py:267-272 | each special character becomes a non-empty command starting with a backslash; every other character is kept |
| Latex.RunPasses | app.py:269-272 | the loop that reassigns the text once per pass gives what running the passes in order gives |
| Latex.PassesAgree | app.py:267-272 | running the eleven passes after the backslash pass is the same as escaping character by character |
| Latex.LatexPlain | app.py:264-273 | a text without any of the twelve special characters is returned unchanged |
| Latex.LatexBackslash | app.py:267-272 | a backslash becomes `\textbackslash\{\}`, because the later brace passes escape the braces the first pass wrote |
| Latex.LatexAppend | app.py:264-273 | escaping distributes over concatenation |
| Latex.LatexEmptyIff | app.py:264-273 | the escaped text is empty exactly when the input is |
| Latex.LatexKeepsPrefix | app.py:264-273 | a prefix free of special characters begins the escaped text exactly when it begins the input |
| Latex.LatexKeepsDigits | app.py:339 | escaping keeps exactly the digits of the input, in order |
| Latex.ContactParts | app.py:337-340 | at most three contact parts |
| Latex.LinkParts | app.py:343-345 | at most two link parts |
| Latex.LatexLinkParts | app.py:343-346 | the LinkedIn link comes first and the GitHub link last, each present exactly when its raw address is non-empty; the link line is empty exactly when both are |
| Latex.ContactPartsNonEmpty | app.py:337-340 | every contact part is non-empty |
| Latex.LatexContactEmptyIff | app.py:337-341 | the contact line is empty exactly when location, phone and e-mail are all empty |
| Latex.LatexPhoneDigits | app.py:339 | the `tel:` target holds the digits of the number as entered |
| Latex.LatexSummaryNonEmpty | app.py:285-299 | the summary paragraph is never empty |
| Latex.LatexDefaultSummary | app.py:299 | with no stored summary and no parts, the summary is the escaped fixed sentence |
| Latex.ProjectsLatex | app.py:396-405 | the projects section is empty exactly when there are no projects |
| Latex.LatexRepoLink | app.py:399-400 | an empty repository adds nothing; a non-empty one inserts the escaped `[Repo]` link right after the bold name |
| Latex.EducationSection | app.py:408-414 | the education section is empty exactly when there are no entries |
| Latex.CertificationsSection | app.py:417-425 | the certifications section is empty exactly when there are no certifications |
| Latex.LatexCertLink | app.py:422-423 | the `[Cert]` link is written exactly when the raw source starts with "http"; otherwise the source leaves no trace |
| Latex.BuildHeader | app.py:376-382 | the loop's header equals its specification |
| Latex.BuildSummary | app.py:385 | the summary section built equals its specification |
| Latex.BuildLists | app.py:396-425 | the three list sections built by the loops equal their specifications |
| Latex.BuildLatex | app.py:275-428 | the document built step by step equals the specification `LatexDocument` |
| Summary.Take | app.py:293 | a slice `[:n]` keeps the first n entries, or all of them when there are fewer |
| Summary.PartsNonEmpty | app.py:287-298 | every summary part is non-empty |
| Summary.JoinEmptyIff | app.py:299 | a join of non-empty parts is empty exactly when there are no parts |
| Summary.LatexDefaultRule | app.py:299 | the LaTeX summary is the default sentence without parts, and otherwise the parts joined by " . " |
| Summary.PartsReadOnlyTheFirst | app.py:287-298 | the parts depend only on the first education entry, the first three skills and the first two projects |
| Summary.PartsAgreeWhenNamed | app.py:544-545 | when the first two projects have names, the PDF and LaTeX parts are the same |
| Summary.UnnamedProjectSummaries | app.py:297-298 | for one unnamed project, the PDF summary is its default while the LaTeX summary reads "Projects: " |
| Pdf.RrEscaped | app.py:30-34 | `None` gives the empty text, and the result holds no raw newline |
| Pdf.RrPerChar | app.py:34 | the escape then the newline replacement acts character by character |
| Pdf.RrPlain | app.py:30-34 | a text free of markup characters and newlines is unchanged |
| Pdf.RrEmptyIff | app.py:30-34 | the result is empty exactly when the value is |
| Pdf.RrRoundTrip | app.py:30-34 | decoding entities and line breaks gives the original text back |
| Pdf.DecimalRead | app.py:440 | a zero-padded decimal reads back as the number |
| Pdf.StampFields | app.py:440 | the 14-character stamp holds year, month, day, hour, minute and second in that order |
| Pdf.FileStem | app.py:439 | the stem has no spaces |
| Pdf.FileStemOfName | app.py:439 | the stem is the name without its surrounding white space, each space replaced by an underscore; it has the stripped name's length, so it is empty exactly when the name is all white space |
| Pdf.PdfFileNameShape | app.py:441 | the name is the stem, "_Resume_", the stamp and ".pdf" |
| Pdf.PdfFileNameInjective | app.py:439-441 | two moments give the same file name only when they are the same moment |
| Pdf.ContactItems | app.py:505-511 | at most three contact items |
| Pdf.PdfContactItems | app.py:505-511 | the contact items are the escaped location, phone and e-mail, in that order, without the empty ones |
| Pdf.ContactBlock | app.py:512-514 | the contact line is a contact-style paragraph |
| Pdf.LinkBlock | app.py:517-523 | the links line is a contact-style paragraph |
| Pdf.PdfSummaryNonEmpty | app.py:528-550 | the summary paragraph is never empty |
| Pdf.SkillsBlock | app.py:553-572 | the skills part is a spacer, the heading, then the table or "No skills provided." exactly when there are no skills |
| Pdf.PdfProjectHeader | app.py:580-584 | the project header is the bare escaped name exactly when the joined technologies are empty |
| Pdf.ProjectsBlock | app.py:575-589 | the projects part is empty exactly when there are no projects |
| Pdf.PdfEducationEntry | app.py:596-606 | an entry gives three flowables with a college and two without; the year is appended exactly when it is non-empty |
| Pdf.EducationBlock | app.py:592-606 | the education part is empty exactly when there are no entries |
| Pdf.PdfCertSource | app.py:614-622 | an empty source adds nothing; any other source is appended after " — " |
| Pdf.CertificationsBlock | app.py:609-623 | the certifications part is empty exactly when there are none |
| Pdf.BuildSkills | app.py:556-572 | the loop's skills part equals its specification |
| Pdf.BuildSections | app.py:575-623 | the three list parts built by the loops equal their specifications |
| Pdf.BuildStory | app.py:498-623 | the story built step by step equals the specification `Story` |
| Pdf.PdfHeadings | app.py:549-612 | the section headings are PROFESSIONAL SUMMARY and CORE SKILLS, then KEY PROJECTS, EDUCATION and CERTIFICATIONS, each exactly when its list is non-empty |

## Left out

- Flask plumbing is not modelled: routing, `request.json`, `jsonify`, `render_template`, `send_file` and the session's persistence. The session is the `ChatSession` object, and a reply is a value of `Reply`.
- The Groq client (app.py:27, 170-178) is not modelled. It becomes the function parameter `suggest`, whose failures are not modelled. Only the strip and the split of its reply are modelled.
- ReportLab is not modelled: styles, fonts, colours, `SimpleDocTemplate`, `Table`/`TableStyle` and `doc.build` with its `try`/`except`. The story keeps each paragraph's text and role, the table's rows and the spacer heights, and nothing of the layout.
- `datetime.datetime.now()` becomes a `Timestamp` parameter. `ValidTimestamp` asks for a four-digit year and in-range fields, which is what `strftime` gives.
- File paths and `os.makedirs` are not modelled, and neither is the 400 answer for an empty session. The session record always holds a name and an e-mail from `index()`, so the `"resume"` default for the file stem is unreachable. The `"Your Name"` default of the modern and classic templates (templates.py:100, 172) is unreachable for the same reason: `Record` always has a name.
- The `.env` loading, the secret key, the unused `resume_examples` constant and the unused imports are not modelled.
- The CSS blocks and the LaTeX preamble are opaque string constants. Only what the templates put around them is modelled.
- Unicode is not modelled: `lower`, `upper`, `isspace`, `\D` and `html.escape` are modelled on ASCII. `strip` removes the ASCII white space that `str.isspace` accepts.
- `skills_rows` in `build_latex_from_data` (app.py:302-308) is computed but never used in the document, so it is not modelled.
- The gather loops of `build_latex_from_data` (app.py:311-334) are folded into the per-entry functions. `BuildLists` emits the same text in one loop per section.
- `LatexEscape` itself runs the passes as the source does. Every other member uses `LatexEscaped`, the per-character table, and `PassesAgree` proves the two equal.
- The upper-casing of the escaped name (app.py:277, 501; templates.py:216) also upper-cases the escape commands, so `\textbackslash` becomes `\TEXTBACKSLASH`. It is modelled as written.
- Latex.ContactParts, Latex.LinkParts and Pdf.ContactItems: bound only the number of parts. Their contents are stated by separate lemmas: Latex.LatexContactEmptyIff and Latex.LatexPhoneDigits for the contact parts, Latex.LatexLinkParts for the links, and Pdf.PdfContactItems for the PDF contact items.
- At step 18 the handler runs `session['step'] += 1` (app.py:258) before the failing lookup `questions[19]` (app.py:260). The model does not represent this half-finished update: `Transition` and `ChatSession.Advance` leave the state as it was. Under `app.run(debug=True)` (app.py:637) the exception propagates and Flask does not save the session. Without debug mode, Flask would answer with an error and store step 19. Step 19 then behaves like step 18, since every later call fails the same way.
