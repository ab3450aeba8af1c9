/**
 * The conversation that collects a resume: one answer per call, a step counter and the
 * record being built. `Transition` states what one call does; `ChatSession.Advance`
 * does it in place on a session object.
 */
module Chat {
  import opened Wrappers
  import opened Text
  import opened Resume

  /** The prompt shown on arriving at each step (index 18 is the closing message). */
  const Questions: seq<string> := [
    "Hi there! I'm ResumeBot. Let's build your resume! What is your name?",
    "Great! What is your email?",
    "Now, tell me about your education. What is your course?",
    "Which college did you study at for this course?",
    "What year did you complete it?",
    "Would you like to add another education detail? (yes/no)",
    "Now, let's talk about your skills. Enter a main skill:",
    "Here are 10 related sub-skills. Select the ones you have (comma-separated):",
    "Would you like to add another main skill? (yes/no)",
    "Do you have any certifications? (yes/no)",
    "Enter the certificate name:",
    "Enter the certificate ID:",
    "Where did you get this certification from?",
    "Would you like to add another certification? (yes/no)",
    "Tell me about your projects. What is the project name?",
    "Provide a brief description of the project:",
    "Enter the project repository link:",
    "Would you like to add another project? (yes/no)",
    "All done! Generating your resume now..."
  ]

  const LastStep: nat := 18

  /** The prompts the handler can answer with: the question of a step, or one of its
      fixed texts. */
  datatype Prompt =
    | Question(index: nat)
    | InvalidResponse
    | AnotherMainSkill
    | CertificateNameFirst
    | ProjectNameFirst

  /** The text sent as `"question"`. */
  function PromptText(p: Prompt): string
    requires p.Question? ==> p.index < |Questions|
  {
    match p
    case Question(i) => Questions[i]
    case InvalidResponse => "Please enter a valid response."
    case AnotherMainSkill => "Enter another main skill:"
    case CertificateNameFirst => "Error: Please enter the certificate name first."
    case ProjectNameFirst => "Error: Please enter the project name first."
  }

  /** What one call answers: a prompt, the prompt with sub-skill suggestions, or the
      `IndexError` the handler raises when it reads past the end of a list. */
  datatype Reply =
    | Ask(prompt: Prompt)
    | AskWithSubskills(prompt: Prompt, subskills: seq<string>)
    | IndexError

  /** The session: the current step and the record built so far. */
  datatype Machine = Machine(step: nat, data: Record)

  const Initial: Machine := Machine(0, EmptyRecord)

  /** The list `xs` with its last entry replaced by `x`. */
  function WithLast<T>(xs: seq<T>, x: T): (r: seq<T>)
    requires xs != []
    ensures |r| == |xs| && r[..|r| - 1] == xs[..|xs| - 1] && r[|r| - 1] == x
  {
    xs[|xs| - 1 := x]
  }

  function Last<T>(xs: seq<T>): T
    requires xs != []
  {
    xs[|xs| - 1]
  }

  /** `a` is a slice of `m`, lower-cased, with only whitespace of `m` around that slice. */
  ghost predicate LoweredSlice(m: string, a: string) {
    exists k: nat, t: string :: SpaceAround(m, k, t) && a == Lower(t)
  }

  /** The answer the handler works with: the message (empty when missing or null), stripped
      and lower-cased, so it has no upper-case letter and no surrounding whitespace. */
  function Answer(message: Option<string>): (a: string)
    ensures NoUpper(a)
    ensures a == [] || (!IsSpace(a[0]) && !IsSpace(a[|a| - 1]))
  {
    var s := Strip(message.GetOr(""));
    LowerKeepsEnds(s);
    Lower(s)
  }

  /** What the answer is made of: the lower-cased slice of the message that is left when the
      whitespace around it is dropped, empty exactly when the message is missing or blank. */
  lemma {:induction false} AnswerIsStrippedMessage(message: Option<string>)
    ensures LoweredSlice(message.GetOr(""), Answer(message))
    ensures Answer(message) == [] <==> Blank(message.GetOr(""))
  {
    var m := message.GetOr("");
    StripSlice(m);
  }

  /** One call of the conversation handler. `suggest` stands for the language-model call
      that proposes sub-skills for a main skill; only the split of its reply is modelled. */
  function Transition(m: Machine, message: Option<string>, suggest: string -> string): (Machine, Reply)
  {
    var a := Answer(message);
    if a == "" then (m, Ask(InvalidResponse)) else Handle(m, a, suggest)
  }

  /** The replies that refuse an answer: the handler's `IndexError` and the two guards. */
  predicate Refusal(r: Reply) {
    r == IndexError || r == Ask(CertificateNameFirst) || r == Ask(ProjectNameFirst)
  }

  /** The states in which the handler refuses an accepted answer: a fill step with no entry
      to fill, or the closing step and beyond. */
  predicate Refuses(m: Machine) {
    || ((m.step == 3 || m.step == 4) && m.data.education == [])
    || (m.step == 7 && m.data.skills == [])
    || ((m.step == 11 || m.step == 12) && m.data.certifications == [])
    || ((m.step == 15 || m.step == 16) && m.data.projects == [])
    || m.step >= LastStep
  }

  /** What the handler does with the accepted answer `a`, by the part of the record that
      the current step works on. It refuses exactly in the states `Refuses` names, and then
      changes nothing; otherwise it moves the step as `NextStep` says and asks the question
      of the new step, with the suggestions at step 6 and its own words for a "yes" at 8. */
  function Handle(m: Machine, a: string, suggest: string -> string): (r: (Machine, Reply))
    ensures r.1 != Ask(InvalidResponse)
    ensures Refusal(r.1) <==> Refuses(m)
    ensures Refusal(r.1) ==> r.0 == m
    ensures !Refusal(r.1) ==> r.0.step == NextStep(m.step, a)
    ensures r.1.AskWithSubskills? <==> m.step == 6
    ensures m.step == 6 ==> r.1.AskWithSubskills? && r.1.prompt == Question(7)
    ensures m.step == 8 && a == "yes" ==> r.1 == Ask(AnotherMainSkill)
    ensures !Refusal(r.1) && m.step != 6 && !(m.step == 8 && a == "yes") ==> r.1 == Ask(Question(r.0.step))
  {
    if m.step <= 4 then HandleDetails(m, a)
    else if m.step <= 8 then HandleSkills(m, a, suggest)
    else if m.step <= 13 then HandleCertifications(m, a)
    else HandleProjects(m, a)
  }

  /** Steps 0 to 4: name, e-mail, then course, college and year of an education entry. */
  function HandleDetails(m: Machine, a: string): (r: (Machine, Reply))
    requires m.step <= 4
    ensures r.1 == IndexError <==> Refuses(m)
    ensures r.1 == IndexError ==> r.0 == m
    ensures r.1 != IndexError ==> r.0.step == m.step + 1 && r.1 == Ask(Question(r.0.step))
  {
    var d := m.data;
    if m.step == 0 then (Machine(1, d.(name := a)), Ask(Question(1)))
    else if m.step == 1 then (Machine(2, d.(email := a)), Ask(Question(2)))
    else if m.step == 2 then
      (Machine(3, d.(education := d.education + [Education(Some(a), None, None)])), Ask(Question(3)))
    else if d.education == [] then (m, IndexError)
    else if m.step == 3 then
      (Machine(4, d.(education := WithLast(d.education, Last(d.education).(college := Some(a))))), Ask(Question(4)))
    else
      (Machine(5, d.(education := WithLast(d.education, Last(d.education).(year := Some(a))))), Ask(Question(5)))
  }

  /** Steps 5 to 8: the education gate, a main skill with its suggestions, the selected
      sub-skills, and the skill gate. */
  function HandleSkills(m: Machine, a: string, suggest: string -> string): (r: (Machine, Reply))
    requires 5 <= m.step <= 8
    ensures r.1 == IndexError <==> Refuses(m)
    ensures r.1 == IndexError ==> r.0 == m
    ensures r.1 != IndexError ==> r.0.step == NextStep(m.step, a)
    ensures r.1.AskWithSubskills? <==> m.step == 6
    ensures m.step == 6 ==> r.1.AskWithSubskills? && r.1.prompt == Question(7)
    ensures m.step == 8 && a == "yes" ==> r.1 == Ask(AnotherMainSkill)
    ensures r.1 != IndexError && m.step != 6 && !(m.step == 8 && a == "yes") ==> r.1 == Ask(Question(r.0.step))
  {
    var d := m.data;
    if m.step == 5 then
      if a == "no" then (m.(step := 6), Ask(Question(6))) else (m.(step := 2), Ask(Question(2)))
    else if m.step == 6 then
      (Machine(7, d.(skills := d.skills + [Skill(a, None)])),
       AskWithSubskills(Question(7), Split(Strip(suggest(a)), ", ")))
    else if m.step == 7 then
      if d.skills == [] then (m, IndexError)
      else (Machine(8, d.(skills := WithLast(d.skills, Last(d.skills).(subskills := Some(Split(a, ",")))))),
            Ask(Question(8)))
    else
      if a == "yes" then (m.(step := 6), Ask(AnotherMainSkill)) else (m.(step := 9), Ask(Question(9)))
  }

  /** Steps 9 to 13: the certification gate, then name, id and source of a certification,
      and the gate that asks for another one. */
  function HandleCertifications(m: Machine, a: string): (r: (Machine, Reply))
    requires 9 <= m.step <= 13
    ensures r.1 == Ask(CertificateNameFirst) <==> Refuses(m)
    ensures r.1 == Ask(CertificateNameFirst) ==> r.0 == m
    ensures r.1 != Ask(CertificateNameFirst) ==> r.0.step == NextStep(m.step, a) && r.1 == Ask(Question(r.0.step))
  {
    var d := m.data;
    if m.step == 9 then
      if a == "yes" then (m.(step := 10), Ask(Question(10))) else (m.(step := 14), Ask(Question(14)))
    else if m.step == 10 then
      (Machine(11, d.(certifications := d.certifications + [Certification(a, None, None)])), Ask(Question(11)))
    else if m.step == 11 then
      if d.certifications == [] then (m, Ask(CertificateNameFirst))
      else (Machine(12, d.(certifications := WithLast(d.certifications, Last(d.certifications).(id := Some(a))))),
            Ask(Question(12)))
    else if m.step == 12 then
      if d.certifications == [] then (m, Ask(CertificateNameFirst))
      else (Machine(13, d.(certifications := WithLast(d.certifications, Last(d.certifications).(source := Some(a))))),
            Ask(Question(13)))
    else
      if a == "no" then (m.(step := 14), Ask(Question(14))) else (m.(step := 10), Ask(Question(10)))
  }

  /** Steps 14 to 17: name, description and technologies of a project, and the last gate.
      The closing step (and anything past it) has no branch: the handler falls through to
      `questions[step + 1]`, which is past the end of the list. */
  function HandleProjects(m: Machine, a: string): (r: (Machine, Reply))
    requires 14 <= m.step
    ensures r.1 == IndexError <==> m.step >= LastStep
    ensures r.1 == Ask(ProjectNameFirst) <==> (m.step == 15 || m.step == 16) && m.data.projects == []
    ensures Refusal(r.1) ==> r.0 == m
    ensures !Refusal(r.1) ==> r.0.step == NextStep(m.step, a) && r.1 == Ask(Question(r.0.step))
  {
    var d := m.data;
    if m.step == 14 then
      (Machine(15, d.(projects := d.projects + [Project(a, None, None, None)])), Ask(Question(15)))
    else if m.step == 15 then
      if d.projects == [] then (m, Ask(ProjectNameFirst))
      else (Machine(16, d.(projects := WithLast(d.projects, Last(d.projects).(description := Some(a))))),
            Ask(Question(16)))
    else if m.step == 16 then
      if d.projects == [] then (m, Ask(ProjectNameFirst))
      else (Machine(17, d.(projects := WithLast(d.projects, Last(d.projects).(technologies := Some(Split(a, ", ")))))),
            Ask(Question(17)))
    else if m.step == 17 then
      if a == "no" then (m.(step := 18), Ask(Question(18))) else (m.(step := 14), Ask(Question(14)))
    else
      (m, IndexError)
  }

  /** The machine after answering `inputs` in order. */
  function Run(m: Machine, inputs: seq<Option<string>>, suggest: string -> string): Machine
    decreases |inputs|
  {
    if inputs == [] then m else Run(Transition(m, inputs[0], suggest).0, inputs[1..], suggest)
  }

  // ---------------------------------------------------------------------------
  // The step table, stated on its own

  /** The step that follows `step` on a non-empty answer `a`, as the questionnaire lays it
      out: the five yes/no gates branch, every other step moves to the next one. */
  function NextStep(step: nat, a: string): nat {
    if step == 5 then (if a == "no" then 6 else 2)
    else if step == 8 then (if a == "yes" then 6 else 9)
    else if step == 9 then (if a == "yes" then 10 else 14)
    else if step == 13 then (if a == "no" then 14 else 10)
    else if step == 17 then (if a == "no" then 18 else 14)
    else step + 1
  }

  /** The reachable-state invariant: the step is in range and every step that fills in the
      last entry of a list has an entry to fill. */
  predicate Invariant(m: Machine) {
    && m.step <= LastStep
    && (m.step == 3 || m.step == 4 ==> m.data.education != [])
    && (m.step == 7 ==> m.data.skills != [])
    && (m.step == 11 || m.step == 12 ==> m.data.certifications != [])
    && (m.step == 15 || m.step == 16 ==> m.data.projects != [])
  }

  /** No upper-case letter in `s`. */
  predicate NoUpper(s: string) {
    forall i :: 0 <= i < |s| ==> !IsUpper(s[i])
  }

  predicate AllNoUpper(xs: seq<string>) {
    forall i :: 0 <= i < |xs| ==> NoUpper(xs[i])
  }

  predicate NoUpperOpt(o: Option<string>) {
    o.Some? ==> NoUpper(o.value)
  }

  predicate EducationLowercased(e: Education) {
    NoUpperOpt(e.course) && NoUpperOpt(e.college) && NoUpperOpt(e.year)
  }

  predicate SkillLowercased(s: Skill) {
    NoUpper(s.mainskill) && (s.subskills.Some? ==> AllNoUpper(s.subskills.value))
  }

  predicate CertificationLowercased(c: Certification) {
    NoUpper(c.name) && NoUpperOpt(c.id) && NoUpperOpt(c.source)
  }

  predicate ProjectLowercased(p: Project) {
    NoUpper(p.name) && NoUpperOpt(p.description) && (p.technologies.Some? ==> AllNoUpper(p.technologies.value))
  }

  /** Every entry of `xs` satisfies `p`. */
  predicate All<T>(xs: seq<T>, p: T -> bool) {
    forall i :: 0 <= i < |xs| ==> p(xs[i])
  }

  lemma {:induction false} AllAppend<T>(xs: seq<T>, x: T, p: T -> bool)
    requires All(xs, p) && p(x)
    ensures All(xs + [x], p)
  {
  }

  lemma {:induction false} AllWithLast<T>(xs: seq<T>, x: T, p: T -> bool)
    requires xs != [] && All(xs, p) && p(x)
    ensures All(WithLast(xs, x), p)
  {
  }

  /** Every text the conversation writes into the record is lower-case. */
  predicate Lowercased(d: Record) {
    && NoUpper(d.name) && NoUpper(d.email)
    && All(d.education, EducationLowercased)
    && All(d.skills, SkillLowercased)
    && All(d.certifications, CertificationLowercased)
    && All(d.projects, ProjectLowercased)
  }

  /** `ys` is `xs` with its last entry replaced by `x`, and nothing else changed. */
  ghost predicate LastReplaced<T>(xs: seq<T>, ys: seq<T>, x: T) {
    xs != [] && |ys| == |xs| && ys[..|ys| - 1] == xs[..|xs| - 1] && ys[|ys| - 1] == x
  }

  // ---------------------------------------------------------------------------
  // Properties of one call

  /** A blank answer is refused with the same prompt and changes nothing; no other answer
      gets that reply. */
  lemma {:induction false} BlankAnswerRefused(m: Machine, message: Option<string>, suggest: string -> string)
    ensures Answer(message) == "" ==> Transition(m, message, suggest) == (m, Ask(InvalidResponse))
    ensures Answer(message) != "" ==> Transition(m, message, suggest).1 != Ask(InvalidResponse)
  {
  }

  /** From a reachable state, an accepted answer moves the step exactly as the table says. */
  lemma {:induction false} StepFollowsTable(m: Machine, message: Option<string>, suggest: string -> string)
    requires Invariant(m) && m.step < LastStep && Answer(message) != ""
    ensures Transition(m, message, suggest).0.step == NextStep(m.step, Answer(message))
  {
  }

  /** After an accepted answer the machine asks the question of the step it moved to; the
      exceptions are step 6, which adds the suggestions, and a "yes" at step 8, which asks
      for another main skill in its own words. */
  lemma {:induction false} ReplyAsksNextQuestion(m: Machine, message: Option<string>, suggest: string -> string)
    requires Invariant(m) && m.step < LastStep && Answer(message) != ""
    ensures var (m', r) := Transition(m, message, suggest);
      var a := Answer(message);
      && (m.step == 8 && a == "yes" ==> r == Ask(AnotherMainSkill))
      && (m.step == 6 ==> r.AskWithSubskills? && r.prompt == Question(7))
      && (m.step != 6 && !(m.step == 8 && a == "yes") ==> r == Ask(Question(m'.step)))
  {
  }

  /** The four "name" steps each append exactly one entry holding the answer, and leave
      the rest of the record alone. */
  lemma {:induction false} CreateStepsAppendOne(m: Machine, message: Option<string>, suggest: string -> string)
    requires Answer(message) != ""
    ensures var a, d, d' := Answer(message), m.data, Transition(m, message, suggest).0.data;
      && (m.step == 2 ==> d'.education == d.education + [Education(Some(a), None, None)] && d'.(education := d.education) == d)
      && (m.step == 6 ==> d'.skills == d.skills + [Skill(a, None)] && d'.(skills := d.skills) == d)
      && (m.step == 10 ==> d'.certifications == d.certifications + [Certification(a, None, None)]
                           && d'.(certifications := d.certifications) == d)
      && (m.step == 14 ==> d'.projects == d.projects + [Project(a, None, None, None)] && d'.(projects := d.projects) == d)
  {
    var a := Answer(message);
    assert Transition(m, message, suggest) == Handle(m, a, suggest);
    if m.step == 2 {
    } else if m.step == 6 {
    } else if m.step == 10 {
    } else if m.step == 14 {
    }
  }

  /** The fill steps change one field of the last entry of one list and nothing else. */
  lemma {:induction false} FillStepsChangeLastEntry(m: Machine, message: Option<string>, suggest: string -> string)
    requires Invariant(m) && Answer(message) != ""
    ensures var a, d, d' := Answer(message), m.data, Transition(m, message, suggest).0.data;
      && (m.step == 3 ==> d'.(education := d.education) == d
                          && LastReplaced(d.education, d'.education, Last(d.education).(college := Some(a))))
      && (m.step == 4 ==> d'.(education := d.education) == d
                          && LastReplaced(d.education, d'.education, Last(d.education).(year := Some(a))))
      && (m.step == 7 ==> d'.(skills := d.skills) == d
                          && LastReplaced(d.skills, d'.skills, Last(d.skills).(subskills := Some(Split(a, ",")))))
      && (m.step == 11 ==> d'.(certifications := d.certifications) == d
                           && LastReplaced(d.certifications, d'.certifications, Last(d.certifications).(id := Some(a))))
      && (m.step == 12 ==> d'.(certifications := d.certifications) == d
                           && LastReplaced(d.certifications, d'.certifications, Last(d.certifications).(source := Some(a))))
      && (m.step == 15 ==> d'.(projects := d.projects) == d
                           && LastReplaced(d.projects, d'.projects, Last(d.projects).(description := Some(a))))
      && (m.step == 16 ==> d'.(projects := d.projects) == d
                           && LastReplaced(d.projects, d'.projects,
                                           Last(d.projects).(technologies := Some(Split(a, ", ")))))
  {
    var a := Answer(message);
    assert Transition(m, message, suggest) == Handle(m, a, suggest);
    if m.step == 3 || m.step == 4 {
      DetailsFillLast(m, a);
    } else if m.step == 7 {
      SkillsFillLast(m, a, suggest);
    } else if m.step == 11 || m.step == 12 {
      CertificationsFillLast(m, a);
    } else if m.step == 15 || m.step == 16 {
      ProjectsFillLast(m, a);
    }
  }

  lemma {:induction false} DetailsFillLast(m: Machine, a: string)
    requires (m.step == 3 || m.step == 4) && m.data.education != []
    ensures var d, d' := m.data, HandleDetails(m, a).0.data;
      var e := Last(d.education);
      && d'.(education := d.education) == d
      && LastReplaced(d.education, d'.education, if m.step == 3 then e.(college := Some(a)) else e.(year := Some(a)))
  {
  }

  lemma {:induction false} SkillsFillLast(m: Machine, a: string, suggest: string -> string)
    requires m.step == 7 && m.data.skills != []
    ensures var d, d' := m.data, HandleSkills(m, a, suggest).0.data;
      && d'.(skills := d.skills) == d
      && LastReplaced(d.skills, d'.skills, Last(d.skills).(subskills := Some(Split(a, ","))))
  {
  }

  lemma {:induction false} CertificationsFillLast(m: Machine, a: string)
    requires (m.step == 11 || m.step == 12) && m.data.certifications != []
    ensures var d, d' := m.data, HandleCertifications(m, a).0.data;
      var c := Last(d.certifications);
      && d'.(certifications := d.certifications) == d
      && LastReplaced(d.certifications, d'.certifications, if m.step == 11 then c.(id := Some(a)) else c.(source := Some(a)))
  {
  }

  lemma {:induction false} ProjectsFillLast(m: Machine, a: string)
    requires (m.step == 15 || m.step == 16) && m.data.projects != []
    ensures var d, d' := m.data, HandleProjects(m, a).0.data;
      var p := Last(d.projects);
      && d'.(projects := d.projects) == d
      && LastReplaced(d.projects, d'.projects,
                      if m.step == 15 then p.(description := Some(a)) else p.(technologies := Some(Split(a, ", "))))
  {
  }

  /** Steps 0 and 1 set the name and the e-mail; the yes/no gates leave the record alone. */
  lemma {:induction false} OtherStepsRecord(m: Machine, message: Option<string>, suggest: string -> string)
    requires Answer(message) != ""
    ensures var a, d, d' := Answer(message), m.data, Transition(m, message, suggest).0.data;
      && (m.step == 0 ==> d' == d.(name := a))
      && (m.step == 1 ==> d' == d.(email := a))
      && (m.step in {5, 8, 9, 13, 17} ==> d' == d)
  {
  }

  /** Splitting: the suggestions are the trimmed service reply split on ", "; the selected
      sub-skills are the answer split on ","; the technologies are the answer split on ", ".
      Each split joins back to the text it came from. */
  lemma {:induction false} AnswersAreSplit(m: Machine, message: Option<string>, suggest: string -> string)
    requires Invariant(m) && Answer(message) != ""
    ensures var a, (m', r) := Answer(message), Transition(m, message, suggest);
      && (r.AskWithSubskills? <==> m.step == 6)
      && (m.step == 6 ==> r.subskills == Split(Strip(suggest(a)), ", ")
                          && Join(r.subskills, ", ") == Strip(suggest(a)))
      && (m.step == 7 ==> Last(m'.data.skills).subskills == Some(Split(a, ","))
                          && Join(Split(a, ","), ",") == a)
      && (m.step == 16 ==> Last(m'.data.projects).technologies == Some(Split(a, ", "))
                           && Join(Split(a, ", "), ", ") == a)
  {
    var a := Answer(message);
    assert Transition(m, message, suggest) == Handle(m, a, suggest);
    if m.step == 6 {
      JoinSplit(Strip(suggest(a)), ", ");
    } else if m.step == 7 {
      JoinSplit(a, ",");
    } else if m.step == 16 {
      JoinSplit(a, ", ");
    }
  }

  /** The guards of steps 11, 12, 15 and 16: with no entry to fill, the machine answers
      with the fixed error text and changes nothing. */
  lemma {:induction false} GuardsRefuseOutOfOrderFill(m: Machine, message: Option<string>, suggest: string -> string)
    requires Answer(message) != ""
    ensures (m.step == 11 || m.step == 12) && m.data.certifications == [] ==>
      Transition(m, message, suggest) == (m, Ask(CertificateNameFirst))
    ensures (m.step == 15 || m.step == 16) && m.data.projects == [] ==>
      Transition(m, message, suggest) == (m, Ask(ProjectNameFirst))
  {
  }

  /** An accepted answer at the closing step, or past it, fails like the handler's lookup
      of `questions[19]`, and changes nothing. */
  lemma {:induction false} ClosingStepFaults(m: Machine, message: Option<string>, suggest: string -> string)
    requires m.step >= LastStep && Answer(message) != ""
    ensures Transition(m, message, suggest) == (m, IndexError)
  {
  }

  // ---------------------------------------------------------------------------
  // Reachable states

  /** One call keeps the invariant. */
  lemma {:induction false} TransitionKeepsInvariant(m: Machine, message: Option<string>, suggest: string -> string)
    requires Invariant(m)
    ensures Invariant(Transition(m, message, suggest).0)
  {
    var a := Answer(message);
    if a != "" {
      assert Transition(m, message, suggest) == Handle(m, a, suggest);
      if m.step <= 4 {
        DetailsKeepInvariant(m, a);
      } else if m.step <= 8 {
        SkillsKeepInvariant(m, a, suggest);
      } else if m.step <= 13 {
        CertificationsKeepInvariant(m, a);
      } else {
        ProjectsKeepInvariant(m, a);
      }
    }
  }

  lemma {:induction false} DetailsKeepInvariant(m: Machine, a: string)
    requires m.step <= 4 && Invariant(m)
    ensures Invariant(HandleDetails(m, a).0)
  {
    if m.step == 0 {
    } else if m.step == 1 {
    } else if m.step == 2 {
    } else if m.step == 3 {
    } else {
    }
  }

  lemma {:induction false} SkillsKeepInvariant(m: Machine, a: string, suggest: string -> string)
    requires 5 <= m.step <= 8 && Invariant(m)
    ensures Invariant(HandleSkills(m, a, suggest).0)
  {
    if m.step == 5 {
    } else if m.step == 6 {
    } else if m.step == 7 {
    } else {
    }
  }

  lemma {:induction false} CertificationsKeepInvariant(m: Machine, a: string)
    requires 9 <= m.step <= 13 && Invariant(m)
    ensures Invariant(HandleCertifications(m, a).0)
  {
    if m.step == 9 {
    } else if m.step == 10 {
    } else if m.step == 11 {
    } else if m.step == 12 {
    } else {
    }
  }

  lemma {:induction false} ProjectsKeepInvariant(m: Machine, a: string)
    requires 14 <= m.step && Invariant(m)
    ensures Invariant(HandleProjects(m, a).0)
  {
    if m.step == 14 {
    } else if m.step == 15 {
    } else if m.step == 16 {
    } else if m.step == 17 {
    } else {
    }
  }

  /** In a state that satisfies the invariant and is not the closing step, no call reads
      past the end of a list and no guard fires. */
  lemma {:induction false} InvariantRulesOutFaults(m: Machine, message: Option<string>, suggest: string -> string)
    requires Invariant(m) && m.step < LastStep
    ensures !Refusal(Transition(m, message, suggest).1)
  {
    assert !Refuses(m);
  }

  /** Every piece of a split of a lower-case text is lower-case. */
  lemma {:induction false} SplitNoUpper(s: string, sep: string)
    requires |sep| > 0 && NoUpper(s)
    ensures AllNoUpper(Split(s, sep))
  {
    var parts := Split(s, sep);
    JoinSplit(s, sep);
    forall i | 0 <= i < |parts| ensures NoUpper(parts[i]) {
      forall j | 0 <= j < |parts[i]| ensures !IsUpper(parts[i][j]) {
        JoinContains(parts, sep, i, j);
      }
    }
  }

  /** Every character of a part occurs in the joined text. */
  lemma {:induction false} JoinContains(parts: seq<string>, sep: string, i: nat, j: nat)
    requires i < |parts| && j < |parts[i]|
    ensures parts[i][j] in Join(parts, sep)
  {
    if |parts| > 1 {
      if i == 0 {
        assert Join(parts, sep) == parts[0] + (sep + Join(parts[1..], sep));
      } else {
        JoinContains(parts[1..], sep, i - 1, j);
        assert Join(parts, sep) == (parts[0] + sep) + Join(parts[1..], sep);
      }
    }
  }

  /** One call keeps every stored text lower-case. */
  lemma {:induction false} TransitionKeepsLowercased(m: Machine, message: Option<string>, suggest: string -> string)
    requires Lowercased(m.data)
    ensures Lowercased(Transition(m, message, suggest).0.data)
  {
    var a := Answer(message);
    if a != "" {
      assert NoUpper(a);
      assert Transition(m, message, suggest) == Handle(m, a, suggest);
      if m.step <= 4 {
        DetailsKeepLowercased(m, a);
      } else if m.step <= 8 {
        SkillsKeepLowercased(m, a, suggest);
      } else if m.step <= 13 {
        CertificationsKeepLowercased(m, a);
      } else {
        ProjectsKeepLowercased(m, a);
      }
    }
  }

  lemma {:induction false} DetailsKeepLowercased(m: Machine, a: string)
    requires m.step <= 4 && Lowercased(m.data) && NoUpper(a)
    ensures Lowercased(HandleDetails(m, a).0.data)
  {
    var d := m.data;
    if m.step == 2 {
      AllAppend(d.education, Education(Some(a), None, None), EducationLowercased);
    } else if (m.step == 3 || m.step == 4) && d.education != [] {
      var e := Last(d.education);
      assert EducationLowercased(e);
      if m.step == 3 {
        AllWithLast(d.education, e.(college := Some(a)), EducationLowercased);
      } else {
        AllWithLast(d.education, e.(year := Some(a)), EducationLowercased);
      }
    }
  }

  lemma {:induction false} SkillsKeepLowercased(m: Machine, a: string, suggest: string -> string)
    requires 5 <= m.step <= 8 && Lowercased(m.data) && NoUpper(a)
    ensures Lowercased(HandleSkills(m, a, suggest).0.data)
  {
    var d := m.data;
    if m.step == 6 {
      AllAppend(d.skills, Skill(a, None), SkillLowercased);
    } else if m.step == 7 && d.skills != [] {
      SplitNoUpper(a, ",");
      var s := Last(d.skills);
      assert SkillLowercased(s);
      AllWithLast(d.skills, s.(subskills := Some(Split(a, ","))), SkillLowercased);
    }
  }

  lemma {:induction false} CertificationsKeepLowercased(m: Machine, a: string)
    requires 9 <= m.step <= 13 && Lowercased(m.data) && NoUpper(a)
    ensures Lowercased(HandleCertifications(m, a).0.data)
  {
    var d := m.data;
    if m.step == 10 {
      AllAppend(d.certifications, Certification(a, None, None), CertificationLowercased);
    } else if (m.step == 11 || m.step == 12) && d.certifications != [] {
      var c := Last(d.certifications);
      assert CertificationLowercased(c);
      if m.step == 11 {
        AllWithLast(d.certifications, c.(id := Some(a)), CertificationLowercased);
      } else {
        AllWithLast(d.certifications, c.(source := Some(a)), CertificationLowercased);
      }
    }
  }

  lemma {:induction false} ProjectsKeepLowercased(m: Machine, a: string)
    requires 14 <= m.step && Lowercased(m.data) && NoUpper(a)
    ensures Lowercased(HandleProjects(m, a).0.data)
  {
    var d := m.data;
    if m.step == 14 {
      AllAppend(d.projects, Project(a, None, None, None), ProjectLowercased);
    } else if (m.step == 15 || m.step == 16) && d.projects != [] {
      var p := Last(d.projects);
      assert ProjectLowercased(p);
      if m.step == 15 {
        AllWithLast(d.projects, p.(description := Some(a)), ProjectLowercased);
      } else {
        SplitNoUpper(a, ", ");
        AllWithLast(d.projects, p.(technologies := Some(Split(a, ", "))), ProjectLowercased);
      }
    }
  }

  /** Every state reached from the initial state by any answers satisfies the invariant and
      holds only lower-case text. */
  lemma {:induction false} RunKeepsInvariants(m: Machine, inputs: seq<Option<string>>, suggest: string -> string)
    requires Invariant(m) && Lowercased(m.data)
    ensures Invariant(Run(m, inputs, suggest)) && Lowercased(Run(m, inputs, suggest).data)
    decreases |inputs|
  {
    if inputs != [] {
      TransitionKeepsInvariant(m, inputs[0], suggest);
      TransitionKeepsLowercased(m, inputs[0], suggest);
      RunKeepsInvariants(Transition(m, inputs[0], suggest).0, inputs[1..], suggest);
    }
  }

  lemma {:induction false} ReachableStates(inputs: seq<Option<string>>, suggest: string -> string)
    ensures Invariant(Run(Initial, inputs, suggest)) && Lowercased(Run(Initial, inputs, suggest).data)
  {
    RunKeepsInvariants(Initial, inputs, suggest);
  }

  // ---------------------------------------------------------------------------
  // The session object

  /** The per-user session: the step counter and the data record, updated in place by
      each call of the handler. */
  class ChatSession {
    var step: nat
    var data: Record

    function State(): Machine
      reads this
    {
      Machine(step, data)
    }

    /** A fresh session, as the index page sets it up. */
    constructor ()
      ensures State() == Initial
    {
      step := 0;
      data := EmptyRecord;
    }

    /** Clears the session back to the initial state (the index page again). */
    method Reset()
      modifies this
      ensures State() == Initial
    {
      step := 0;
      data := EmptyRecord;
    }

    /** Handles one message. The new state and the reply are those of `Transition`, so the
        session keeps the reachable-state invariant and only ever stores lower-case text. */
    method Advance(message: Option<string>, suggest: string -> string) returns (reply: Reply)
      modifies this
      ensures State() == Transition(old(State()), message, suggest).0
      ensures reply == Transition(old(State()), message, suggest).1
      ensures old(Invariant(State())) ==> Invariant(State())
      ensures old(Lowercased(data)) ==> Lowercased(data)
    {
      ghost var before := State();
      var raw := if message.Some? then message.value else "";
      raw := Strip(raw);
      var answer := Lower(raw);
      assert answer == Answer(message);
      if answer == "" {
        reply := Ask(InvalidResponse);
      } else if step <= 4 {
        reply := AnswerDetails(answer);
      } else if step <= 8 {
        reply := AnswerSkills(answer, suggest);
      } else if step <= 13 {
        reply := AnswerCertifications(answer);
      } else {
        reply := AnswerProjects(answer);
      }
      assert (State(), reply) == Transition(before, message, suggest);
      if Invariant(before) {
        TransitionKeepsInvariant(before, message, suggest);
      }
      if Lowercased(before.data) {
        TransitionKeepsLowercased(before, message, suggest);
      }
    }

    /** Steps 0 to 4 store the answer and fall through to the next question. */
    method AnswerDetails(answer: string) returns (reply: Reply)
      requires step <= 4
      modifies this
      ensures (State(), reply) == HandleDetails(old(State()), answer)
    {
      if step == 0 {
        data := data.(name := answer);
      } else if step == 1 {
        data := data.(email := answer);
      } else if step == 2 {
        data := data.(education := data.education + [Education(Some(answer), None, None)]);
      } else if step == 3 {
        if data.education == [] {
          return IndexError;
        }
        var last := data.education[|data.education| - 1];
        data := data.(education := data.education[|data.education| - 1 := last.(college := Some(answer))]);
      } else {
        if data.education == [] {
          return IndexError;
        }
        var last := data.education[|data.education| - 1];
        data := data.(education := data.education[|data.education| - 1 := last.(year := Some(answer))]);
      }
      step := step + 1;
      reply := Ask(Question(step));
    }

    /** Steps 5 to 8. Step 6 asks `suggest` for related sub-skills and splits its reply. */
    method AnswerSkills(answer: string, suggest: string -> string) returns (reply: Reply)
      requires 5 <= step <= 8
      modifies this
      ensures (State(), reply) == HandleSkills(old(State()), answer, suggest)
    {
      if step == 5 {
        if answer == "no" {
          step := 6;
          return Ask(Question(6));
        } else {
          step := 2;
          return Ask(Question(2));
        }
      } else if step == 6 {
        data := data.(skills := data.skills + [Skill(answer, None)]);
        var subskillsRaw := Strip(suggest(answer));
        var subskills := Split(subskillsRaw, ", ");
        step := 7;
        return AskWithSubskills(Question(7), subskills);
      } else if step == 7 {
        if data.skills == [] {
          return IndexError;
        }
        var last := data.skills[|data.skills| - 1];
        data := data.(skills := data.skills[|data.skills| - 1 := last.(subskills := Some(Split(answer, ",")))]);
        step := 8;
        return Ask(Question(8));
      } else {
        if answer == "yes" {
          step := 6;
          return Ask(AnotherMainSkill);
        } else {
          step := 9;
          return Ask(Question(9));
        }
      }
    }

    /** Steps 9 to 13. Steps 11 and 12 refuse to run before a certificate name exists. */
    method AnswerCertifications(answer: string) returns (reply: Reply)
      requires 9 <= step <= 13
      modifies this
      ensures (State(), reply) == HandleCertifications(old(State()), answer)
    {
      if step == 9 {
        if answer == "yes" {
          step := 10;
          return Ask(Question(10));
        } else {
          step := 14;
          return Ask(Question(14));
        }
      } else if step == 10 {
        data := data.(certifications := data.certifications + [Certification(answer, None, None)]);
        step := 11;
        return Ask(Question(11));
      } else if step == 11 {
        if data.certifications == [] {
          return Ask(CertificateNameFirst);
        }
        var last := data.certifications[|data.certifications| - 1];
        data := data.(certifications := data.certifications[|data.certifications| - 1 := last.(id := Some(answer))]);
        step := 12;
        return Ask(Question(12));
      } else if step == 12 {
        if data.certifications == [] {
          return Ask(CertificateNameFirst);
        }
        var last := data.certifications[|data.certifications| - 1];
        data := data.(certifications := data.certifications[|data.certifications| - 1 := last.(source := Some(answer))]);
        step := 13;
        return Ask(Question(13));
      } else {
        if answer == "no" {
          step := 14;
          return Ask(Question(14));
        } else {
          step := 10;
          return Ask(Question(10));
        }
      }
    }

    /** Steps 14 to 17. Past step 17 the handler falls through to a question that does not
        exist; the failed request leaves the session as it was. */
    method AnswerProjects(answer: string) returns (reply: Reply)
      requires 14 <= step
      modifies this
      ensures (State(), reply) == HandleProjects(old(State()), answer)
    {
      if step == 14 {
        data := data.(projects := data.projects + [Project(answer, None, None, None)]);
        step := 15;
        return Ask(Question(15));
      } else if step == 15 {
        if data.projects == [] {
          return Ask(ProjectNameFirst);
        }
        var last := data.projects[|data.projects| - 1];
        data := data.(projects := data.projects[|data.projects| - 1 := last.(description := Some(answer))]);
        step := 16;
        return Ask(Question(16));
      } else if step == 16 {
        if data.projects == [] {
          return Ask(ProjectNameFirst);
        }
        var last := data.projects[|data.projects| - 1];
        data := data.(projects := data.projects[|data.projects| - 1 := last.(technologies := Some(Split(answer, ", ")))]);
        step := 17;
        return Ask(Question(17));
      } else if step == 17 {
        if answer == "no" {
          step := 18;
          return Ask(Question(18));
        } else {
          step := 14;
          return Ask(Question(14));
        }
      } else {
        // the fall-through asks for `questions[step + 1]`, which does not exist
        return IndexError;
      }
    }
  }
}
