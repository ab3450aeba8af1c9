/**
 * The resume record that the conversation builds and the renderers read.
 * A dictionary key that the conversation has not written yet is `None`; every renderer
 * reads such a key with the empty default, so `None` and `Some("")` render alike.
 */
module Resume {
  import opened Wrappers

  datatype Education = Education(course: Option<string>, college: Option<string>, year: Option<string>)

  datatype Skill = Skill(mainskill: string, subskills: Option<seq<string>>)

  datatype Certification = Certification(name: string, id: Option<string>, source: Option<string>)

  /** `repository` is never written by the conversation; only the renderers read it. */
  datatype Project = Project(
    name: string,
    description: Option<string>,
    technologies: Option<seq<string>>,
    repository: Option<string>)

  /** The session's `data` dictionary. `phone` to `professionalSummary` are optional
      enrichment keys that only the renderers read. */
  datatype Record = Record(
    name: string,
    email: string,
    education: seq<Education>,
    skills: seq<Skill>,
    certifications: seq<Certification>,
    projects: seq<Project>,
    phone: Option<string>,
    linkedin: Option<string>,
    github: Option<string>,
    location: Option<string>,
    professionalSummary: Option<string>)

  /** The record the session starts with: empty name and email, four empty lists. */
  const EmptyRecord: Record := Record("", "", [], [], [], [], None, None, None, None, None)

  /** `d.get(key, "")` for a key holding text. */
  function OrEmpty(o: Option<string>): string {
    o.GetOr("")
  }

  /** `d.get(key) or []` for a key holding a list. */
  function OrNone(o: Option<seq<string>>): seq<string> {
    o.GetOr([])
  }
}
