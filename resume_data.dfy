/**
 * The structured resume data the renderers consume. In the application these
 * are JSON-shaped dictionaries: every key may be absent, so every field is an
 * `Option`. Renderers read some keys with `.get` (a default when absent) and
 * others by subscript (a KeyError when absent); each renderer says which.
 */
module ResumeData {
  import opened Wrappers

  /** Python truthiness of an optional string: present and non-empty. */
  predicate Truthy(s: Option<string>) {
    s.Some? && s.value != ""
  }

  datatype Header = Header(
    name: Option<string>,
    email: Option<string>,
    phone: Option<string>,
    linkedin: Option<string>,
    github: Option<string>,
    website: Option<string>)

  /** The `{}` default for a missing header. */
  const EmptyHeader: Header := Header(None, None, None, None, None, None)

  datatype SkillGroup = SkillGroup(category: Option<string>, details: Option<string>)

  /** A titled sub-entry of a job; an empty title stands for plain bullet points. */
  datatype Application = Application(title: Option<string>, details: Option<seq<string>>)

  datatype Job = Job(
    position: Option<string>,
    dateRange: Option<string>,
    company: Option<string>,
    location: Option<string>,
    extraLine: Option<string>,
    bulletPoints: Option<seq<string>>,
    applications: Option<seq<Application>>)

  datatype Certificate = Certificate(name: Option<string>, date: Option<string>)

  datatype Specialization = Specialization(
    institution: Option<string>,
    location: Option<string>,
    specialization: Option<string>,
    date: Option<string>)

  datatype Degree = Degree(
    university: Option<string>,
    location: Option<string>,
    date: Option<string>,
    degree: Option<string>)

  datatype Education = Education(
    certificates: Option<seq<Certificate>>,
    specializations: Option<seq<Specialization>>,
    degrees: Option<seq<Degree>>)

  /** The `{}` default for a missing education block. */
  const EmptyEducation: Education := Education(None, None, None)

  datatype Resume = Resume(
    header: Option<Header>,
    summary: Option<string>,
    skills: Option<seq<SkillGroup>>,
    experience: Option<seq<Job>>,
    education: Option<Education>)
}
