/** The resume-data snapshot that the form edits, the preview renders and the
    ATS checker scores. Optional properties of the TypeScript record
    (`gpa?`, `link?`, `extraCurricular?`) are `Option` values. */
module ResumeData {

  datatype Option<T> = None | Some(value: T)

  datatype PersonalInfo = PersonalInfo(
    fullName: string,
    email: string,
    phone: string,
    location: string,
    linkedin: string,
    website: string)

  datatype Experience = Experience(
    id: string,
    company: string,
    position: string,
    location: string,
    startDate: string,
    endDate: string,
    current: bool,
    description: string)

  datatype Education = Education(
    id: string,
    institution: string,
    degree: string,
    field: string,
    graduationDate: string,
    gpa: Option<string>)

  datatype SkillCategory = SkillCategory(
    id: string,
    category: string,
    items: seq<string>)

  datatype Project = Project(
    id: string,
    name: string,
    description: string,
    technologies: seq<string>,
    link: Option<string>)

  datatype Certification = Certification(
    id: string,
    name: string,
    issuer: string,
    date: string,
    link: Option<string>)

  datatype Activity = Activity(
    id: string,
    title: string,
    organization: string,
    description: string,
    startDate: string,
    endDate: string,
    current: bool)

  datatype Resume = Resume(
    personalInfo: PersonalInfo,
    summary: string,
    experience: seq<Experience>,
    education: seq<Education>,
    skills: seq<SkillCategory>,
    projects: seq<Project>,
    certifications: seq<Certification>,
    extraCurricular: Option<seq<Activity>>)

  /** The snapshot the page starts from: every text empty, every list empty. */
  const EmptyPersonalInfo := PersonalInfo("", "", "", "", "", "")
  const InitialResume := Resume(EmptyPersonalInfo, "", [], [], [], [], [], Some([]))
}
