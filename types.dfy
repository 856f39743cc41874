/** The records the application passes between its views and its AI service. */
module Types {

  datatype Option<+T> = None | Some(value: T)

  /** The three interface languages the user can pick. */
  datatype AppLanguage = English | Hinglish | Hindi

  /** Who spoke a turn of the interview. */
  datatype Role = User | Model

  /** One turn of the interview transcript. */
  datatype Message = Message(role: Role, text: string)

  datatype ExperienceItem = ExperienceItem(
    id: string,
    role: string,
    company: string,
    duration: string,
    description: string)

  datatype EducationItem = EducationItem(
    id: string,
    degree: string,
    school: string,
    year: string)

  /** The resume document the editor shows and prints. */
  datatype ResumeData = ResumeData(
    fullName: string,
    email: string,
    phone: string,
    summary: string,
    skills: seq<string>,
    experience: seq<ExperienceItem>,
    education: seq<EducationItem>)

  /** One career recommendation of the report (its match score is only displayed and is not modelled). */
  datatype CareerSuggestion = CareerSuggestion(
    title: string,
    reasoning: string,
    roadmap: seq<string>,
    keySkills: seq<string>,
    videoSearchQueries: seq<string>)

  /** A link found through search grounding. */
  datatype LearningResource = LearningResource(
    title: string,
    url: string,
    source: string,
    description: Option<string>)

  /** The name JavaScript interpolates for a language value. */
  function LanguageName(language: AppLanguage): string {
    match language
    case English => "English"
    case Hinglish => "Hinglish"
    case Hindi => "Hindi"
  }

  /** JavaScript truthiness of an optional string: present and not empty. */
  predicate Truthy(s: Option<string>) {
    s.Some? && s.value != ""
  }
}
