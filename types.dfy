/** The records of Go/main.go: the resume as decoded from its YAML document
    (lines 16-74) and the flat record handed to the HTML template (lines 80-101).
    Field names follow the Go structs, because the template refers to them. */
module ResumeTypes {

  /** A month and a year, both kept as the strings the document holds ("Jan", "2020", "-"). */
  datatype MonthYear = MonthYear(Month: string, Year: string)

  datatype Period = Period(From: MonthYear, To: MonthYear)

  datatype Contact = Contact(
    Location: string,
    Phone: string,
    Email: string,
    Website: string,
    LinkedIn: string)

  datatype EducationEntry = EducationEntry(
    Institution: string,
    Location: string,
    Degree: string,
    Year: int,
    Highlights: seq<string>)

  datatype Skills = Skills(
    Platform: seq<string>,
    Deployment: seq<string>,
    Programming: seq<string>,
    Observability: seq<string>,
    CICD: seq<string>,
    Services: seq<string>)

  datatype ExperienceEntry = ExperienceEntry(
    Company: string,
    Location: string,
    Title: string,
    Period: Period,
    Achievements: seq<string>)

  datatype InterestEntry = InterestEntry(Title: string, Description: string)

  /** The root of the decoded document. */
  datatype Resume = Resume(
    Name: string,
    Contact: Contact,
    Profile: string,
    Education: seq<EducationEntry>,
    Skills: Skills,
    Experience: seq<ExperienceEntry>,
    Interests: seq<InterestEntry>,
    References: string,
    LastUpdated: string)

  /** One experience block as the template shows it. */
  datatype TemplateExperience = TemplateExperience(
    Role: string,
    Company: string,
    Period: string,
    Bullets: seq<string>,
    Link: string)

  /** One (label, URL) social link as the template shows it. */
  datatype TemplateSocial = TemplateSocial(Name: string, URL: string)

  /** The whole record substituted into the template. */
  datatype TemplateData = TemplateData(
    Name: string,
    Title: string,
    Summary: string,
    Email: string,
    Experience: seq<TemplateExperience>,
    Social: seq<TemplateSocial>,
    Year: int)
}
