# Resume shaper

A model of the one piece of logic in the resume site generator `Go/main.go`: the
step inside `main` that turns the decoded resume document (`Resume`, with its
contact block, education, skills, experience, interests, references and
last-updated date) into the flat `TemplateData` record that the HTML template is
rendered with (name, headline, summary, e-mail, one block per job with a
ready-made period string, two social links, and the current year).

- `types.dfy`, module `ResumeTypes`: the Go structs of lines 16-101 as datatypes,
  with the Go field names (the template refers to them).
- `shaper.dfy`, module `Shaper`: the mapping. `Shape` is the specification as a
  function; `ShapeResume` is the mapping as the source runs it: the struct
  literal of lines 131-141, then a loop that appends one template entry per
  experience entry (lines 144-154). The loop invariant is that the entries built so
  far are the mapped first k input entries. The lemmas state what the mapping
  promises.
- `text.dfy`, module `Text`: splitting a string at a separator character, used to
  state that the period string can be taken apart again into the five words it
  was made from.

The model follows the code:
- The period is always `From.Month + " " + From.Year + " to " + To.Month + " " + To.Year`.
  An end date of `"-"` is printed as `"-"`. It never becomes "Present".
- The social links are always the two entries LinkedIn and Website, in that
  order. URLs are copied even when they are empty.
- Every template entry's link is the contact's LinkedIn URL.
- The headline is the first experience entry's title. The Go code indexes
  `resume.Experience[0]` without a check and panics on an empty list. The model
  therefore requires a non-empty experience list. It does not add a guarded
  fallback that the code lacks.

The program's overall description speaks of a "Present" substitution, of dropping
social links with empty URLs and of a guard for an empty experience list.
This file does none of those, and the model follows the file.

## Model

| member | source | states |
|---|---|---|
| `Shaper.ShapeResume` | Go/main.go:131-154 | The loop's result equals `Shape(resume, year)`. It copies name, profile (as summary) and e-mail. The headline is the first entry's title and the year is the supplied one. Social is exactly [("LinkedIn", LinkedIn), ("Website", Website)]. There is one template entry per input entry, in order, each mapped field by field. Requires a non-empty experience list, since the source panics on an empty one. |
| `Shaper.ShapeHeader` | Go/main.go:131-141 | Name, Summary and Email are the resume's Name, Profile and Contact.Email. Title is Experience[0].Title and Year is the supplied year. Social has exactly two elements, LinkedIn then Website, with the contact's URLs, even empty ones. |
| `Shaper.ShapeExperience` | Go/main.go:144-154 | The output Experience has the input's length. Entry i has Role = Title_i, Company = Company_i, Period = the four-string concatenation of entry i's period, Bullets = Achievements_i unchanged, and Link = Contact.LinkedIn. |
| `Shaper.MapExperienceAt` | Go/main.go:147-153 | The i-th mapped entry is built from the i-th input entry alone, field by field, and carries the given link. |
| `Shaper.MapExperienceAppend` | Go/main.go:144-154 | Mapping a concatenation of entry lists is the concatenation of the mapped lists. This is why appending one entry per iteration yields the mapping of the whole list. |
| `Shaper.MapExperience` | Go/main.go:144-154 | One template entry per input entry: the output has the input's length. |
| `Shaper.MapExperienceSameShaped` | Go/main.go:147-153 | Entry lists that agree pointwise on title, company, period and achievements map to the same template entries. |
| `Shaper.ShapeDependsOnlyOnShapedFields` | Go/main.go:131-154 | Resumes that agree on Name, Profile, Contact.Email, Contact.LinkedIn, Contact.Website and each entry's Title, Company, Period and Achievements shape to the same record. Education, skills, interests, references, last-updated date, phone, location and entry locations do not matter. |
| `Shaper.FormatPeriod` | Go/main.go:145 | The period string's length is the four field lengths plus 6, the two spaces and " to ". |
| `Shaper.PeriodSplitsIntoFields` | Go/main.go:145 | When no month or year string holds a space, splitting the period string at spaces gives back exactly [From.Month, From.Year, "to", To.Month, To.Year]. So the end-date strings, "-" included, come back unchanged. |
| `Shaper.OpenEndDateKept` | Go/main.go:145 | An end date ("-", "-") prints as "… to - -". For example, Jan 2020 to ("-", "-") gives "Jan 2020 to - -" and not "to Present". |

## Left out

- `loadYAML` (Go/main.go:107-116): reading `resume.yaml` and decoding it with the external YAML library. The decoded `Resume` is the model's input.
- Template parsing and rendering (Go/main.go:157-176): calls into Go's `html/template`, whose behaviour is not part of this model.
- Creating and closing `index.html` and the console messages (Go/main.go:126-127, 164-169, 178): plain I/O.
- The clock read `time.Now().Year()` (Go/main.go:136): the year is a parameter of `Shape` and `ShapeResume`.
- `fmt.Sprintf` with `%s` on strings is modelled as string concatenation.
- Slices are values in the model. In Go, `Bullets` shares its backing array with the entry's `Achievements`. That aliasing is not modelled, and nothing in the mapping mutates either slice.
- The panic on an empty experience list is a precondition rather than a modelled crash.
- `EducationEntry.Year` is a Go `int` (64-bit). It is an unbounded `int` here because the mapping never reads it.
