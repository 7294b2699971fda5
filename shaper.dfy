/** The mapping in Go/main.go:131-154 from the decoded resume to the record the
    HTML template is rendered with. The current year, read from the clock in the
    source, is a parameter here. */
module Shaper {
  import opened ResumeTypes
  import Text

  /** The period display string of line 145: fmt.Sprintf("%s %s to %s %s", ...)
      over the four month and year strings, which is plain concatenation. */
  function FormatPeriod(p: Period): (s: string)
    ensures |s| == |p.From.Month| + |p.From.Year| + |p.To.Month| + |p.To.Year| + 6
  {
    p.From.Month + " " + p.From.Year + " to " + p.To.Month + " " + p.To.Year
  }

  /** The template entry that lines 147-153 append for one experience entry. */
  function ToTemplateExperience(exp: ExperienceEntry, link: string): TemplateExperience
  {
    TemplateExperience(
      Role := exp.Title,
      Company := exp.Company,
      Period := FormatPeriod(exp.Period),
      Bullets := exp.Achievements,
      Link := link)
  }

  /** The template entries of the loop at lines 144-154, one per input entry, in order. */
  function MapExperience(exps: seq<ExperienceEntry>, link: string): (r: seq<TemplateExperience>)
    ensures |r| == |exps|
  {
    if exps == [] then []
    else [ToTemplateExperience(exps[0], link)] + MapExperience(exps[1..], link)
  }

  /** The fixed two-element list of lines 137-140. */
  function SocialLinks(c: Contact): seq<TemplateSocial>
  {
    [TemplateSocial("LinkedIn", c.LinkedIn), TemplateSocial("Website", c.Website)]
  }

  /** The struct literal of lines 131-141, before any experience is appended.
      Indexing the first experience entry needs a non-empty list: Go panics otherwise. */
  function Header(resume: Resume, year: int): TemplateData
    requires |resume.Experience| > 0
  {
    TemplateData(
      Name := resume.Name,
      Title := resume.Experience[0].Title,
      Summary := resume.Profile,
      Email := resume.Contact.Email,
      Experience := [],
      Social := SocialLinks(resume.Contact),
      Year := year)
  }

  /** The record that the whole mapping produces. */
  function Shape(resume: Resume, year: int): TemplateData
    requires |resume.Experience| > 0
  {
    Header(resume, year).(Experience := MapExperience(resume.Experience, resume.Contact.LinkedIn))
  }

  /** The mapping as the source runs it: the struct literal, then one append per entry. */
  method ShapeResume(resume: Resume, year: int) returns (td: TemplateData)
    requires |resume.Experience| > 0
    ensures td == Shape(resume, year)
    ensures td.Name == resume.Name && td.Summary == resume.Profile
    ensures td.Email == resume.Contact.Email && td.Year == year
    ensures td.Title == resume.Experience[0].Title
    ensures td.Social == [TemplateSocial("LinkedIn", resume.Contact.LinkedIn),
                          TemplateSocial("Website", resume.Contact.Website)]
    ensures |td.Experience| == |resume.Experience|
    ensures forall i :: 0 <= i < |resume.Experience| ==>
              EntryMapped(resume.Experience[i], td.Experience[i], resume.Contact.LinkedIn)
  {
    var link := resume.Contact.LinkedIn;
    td := TemplateData(
      Name := resume.Name,
      Title := resume.Experience[0].Title,
      Summary := resume.Profile,
      Email := resume.Contact.Email,
      Experience := [],
      Social := [TemplateSocial("LinkedIn", link), TemplateSocial("Website", resume.Contact.Website)],
      Year := year);
    for k := 0 to |resume.Experience|
      invariant td == Header(resume, year).(Experience := MapExperience(resume.Experience[..k], link))
    {
      var exp := resume.Experience[k];
      var period := FormatPeriod(exp.Period);
      td := td.(Experience := td.Experience + [TemplateExperience(
        Role := exp.Title,
        Company := exp.Company,
        Period := period,
        Bullets := exp.Achievements,
        Link := link)]);
      MapExperienceAppend(resume.Experience[..k], [exp], link);
      assert resume.Experience[..k + 1] == resume.Experience[..k] + [exp];
    }
    assert resume.Experience[..|resume.Experience|] == resume.Experience;
    ShapeExperience(resume, year);
  }

  /** `out` is the template entry of `exp`, field by field, stamped with `link`. */
  predicate EntryMapped(exp: ExperienceEntry, out: TemplateExperience, link: string)
  {
    && out.Role == exp.Title
    && out.Company == exp.Company
    && out.Period == exp.Period.From.Month + " " + exp.Period.From.Year + " to "
                     + exp.Period.To.Month + " " + exp.Period.To.Year
    && out.Bullets == exp.Achievements
    && out.Link == link
  }

  /** Mapping a concatenation maps each part: the loop may extend its result one entry at a time. */
  lemma {:induction false} MapExperienceAppend(a: seq<ExperienceEntry>, b: seq<ExperienceEntry>, link: string)
    ensures MapExperience(a + b, link) == MapExperience(a, link) + MapExperience(b, link)
    decreases |a|
  {
    if a == [] {
      assert a + b == b;
    } else {
      assert (a + b)[0] == a[0] && (a + b)[1..] == a[1..] + b;
      MapExperienceAppend(a[1..], b, link);
    }
  }

  /** The i-th template entry is made from the i-th input entry and from nothing else. */
  lemma {:induction false} MapExperienceAt(exps: seq<ExperienceEntry>, link: string, i: nat)
    requires i < |exps|
    ensures EntryMapped(exps[i], MapExperience(exps, link)[i], link)
    decreases i
  {
    if i > 0 {
      MapExperienceAt(exps[1..], link, i - 1);
    }
  }

  /** One output entry per input entry, in the same order, each with the input's title,
      company, period string and achievements, and every one linked to the contact's LinkedIn. */
  lemma ShapeExperience(resume: Resume, year: int)
    requires |resume.Experience| > 0
    ensures |Shape(resume, year).Experience| == |resume.Experience|
    ensures forall i :: 0 <= i < |resume.Experience| ==>
              EntryMapped(resume.Experience[i], Shape(resume, year).Experience[i], resume.Contact.LinkedIn)
  {
    forall i | 0 <= i < |resume.Experience|
      ensures EntryMapped(resume.Experience[i], Shape(resume, year).Experience[i], resume.Contact.LinkedIn)
    {
      MapExperienceAt(resume.Experience, resume.Contact.LinkedIn, i);
    }
  }

  /** The identity fields are copied verbatim, the headline is the first entry's title, the
      year is the one supplied, and the social links are always the same two, in this order,
      with their URLs copied even when empty. */
  lemma ShapeHeader(resume: Resume, year: int)
    requires |resume.Experience| > 0
    ensures Shape(resume, year).Name == resume.Name
    ensures Shape(resume, year).Title == resume.Experience[0].Title
    ensures Shape(resume, year).Summary == resume.Profile
    ensures Shape(resume, year).Email == resume.Contact.Email
    ensures Shape(resume, year).Year == year
    ensures |Shape(resume, year).Social| == 2
    ensures Shape(resume, year).Social[0] == TemplateSocial("LinkedIn", resume.Contact.LinkedIn)
    ensures Shape(resume, year).Social[1] == TemplateSocial("Website", resume.Contact.Website)
  {
  }

  /** Two experience entries that agree on everything the mapping reads. */
  predicate SameShapedEntry(a: ExperienceEntry, b: ExperienceEntry)
  {
    a.Title == b.Title && a.Company == b.Company && a.Period == b.Period
    && a.Achievements == b.Achievements
  }

  /** Two resumes that agree on everything the mapping reads; they may differ in education,
      skills, interests, references, last-updated date, phone, location and entry locations. */
  predicate SameShapedFields(a: Resume, b: Resume)
  {
    && a.Name == b.Name
    && a.Profile == b.Profile
    && a.Contact.Email == b.Contact.Email
    && a.Contact.LinkedIn == b.Contact.LinkedIn
    && a.Contact.Website == b.Contact.Website
    && |a.Experience| == |b.Experience|
    && forall i :: 0 <= i < |a.Experience| ==> SameShapedEntry(a.Experience[i], b.Experience[i])
  }

  lemma {:induction false} MapExperienceSameShaped(a: seq<ExperienceEntry>, b: seq<ExperienceEntry>, link: string)
    requires |a| == |b|
    requires forall i :: 0 <= i < |a| ==> SameShapedEntry(a[i], b[i])
    ensures MapExperience(a, link) == MapExperience(b, link)
    decreases |a|
  {
    if a != [] {
      assert SameShapedEntry(a[0], b[0]);
      assert forall i :: 0 <= i < |a[1..]| ==> a[1..][i] == a[i + 1] && b[1..][i] == b[i + 1];
      MapExperienceSameShaped(a[1..], b[1..], link);
    }
  }

  /** The output depends on the shaped fields only. */
  lemma ShapeDependsOnlyOnShapedFields(a: Resume, b: Resume, year: int)
    requires |a.Experience| > 0
    requires SameShapedFields(a, b)
    ensures Shape(a, year) == Shape(b, year)
  {
    assert SameShapedEntry(a.Experience[0], b.Experience[0]);
    MapExperienceSameShaped(a.Experience, b.Experience, a.Contact.LinkedIn);
  }

  /** The period string splits back at its spaces into the five words it was made from, as
      long as none of the four month and year strings holds a space. In particular the end
      date's own strings come back unchanged: a "-" stays "-" and nothing becomes "Present". */
  lemma PeriodSplitsIntoFields(p: Period)
    requires ' ' !in p.From.Month && ' ' !in p.From.Year
    requires ' ' !in p.To.Month && ' ' !in p.To.Year
    ensures Text.Split(FormatPeriod(p), ' ') == [p.From.Month, p.From.Year, "to", p.To.Month, p.To.Year]
  {
    var fm, fy, tm, ty := p.From.Month, p.From.Year, p.To.Month, p.To.Year;
    assert FormatPeriod(p) == fm + [' '] + (fy + [' '] + ("to" + [' '] + (tm + [' '] + ty)));
    Text.SplitAfterPiece(fm, ' ', fy + [' '] + ("to" + [' '] + (tm + [' '] + ty)));
    Text.SplitAfterPiece(fy, ' ', "to" + [' '] + (tm + [' '] + ty));
    Text.SplitAfterPiece("to", ' ', tm + [' '] + ty);
    Text.SplitAfterPiece(tm, ' ', ty);
    Text.SplitNoSeparator(ty, ' ');
  }

  /** An open-ended end date ("-", "-") is printed as it stands, not as "Present". */
  lemma OpenEndDateKept(from: MonthYear)
    ensures FormatPeriod(Period(from, MonthYear("-", "-"))) == from.Month + " " + from.Year + " to - -"
    ensures FormatPeriod(Period(MonthYear("Jan", "2020"), MonthYear("-", "-"))) == "Jan 2020 to - -"
  {
  }
}
