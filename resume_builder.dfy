/** The resume editor: a resume record changed by a fixed set of handlers. Every list the
    handlers build is a pure map, filter or append over the current record; the editor object
    holds the record and the view flags and replaces the record on each handler call. */
module ResumeBuilder {

  import opened Types
  import opened Seqs
  import opened Strings
  import GeminiService

  // ---------------------------------------------------------------------------------------
  // Whole-record updates

  /** The fields of the resume record. */
  datatype Field = FullName | Email | Phone | Summary | Skills | Experience | Education

  /** A value stored in one field of the record. */
  datatype FieldValue =
    | Text(text: string)
    | SkillList(skills: seq<string>)
    | Jobs(jobs: seq<ExperienceItem>)
    | Schools(schools: seq<EducationItem>)

  /** The value has the type the field declares. */
  predicate Fits(f: Field, v: FieldValue) {
    match f
    case FullName => v.Text?
    case Email => v.Text?
    case Phone => v.Text?
    case Summary => v.Text?
    case Skills => v.SkillList?
    case Experience => v.Jobs?
    case Education => v.Schools?
  }

  /** Reading one field. */
  function Get(d: ResumeData, f: Field): (v: FieldValue)
    ensures Fits(f, v)
  {
    match f
    case FullName => Text(d.fullName)
    case Email => Text(d.email)
    case Phone => Text(d.phone)
    case Summary => Text(d.summary)
    case Skills => SkillList(d.skills)
    case Experience => Jobs(d.experience)
    case Education => Schools(d.education)
  }

  /** Two records that agree on every field are the same record. */
  lemma RecordsAgree(a: ResumeData, b: ResumeData)
    requires forall f :: Get(a, f) == Get(b, f)
    ensures a == b
  {
    assert Get(a, FullName) == Get(b, FullName);
    assert Get(a, Email) == Get(b, Email);
    assert Get(a, Phone) == Get(b, Phone);
    assert Get(a, Summary) == Get(b, Summary);
    assert Get(a, Skills) == Get(b, Skills);
    assert Get(a, Experience) == Get(b, Experience);
    assert Get(a, Education) == Get(b, Education);
  }

  /** updateField: `{ ...prev, [field]: value }` — the named field takes the value and every
      other field keeps its own. */
  function UpdateField(d: ResumeData, f: Field, v: FieldValue): (r: ResumeData)
    requires Fits(f, v)
    ensures Get(r, f) == v
    ensures forall g :: g != f ==> Get(r, g) == Get(d, g)
  {
    match f
    case FullName => d.(fullName := v.text)
    case Email => d.(email := v.text)
    case Phone => d.(phone := v.text)
    case Summary => d.(summary := v.text)
    case Skills => d.(skills := v.skills)
    case Experience => d.(experience := v.jobs)
    case Education => d.(education := v.schools)
  }

  /** Writing back what a field already holds changes nothing. */
  lemma UpdateFieldSame(d: ResumeData, f: Field)
    ensures UpdateField(d, f, Get(d, f)) == d
  {
    RecordsAgree(UpdateField(d, f, Get(d, f)), d);
  }

  /** A second write to the same field overrides the first. */
  lemma UpdateFieldTwice(d: ResumeData, f: Field, v: FieldValue, w: FieldValue)
    requires Fits(f, v) && Fits(f, w)
    ensures UpdateField(UpdateField(d, f, v), f, w) == UpdateField(d, f, w)
  {
    RecordsAgree(UpdateField(UpdateField(d, f, v), f, w), UpdateField(d, f, w));
  }

  /** Writes to two different fields commute. */
  lemma UpdateFieldsCommute(d: ResumeData, f: Field, v: FieldValue, g: Field, w: FieldValue)
    requires f != g && Fits(f, v) && Fits(g, w)
    ensures UpdateField(UpdateField(d, f, v), g, w) == UpdateField(UpdateField(d, g, w), f, v)
  {
    RecordsAgree(UpdateField(UpdateField(d, f, v), g, w), UpdateField(UpdateField(d, g, w), f, v));
  }

  // ---------------------------------------------------------------------------------------
  // Experience entries

  /** The fields of an experience entry the editor lets the user type into. */
  datatype JobField = Role | Company | Duration | Description

  function JobGet(e: ExperienceItem, f: JobField): string {
    match f
    case Role => e.role
    case Company => e.company
    case Duration => e.duration
    case Description => e.description
  }

  /** `{ ...x, [field]: value }` on one experience entry: its id and its other fields stay. */
  function JobSet(e: ExperienceItem, f: JobField, v: string): (r: ExperienceItem)
    ensures r.id == e.id
    ensures JobGet(r, f) == v
    ensures forall g :: g != f ==> JobGet(r, g) == JobGet(e, g)
  {
    match f
    case Role => e.(role := v)
    case Company => e.(company := v)
    case Duration => e.(duration := v)
    case Description => e.(description := v)
  }

  /** The inline edits: `experience.map(x => x.id === id ? {...x, [field]: v} : x)`. Only the
      edited field of the entries with that id changes; the list keeps its length and order. */
  function EditJobs(xs: seq<ExperienceItem>, id: string, f: JobField, v: string): (ys: seq<ExperienceItem>)
    ensures |ys| == |xs|
    ensures forall i :: 0 <= i < |xs| && xs[i].id != id ==> ys[i] == xs[i]
    ensures forall i :: 0 <= i < |xs| && xs[i].id == id ==>
      ys[i].id == id && JobGet(ys[i], f) == v && forall g :: g != f ==> JobGet(ys[i], g) == JobGet(xs[i], g)
  {
    seq(|xs|, i requires 0 <= i < |xs| => if xs[i].id == id then JobSet(xs[i], f, v) else xs[i])
  }

  /** Two entries that agree on their id and on every editable field are the same entry. */
  lemma JobsAgree(a: ExperienceItem, b: ExperienceItem)
    requires a.id == b.id && forall g :: JobGet(a, g) == JobGet(b, g)
    ensures a == b
  {
    assert JobGet(a, Role) == JobGet(b, Role);
    assert JobGet(a, Company) == JobGet(b, Company);
    assert JobGet(a, Duration) == JobGet(b, Duration);
    assert JobGet(a, Description) == JobGet(b, Description);
  }

  /** Typing into the same field twice keeps only the last text. */
  lemma EditJobsTwice(xs: seq<ExperienceItem>, id: string, f: JobField, v: string, w: string)
    ensures EditJobs(EditJobs(xs, id, f, v), id, f, w) == EditJobs(xs, id, f, w)
  {
    var a, b := EditJobs(EditJobs(xs, id, f, v), id, f, w), EditJobs(xs, id, f, w);
    forall i | 0 <= i < |xs| ensures a[i] == b[i] {
      if xs[i].id == id {
        JobsAgree(a[i], b[i]);
      }
    }
  }

  /** A new experience entry: the given id and every other field blank. */
  function BlankJob(id: string): (e: ExperienceItem)
    ensures e.id == id && forall g :: JobGet(e, g) == ""
  {
    ExperienceItem(id, "", "", "", "")
  }

  /** removeExperience: `experience.filter(e => e.id !== id)`. */
  function WithoutJob(xs: seq<ExperienceItem>, id: string): (ys: seq<ExperienceItem>)
    ensures |ys| <= |xs|
    ensures forall e :: e in ys <==> e in xs && e.id != id
  {
    Filter(xs, (e: ExperienceItem) => e.id != id)
  }

  /** Removal keeps every other entry as many times as it occurred, and keeps the relative
      order: removing from a concatenation removes from each part. */
  lemma WithoutJobKeepsOthers(xs: seq<ExperienceItem>, ys: seq<ExperienceItem>, id: string, e: ExperienceItem)
    ensures multiset(WithoutJob(xs, id))[e] == if e.id == id then 0 else multiset(xs)[e]
    ensures WithoutJob(xs + ys, id) == WithoutJob(xs, id) + WithoutJob(ys, id)
  {
    FilterCounts(xs, (e: ExperienceItem) => e.id != id, e);
    FilterConcat(xs, ys, (e: ExperienceItem) => e.id != id);
  }

  /** Adding then removing an entry with a fresh id gives the original list back. */
  lemma RemoveAddedJob(xs: seq<ExperienceItem>, id: string)
    requires forall e :: e in xs ==> e.id != id
    ensures WithoutJob(xs + [BlankJob(id)], id) == xs
  {
    var keep := (e: ExperienceItem) => e.id != id;
    FilterConcat(xs, [BlankJob(id)], keep);
    FilterKeepsAll(xs, keep);
    assert Filter([BlankJob(id)], keep) == [];
  }

  // ---------------------------------------------------------------------------------------
  // Education entries

  /** `keyof EducationItem`: the id is a key too. */
  datatype SchoolField = Id | Degree | School | Year

  function SchoolGet(e: EducationItem, f: SchoolField): string {
    match f
    case Id => e.id
    case Degree => e.degree
    case School => e.school
    case Year => e.year
  }

  /** `{ ...e, [field]: value }` on one education entry. */
  function SchoolSet(e: EducationItem, f: SchoolField, v: string): (r: EducationItem)
    ensures SchoolGet(r, f) == v
    ensures forall g :: g != f ==> SchoolGet(r, g) == SchoolGet(e, g)
  {
    match f
    case Id => e.(id := v)
    case Degree => e.(degree := v)
    case School => e.(school := v)
    case Year => e.(year := v)
  }

  /** Two education entries that agree on every key are the same entry. */
  lemma SchoolsAgree(a: EducationItem, b: EducationItem)
    requires forall g :: SchoolGet(a, g) == SchoolGet(b, g)
    ensures a == b
  {
    assert SchoolGet(a, Id) == SchoolGet(b, Id);
    assert SchoolGet(a, Degree) == SchoolGet(b, Degree);
    assert SchoolGet(a, School) == SchoolGet(b, School);
    assert SchoolGet(a, Year) == SchoolGet(b, Year);
  }

  /** updateEducationItem: `education.map(e => e.id === id ? { ...e, [field]: value } : e)`. */
  function EditSchools(xs: seq<EducationItem>, id: string, f: SchoolField, v: string): (ys: seq<EducationItem>)
    ensures |ys| == |xs|
    ensures forall i :: 0 <= i < |xs| && xs[i].id != id ==> ys[i] == xs[i]
    ensures forall i :: 0 <= i < |xs| && xs[i].id == id ==>
      SchoolGet(ys[i], f) == v && forall g :: g != f ==> SchoolGet(ys[i], g) == SchoolGet(xs[i], g)
  {
    seq(|xs|, i requires 0 <= i < |xs| => if xs[i].id == id then SchoolSet(xs[i], f, v) else xs[i])
  }

  /** Typing into the same non-id field twice keeps only the last text. */
  lemma EditSchoolsTwice(xs: seq<EducationItem>, id: string, f: SchoolField, v: string, w: string)
    requires f != Id
    ensures EditSchools(EditSchools(xs, id, f, v), id, f, w) == EditSchools(xs, id, f, w)
  {
    var a, b := EditSchools(EditSchools(xs, id, f, v), id, f, w), EditSchools(xs, id, f, w);
    forall i | 0 <= i < |xs| ensures a[i] == b[i] {
      if xs[i].id == id {
        SchoolsAgree(a[i], b[i]);
      }
    }
  }

  /** A new education entry: the given id and every other field blank. */
  function BlankSchool(id: string): (e: EducationItem)
    ensures e.id == id && forall g :: g != Id ==> SchoolGet(e, g) == ""
  {
    EducationItem(id, "", "", "")
  }

  /** removeEducation: `education.filter(e => e.id !== id)`. */
  function WithoutSchool(xs: seq<EducationItem>, id: string): (ys: seq<EducationItem>)
    ensures |ys| <= |xs|
    ensures forall e :: e in ys <==> e in xs && e.id != id
  {
    Filter(xs, (e: EducationItem) => e.id != id)
  }

  /** Removal keeps every other entry as many times as it occurred, and keeps the relative order. */
  lemma WithoutSchoolKeepsOthers(xs: seq<EducationItem>, ys: seq<EducationItem>, id: string, e: EducationItem)
    ensures multiset(WithoutSchool(xs, id))[e] == if e.id == id then 0 else multiset(xs)[e]
    ensures WithoutSchool(xs + ys, id) == WithoutSchool(xs, id) + WithoutSchool(ys, id)
  {
    FilterCounts(xs, (e: EducationItem) => e.id != id, e);
    FilterConcat(xs, ys, (e: EducationItem) => e.id != id);
  }

  // ---------------------------------------------------------------------------------------
  // Skills

  /** addSkill on the list: the trimmed input is appended when it is not blank and not yet
      listed; otherwise the list stays as it is. */
  function SkillsAfterAdd(skills: seq<string>, input: string): (r: seq<string>)
    ensures r != skills <==> !IsBlank(input) && Trim(input) !in skills
    ensures r != skills ==> r == skills + [Trim(input)]
    ensures !IsBlank(input) ==> Trim(input) in r
    ensures Distinct(skills) ==> Distinct(r)
  {
    var t := Trim(input);
    if t != "" && t !in skills then
      assert skills + [t] != skills by {
        assert |skills + [t]| != |skills|;
      }
      skills + [t]
    else skills
  }

  /** Adding a skill that is already there, or adding it a second time, changes nothing. */
  lemma AddSkillIdempotent(skills: seq<string>, input: string)
    ensures SkillsAfterAdd(SkillsAfterAdd(skills, input), input) == SkillsAfterAdd(skills, input)
  {
  }

  /** removeSkill: `skills.filter(skill => skill !== s)`. */
  function WithoutSkill(skills: seq<string>, s: string): (r: seq<string>)
    ensures s !in r
    ensures forall x :: x in r <==> x in skills && x != s
    ensures Distinct(skills) ==> Distinct(r)
  {
    FilterDistinctWhen(skills, (x: string) => x != s);
    Filter(skills, (x: string) => x != s)
  }

  /** Filtering keeps distinctness (stated for the skill list). */
  lemma FilterDistinctWhen(skills: seq<string>, keep: string -> bool)
    ensures Distinct(skills) ==> Distinct(Filter(skills, keep))
  {
    if Distinct(skills) {
      FilterDistinct(skills, keep);
    }
  }

  /** Removing a skill keeps every other skill as often as it occurred, in the same relative order. */
  lemma WithoutSkillKeepsOthers(skills: seq<string>, more: seq<string>, s: string, x: string)
    ensures multiset(WithoutSkill(skills, s))[x] == if x == s then 0 else multiset(skills)[x]
    ensures WithoutSkill(skills + more, s) == WithoutSkill(skills, s) + WithoutSkill(more, s)
  {
    FilterCounts(skills, (y: string) => y != s, x);
    FilterConcat(skills, more, (y: string) => y != s);
  }

  /** Removing a skill that was just added to a list without it restores the list. */
  lemma RemoveAddedSkill(skills: seq<string>, input: string)
    requires Trim(input) !in skills
    ensures WithoutSkill(SkillsAfterAdd(skills, input), Trim(input)) == skills
  {
    var keep := (y: string) => y != Trim(input);
    FilterKeepsAll(skills, keep);
    if !IsBlank(input) {
      FilterConcat(skills, [Trim(input)], keep);
      assert Filter([Trim(input)], keep) == [];
    }
  }

  /** The suggestions not already among `skills`, in their order. */
  function Unlisted(skills: seq<string>, suggestions: seq<string>): (r: seq<string>)
    ensures forall x :: x in r <==> x in suggestions && x !in skills
  {
    Filter(suggestions, (s: string) => s !in skills)
  }

  /** handleSuggestSkills: the suggestions not already listed are appended in their order;
      the list is left alone when none is new. */
  function MergeSkills(skills: seq<string>, suggestions: seq<string>): (r: seq<string>)
    ensures |skills| <= |r| && r[..|skills|] == skills
    ensures r[|skills|..] == Unlisted(skills, suggestions)
    ensures forall i :: |skills| <= i < |r| ==> r[i] !in skills && r[i] in suggestions
    ensures (forall s :: s in suggestions ==> s in skills) ==> r == skills
    ensures forall x :: x in r <==> x in skills || x in suggestions
  {
    var newSkills := Unlisted(skills, suggestions);
    if |newSkills| > 0 then
      var r := skills + newSkills;
      assert r[..|skills|] == skills;
      assert forall i :: |skills| <= i < |r| ==> r[i] == newSkills[i - |skills|] && r[i] in newSkills;
      assert newSkills[0] in suggestions && newSkills[0] !in skills;
      assert forall x :: x in r <==> x in skills || x in newSkills;
      r
    else skills
  }

  /** With duplicate-free inputs the merged list is duplicate-free. */
  lemma MergeSkillsDistinct(skills: seq<string>, suggestions: seq<string>)
    requires Distinct(skills) && Distinct(suggestions)
    ensures Distinct(MergeSkills(skills, suggestions))
  {
    var keep := (s: string) => s !in skills;
    FilterDistinct(suggestions, keep);
    var r := MergeSkills(skills, suggestions);
    forall i, j | 0 <= i < j < |r| ensures r[i] != r[j] {
      if j >= |skills| && i < |skills| {
        assert r[i] in skills;
      }
    }
  }

  /** Merging the same suggestions again adds nothing. */
  lemma MergeSkillsIdempotent(skills: seq<string>, suggestions: seq<string>)
    ensures MergeSkills(MergeSkills(skills, suggestions), suggestions) == MergeSkills(skills, suggestions)
  {
  }

  /** Repeated entries of the suggestion list itself are all appended: the merge alone does
      not keep the skill list duplicate-free. */
  lemma MergeKeepsRepeatedSuggestions()
    ensures MergeSkills([], ["SQL", "SQL"]) == ["SQL", "SQL"]
    ensures !Distinct(MergeSkills([], ["SQL", "SQL"]))
  {
    var keep := (s: string) => s !in [];
    assert Filter(["SQL", "SQL"], keep) == ["SQL"] + Filter(["SQL"], keep);
    assert Filter(["SQL"], keep) == ["SQL"] + Filter([], keep);
    assert MergeSkills([], ["SQL", "SQL"])[0] == MergeSkills([], ["SQL", "SQL"])[1];
  }

  /** The context sent to the skill suggester: the summary, then one line per experience entry. */
  function JobLine(e: ExperienceItem): string {
    e.role + " at " + e.company + ": " + e.description
  }

  function SkillContext(d: ResumeData): (context: string)
    ensures Includes(context, d.summary)
    ensures forall e :: e in d.experience ==> Includes(context, JobLine(e))
  {
    var head := "Summary: ";
    var lines := seq(|d.experience|, i requires 0 <= i < |d.experience| => JobLine(d.experience[i]));
    var rest := "\n\nExperience:\n" + Join(lines, "\n");
    IncludesMiddle(head, d.summary, rest);
    SkillContextJobs(d.experience, head + d.summary + "\n\nExperience:\n", lines);
    assert head + d.summary + rest == head + d.summary + "\n\nExperience:\n" + Join(lines, "\n") + "";
    head + d.summary + rest
  }

  /** Each job's line is included in the joined job lines that follow `head`. */
  lemma SkillContextJobs(jobs: seq<ExperienceItem>, head: string, lines: seq<string>)
    requires |lines| == |jobs| && forall i :: 0 <= i < |jobs| ==> lines[i] == JobLine(jobs[i])
    ensures forall e :: e in jobs ==> Includes(head + Join(lines, "\n") + "", JobLine(e))
  {
    forall e | e in jobs ensures Includes(head + Join(lines, "\n") + "", JobLine(e)) {
      var k := FirstIndex(jobs, e);
      JoinIncludes(lines, "\n", k);
      IncludesWithin(head, Join(lines, "\n"), "", lines[k]);
    }
  }

  // ---------------------------------------------------------------------------------------
  // AI rewriting

  /** What a field path names: the summary, the description of the experience entries with
      an id, or nothing the handler writes to. */
  datatype Target = SummaryTarget | JobDescription(id: string) | NoTarget

  /** The path the experience "enhance" button passes: `exp-${exp.id}`. */
  function JobPath(id: string): (path: string)
    ensures StartsWith(path, "exp-") && path[4..] == id
  {
    "exp-" + id
  }

  /** handleEnhance's dispatch: 'summary', a path starting with 'exp-' (the id is the part after
      the first '-' and before the next one), or anything else. */
  function TargetOf(fieldPath: string): (t: Target)
    ensures fieldPath == "summary" <==> t == SummaryTarget
    ensures t.JobDescription? <==> StartsWith(fieldPath, "exp-")
    ensures t.JobDescription? ==> '-' !in t.id
  {
    if fieldPath == "summary" then
      assert fieldPath[0] != "exp-"[0];
      SummaryTarget
    else if StartsWith(fieldPath, "exp-") then
      assert fieldPath[3] == '-';
      JobDescription(Split(fieldPath, '-')[1])
    else
      NoTarget
  }

  /** The button of an entry targets the part of its id before the first '-'. */
  lemma JobPathTargetsPrefix(id: string)
    ensures TargetOf(JobPath(id)) == JobDescription(Split(id, '-')[0])
  {
    var p := JobPath(id);
    assert StartsWith(p, "exp-");
    SplitAt(p, '-', 3);
    assert p[4..] == id;
  }

  /** The button of an entry whose id has no '-' targets exactly that entry. */
  lemma JobPathTargetsId(id: string)
    requires '-' !in id
    ensures TargetOf(JobPath(id)) == JobDescription(id)
  {
    JobPathTargetsPrefix(id);
  }

  /** An id that contains '-' is cut at its first '-', so the rewrite lands on other entries. */
  lemma JobPathCutsDashedId()
    ensures TargetOf(JobPath("7-2")) == JobDescription("7")
  {
    JobPathTargetsPrefix("7-2");
    SplitAt("7-2", '-', 1);
    assert "7-2"[..1] == "7";
  }

  /** Writing the rewritten text into the target: nothing but that field changes. */
  function ApplyEnhanced(d: ResumeData, t: Target, enhanced: string): (r: ResumeData)
    ensures t.SummaryTarget? ==> r.summary == enhanced && forall g :: g != Summary ==> Get(r, g) == Get(d, g)
    ensures t.JobDescription? ==>
      r.experience == EditJobs(d.experience, t.id, Description, enhanced) &&
      forall g :: g != Experience ==> Get(r, g) == Get(d, g)
    ensures t.NoTarget? ==> r == d
  {
    match t
    case SummaryTarget => UpdateField(d, Summary, Text(enhanced))
    case JobDescription(id) => UpdateField(d, Experience, Jobs(EditJobs(d.experience, id, Description, enhanced)))
    case NoTarget => d
  }

  /** A failed rewrite of the summary writes the summary's own text back: the record is unchanged. */
  lemma FailedSummaryRewriteKeepsRecord(d: ResumeData)
    ensures ApplyEnhanced(d, TargetOf("summary"), GeminiService.EnhanceResumeText(d.summary, GeminiService.Threw)) == d
  {
    UpdateFieldSame(d, Summary);
  }

  /** A failed rewrite of an entry's description writes its own text back: with ids that are
      unique and free of '-', the record is unchanged. */
  lemma FailedJobRewriteKeepsRecord(d: ResumeData, k: nat)
    requires k < |d.experience|
    requires forall i, j :: 0 <= i < j < |d.experience| ==> d.experience[i].id != d.experience[j].id
    requires '-' !in d.experience[k].id
    ensures var e := d.experience[k];
      ApplyEnhanced(d, TargetOf(JobPath(e.id)), GeminiService.EnhanceResumeText(e.description, GeminiService.Threw)) == d
  {
    var e := d.experience[k];
    JobPathTargetsId(e.id);
    var xs := EditJobs(d.experience, e.id, Description, e.description);
    forall i | 0 <= i < |xs| ensures xs[i] == d.experience[i] {
      if i == k {
        JobsAgree(xs[i], d.experience[i]);
      }
    }
    assert xs == d.experience;
    UpdateFieldSame(d, Experience);
  }

  // ---------------------------------------------------------------------------------------
  // The editor

  /** The sample resume the editor opens with. */
  const InitialResume := ResumeData(
    "Alex Rivera",
    "alex.rivera@example.com",
    "(555) 123-4567",
    "Motivated professional looking for new opportunities to leverage skills in technology and problem solving.",
    ["Communication", "Teamwork", "Project Management"],
    [ExperienceItem("1", "Junior Associate", "TechCorp Inc.", "2021 - Present",
      "Worked on various projects and helped the team achieve goals.")],
    [EducationItem("1", "B.S. Computer Science", "University of Tech", "2021")])

  /** The editor's state. Each handler runs to completion as one step, so the loading flags it
      raises before the AI call are lowered again when it returns. */
  class ResumeEditor {
    var data: ResumeData
    var loadingField: Option<string>
    var skillInput: string
    var isSuggestingSkills: bool
    var language: AppLanguage

    constructor(language: AppLanguage)
      ensures data == InitialResume
      ensures loadingField == None && skillInput == "" && !isSuggestingSkills
      ensures this.language == language
    {
      data := InitialResume;
      loadingField := None;
      skillInput := "";
      isSuggestingSkills := false;
      this.language := language;
    }

    /** A typed edit of one top-level field (name, e-mail, phone, summary). */
    method SetField(f: Field, v: FieldValue)
      requires Fits(f, v)
      modifies this
      ensures data == UpdateField(old(data), f, v)
      ensures loadingField == old(loadingField) && skillInput == old(skillInput)
      ensures isSuggestingSkills == old(isSuggestingSkills) && language == old(language)
    {
      data := UpdateField(data, f, v);
    }

    method SetSkillInput(s: string)
      modifies this
      ensures skillInput == s
      ensures data == old(data) && loadingField == old(loadingField)
      ensures isSuggestingSkills == old(isSuggestingSkills) && language == old(language)
    {
      skillInput := s;
    }

    /** handleEnhance: the reply's text, or `text` itself when the call fails or answers
        empty, is written to the field the path names. */
    method Enhance(text: string, fieldPath: string, reply: GeminiService.TextReply)
      modifies this
      ensures data == ApplyEnhanced(old(data), TargetOf(fieldPath), GeminiService.EnhanceResumeText(text, reply))
      ensures loadingField == None
      ensures skillInput == old(skillInput) && isSuggestingSkills == old(isSuggestingSkills)
      ensures language == old(language)
    {
      loadingField := Some(fieldPath);
      var enhanced := GeminiService.EnhanceResumeText(text, reply);
      data := ApplyEnhanced(data, TargetOf(fieldPath), enhanced);
      loadingField := None;
    }

    /** handleSuggestSkills: the suggestions for the current summary and experience are merged in. */
    method SuggestSkills(reply: GeminiService.TextReply, parse: string -> Option<seq<string>>)
      modifies this
      ensures data == old(data).(skills := MergeSkills(old(data).skills, GeminiService.SuggestSkills(reply, parse)))
      ensures !isSuggestingSkills
      ensures loadingField == old(loadingField) && skillInput == old(skillInput) && language == old(language)
    {
      isSuggestingSkills := true;
      var suggestions := GeminiService.SuggestSkills(reply, parse);
      var newSkills := Unlisted(data.skills, suggestions);
      if |newSkills| > 0 {
        data := UpdateField(data, Skills, SkillList(data.skills + newSkills));
      }
      isSuggestingSkills := false;
    }

    /** addExperience: one blank entry with the given id at the end. */
    method AddExperience(newId: string)
      modifies this
      ensures data == old(data).(experience := old(data).experience + [BlankJob(newId)])
      ensures loadingField == old(loadingField) && skillInput == old(skillInput)
      ensures isSuggestingSkills == old(isSuggestingSkills) && language == old(language)
    {
      data := UpdateField(data, Experience, Jobs(data.experience + [BlankJob(newId)]));
    }

    method RemoveExperience(id: string)
      modifies this
      ensures data == old(data).(experience := WithoutJob(old(data).experience, id))
      ensures forall e :: e in data.experience ==> e.id != id
      ensures loadingField == old(loadingField) && skillInput == old(skillInput)
      ensures isSuggestingSkills == old(isSuggestingSkills) && language == old(language)
    {
      data := UpdateField(data, Experience, Jobs(WithoutJob(data.experience, id)));
    }

    /** The inline edits of an entry's role, company, duration or description. */
    method EditExperience(id: string, f: JobField, v: string)
      modifies this
      ensures data == old(data).(experience := EditJobs(old(data).experience, id, f, v))
      ensures loadingField == old(loadingField) && skillInput == old(skillInput)
      ensures isSuggestingSkills == old(isSuggestingSkills) && language == old(language)
    {
      data := UpdateField(data, Experience, Jobs(EditJobs(data.experience, id, f, v)));
    }

    method AddEducation(newId: string)
      modifies this
      ensures data == old(data).(education := old(data).education + [BlankSchool(newId)])
      ensures loadingField == old(loadingField) && skillInput == old(skillInput)
      ensures isSuggestingSkills == old(isSuggestingSkills) && language == old(language)
    {
      data := UpdateField(data, Education, Schools(data.education + [BlankSchool(newId)]));
    }

    method RemoveEducation(id: string)
      modifies this
      ensures data == old(data).(education := WithoutSchool(old(data).education, id))
      ensures forall e :: e in data.education ==> e.id != id
      ensures loadingField == old(loadingField) && skillInput == old(skillInput)
      ensures isSuggestingSkills == old(isSuggestingSkills) && language == old(language)
    {
      data := UpdateField(data, Education, Schools(WithoutSchool(data.education, id)));
    }

    method UpdateEducationItem(id: string, f: SchoolField, v: string)
      modifies this
      ensures data == old(data).(education := EditSchools(old(data).education, id, f, v))
      ensures loadingField == old(loadingField) && skillInput == old(skillInput)
      ensures isSuggestingSkills == old(isSuggestingSkills) && language == old(language)
    {
      data := UpdateField(data, Education, Schools(EditSchools(data.education, id, f, v)));
    }

    /** addSkill: a blank input changes nothing; otherwise the trimmed input is added when new
        and the input box is cleared either way. */
    method AddSkill()
      modifies this
      ensures IsBlank(old(skillInput)) ==> data == old(data) && skillInput == old(skillInput)
      ensures !IsBlank(old(skillInput)) ==>
        data == old(data).(skills := SkillsAfterAdd(old(data).skills, old(skillInput))) && skillInput == ""
      ensures Distinct(old(data).skills) ==> Distinct(data.skills)
      ensures loadingField == old(loadingField) && isSuggestingSkills == old(isSuggestingSkills)
      ensures language == old(language)
    {
      var t := Trim(skillInput);
      if t != "" {
        if t !in data.skills {
          data := UpdateField(data, Skills, SkillList(data.skills + [t]));
        }
        skillInput := "";
      }
      assert !IsBlank(old(skillInput)) ==> data.skills == SkillsAfterAdd(old(data).skills, old(skillInput));
    }

    method RemoveSkill(s: string)
      modifies this
      ensures data == old(data).(skills := WithoutSkill(old(data).skills, s))
      ensures Distinct(old(data).skills) ==> Distinct(data.skills)
      ensures loadingField == old(loadingField) && skillInput == old(skillInput)
      ensures isSuggestingSkills == old(isSuggestingSkills) && language == old(language)
    {
      data := UpdateField(data, Skills, SkillList(WithoutSkill(data.skills, s)));
    }
  }
}
