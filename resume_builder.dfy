/** The resume builder's form state and its handlers: editing the personal details,
    adding, updating and removing education, experience and project entries, and
    the comma-separated skills box. */
module ResumeBuilder {
  import opened Seqs
  import opened Text

  /** A flat record of string fields; `{ ...entry, [field]: value }` adds or replaces a key. */
  type Entry = map<string, string>

  /** `formData`. */
  datatype Resume = Resume(
    personal: Entry,
    education: seq<Entry>,
    experience: seq<Entry>,
    skills: seq<string>,
    projects: seq<Entry>)

  /** The form as it is first shown. */
  const InitialResume: Resume := Resume(
    map[
      "name" := "Alex Johnson",
      "email" := "alex.johnson@example.com",
      "phone" := "555-123-4567",
      "location" := "New York, NY",
      "title" := "Full Stack Developer",
      "about" := "Passionate software engineer with expertise in web development and cloud technologies."
    ],
    [map[
      "degree" := "Bachelor of Science in Computer Science",
      "institution" := "University of Technology",
      "location" := "San Francisco, CA",
      "startDate" := "2018-09",
      "endDate" := "2022-05",
      "gpa" := "3.8"
    ]],
    [map[
      "title" := "Software Engineer Intern",
      "company" := "Tech Solutions Inc.",
      "location" := "San Francisco, CA",
      "startDate" := "2021-06",
      "endDate" := "2021-08",
      "description" := "Developed and maintained web applications using React and Node.js. Collaborated with the team to improve user experience and performance."
    ]],
    ["JavaScript", "React", "Node.js", "TypeScript", "CSS", "HTML", "Git", "MongoDB", "SQL"],
    [map[
      "title" := "Personal Portfolio Website",
      "description" := "Built a responsive personal portfolio website using React and Tailwind CSS.",
      "link" := "https://example.com/portfolio",
      "technologies" := "React, Tailwind CSS, Framer Motion"
    ]])

  /** An entry with every field of `fields` present and empty. */
  function Blank(fields: seq<string>): (r: Entry)
    ensures r.Keys == set f | f in fields
    ensures forall f :: f in r ==> r[f] == ""
  {
    map f | f in fields :: ""
  }

  /** The fields of a new education, experience and project entry. */
  const EducationFields: seq<string> := ["degree", "institution", "location", "startDate", "endDate", "gpa"]
  const ExperienceFields: seq<string> := ["title", "company", "location", "startDate", "endDate", "description"]
  const ProjectFields: seq<string> := ["title", "description", "link", "technologies"]

  /** `list.map((item, i) => i === index ? { ...item, [field]: value } : item)`. */
  function UpdateAt(list: seq<Entry>, index: int, field: string, value: string): (r: seq<Entry>)
    ensures |r| == |list|
  {
    seq(|list|, i requires 0 <= i < |list| => if i == index then list[i][field := value] else list[i])
  }

  /** `list.filter((_, i) => i !== index)`, scanning from the back. */
  function RemoveAt(list: seq<Entry>, index: int): (r: seq<Entry>)
    decreases |list|
  {
    if list == [] then []
    else RemoveAt(list[..|list| - 1], index) + (if |list| - 1 != index then [list[|list| - 1]] else [])
  }

  /** Updating sets exactly one field of the entry at `index` and touches nothing else;
      an index outside the list changes nothing. */
  lemma UpdateAtSpec(list: seq<Entry>, index: int, field: string, value: string)
    ensures var r := UpdateAt(list, index, field, value);
      && (0 <= index < |list| ==>
            r[index][field] == value
            && r[index].Keys == list[index].Keys + {field}
            && (forall f :: f in list[index] && f != field ==> r[index][f] == list[index][f]))
      && (forall i :: 0 <= i < |list| && i != index ==> r[i] == list[i])
      && (!(0 <= index < |list|) ==> r == list)
  {
  }

  /** Removing deletes exactly the entry at `index`, keeping the others in order;
      an index outside the list changes nothing. */
  lemma {:induction false} RemoveAtSpec(list: seq<Entry>, index: int)
    ensures 0 <= index < |list| ==> RemoveAt(list, index) == list[..index] + list[index + 1..]
    ensures !(0 <= index < |list|) ==> RemoveAt(list, index) == list
    decreases |list|
  {
    if list != [] {
      var list', last := list[..|list| - 1], list[|list| - 1];
      RemoveAtSpec(list', index);
      if 0 <= index < |list'| {
        assert list'[..index] == list[..index];
        assert list[index + 1..] == list'[index + 1..] + [last];
      } else if index == |list'| {
        assert list[..index] == list';
      } else {
        assert list' + [last] == list;
      }
    }
  }

  /** Adding an entry and then removing the last one restores the list. */
  lemma AddThenRemove(list: seq<Entry>, blank: Entry)
    ensures RemoveAt(list + [blank], |list|) == list
  {
    RemoveAtSpec(list + [blank], |list|);
    assert (list + [blank])[..|list|] == list;
  }

  /** `filter(Boolean)` on strings keeps the non-empty ones. */
  function NonEmpty(s: string): bool {
    s != ""
  }

  /** The skills the skills box yields: the comma-separated pieces, trimmed, empty ones dropped. */
  function ParseSkills(text: string): seq<string> {
    Filter(Map(Split(text, ','), Trim), NonEmpty)
  }

  /** The skills box shows `skills.join(', ')`. */
  function ShowSkills(skills: seq<string>): string {
    Join(skills, ", ")
  }

  /** A skill that survives a round trip through the box: non-empty, trimmed, without a comma. */
  predicate CleanSkill(s: string) {
    s != "" && Trimmed(s) && ',' !in s
  }

  /** Every parsed skill is non-empty, has no surrounding white space and holds no comma. */
  lemma ParseSkillsClean(text: string)
    ensures forall i :: 0 <= i < |ParseSkills(text)| ==> CleanSkill(ParseSkills(text)[i])
  {
    var parts := Split(text, ',');
    SplitPiecesLackSeparator(text, ',');
    var r := ParseSkills(text);
    FilterMembers(Map(parts, Trim), NonEmpty);
    forall i | 0 <= i < |r| ensures CleanSkill(r[i]) {
      assert r[i] in Map(parts, Trim);
      var k :| 0 <= k < |parts| && Map(parts, Trim)[k] == r[i];
      MapAt(parts, Trim, k);
      TrimSpec(parts[k]);
      TrimWithin(parts[k]);
    }
  }

  /** White space in front of the text does not change the parsed skills. */
  lemma ParseIgnoresLeadingSpace(pad: string, t: string)
    requires forall i :: 0 <= i < |pad| ==> IsSpace(pad[i])
    ensures ParseSkills(pad + t) == ParseSkills(t)
  {
    var parts := Split(t, ',');
    var padded := Split(pad + t, ',');
    assert ',' !in pad by {
      forall i | 0 <= i < |pad| ensures pad[i] != ',' { }
    }
    SplitPrefix(pad, ',', t);
    assert padded == [pad + parts[0]] + parts[1..];
    TrimIgnoresLeadingSpace(pad, parts[0]);
    MapCons(pad + parts[0], parts[1..], Trim);
    MapCons(parts[0], parts[1..], Trim);
    assert parts == [parts[0]] + parts[1..];
  }

  /** A comma ends the first skill. */
  lemma ParseAtComma(a: string, t: string)
    requires ',' !in a
    ensures ParseSkills(a + [','] + t) == Filter([Trim(a)], NonEmpty) + ParseSkills(t)
  {
    SplitAtSeparator(a, ',', t);
    MapCons(a, Split(t, ','), Trim);
    FilterAppend([Trim(a)], Map(Split(t, ','), Trim), NonEmpty);
  }

  /** An empty box holds no skills. */
  lemma ParseEmpty()
    ensures ParseSkills("") == []
  {
    assert Split("", ',') == [""];
    MapCons("", [], Trim);
    assert Trim("") == "";
    FilterSingleton("", NonEmpty);
  }

  /** A box holding one clean skill holds that skill. */
  lemma ParseSingle(s: string)
    requires CleanSkill(s)
    ensures ParseSkills(s) == [s]
  {
    SplitWithoutSeparator(s, ',');
    MapCons(s, [], Trim);
    TrimSpec(s);
    FilterSingleton(s, NonEmpty);
  }

  /** A clean skill, a comma and a space in front of some text add that skill in front. */
  lemma ParseCons(s: string, t: string)
    requires CleanSkill(s)
    ensures ParseSkills(s + ", " + t) == [s] + ParseSkills(t)
  {
    assert s + ", " + t == s + [','] + (" " + t);
    ParseAtComma(s, " " + t);
    ParseIgnoresLeadingSpace(" ", t);
    TrimSpec(s);
    FilterSingleton(s, NonEmpty);
  }

  /** Showing clean skills in the box and reading the box back gives the same skills. */
  lemma {:induction false} SkillsRoundTrip(skills: seq<string>)
    requires forall i :: 0 <= i < |skills| ==> CleanSkill(skills[i])
    ensures ParseSkills(ShowSkills(skills)) == skills
    decreases |skills|
  {
    if |skills| == 0 {
      ParseEmpty();
    } else if |skills| == 1 {
      ParseSingle(skills[0]);
    } else {
      SkillsRoundTrip(skills[1..]);
      ParseCons(skills[0], ShowSkills(skills[1..]));
    }
  }

  /** Reading the box back after it shows the parsed skills changes nothing. */
  lemma ParseShowParse(text: string)
    ensures ParseSkills(ShowSkills(ParseSkills(text))) == ParseSkills(text)
  {
    ParseSkillsClean(text);
    SkillsRoundTrip(ParseSkills(text));
  }

  /** The resume builder component's state. */
  class ResumeForm {
    var formData: Resume

    /** The form starts with the sample resume. */
    constructor ()
      ensures formData == InitialResume
    {
      formData := InitialResume;
    }

    /** `handlePersonalChange`: the input named `name` now holds `value`. */
    method HandlePersonalChange(name: string, value: string)
      modifies this
      ensures formData == old(formData).(personal := old(formData).personal[name := value])
    {
      formData := formData.(personal := formData.personal[name := value]);
    }

    /** `addEducation`: a blank education entry at the end. */
    method AddEducation()
      modifies this
      ensures formData == old(formData).(education := old(formData).education + [Blank(EducationFields)])
    {
      formData := formData.(education := formData.education + [Blank(EducationFields)]);
    }

    /** `updateEducation(index, field, value)`. */
    method UpdateEducation(index: int, field: string, value: string)
      modifies this
      ensures formData == old(formData).(education := UpdateAt(old(formData).education, index, field, value))
    {
      formData := formData.(education := UpdateAt(formData.education, index, field, value));
    }

    /** `removeEducation(index)`. */
    method RemoveEducation(index: int)
      modifies this
      ensures formData == old(formData).(education := RemoveAt(old(formData).education, index))
    {
      formData := formData.(education := RemoveAt(formData.education, index));
    }

    /** `addExperience`: a blank experience entry at the end. */
    method AddExperience()
      modifies this
      ensures formData == old(formData).(experience := old(formData).experience + [Blank(ExperienceFields)])
    {
      formData := formData.(experience := formData.experience + [Blank(ExperienceFields)]);
    }

    /** `updateExperience(index, field, value)`. */
    method UpdateExperience(index: int, field: string, value: string)
      modifies this
      ensures formData == old(formData).(experience := UpdateAt(old(formData).experience, index, field, value))
    {
      formData := formData.(experience := UpdateAt(formData.experience, index, field, value));
    }

    /** `removeExperience(index)`. */
    method RemoveExperience(index: int)
      modifies this
      ensures formData == old(formData).(experience := RemoveAt(old(formData).experience, index))
    {
      formData := formData.(experience := RemoveAt(formData.experience, index));
    }

    /** `handleSkillsChange`: the skills are whatever the box now parses to. */
    method HandleSkillsChange(text: string)
      modifies this
      ensures formData == old(formData).(skills := ParseSkills(text))
    {
      formData := formData.(skills := ParseSkills(text));
    }

    /** `addProject`: a blank project entry at the end. */
    method AddProject()
      modifies this
      ensures formData == old(formData).(projects := old(formData).projects + [Blank(ProjectFields)])
    {
      formData := formData.(projects := formData.projects + [Blank(ProjectFields)]);
    }

    /** `updateProject(index, field, value)`. */
    method UpdateProject(index: int, field: string, value: string)
      modifies this
      ensures formData == old(formData).(projects := UpdateAt(old(formData).projects, index, field, value))
    {
      formData := formData.(projects := UpdateAt(formData.projects, index, field, value));
    }

    /** `removeProject(index)`. */
    method RemoveProject(index: int)
      modifies this
      ensures formData == old(formData).(projects := RemoveAt(old(formData).projects, index))
    {
      formData := formData.(projects := RemoveAt(formData.projects, index));
    }
  }
}
