/**
 * The two-step onboarding form: basic fields on step 1, skill tags on step 2,
 * and the profile it submits.
 */
module OnboardingPage {
  import opened Common
  import opened Text
  import opened Backend
  import opened SkillTags
  import Queries

  /** The year choices offered by the form. */
  const Years: seq<string> := ["1", "2", "3", "4"]

  /** Every year choice converts with `BigInt`. */
  lemma YearsConvert()
    ensures forall i :: 0 <= i < |Years| ==> ParseBigInt(Years[i]) == Some(i + 1)
  {
    assert ParseBigInt(Years[0]) == Some(1);
    assert ParseBigInt(Years[1]) == Some(2);
    assert ParseBigInt(Years[2]) == Some(3);
    assert ParseBigInt(Years[3]) == Some(4);
  }

  /** The inputs of step 1. */
  datatype Field = NameField | DepartmentField | YearField | DesignationField | BioField

  /** What `handleSubmit` sends: the profile, then the skills once the profile is saved. */
  datatype Submission = Submission(profile: UserProfile, skills: seq<string>)

  class Onboarding {
    var step: nat
    var name: string
    var department: string
    var year: string
    var designation: string
    var bio: string
    var skills: seq<string>
    var skillInput: string

    /** Step 1 is complete: the four required fields are non-empty. */
    predicate Step1Valid()
      reads this
    {
      name != [] && department != [] && year != [] && designation != []
    }

    /**
     * The form is on step 1 or 2, reaches step 2 only with step 1 complete, and
     * holds a well-formed skill list.
     */
    ghost predicate Valid()
      reads this
    {
      (step == 1 || step == 2) && (step == 2 ==> Step1Valid()) && WellFormed(skills)
    }

    constructor ()
      ensures Valid()
      ensures step == 1 && skills == [] && skillInput == []
      ensures name == [] && department == [] && year == [] && designation == [] && bio == []
    {
      step := 1;
      name, department, year, designation, bio := [], [], [], [], [];
      skills := [];
      skillInput := [];
    }

    /** Typing or choosing a value for one step-1 input, which exist only on step 1. */
    method EditField(f: Field, value: string)
      requires Valid() && step == 1
      modifies this
      ensures Valid()
      ensures step == 1 && skills == old(skills) && skillInput == old(skillInput)
      ensures name == (if f == NameField then value else old(name))
      ensures department == (if f == DepartmentField then value else old(department))
      ensures year == (if f == YearField then value else old(year))
      ensures designation == (if f == DesignationField then value else old(designation))
      ensures bio == (if f == BioField then value else old(bio))
    {
      match f
      case NameField => name := value;
      case DepartmentField => department := value;
      case YearField => year := value;
      case DesignationField => designation := value;
      case BioField => bio := value;
    }

    /** The "Next" button, disabled until step 1 is complete. */
    method Next()
      requires Valid()
      modifies this
      ensures Valid()
      ensures step == 2 <==> Step1Valid()
      ensures name == old(name) && department == old(department) && year == old(year)
      ensures designation == old(designation) && bio == old(bio)
      ensures skills == old(skills) && skillInput == old(skillInput)
    {
      if Step1Valid() {
        step := 2;
      }
    }

    /** The "Back" button on step 2. */
    method Back()
      requires Valid()
      modifies this
      ensures Valid()
      ensures step == 1
      ensures name == old(name) && department == old(department) && year == old(year)
      ensures designation == old(designation) && bio == old(bio)
      ensures skills == old(skills) && skillInput == old(skillInput)
    {
      step := 1;
    }

    method SetSkillInput(text: string)
      requires Valid()
      modifies this
      ensures Valid()
      ensures skillInput == text && skills == old(skills) && step == old(step)
      ensures name == old(name) && department == old(department) && year == old(year)
      ensures designation == old(designation) && bio == old(bio)
    {
      skillInput := text;
    }

    /**
     * `addSkillTag`: appends the trimmed input when it is admitted and only then
     * clears the input; otherwise nothing changes.
     */
    method AddSkillTag()
      requires Valid()
      modifies this
      ensures Valid()
      ensures Admit(old(skills), old(skillInput)).Some? ==>
        skills == old(skills) + [Trim(old(skillInput))] && skillInput == []
      ensures Admit(old(skills), old(skillInput)).None? ==>
        skills == old(skills) && skillInput == old(skillInput)
      ensures step == old(step) && name == old(name) && department == old(department)
      ensures year == old(year) && designation == old(designation) && bio == old(bio)
    {
      var admitted := Admit(skills, skillInput);
      if admitted.Some? {
        AdmitKeepsWellFormed(skills, skillInput);
        skills := skills + [admitted.value];
        skillInput := [];
      }
    }

    /** `removeSkill(s)`: drops every tag equal to `s`, keeping the rest in order. */
    method RemoveSkill(s: string)
      requires Valid()
      modifies this
      ensures Valid()
      ensures skills == Without(old(skills), s)
      ensures skillInput == old(skillInput) && step == old(step) && name == old(name)
      ensures department == old(department) && year == old(year)
      ensures designation == old(designation) && bio == old(bio)
    {
      WithoutKeepsWellFormed(skills, s);
      skills := Without(skills, s);
    }

    /**
     * `handleSubmit`: nothing when a required field is empty (or the year does
     * not convert, where `BigInt` throws); otherwise the typed fields with an
     * empty avatar URL and no social links, and the skill list.
     */
    function Submit(): (r: Option<Submission>)
      reads this
      ensures r.None? <==> !Step1Valid() || !IsDigits(year)
      ensures r.Some? ==>
        var p := r.value.profile;
        p.name == name && p.department == department && p.designation == designation &&
        p.bio == bio && p.avatarUrl == [] && p.socialLinks == map[] &&
        Some(p.year) == ParseBigInt(year) && r.value.skills == skills
    {
      if !Step1Valid() then None
      else match ParseBigInt(year)
        case None => None
        case Some(y) => Some(Submission(UserProfile(name, department, y, designation, bio, [], map[]), skills))
    }
  }

  /**
   * The mutations `handleSubmit` issues for a submission: the profile save, and
   * only once it has resolved, one skill addition per tag.
   */
  function Requests(sub: Submission, saved: bool): (ms: seq<Queries.Mutation>)
    ensures |ms| >= 1 && ms[0] == Queries.SaveProfile(sub.profile)
    ensures |ms| == if saved then 1 + |sub.skills| else 1
    ensures forall i :: 1 <= i < |ms| ==> ms[i] == Queries.AddSkill(sub.skills[i - 1])
  {
    [Queries.SaveProfile(sub.profile)] +
      (if saved then seq(|sub.skills|, i requires 0 <= i < |sub.skills| => Queries.AddSkill(sub.skills[i])) else [])
  }

  /** A skill is sent only after the profile save has succeeded, and every held skill is then sent. */
  lemma SkillsFollowSave(sub: Submission, saved: bool)
    ensures (exists i :: 0 <= i < |Requests(sub, saved)| && Requests(sub, saved)[i].AddSkill?) ==> saved
    ensures saved ==> forall s :: s in sub.skills ==> Queries.AddSkill(s) in Requests(sub, saved)
  {
    var ms := Requests(sub, saved);
    if saved {
      forall s | s in sub.skills
        ensures Queries.AddSkill(s) in ms
      {
        var j :| 0 <= j < |sub.skills| && sub.skills[j] == s;
        assert ms[j + 1] == Queries.AddSkill(s);
      }
    }
  }
}
