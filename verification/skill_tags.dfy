/**
 * The skill-tag rule both the onboarding form and the profile page apply before
 * adding a skill: the trimmed input, if non-empty, not yet held, and fewer than
 * fifteen skills are held.
 */
module SkillTags {
  import opened Common
  import opened Text

  const MaxSkills: nat := 15

  predicate NoDuplicates(skills: seq<string>) {
    forall i, j :: 0 <= i < j < |skills| ==> skills[i] != skills[j]
  }

  /** A list the form can build: distinct, non-empty, trimmed tags, at most fifteen of them. */
  predicate WellFormed(skills: seq<string>) {
    |skills| <= MaxSkills && NoDuplicates(skills) &&
    forall i :: 0 <= i < |skills| ==> skills[i] != [] && IsTrimmed(skills[i])
  }

  /** The skill an add would submit, or `None` when the guard returns early. */
  function Admit(skills: seq<string>, input: string): (r: Option<string>)
    ensures r.Some? <==> Trim(input) != [] && Trim(input) !in skills && |skills| < MaxSkills
    ensures r.Some? ==> r.value == Trim(input) && IsTrimmed(r.value)
  {
    var trimmed := Trim(input);
    if trimmed == [] || trimmed in skills || |skills| >= MaxSkills then None else Some(trimmed)
  }

  /** `prev.filter((x) => x !== s)`. */
  function Without(skills: seq<string>, s: string): (r: seq<string>)
    ensures |r| <= |skills|
    ensures forall x :: x in r <==> x in skills && x != s
  {
    if skills == [] then []
    else (if skills[0] == s then [] else [skills[0]]) + Without(skills[1..], s)
  }

  /** Removing a tag that is not there leaves the list as it was. */
  lemma {:induction false} WithoutAbsent(skills: seq<string>, s: string)
    requires s !in skills
    ensures Without(skills, s) == skills
  {
    if skills != [] {
      WithoutAbsent(skills[1..], s);
    }
  }

  /** The filter keeps order: it distributes over concatenation. */
  lemma {:induction false} WithoutAppend(a: seq<string>, b: seq<string>, s: string)
    ensures Without(a + b, s) == Without(a, s) + Without(b, s)
  {
    if a == [] {
      assert a + b == b;
    } else {
      var head := if a[0] == s then [] else [a[0]];
      assert (a + b)[0] == a[0];
      assert (a + b)[1..] == a[1..] + b;
      WithoutAppend(a[1..], b, s);
      assert Without(a + b, s) == head + (Without(a[1..], s) + Without(b, s));
      assert head + (Without(a[1..], s) + Without(b, s)) == (head + Without(a[1..], s)) + Without(b, s);
    }
  }

  /** Without duplicates the filter is a deletion of at most one entry. */
  lemma {:induction false} WithoutKeepsDistinct(skills: seq<string>, s: string)
    requires NoDuplicates(skills)
    ensures NoDuplicates(Without(skills, s))
  {
    if skills != [] {
      WithoutKeepsDistinct(skills[1..], s);
      var rest := Without(skills[1..], s);
      if skills[0] != s {
        assert skills[0] !in rest by {
          assert skills[0] !in skills[1..];
        }
        assert forall i :: 0 <= i < |rest| ==> ([skills[0]] + rest)[i + 1] == rest[i];
      }
    }
  }

  /** Adding the admitted skill keeps a well-formed list well-formed. */
  lemma AdmitKeepsWellFormed(skills: seq<string>, input: string)
    requires WellFormed(skills) && Admit(skills, input).Some?
    ensures WellFormed(skills + [Admit(skills, input).value])
  {
    var s := skills + [Admit(skills, input).value];
    assert forall i :: 0 <= i < |skills| ==> s[i] == skills[i];
  }

  /** Removing any tag keeps a well-formed list well-formed. */
  lemma WithoutKeepsWellFormed(skills: seq<string>, s: string)
    requires WellFormed(skills)
    ensures WellFormed(Without(skills, s))
  {
    WithoutKeepsDistinct(skills, s);
    var r := Without(skills, s);
    forall i | 0 <= i < |r|
      ensures r[i] != [] && IsTrimmed(r[i])
    {
      assert r[i] in skills;
    }
  }

  /** An add that went through, followed by removing that skill, restores the list. */
  lemma AddThenRemove(skills: seq<string>, input: string)
    requires Admit(skills, input).Some?
    ensures Without(skills + [Admit(skills, input).value], Admit(skills, input).value) == skills
  {
    var t := Admit(skills, input).value;
    WithoutAppend(skills, [t], t);
    WithoutAbsent(skills, t);
  }

  /** With fifteen skills held, no input is admitted. */
  lemma CapRejects(skills: seq<string>, input: string)
    requires |skills| >= MaxSkills
    ensures Admit(skills, input).None?
  {
  }
}
