/**
 * The teammate finder: the compatibility score and its colour, the skill
 * preview on a result card, and the search box state.
 */
module DiscoverPage {
  import opened Common
  import opened Identity
  import opened Backend
  import opened Text
  import opened ReputationBar
  import Queries

  // ---------------------------------------------------------------- compatibility

  /** `Math.round(rep * 0.4)` for a whole-number reputation. */
  function RoundTwoFifths(rep: nat): (r: nat)
    ensures r == Round(rep as real * 0.4)
  {
    assert rep as real * 0.4 == (2 * rep) as real / 5 as real;
    RoundDiv(2 * rep, 5)
  }

  /**
   * `rep * 0.4` is never within 0.1 of a rounding tie, so any error smaller
   * than that in computing the product leaves `Math.round` unchanged.
   */
  lemma RoundTwoFifthsStable(rep: nat, e: real)
    requires -0.1 < e < 0.1
    ensures Round(rep as real * 0.4 + e) == RoundTwoFifths(rep)
  {
    var q, m := (4 * rep + 5) / 10, (4 * rep + 5) % 10;
    assert 4 * rep + 5 == 10 * q + m;
    assert m % 2 == 1;
    assert 1 <= m <= 9;
    var x := rep as real * 0.4 + e + 0.5;
    assert x == q as real + m as real / 10.0 + e;
    assert q as real <= x < q as real + 1.0;
    assert RoundTwoFifths(rep) == q by {
      assert RoundDiv(2 * rep, 5) == (4 * rep + 5) / 10;
    }
  }

  /** `computeCompatibility` on a reputation already computed. */
  function CompatibilityOf(rep: nat): (c: int)
    ensures 10 <= c <= 100
    ensures c == Clamp(50 + Round(rep as real * 0.4), 10, 100)
  {
    Clamp(50 + RoundTwoFifths(rep), 10, 100)
  }

  /** `computeCompatibility(reviews)`. */
  function Compatibility(reviews: seq<Review>): (c: int)
    ensures 10 <= c <= 100
    ensures reviews == [] ==> c == 50
  {
    CompatibilityOf(AvgReputation(reviews))
  }

  /** For a reputation in [0, 100] no clamp applies and the score lies in [50, 90]. */
  lemma CompatibilityOfReputation(rep: nat)
    requires rep <= 100
    ensures CompatibilityOf(rep) == 50 + (4 * rep + 5) / 10
    ensures 50 <= CompatibilityOf(rep) <= 90
  {
    assert RoundDiv(2 * rep, 5) == (4 * rep + 5) / 10;
    DivMonotone(4 * rep + 5, 405, 10);
  }

  /** Every list of reviews scores between 50 and 90; the lower clamp of 10 is never reached. */
  lemma CompatibilityBetween(reviews: seq<Review>)
    ensures 50 <= Compatibility(reviews) <= 90
  {
    CompatibilityOfReputation(AvgReputation(reviews));
  }

  /** A higher reputation never gives a lower compatibility. */
  lemma CompatibilityMonotone(a: nat, b: nat)
    requires a <= b
    ensures CompatibilityOf(a) <= CompatibilityOf(b)
  {
    assert RoundDiv(2 * a, 5) == (4 * a + 5) / 10;
    assert RoundDiv(2 * b, 5) == (4 * b + 5) / 10;
    DivMonotone(4 * a + 5, 4 * b + 5, 10);
  }

  /** Raising one score of one review never lowers the compatibility shown for the list. */
  lemma CompatibilityMonotoneInScores(a: seq<Review>, i: nat, r: Review)
    requires i < |a| && ScoresLe(a[i].scores, r.scores)
    ensures Compatibility(a) <= Compatibility(a[i := r])
  {
    AvgReputationMonotone(a, i, r);
    CompatibilityMonotone(AvgReputation(a), AvgReputation(a[i := r]));
  }

  /** Two reviews with means 75 and 45 give reputation 60 and compatibility 74. */
  lemma TwoReviewScenario(reviewee: Principal, reviewer: Principal)
    ensures var reviews := [
        Review(Scores(80, 60, 70, 90), "", 0, reviewee, reviewer),
        Review(Scores(40, 50, 30, 60), "", 0, reviewee, reviewer)];
      AvgReputation(reviews) == 60 && Compatibility(reviews) == 74
  {
    var reviews := [
      Review(Scores(80, 60, 70, 90), "", 0, reviewee, reviewer),
      Review(Scores(40, 50, 30, 60), "", 0, reviewee, reviewer)];
    assert reviews[1..][1..] == [];
    assert TotalScore(reviews[1..]) == 180;
    assert TotalScore(reviews) == 480;
    AvgReputationClosedForm(reviews);
    CompatibilityOfReputation(60);
  }

  /** `compatibilityColor`: bands at 80, 60 and 40. */
  function CompatibilityColor(score: int): (t: Tone)
    ensures t in {Emerald, Teal, Amber, Muted}
    ensures t == Emerald <==> score >= 80
    ensures t == Teal <==> 60 <= score < 80
    ensures t == Amber <==> 40 <= score < 60
    ensures t == Muted <==> score < 40
  {
    [Muted, Amber, Teal, Emerald][Band(score, 80, 60, 40)]
  }

  /**
   * On a result card the compatibility colour depends only on the reputation:
   * emerald from 74, teal from 24, amber below; the muted tone never shows.
   */
  lemma CompatibilityColorByReputation(reviews: seq<Review>)
    ensures var t, rep := CompatibilityColor(Compatibility(reviews)), AvgReputation(reviews);
      (t == Emerald <==> rep >= 74) && (t == Teal <==> 24 <= rep < 74) && (t == Amber <==> rep < 24)
  {
    CompatibilityOfReputation(AvgReputation(reviews));
  }

  // ---------------------------------------------------------------- result card

  /** The skills shown on a card and the "+k more" count, when there is one. */
  datatype Preview = Preview(shown: seq<string>, more: Option<nat>)

  /** The first six skills, then "+k more" for the rest. */
  function SkillPreview(skills: seq<string>): (p: Preview)
    ensures |p.shown| == Min(6, |skills|) && p.shown == skills[..|p.shown|]
    ensures p.more.Some? <==> |skills| > 6
    ensures p.more.Some? ==> p.more.value == |skills| - |p.shown| && p.more.value > 0
    ensures p.more.None? ==> p.shown == skills
  {
    if |skills| > 6 then Preview(skills[..6], Some(|skills| - 6)) else Preview(skills, None)
  }

  // ---------------------------------------------------------------- search box

  /** The skill chips offered under the search box. */
  const PopularSkills: seq<string> := [
    "React", "Python", "Machine Learning", "UI/UX Design", "Blockchain",
    "Data Science", "Flutter", "Node.js", "Arduino", "OpenCV"
  ]

  /** Every chip is a non-empty, trimmed skill. */
  lemma PopularSkillsTrimmed()
    ensures forall i :: 0 <= i < |PopularSkills| ==> PopularSkills[i] != [] && IsTrimmed(PopularSkills[i])
  {
  }

  /** The search box: what is typed, and the skill last searched for. */
  class Search {
    var searchInput: string
    var activeSearch: string

    /** The search that runs is always trimmed. */
    ghost predicate Valid()
      reads this
    {
      IsTrimmed(activeSearch)
    }

    constructor ()
      ensures Valid()
      ensures searchInput == [] && activeSearch == []
    {
      searchInput := [];
      activeSearch := [];
    }

    /** The search button is disabled exactly when the trimmed input is empty. */
    predicate ButtonEnabled()
      reads this
      ensures ButtonEnabled() <==> !Blank(searchInput)
    {
      Trim(searchInput) != []
    }

    /** The read the page mounts. */
    function CurrentRead(): (r: Queries.Read)
      reads this
      ensures r.SearchBySkillRead? && r.skill == activeSearch
      ensures Queries.Enabled(r, true, false) <==> activeSearch != []
    {
      Queries.SearchBySkillRead(activeSearch)
    }

    /** Typing into the box. */
    method SetSearchInput(text: string)
      requires Valid()
      modifies this
      ensures Valid()
      ensures searchInput == text && activeSearch == old(activeSearch)
    {
      searchInput := text;
    }

    /** `handleSearch`: runs the trimmed input when it is non-empty, else does nothing. */
    method HandleSearch()
      requires Valid()
      modifies this
      ensures Valid()
      ensures searchInput == old(searchInput)
      ensures old(ButtonEnabled()) ==> activeSearch == Trim(searchInput)
      ensures !old(ButtonEnabled()) ==> activeSearch == old(activeSearch)
      ensures activeSearch != [] <==> old(ButtonEnabled()) || old(activeSearch) != []
    {
      var t := Trim(searchInput);
      if t != [] {
        activeSearch := t;
      }
    }

    /** `handleSkillChip`: fills the box with the chip and runs that search. */
    method HandleSkillChip(skill: string)
      requires Valid() && skill in PopularSkills
      modifies this
      ensures Valid()
      ensures searchInput == skill && activeSearch == skill
      ensures Queries.Enabled(CurrentRead(), true, false)
    {
      PopularSkillsTrimmed();
      searchInput := skill;
      activeSearch := skill;
    }
  }
}
