/**
 * A member's profile page: whose profile it shows, the follow state, the
 * member's posts, the edit dialog and its social links, the skill guard and the
 * follow and review actions.
 */
module ProfilePage {
  import opened Common
  import opened Identity
  import opened Text
  import opened Backend
  import opened SkillTags
  import Queries

  // ---------------------------------------------------------------- whose page

  /** `viewingPrincipal ?? callerPrincipal`. */
  function TargetPrincipal(viewing: Option<Principal>, caller: Option<Principal>): (t: Option<Principal>)
    ensures viewing.Some? ==> t == viewing
    ensures viewing.None? ==> t == caller
  {
    if viewing.Some? then viewing else caller
  }

  /** No principal is being viewed, or the viewed one has the caller's text form. */
  function IsOwnProfile(viewing: Option<Principal>, caller: Option<Principal>): (b: bool)
    ensures viewing.None? ==> b
    ensures viewing.Some? ==> (b <==> caller.Some? && viewing.value.text == caller.value.text)
  {
    viewing.None? || SameText(viewing, caller)
  }

  /** The page is the caller's own exactly when its target has the caller's text form. */
  lemma OwnProfileIffTargetIsCaller(viewing: Option<Principal>, caller: Option<Principal>)
    ensures IsOwnProfile(viewing, caller) <==> SameText(TargetPrincipal(viewing, caller), caller)
  {
  }

  /** The reads the page mounts, in order: the profile, then the target's lists, then the feed. */
  function PageReads(viewing: Option<Principal>, caller: Option<Principal>): (rs: seq<Queries.Read>)
    ensures |rs| == 6 && rs[0].CallerProfileRead?
  {
    var target := TargetPrincipal(viewing, caller);
    [Queries.CallerProfileRead, Queries.SkillsRead(target), Queries.ReputationRead(target),
     Queries.FollowersRead(target), Queries.FollowingRead(target), Queries.GlobalFeedRead]
  }

  /**
   * As written, the profile shown comes from the caller's own profile read
   * whoever is viewed: viewing another member shares the caller's profile
   * entry while every list on the page belongs to the other member.
   */
  lemma ProfileReadIgnoresTarget(viewing: Option<Principal>, caller: Option<Principal>, other: Option<Principal>)
    ensures Queries.KeyOf(PageReads(viewing, caller)[0]) == Queries.KeyOf(PageReads(other, caller)[0])
    ensures viewing.Some? ==>
      Queries.KeyOf(PageReads(viewing, caller)[1]) == Queries.KeyOf(Queries.SkillsRead(viewing))
  {
  }

  // ---------------------------------------------------------------- follow state and posts

  /** `isFollowing`: false without a caller or loaded followers, else membership by text. */
  function IsFollowing(caller: Option<Principal>, followers: Option<seq<Principal>>): (b: bool)
    ensures b <==> (caller.Some? && followers.Some? &&
      exists i :: 0 <= i < |followers.value| && followers.value[i].text == caller.value.text)
  {
    followers.Some? && HeldBy(followers.value, caller)
  }

  /** The feed's posts whose author has the target's text form, in feed order. */
  function UserPosts(feed: seq<Post>, target: Option<Principal>): (r: seq<Post>)
    ensures |r| <= |feed|
  {
    if feed == [] then []
    else
      (if target.Some? && feed[0].author.text == target.value.text then [feed[0]] else [])
      + UserPosts(feed[1..], target)
  }

  /** The profile shows exactly the feed's posts by the target. */
  lemma {:induction false} UserPostsMembers(feed: seq<Post>, target: Option<Principal>)
    ensures forall p :: p in UserPosts(feed, target) <==>
      p in feed && target.Some? && p.author.text == target.value.text
  {
    if feed != [] {
      UserPostsMembers(feed[1..], target);
      assert feed == [feed[0]] + feed[1..];
    }
  }

  /** The filter keeps feed order: it distributes over concatenation. */
  lemma {:induction false} UserPostsAppend(a: seq<Post>, b: seq<Post>, target: Option<Principal>)
    ensures UserPosts(a + b, target) == UserPosts(a, target) + UserPosts(b, target)
  {
    if a == [] {
      assert a + b == b;
    } else {
      assert (a + b)[0] == a[0] && (a + b)[1..] == a[1..] + b;
      UserPostsAppend(a[1..], b, target);
    }
  }

  /** `handleFollowToggle`: unfollow when following, follow otherwise, nothing without a target. */
  function FollowToggle(target: Option<Principal>, following: bool): (m: Option<Queries.Mutation>)
    ensures m.None? <==> target.None?
    ensures m.Some? && following ==> m.value == Queries.Unfollow(target.value)
    ensures m.Some? && !following ==> m.value == Queries.Follow(target.value)
  {
    if target.None? then None
    else if following then Some(Queries.Unfollow(target.value))
    else Some(Queries.Follow(target.value))
  }

  /**
   * Either choice of the toggle, once it succeeds, refreshes the followers list
   * the page's follow state is computed from.
   */
  lemma FollowToggleRefreshesFollowers(viewing: Option<Principal>, caller: Option<Principal>, following: bool)
    requires TargetPrincipal(viewing, caller).Some?
    ensures var m := FollowToggle(TargetPrincipal(viewing, caller), following);
      m.Some? && Queries.Refreshes(m.value, PageReads(viewing, caller)[3])
  {
  }

  /** `handleSubmitReview`: the target, the four slider scores and the trimmed comment. */
  function ReviewRequest(target: Option<Principal>, scores: Scores, comment: string): (m: Option<Queries.Mutation>)
    ensures m.None? <==> target.None?
    ensures m.Some? ==> (m.value.SubmitReview? && m.value.reviewee == target.value &&
      m.value.scores == scores && m.value.comment == Trim(comment))
  {
    if target.None? then None else Some(Queries.SubmitReview(target.value, scores, Trim(comment)))
  }

  /** A successful review refreshes exactly the page's reputation list among the page's reads. */
  lemma ReviewRefreshesReputation(viewing: Option<Principal>, caller: Option<Principal>, scores: Scores, comment: string)
    requires TargetPrincipal(viewing, caller).Some?
    ensures var m := ReviewRequest(TargetPrincipal(viewing, caller), scores, comment);
      forall i :: 0 <= i < 6 ==> (Queries.Refreshes(m.value, PageReads(viewing, caller)[i]) <==> i == 2)
  {
  }

  // ---------------------------------------------------------------- social links

  const AllPlatforms: set<Platform> := {LinkedIn, GitHub, Twitter, Instagram, Website}

  /** `hasSocialLinks`: some platform holds a non-empty link. */
  function HasSocialLinks(links: SocialLinks): (b: bool)
    ensures b ==> |links| > 0
  {
    exists p | p in links :: links[p] != []
  }

  /** For links saved from the dialog, the links row shows exactly when some link is saved. */
  lemma HasSocialLinksOfSaved(inputs: map<Platform, string>)
    ensures HasSocialLinks(LinksFrom(inputs)) <==> LinksFrom(inputs) != map[]
  {
    var links := LinksFrom(inputs);
    if links != map[] {
      var p :| p in links;
      assert links[p] != [];
    }
  }

  /** The links saved from the dialog's inputs: a key exactly for each non-blank input, holding it trimmed. */
  function LinksFrom(inputs: map<Platform, string>): (links: SocialLinks)
    ensures forall p :: p in links <==> p in inputs && Trim(inputs[p]) != []
    ensures forall p :: p in links ==> links[p] == Trim(inputs[p])
  {
    map p | p in inputs && Trim(inputs[p]) != [] :: Trim(inputs[p])
  }

  /** Saving links that were themselves saved from the dialog changes nothing. */
  lemma LinksFromIdempotent(inputs: map<Platform, string>)
    ensures LinksFrom(LinksFrom(inputs)) == LinksFrom(inputs)
  {
    var once := LinksFrom(inputs);
    forall p | p in once
      ensures Trim(once[p]) == once[p]
    {
      TrimOfTrimmed(once[p]);
    }
  }

  // ---------------------------------------------------------------- edit dialog

  /** The edit dialog's inputs. */
  datatype EditForm = EditForm(
    name: string, department: string, year: string, designation: string, bio: string,
    links: map<Platform, string>)

  /** `openEdit`: the profile's fields, its year as decimal text, each missing link as "". */
  function FormOf(profile: UserProfile): (f: EditForm)
    ensures f.links.Keys == AllPlatforms
    ensures ParseBigInt(f.year) == Some(profile.year)
  {
    ParseBigIntOfToString(profile.year);
    EditForm(profile.name, profile.department, NatToDecimal(profile.year), profile.designation, profile.bio,
      map p | p in AllPlatforms :: if p in profile.socialLinks then profile.socialLinks[p] else [])
  }

  /**
   * `handleSaveEdit`: nothing when a required input is empty (or the year does
   * not convert); otherwise the inputs, the links from `LinksFrom`, and the
   * current avatar URL, or "" without a loaded profile.
   */
  function Saved(form: EditForm, current: Option<UserProfile>): (r: Option<UserProfile>)
    ensures r.None? <==>
      form.name == [] || form.department == [] || form.year == [] || form.designation == [] || !IsDigits(form.year)
    ensures r.Some? ==>
      r.value.name == form.name && r.value.department == form.department &&
      Some(r.value.year) == ParseBigInt(form.year) && r.value.designation == form.designation &&
      r.value.bio == form.bio && r.value.socialLinks == LinksFrom(form.links) &&
      r.value.avatarUrl == (if current.Some? then current.value.avatarUrl else [])
  {
    if form.name == [] || form.department == [] || form.year == [] || form.designation == [] then None
    else match ParseBigInt(form.year)
      case None => None
      case Some(y) =>
        Some(UserProfile(form.name, form.department, y, form.designation, form.bio,
          current.GetOr(UserProfile([], [], 0, [], [], [], map[])).avatarUrl, LinksFrom(form.links)))
  }

  /** The links a profile can hold after a save: every one non-empty and trimmed. */
  predicate CleanLinks(links: SocialLinks) {
    forall p :: p in links ==> links[p] != [] && IsTrimmed(links[p])
  }

  /**
   * Opening the dialog and saving it unchanged reproduces a profile whose
   * required fields are filled and whose links are clean: links stay as they
   * were, and absent links stay absent.
   */
  lemma EditRoundTrip(profile: UserProfile)
    requires profile.name != [] && profile.department != [] && profile.designation != []
    requires CleanLinks(profile.socialLinks)
    ensures Saved(FormOf(profile), Some(profile)) == Some(profile)
  {
    forall q
      ensures q in LinksFrom(FormOf(profile).links) <==> q in profile.socialLinks
      ensures q in profile.socialLinks ==> LinksFrom(FormOf(profile).links)[q] == profile.socialLinks[q]
    {
      RoundTripAt(profile.socialLinks, q);
    }
    assert LinksFrom(FormOf(profile).links) == profile.socialLinks;
  }

  /** The dialog's input for one platform of the profile's links, saved again. */
  lemma RoundTripAt(links: SocialLinks, q: Platform)
    requires q in links ==> links[q] != [] && IsTrimmed(links[q])
    ensures var inputs := map p | p in AllPlatforms :: if p in links then links[p] else [];
      (q in LinksFrom(inputs) <==> q in links) &&
      (q in links ==> LinksFrom(inputs)[q] == links[q])
  {
    assert q in AllPlatforms by {
      match q
      case LinkedIn =>
      case GitHub =>
      case Twitter =>
      case Instagram =>
      case Website =>
    }
    if q in links {
      TrimOfTrimmed(links[q]);
    }
  }

  /**
   * Opening the dialog and saving it unchanged, one platform at a time and
   * whatever the other links hold: a link is kept iff it was there and not
   * blank, and is kept trimmed; so a clean link comes back as it was and a
   * missing link stays missing.
   */
  lemma PerLinkRoundTrip(profile: UserProfile, q: Platform)
    requires profile.name != [] && profile.department != [] && profile.designation != []
    ensures Saved(FormOf(profile), Some(profile)).Some?
    ensures var saved := Saved(FormOf(profile), Some(profile)).value.socialLinks;
      (q in saved <==> q in profile.socialLinks && !Blank(profile.socialLinks[q])) &&
      (q in saved ==> saved[q] == Trim(profile.socialLinks[q]))
    ensures var saved := Saved(FormOf(profile), Some(profile)).value.socialLinks;
      q in profile.socialLinks && profile.socialLinks[q] != [] && IsTrimmed(profile.socialLinks[q]) ==>
        q in saved && saved[q] == profile.socialLinks[q]
    ensures q !in profile.socialLinks ==> q !in Saved(FormOf(profile), Some(profile)).value.socialLinks
  {
    var links := profile.socialLinks;
    assert FormOf(profile).year == NatToDecimal(profile.year);
    assert q in AllPlatforms by {
      match q
      case LinkedIn =>
      case GitHub =>
      case Twitter =>
      case Instagram =>
      case Website =>
    }
    if q in links && links[q] != [] && IsTrimmed(links[q]) {
      TrimOfTrimmed(links[q]);
    }
    if q !in links {
      assert FormOf(profile).links[q] == [];
    }
  }

  /** `links` with the entry `want` has for `p`, if it has one. */
  function Put(links: SocialLinks, p: Platform, want: SocialLinks): SocialLinks {
    if p in want then links[p := want[p]] else links
  }

  /** Copying the five platforms one after another rebuilds any set of links. */
  lemma BuildLinks(want: SocialLinks)
    ensures Put(Put(Put(Put(Put(map[], LinkedIn, want), GitHub, want), Twitter, want), Instagram, want), Website, want)
      == want
  {
    var built := Put(Put(Put(Put(Put(map[], LinkedIn, want), GitHub, want), Twitter, want), Instagram, want), Website, want);
    forall q
      ensures q in built <==> q in want
      ensures q in built ==> built[q] == want[q]
    {
      match q
      case LinkedIn =>
      case GitHub =>
      case Twitter =>
      case Instagram =>
      case Website =>
    }
    assert built.Keys == want.Keys;
  }

  /** The edit dialog and skill input of the page. */
  class ProfileEditor {
    var editOpen: bool
    var form: EditForm
    var skillInput: string

    constructor ()
      ensures !editOpen && skillInput == [] && form == EditForm([], [], [], [], [], map[])
    {
      editOpen := false;
      form := EditForm([], [], [], [], [], map[]);
      skillInput := [];
    }

    /** `openEdit`: without a loaded profile nothing happens; otherwise the dialog opens filled in. */
    method OpenEdit(profile: Option<UserProfile>)
      modifies this
      ensures profile.None? ==> editOpen == old(editOpen) && form == old(form)
      ensures profile.Some? ==> editOpen && form == FormOf(profile.value)
      ensures skillInput == old(skillInput)
    {
      if profile.Some? {
        form := FormOf(profile.value);
        editOpen := true;
      }
    }

    /** `handleSaveEdit`: builds the links one platform at a time, then the profile to save. */
    method SaveEdit(current: Option<UserProfile>) returns (m: Option<Queries.Mutation>)
      ensures m.None? <==> Saved(form, current).None?
      ensures m.Some? ==> m.value == Queries.SaveProfile(Saved(form, current).value)
    {
      if form.name == [] || form.department == [] || form.year == [] || form.designation == [] {
        return None;
      }
      var links: SocialLinks := map[];
      links := AddLink(links, LinkedIn);
      links := AddLink(links, GitHub);
      links := AddLink(links, Twitter);
      links := AddLink(links, Instagram);
      links := AddLink(links, Website);
      BuildLinks(LinksFrom(form.links));
      var year := ParseBigInt(form.year);
      if year.None? {
        return None;
      }
      var avatarUrl := if current.Some? then current.value.avatarUrl else [];
      m := Some(Queries.SaveProfile(UserProfile(form.name, form.department, year.value, form.designation,
        form.bio, avatarUrl, links)));
    }

    /** `if (input.trim()) socialLinks[p] = input.trim()` for one platform. */
    method AddLink(links: SocialLinks, p: Platform) returns (r: SocialLinks)
      ensures r == Put(links, p, LinksFrom(form.links))
    {
      var input := if p in form.links then form.links[p] else [];
      var t := Trim(input);
      r := links;
      if t != [] {
        r := r[p := t];
      }
    }

    /** The save's `onSuccess` closes the dialog. */
    method SaveSucceeded()
      modifies this
      ensures !editOpen && form == old(form) && skillInput == old(skillInput)
    {
      editOpen := false;
    }

    method SetSkillInput(text: string)
      modifies this
      ensures skillInput == text && editOpen == old(editOpen) && form == old(form)
    {
      skillInput := text;
    }

    /** `handleAddSkill`: sends the admitted skill, or nothing. */
    method HandleAddSkill(skills: seq<string>) returns (m: Option<Queries.Mutation>)
      ensures m.None? <==> Admit(skills, skillInput).None?
      ensures m.Some? ==> m.value == Queries.AddSkill(Trim(skillInput))
    {
      var admitted := Admit(skills, skillInput);
      m := if admitted.Some? then Some(Queries.AddSkill(admitted.value)) else None;
    }

    /** The add's `onSuccess` clears the input. */
    method AddSkillSucceeded()
      modifies this
      ensures skillInput == [] && editOpen == old(editOpen) && form == old(form)
    {
      skillInput := [];
    }
  }
}
