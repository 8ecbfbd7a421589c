/**
 * The declarative side of the query hooks: the key each read is cached under,
 * the `enabled` guard that decides whether it may fetch, the fallback its
 * `queryFn` returns without a remote call, what each mutation sends, and the
 * fixed set of key filters each mutation invalidates when it succeeds.
 */
module Queries {
  import opened Common
  import opened Identity
  import Backend

  // ---------------------------------------------------------------- keys

  /** The first element of every query key. */
  datatype Family =
    | CallerProfile | UserProfile | Skills | Reputation | GlobalFeed | PersonalizedFeed
    | Communities | CommunityPosts | Events | EventApplications | Followers | Following
    | SearchBySkill

  /**
   * One element of a key. A parameter that is `undefined` or `null` hashes to the
   * same JSON `null`, so both are `Absent`.
   */
  datatype KeyPart = Name(family: Family) | Param(text: string) | Absent

  type Key = seq<KeyPart>

  /** `invalidateQueries({ queryKey: filter })` reaches every key that starts with `filter`. */
  predicate Matches(filter: Key, k: Key) {
    |filter| <= |k| && k[..|filter|] == filter
  }

  // ---------------------------------------------------------------- reads

  /** Each `use…` read hook with its parameter. */
  datatype Read =
    | CallerProfileRead
    | UserProfileRead(user: Option<Principal>)
    | SkillsRead(user: Option<Principal>)
    | ReputationRead(user: Option<Principal>)
    | GlobalFeedRead
    | PersonalizedFeedRead
    | CommunitiesRead
    | CommunityPostsRead(communityId: Option<string>)
    | EventsRead
    | EventApplicationsRead(eventId: Option<string>)
    | FollowersRead(user: Option<Principal>)
    | FollowingRead(user: Option<Principal>)
    | SearchBySkillRead(skill: string)

  function FamilyOf(r: Read): Family {
    match r
    case CallerProfileRead => CallerProfile
    case UserProfileRead(_) => UserProfile
    case SkillsRead(_) => Skills
    case ReputationRead(_) => Reputation
    case GlobalFeedRead => GlobalFeed
    case PersonalizedFeedRead => PersonalizedFeed
    case CommunitiesRead => Communities
    case CommunityPostsRead(_) => CommunityPosts
    case EventsRead => Events
    case EventApplicationsRead(_) => EventApplications
    case FollowersRead(_) => Followers
    case FollowingRead(_) => Following
    case SearchBySkillRead(_) => SearchBySkill
  }

  /** `user?.toString()` as a key element. */
  function UserPart(user: Option<Principal>): KeyPart {
    if user.None? then Absent else Param(user.value.text)
  }

  /** A string-or-null id as a key element. */
  function IdPart(id: Option<string>): KeyPart {
    if id.None? then Absent else Param(id.value)
  }

  /** The `queryKey` of a read: `[family]` or `[family, parameter]`. */
  function KeyOf(r: Read): (k: Key)
    ensures |k| in {1, 2} && k[0] == Name(FamilyOf(r))
  {
    match r
    case UserProfileRead(u) => [Name(UserProfile), UserPart(u)]
    case SkillsRead(u) => [Name(Skills), UserPart(u)]
    case ReputationRead(u) => [Name(Reputation), UserPart(u)]
    case CommunityPostsRead(id) => [Name(CommunityPosts), IdPart(id)]
    case EventApplicationsRead(id) => [Name(EventApplications), IdPart(id)]
    case FollowersRead(u) => [Name(Followers), UserPart(u)]
    case FollowingRead(u) => [Name(Following), UserPart(u)]
    case SearchBySkillRead(s) => [Name(SearchBySkill), Param(s)]
    case _ => [Name(FamilyOf(r))]
  }

  /** A read with each principal replaced by its canonical text. */
  function Canon(r: Read): Read {
    match r
    case UserProfileRead(u) => UserProfileRead(CanonUser(u))
    case SkillsRead(u) => SkillsRead(CanonUser(u))
    case ReputationRead(u) => ReputationRead(CanonUser(u))
    case FollowersRead(u) => FollowersRead(CanonUser(u))
    case FollowingRead(u) => FollowingRead(CanonUser(u))
    case _ => r
  }

  function CanonUser(u: Option<Principal>): Option<Principal> {
    if u.None? then None else Some(Principal(0, u.value.text))
  }

  /**
   * Two reads share a cache entry exactly when they are the same read of the
   * same canonical parameter: different principals, ids or skills never
   * collide, and two instances of one principal always do.
   */
  lemma KeyInjective(r1: Read, r2: Read)
    ensures KeyOf(r1) == KeyOf(r2) <==> Canon(r1) == Canon(r2)
  {
    if KeyOf(r1) == KeyOf(r2) {
      assert FamilyOf(r1) == FamilyOf(r2);
    }
  }

  /** The parameter is present and truthy: principals always are, ids and skills unless empty. */
  predicate ParamPresent(r: Read) {
    match r
    case UserProfileRead(u) => u.Some?
    case SkillsRead(u) => u.Some?
    case ReputationRead(u) => u.Some?
    case FollowersRead(u) => u.Some?
    case FollowingRead(u) => u.Some?
    case CommunityPostsRead(id) => id.Some? && id.value != ""
    case EventApplicationsRead(id) => id.Some? && id.value != ""
    case SearchBySkillRead(s) => |s| > 0
    case _ => true
  }

  /** The `enabled` option: an actor that is not fetching, and the parameter when there is one. */
  function Enabled(r: Read, actorPresent: bool, isFetching: bool): (b: bool)
    ensures b ==> actorPresent && !isFetching
    ensures !r.SearchBySkillRead? && !ParamPresent(r) ==> !b
  {
    actorPresent && !isFetching && ParamPresent(r)
  }

  /** A search for skill `s` may fetch exactly when `s` is non-empty (and the actor is ready). */
  lemma SearchEnabledIff(s: string, actorPresent: bool, isFetching: bool)
    ensures Enabled(SearchBySkillRead(s), actorPresent, isFetching) <==> actorPresent && !isFetching && s != ""
  {
  }

  /** The remote read operations. */
  datatype ReadCall =
    | GetCallerUserProfile
    | GetUserProfile(user: Principal)
    | GetSkills(user: Principal)
    | GetReputation(user: Principal)
    | GetGlobalFeed
    | GetPersonalizedFeed
    | GetAllCommunities
    | GetCommunityPosts(id: string)
    | GetAllEvents
    | GetEventApplications(eventId: string)
    | GetFollowers(user: Principal)
    | GetFollowing(user: Principal)
    | SearchBySkillCall(skill: string)

  /** What a `queryFn` returns when it does not call out: `null` for profiles, `[]` otherwise. */
  datatype Fallback = NullValue | EmptyList

  datatype Fetch = Local(value: Fallback) | Remote(call: ReadCall)

  /** The `queryFn` of a read: a fallback when the actor or parameter is missing, else one remote call. */
  function QueryFn(r: Read, actorPresent: bool): (f: Fetch)
    ensures f.Remote? <==> actorPresent && ParamPresent(r)
    ensures f.Local? ==> (f.value == NullValue <==> r.CallerProfileRead? || r.UserProfileRead?)
  {
    if !actorPresent || !ParamPresent(r) then
      Local(if r.CallerProfileRead? || r.UserProfileRead? then NullValue else EmptyList)
    else
      match r
      case CallerProfileRead => Remote(GetCallerUserProfile)
      case UserProfileRead(u) => Remote(GetUserProfile(u.value))
      case SkillsRead(u) => Remote(GetSkills(u.value))
      case ReputationRead(u) => Remote(GetReputation(u.value))
      case GlobalFeedRead => Remote(GetGlobalFeed)
      case PersonalizedFeedRead => Remote(GetPersonalizedFeed)
      case CommunitiesRead => Remote(GetAllCommunities)
      case CommunityPostsRead(id) => Remote(GetCommunityPosts(id.value))
      case EventsRead => Remote(GetAllEvents)
      case EventApplicationsRead(id) => Remote(GetEventApplications(id.value))
      case FollowersRead(u) => Remote(GetFollowers(u.value))
      case FollowingRead(u) => Remote(GetFollowing(u.value))
      case SearchBySkillRead(s) => Remote(SearchBySkillCall(s))
  }

  /** The key under which the answer of a remote read belongs. */
  function CallKey(c: ReadCall): Key {
    match c
    case GetCallerUserProfile => [Name(CallerProfile)]
    case GetUserProfile(u) => [Name(UserProfile), Param(u.text)]
    case GetSkills(u) => [Name(Skills), Param(u.text)]
    case GetReputation(u) => [Name(Reputation), Param(u.text)]
    case GetGlobalFeed => [Name(GlobalFeed)]
    case GetPersonalizedFeed => [Name(PersonalizedFeed)]
    case GetAllCommunities => [Name(Communities)]
    case GetCommunityPosts(id) => [Name(CommunityPosts), Param(id)]
    case GetAllEvents => [Name(Events)]
    case GetEventApplications(id) => [Name(EventApplications), Param(id)]
    case GetFollowers(u) => [Name(Followers), Param(u.text)]
    case GetFollowing(u) => [Name(Following), Param(u.text)]
    case SearchBySkillCall(s) => [Name(SearchBySkill), Param(s)]
  }

  /**
   * An enabled read always calls out, and the call it makes asks for exactly
   * the data its key names; a read whose actor or parameter is missing calls
   * nothing.
   */
  lemma EnabledReadFetchesItsKey(r: Read, actorPresent: bool, isFetching: bool)
    ensures Enabled(r, actorPresent, isFetching) ==> QueryFn(r, actorPresent).Remote?
    ensures QueryFn(r, actorPresent).Remote? ==> CallKey(QueryFn(r, actorPresent).call) == KeyOf(r)
    ensures !actorPresent ==> QueryFn(r, actorPresent).Local?
  {
  }

  // ---------------------------------------------------------------- mutations

  /** Each `use…` mutation hook with the variables passed to `mutate`. */
  datatype Mutation =
    | SaveProfile(profile: Backend.UserProfile)
    | AddSkill(skill: string)
    | RemoveSkill(skill: string)
    | SubmitReview(reviewee: Principal, scores: Backend.Scores, comment: string)
    | CreatePost(content: string, imageUrl: Option<string>)
    | LikePost(postId: string)
    | CommentOnPost(postId: string, content: string)
    | JoinCommunity(id: string)
    | LeaveCommunity(id: string)
    | CreateCommunity(name: string, description: string, category: string)
    | PostCommunityMessage(communityId: string, content: string)
    | ApplyToEvent(id: string)
    | CreateEvent(title: string, description: string, date: int, tags: seq<string>, maxParticipants: nat)
    | ApproveApplication(eventId: string, applicant: Principal)
    | RejectApplication(eventId: string, applicant: Principal)
    | Follow(user: Principal)
    | Unfollow(user: Principal)

  /** The mutations whose `mutationFn` draws a fresh id from `crypto.randomUUID()`. */
  predicate CreatesEntity(m: Mutation) {
    m.CreatePost? || m.CreateCommunity? || m.CreateEvent?
  }

  /** One remote write: the mutation's variables, plus the fresh id of a created entity. */
  datatype WriteCall = WriteCall(mutation: Mutation, newId: Option<string>)

  datatype Result<T> = Success(value: T) | Failure(error: string)

  const NotAuthenticated := "Not authenticated"

  /**
   * The `mutationFn`: without an actor it throws "Not authenticated" before any
   * remote call; otherwise it makes exactly one call carrying the mutation's
   * variables, with the fresh id (the random UUID, a parameter here) when it
   * creates an entity.
   */
  function MutationFn(m: Mutation, actorPresent: bool, freshId: string): (r: Result<WriteCall>)
    ensures !actorPresent <==> r == Failure(NotAuthenticated)
    ensures r.Success? ==> r.value.mutation == m
    ensures r.Success? ==> (r.value.newId.Some? <==> CreatesEntity(m))
  {
    if !actorPresent then Failure(NotAuthenticated)
    else Success(WriteCall(m, if CreatesEntity(m) then Some(freshId) else None))
  }

  // ---------------------------------------------------------------- invalidation

  /** The key filters that `onSuccess` passes to `invalidateQueries`, in order. */
  function Invalidates(m: Mutation): (filters: seq<Key>)
    ensures 1 <= |filters| <= 2
    ensures forall i :: 0 <= i < |filters| ==> 1 <= |filters[i]| <= 2
  {
    match m
    case SaveProfile(_) => [[Name(CallerProfile)]]
    case AddSkill(_) => [[Name(Skills)]]
    case RemoveSkill(_) => [[Name(Skills)]]
    case SubmitReview(reviewee, _, _) => [[Name(Reputation), Param(reviewee.text)]]
    case CreatePost(_, _) => [[Name(GlobalFeed)], [Name(PersonalizedFeed)]]
    case LikePost(_) => [[Name(GlobalFeed)], [Name(PersonalizedFeed)]]
    case CommentOnPost(_, _) => [[Name(GlobalFeed)], [Name(PersonalizedFeed)]]
    case JoinCommunity(_) => [[Name(Communities)]]
    case LeaveCommunity(_) => [[Name(Communities)]]
    case CreateCommunity(_, _, _) => [[Name(Communities)]]
    case PostCommunityMessage(communityId, _) => [[Name(CommunityPosts), Param(communityId)]]
    case ApplyToEvent(_) => [[Name(Events)]]
    case CreateEvent(_, _, _, _, _) => [[Name(Events)]]
    case ApproveApplication(eventId, _) => [[Name(EventApplications), Param(eventId)]]
    case RejectApplication(eventId, _) => [[Name(EventApplications), Param(eventId)]]
    case Follow(_) => [[Name(Followers)], [Name(Following)]]
    case Unfollow(_) => [[Name(Followers)], [Name(Following)]]
  }

  /** Some filter of a successful `m` reaches key `k`. */
  predicate Affected(m: Mutation, k: Key) {
    exists i :: 0 <= i < |Invalidates(m)| && Matches(Invalidates(m)[i], k)
  }

  /**
   * The reads a successful mutation makes stale, stated over reads rather than
   * keys: every per-user skills, followers and following list, both feeds, all
   * community and event lists, but only the reviewee's reputation and only the
   * one community's messages or one event's applicants.
   */
  predicate Refreshes(m: Mutation, r: Read) {
    match m
    case SaveProfile(_) => r.CallerProfileRead?
    case AddSkill(_) => r.SkillsRead?
    case RemoveSkill(_) => r.SkillsRead?
    case SubmitReview(reviewee, _, _) => r.ReputationRead? && SameText(r.user, Some(reviewee))
    case CreatePost(_, _) => r.GlobalFeedRead? || r.PersonalizedFeedRead?
    case LikePost(_) => r.GlobalFeedRead? || r.PersonalizedFeedRead?
    case CommentOnPost(_, _) => r.GlobalFeedRead? || r.PersonalizedFeedRead?
    case JoinCommunity(_) => r.CommunitiesRead?
    case LeaveCommunity(_) => r.CommunitiesRead?
    case CreateCommunity(_, _, _) => r.CommunitiesRead?
    case PostCommunityMessage(communityId, _) => r == CommunityPostsRead(Some(communityId))
    case ApplyToEvent(_) => r.EventsRead?
    case CreateEvent(_, _, _, _, _) => r.EventsRead?
    case ApproveApplication(eventId, _) => r == EventApplicationsRead(Some(eventId))
    case RejectApplication(eventId, _) => r == EventApplicationsRead(Some(eventId))
    case Follow(_) => r.FollowersRead? || r.FollowingRead?
    case Unfollow(_) => r.FollowersRead? || r.FollowingRead?
  }

  /** The prefix filters reach the cache entry of read `r` exactly when `Refreshes(m, r)`. */
  lemma InvalidationExact(m: Mutation, r: Read)
    ensures Affected(m, KeyOf(r)) <==> Refreshes(m, r)
  {
    var k := KeyOf(r);
    var fs := Invalidates(m);
    if Refreshes(m, r) {
      var i := if (m.CreatePost? || m.LikePost? || m.CommentOnPost?) && r.PersonalizedFeedRead? then 1
               else if (m.Follow? || m.Unfollow?) && r.FollowingRead? then 1
               else 0;
      assert k[..|fs[i]|] == fs[i];
    }
    if Affected(m, k) {
      var i :| 0 <= i < |fs| && Matches(fs[i], k);
      MatchRefreshes(m, r, i);
    }
  }

  /** A filter of `m` that reaches the key of `r` agrees with it on family and parameter. */
  lemma MatchRefreshes(m: Mutation, r: Read, i: int)
    requires 0 <= i < |Invalidates(m)| && Matches(Invalidates(m)[i], KeyOf(r))
    ensures Refreshes(m, r)
  {
    var k, f := KeyOf(r), Invalidates(m)[i];
    assert k[0] == f[0];
    if |f| == 2 {
      assert k[1] == f[1];
    }
  }

  /** Applying to an event leaves that event's cached applicant list as it was. */
  lemma ApplyKeepsApplicants(eventId: string, other: Option<string>)
    ensures !Affected(ApplyToEvent(eventId), KeyOf(EventApplicationsRead(other)))
  {
    InvalidationExact(ApplyToEvent(eventId), EventApplicationsRead(other));
  }

  /** Saving the caller's profile leaves every cached `userProfile` entry as it was, the caller's own included. */
  lemma SaveProfileKeepsUserProfiles(profile: Backend.UserProfile, user: Option<Principal>)
    ensures !Affected(SaveProfile(profile), KeyOf(UserProfileRead(user)))
  {
    InvalidationExact(SaveProfile(profile), UserProfileRead(user));
  }

  /** Failing without an actor is the only way `MutationFn` fails, and then nothing is sent. */
  lemma UnauthenticatedSendsNothing(m: Mutation, freshId: string)
    ensures MutationFn(m, false, freshId).Failure?
    ensures MutationFn(m, true, freshId).Success?
  {
  }
}
