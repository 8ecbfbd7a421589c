/** The record shapes the remote service returns and accepts. */
module Backend {
  import opened Common
  import opened Identity

  /** The four reputation sub-scores; the remote type is an unbounded bigint. */
  datatype Scores = Scores(contribution: nat, teamwork: nat, skillRelevance: nat, reliability: nat)

  datatype Review = Review(scores: Scores, comment: string, timestamp: int, reviewee: Principal, reviewer: Principal)

  /** The optional keys of the `SocialLinks` record. */
  datatype Platform = LinkedIn | GitHub | Twitter | Instagram | Website

  /** A platform is a key of the map exactly when the record has that field set. */
  type SocialLinks = map<Platform, string>

  datatype UserProfile = UserProfile(
    name: string,
    department: string,
    year: nat,
    designation: string,
    bio: string,
    avatarUrl: string,
    socialLinks: SocialLinks)

  datatype Post = Post(id: string, content: string, author: Principal, likes: seq<Principal>, imageUrl: Option<string>, timestamp: int)

  datatype CommunityPost = CommunityPost(id: string, content: string, author: Principal, timestamp: int)

  datatype Community = Community(id: string, members: seq<Principal>, name: string, description: string, category: string)

  datatype Event = Event(id: string, organizer: Principal, title: string, date: int, tags: seq<string>, description: string, maxParticipants: nat)
}
