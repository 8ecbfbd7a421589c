# Linkora front end, modelled in Dafny

Linkora is a campus networking app. Its React front end talks to a remote
actor (a backend canister). This project models the front end's core logic:

- **Reputation:** the aggregate reputation and its colour bands.
- **Discover page:** the compatibility score shown on a teammate card, and the
  search box.
- **Query hooks:** the react-query keys, `enabled` guards and `queryFn`
  fallbacks. Also each mutation's `mutationFn` and the keys its `onSuccess`
  invalidates, with an abstract cache table those invalidations act on.
- **Principals:** the shortened display of a principal.
- **Onboarding:** the two-step form.
- **Profile page:** follow state, posts, the edit dialog with its social
  links, skills and reviews.
- **Communities:** membership, categories, a sorted message thread, and the
  create and send guards.
- **Shared formatting:** the relative time label.
- **Events page:** tags, the participant cap, the date conversion and the
  organizer-only applicant panel.
- **Post card:** likes and the comment box.
- **App shell:** the screen gating and navigation state.

How each part is modelled:

- **Pure code** (key builders, colour bands, compatibility, truncation, tags)
  is functions and lemmas.
- **Component state** updated by handlers (`step`/`skills` in onboarding,
  `activeSearch`, `activePage`/`viewingProfile`, the edit dialog, the create
  forms, the comment and message boxes) is classes with `modifies` clauses.
  Their invariants are `Valid()` predicates.
- **The query client's table** is a class whose `Invalidate` updates entries
  in place. `Mutate` invalidates a mutation's filters one after another in a
  loop.
- **The message thread** is sorted as the page does it: a copy, sorted in an
  array by insertion.
- **Floating point:** `Math.round` and `Number` are replaced by exact integer
  formulas. Lemmas tie those formulas to a `real` reference definition.
- **Principals** are compared by their text form, as every page does.
  `Identity.Principal` keeps an instance number, so that two objects with one
  text can be told apart.

Modules: `Common`, `Text` (JavaScript's `trim`, `split`, `join`, `BigInt`,
`parseInt`, `toString` on naturals), `Identity`, `Backend` (record shapes),
`ReputationBar`, `DiscoverPage`, `Queries`, `QueryCache`, `PrincipalText`,
`SkillTags` (the add-skill guard shared by onboarding and the profile page),
`OnboardingPage`, `ProfilePage`, `TimeFormat` (`formatTime`, identical in
`CommunitiesPage.tsx` and `PostCard.tsx`), `CommunitiesPage`, `EventsPage`,
`PostCard` and `App`.

## Model

| member | source | states |
|---|---|---|
| Text.TrimStart | src/frontend/src/pages/OnboardingPage.tsx:40 | the leading-white-space strip is never longer than its input; `TrimStartSpec` shows it drops exactly the leading run |
| Text.TrimEnd | src/frontend/src/pages/OnboardingPage.tsx:40 | the trailing-white-space strip is never longer than its input; `TrimEndSpec` shows it drops exactly the trailing run |
| Text.Trim | src/frontend/src/pages/OnboardingPage.tsx:40 | `trim()` gives a string with no white space at either end, empty exactly when the input is blank |
| Text.TrimIsMiddle | src/frontend/src/pages/OnboardingPage.tsx:40 | what `trim()` keeps is one contiguous slice, with only white space outside it |
| Text.TrimIdempotent | src/frontend/src/pages/DiscoverPage.tsx:105-106 | trimming twice is trimming once |
| Text.TrimOfTrimmed | src/frontend/src/pages/ProfilePage.tsx:204-208 | a string already trimmed is its own trim |
| Text.TrimKeepsOut | src/frontend/src/pages/EventsPage.tsx:201 | trimming never brings in a character, e.g. a comma, that the input lacked |
| Text.Split | src/frontend/src/pages/EventsPage.tsx:201 | `split(",")` gives at least one piece, and no piece contains the separator |
| Text.Join | src/frontend/src/pages/EventsPage.tsx:201 | the comma-separated text a user types for a list of tags; `JoinSplit` and `SplitJoin` make it the inverse of `split` |
| Text.JoinSplit | src/frontend/src/pages/EventsPage.tsx:201 | joining the pieces of a split restores the string |
| Text.SplitJoin | src/frontend/src/pages/EventsPage.tsx:201 | splitting a join of separator-free pieces gives back the pieces |
| Text.NatToDecimal | src/frontend/src/pages/ProfilePage.tsx:187 | `year.toString()` is a non-empty digit string with no leading zero except for 0 |
| Text.DecimalRoundTrip | src/frontend/src/pages/ProfilePage.tsx:187 | reading the digits of `toString()` back gives the number |
| Text.ParseBigInt | src/frontend/src/pages/OnboardingPage.tsx:57 | `BigInt(s)` succeeds exactly on digit strings |
| Text.ParseBigIntOfToString | src/frontend/src/pages/ProfilePage.tsx:187 | `BigInt(n.toString()) == n` |
| Text.SplitFree | src/frontend/src/pages/EventsPage.tsx:201 | a string without the separator splits into itself alone |
| Text.SplitPrefix | src/frontend/src/pages/EventsPage.tsx:201 | a separator-free head and the separator split off as the first piece |
| Text.DigitPrefix | src/frontend/src/pages/EventsPage.tsx:209 | the longest run of digits at the front of a string |
| Text.ParseInt | src/frontend/src/pages/EventsPage.tsx:209 | `parseInt` is NaN exactly when no digit follows the leading white space and sign |
| Text.DigitPrefixAll | src/frontend/src/pages/EventsPage.tsx:209 | `parseInt` reads an all-digit string whole |
| Text.ParseIntOfToString | src/frontend/src/pages/EventsPage.tsx:209 | `parseInt(n.toString()) == n` |
| Text.Capitalize | src/frontend/src/App.tsx:171 | the first character upper-cased, the rest unchanged, the length kept |
| Identity.ContainsText | src/frontend/src/pages/CommunitiesPage.tsx:70 | `some((m) => m.toString() === p.toString())` holds iff some element has p's text |
| Identity.HeldBy | src/frontend/src/pages/CommunitiesPage.tsx:69-71 | false without a caller, else membership by text |
| Identity.ContainsTextCanonical | src/frontend/src/components/PostCard.tsx:32-34 | which principal object stands for a participant does not change membership |
| Identity.HeldAfterAppend | src/frontend/src/pages/CommunitiesPage.tsx:194-197 | a list with the caller's text appended is held by the caller |
| ReputationBar.RoundDiv | src/frontend/src/components/ReputationBar.tsx:6 | `(2a + b) / (2b)` equals `Math.round(a / b)` on the exact quotient |
| ReputationBar.RoundDivCorrect | src/frontend/src/components/ReputationBar.tsx:6 | a quotient and remainder of `2a + b` by `2b` give `Math.round(a / b)` on the exact reals |
| ReputationBar.AvgScore | src/frontend/src/components/ReputationBar.tsx:3-7 | a bar is 0 without reviews, else `min(100, round(sum / n))`, never above 100 |
| ReputationBar.DimensionSum | src/frontend/src/components/ReputationBar.tsx:5 | the `reduce` sum of one dimension over the reviews; `DimensionSumUniform` and `AvgScore` state its meaning |
| ReputationBar.DimensionSumUniform | src/frontend/src/components/ReputationBar.tsx:5 | equal scores `x` sum to `n * x` |
| ReputationBar.AvgScoreUniform | src/frontend/src/components/ReputationBar.tsx:3-7 | when every review gives `x <= 100` the bar shows exactly `x` |
| ReputationBar.TotalScore | src/frontend/src/components/ReputationBar.tsx:11-15 | all four scores over all reviews; order-free and monotone by the lemmas below |
| ReputationBar.SumOfMeansIsQuarterTotal | src/frontend/src/components/ReputationBar.tsx:11-15 | the sum of per-review means is a quarter of the sum of all scores |
| ReputationBar.AvgReputation | src/frontend/src/components/ReputationBar.tsx:9-16 | 0 without reviews, else `min(100, round(mean of the per-review means))`, at most 100 |
| ReputationBar.AvgReputationMeaning | src/frontend/src/components/ReputationBar.tsx:15 | the integer formula agrees with rounding the real mean |
| ReputationBar.AvgReputationClosedForm | src/frontend/src/components/ReputationBar.tsx:9-16 | reputation is `min(100, (T + 2n) / (4n))` for total score T over n reviews |
| ReputationBar.TotalScoreRemove | src/frontend/src/components/ReputationBar.tsx:11-15 | the total splits into one review plus the others |
| ReputationBar.TotalScorePermutation | src/frontend/src/components/ReputationBar.tsx:11-15 | the total does not depend on review order |
| ReputationBar.AvgReputationPermutation | src/frontend/src/components/ReputationBar.tsx:9-16 | reordering reviews leaves the reputation unchanged |
| ReputationBar.TotalScoreMonotone | src/frontend/src/components/ReputationBar.tsx:11-15 | raising one review's scores never lowers the total |
| ReputationBar.AvgReputationMonotone | src/frontend/src/components/ReputationBar.tsx:9-16 | raising one review's scores never lowers the reputation |
| ReputationBar.Band | src/frontend/src/components/ReputationBar.tsx:22-27 | the number of descending thresholds reached, each band as an if-and-only-if |
| ReputationBar.BandMonotone | src/frontend/src/components/ReputationBar.tsx:22-27 | a higher value never falls into a lower band |
| ReputationBar.ScoreBarColor | src/frontend/src/components/ReputationBar.tsx:22-27 | emerald from 75, teal from 50, amber from 25, rose below |
| ReputationBar.BadgeColor | src/frontend/src/components/ReputationBar.tsx:66-71 | the badge uses the same bands on the reputation, muted below 25 |
| ReputationBar.BadgeOfNoReviews | src/frontend/src/components/ReputationBar.tsx:10 | no reviews: the badge reads 0 and is muted |
| DiscoverPage.RoundTwoFifths | src/frontend/src/pages/DiscoverPage.tsx:19 | the integer formula equals `Math.round(rep * 0.4)` on the exact product |
| DiscoverPage.RoundTwoFifthsStable | src/frontend/src/pages/DiscoverPage.tsx:19 | `rep * 0.4` is never within 0.1 of a tie, so floating error under 0.1 cannot change the rounding |
| DiscoverPage.CompatibilityOf | src/frontend/src/pages/DiscoverPage.tsx:19-20 | `clamp(50 + round(rep * 0.4), 10, 100)`, within [10, 100] |
| DiscoverPage.Compatibility | src/frontend/src/pages/DiscoverPage.tsx:16-21 | within [10, 100], and 50 without reviews |
| DiscoverPage.CompatibilityOfReputation | src/frontend/src/pages/DiscoverPage.tsx:16-21 | for reputation up to 100 no clamp applies: `50 + (4rep + 5) / 10`, within [50, 90] |
| DiscoverPage.CompatibilityBetween | src/frontend/src/pages/DiscoverPage.tsx:16-21 | every review list scores 50 to 90; the clamp to 10 and 100 is never reached |
| DiscoverPage.CompatibilityMonotone | src/frontend/src/pages/DiscoverPage.tsx:16-21 | higher reputation never means lower compatibility |
| DiscoverPage.CompatibilityMonotoneInScores | src/frontend/src/pages/DiscoverPage.tsx:16-21 | raising one review's scores never lowers compatibility |
| DiscoverPage.TwoReviewScenario | src/frontend/src/pages/DiscoverPage.tsx:16-21 | reviews with means 75 and 45 give reputation 60 and compatibility 74 |
| DiscoverPage.CompatibilityColor | src/frontend/src/pages/DiscoverPage.tsx:23-28 | emerald iff ≥ 80, teal iff in [60, 80), amber iff in [40, 60), muted iff < 40 |
| DiscoverPage.CompatibilityColorByReputation | src/frontend/src/pages/DiscoverPage.tsx:38-39 | on a card: emerald iff reputation ≥ 74, teal iff in [24, 74), amber iff < 24; muted never shows |
| DiscoverPage.SkillPreview | src/frontend/src/pages/DiscoverPage.tsx:71-80 | the first min(6, n) skills, and a "+k more" count iff more than six |
| DiscoverPage.PopularSkillsTrimmed | src/frontend/src/pages/DiscoverPage.tsx:11-14 | every skill chip is non-empty and trimmed |
| DiscoverPage.Search.constructor | src/frontend/src/pages/DiscoverPage.tsx:99-100 | both the input and the active search start empty |
| DiscoverPage.Search.ButtonEnabled | src/frontend/src/pages/DiscoverPage.tsx:142 | the search button is enabled iff the input is not blank |
| DiscoverPage.Search.CurrentRead | src/frontend/src/pages/DiscoverPage.tsx:102 | the page reads the active skill, enabled iff that skill is non-empty |
| DiscoverPage.Search.SetSearchInput | src/frontend/src/pages/DiscoverPage.tsx:134 | typing changes only the input |
| DiscoverPage.Search.HandleSearch | src/frontend/src/pages/DiscoverPage.tsx:104-108 | a non-blank input becomes the trimmed active search; a blank one changes nothing; the active search stays trimmed |
| DiscoverPage.Search.HandleSkillChip | src/frontend/src/pages/DiscoverPage.tsx:110-113 | a chip fills the input and runs its search, which is enabled |
| Queries.Matches | src/frontend/src/hooks/useQueries.ts:49 | `invalidateQueries` reaches a key iff the filter is a prefix of it; `InvalidationExact` ties it to `Refreshes` |
| Queries.KeyOf | src/frontend/src/hooks/useQueries.ts:19 | every key is `[family]` or `[family, parameter]` |
| Queries.KeyInjective | src/frontend/src/hooks/useQueries.ts:31 | two reads share a key iff they agree up to principal texts (undefined and null coincide) |
| Queries.Enabled | src/frontend/src/hooks/useQueries.ts:36 | a read can fetch only with an actor, not while fetching, and with its parameter present |
| Queries.SearchEnabledIff | src/frontend/src/hooks/useQueries.ts:480 | a skill search is enabled iff the actor is ready and the skill is non-empty |
| Queries.QueryFn | src/frontend/src/hooks/useQueries.ts:33 | a remote call iff actor and parameter are present; otherwise `null` for profile reads, `[]` else |
| Queries.EnabledReadFetchesItsKey | src/frontend/src/hooks/useQueries.ts:224-233 | an enabled read calls out, and the answer belongs under the read's own key |
| Queries.MutationFn | src/frontend/src/hooks/useQueries.ts:44-45 | fails with "Not authenticated" iff no actor; otherwise sends the variables, with a fresh id iff it creates an entity |
| Queries.MatchRefreshes | src/frontend/src/hooks/useQueries.ts:174-175 | a filter of a mutation that matches a read's key belongs to a read the mutation refreshes |
| Queries.UnauthenticatedSendsNothing | src/frontend/src/hooks/useQueries.ts:170 | without an actor every mutation fails; with one none fails locally |
| Queries.Refreshes | src/frontend/src/hooks/useQueries.ts:174-175 | the reference table of which reads each mutation is meant to refresh, one row per `onSuccess` |
| Queries.Invalidates | src/frontend/src/hooks/useQueries.ts:49 | each `onSuccess` invalidates one or two filters of one or two parts |
| Queries.InvalidationExact | src/frontend/src/hooks/useQueries.ts:174-175 | a mutation's prefix filters reach a read's key iff the read is one the mutation refreshes |
| Queries.ApplyKeepsApplicants | src/frontend/src/hooks/useQueries.ts:342 | applying to an event never refreshes any applicant list |
| Queries.SaveProfileKeepsUserProfiles | src/frontend/src/hooks/useQueries.ts:49 | saving a profile never refreshes a `userProfile` entry, the caller's own included |
| QueryCache.MarkStale | src/frontend/src/hooks/useQueries.ts:77 | one invalidation keeps every key and value and sets stale where the filter matches |
| QueryCache.InvalidateAll | src/frontend/src/hooks/useQueries.ts:449-450 | successive invalidations keep the set of cached keys |
| QueryCache.InvalidateAllMeaning | src/frontend/src/hooks/useQueries.ts:449-450 | after a list of invalidations an entry is stale iff it was already stale or some filter matches it |
| QueryCache.MutationMarksExactly | src/frontend/src/hooks/useQueries.ts:127 | after a successful mutation a cached read is stale iff it was already stale or the mutation refreshes it |
| QueryCache.FollowMarksBothLists | src/frontend/src/hooks/useQueries.ts:440-451 | following marks the target's followers and the caller's following list for refetch |
| QueryCache.Cache.Settle | src/frontend/src/hooks/useQueries.ts:16-25 | a resolved fetch stores a fresh entry, after which the read needs no fetch |
| QueryCache.Cache.Invalidate | src/frontend/src/hooks/useQueries.ts:302 | `invalidateQueries` marks matching entries stale in place, nothing else changes |
| QueryCache.Cache.Mutate | src/frontend/src/hooks/useQueries.ts:40-53 | the table changes only after both the local check and the remote call succeed, and then by exactly the mutation's filters |
| PrincipalText.Truncate | src/frontend/src/components/PrincipalText.tsx:11-13 | text up to `2L + 3` long is shown whole; longer text shows its first L characters, "…" and its last 4 |
| PrincipalText.TruncateNotLonger | src/frontend/src/components/PrincipalText.tsx:11-13 | for L ≥ 1 the shown text is never longer; for L ≥ 2 it is shorter iff cut |
| PrincipalText.DefaultCutoff | src/frontend/src/components/PrincipalText.tsx:9 | with the default 8, up to 19 characters show whole and longer texts show 13 |
| PrincipalText.Render | src/frontend/src/components/PrincipalText.tsx:10-17 | the hover title is the full text and the shown text its truncation |
| PrincipalText.RenderSameForStringAndPrincipal | src/frontend/src/components/PrincipalText.tsx:10 | a principal and its string render identically |
| SkillTags.Admit | src/frontend/src/pages/OnboardingPage.tsx:40-41 | a skill is admitted iff its trim is non-empty, not held, and fewer than 15 are held; the trim is added |
| SkillTags.Without | src/frontend/src/pages/OnboardingPage.tsx:46 | the filter keeps exactly the entries different from `s` |
| SkillTags.WithoutAbsent | src/frontend/src/pages/OnboardingPage.tsx:46 | removing an absent skill changes nothing |
| SkillTags.WithoutAppend | src/frontend/src/pages/OnboardingPage.tsx:46 | the filter keeps order: it distributes over concatenation |
| SkillTags.WithoutKeepsDistinct | src/frontend/src/pages/OnboardingPage.tsx:46 | removal keeps a list free of duplicates |
| SkillTags.AdmitKeepsWellFormed | src/frontend/src/pages/OnboardingPage.tsx:39-44 | an admitted add keeps the list distinct, trimmed, non-empty and at most 15 long |
| SkillTags.WithoutKeepsWellFormed | src/frontend/src/pages/OnboardingPage.tsx:46 | removal keeps that invariant |
| SkillTags.AddThenRemove | src/frontend/src/pages/OnboardingPage.tsx:42-46 | an add that went through, then removal of that skill, restores the list |
| SkillTags.CapRejects | src/frontend/src/pages/ProfilePage.tsx:256 | with 15 skills held nothing is admitted |
| OnboardingPage.YearsConvert | src/frontend/src/pages/OnboardingPage.tsx:19 | every year choice converts with `BigInt` to 1..4 |
| OnboardingPage.Onboarding.constructor | src/frontend/src/pages/OnboardingPage.tsx:27-34 | step 1, every field and the skill list empty |
| OnboardingPage.Onboarding.EditField | src/frontend/src/pages/OnboardingPage.tsx:28-32 | typing on step 1 changes only the one field |
| OnboardingPage.Onboarding.Next | src/frontend/src/pages/OnboardingPage.tsx:76 | step 2 is reached iff name, department, year and designation are all non-empty |
| OnboardingPage.Onboarding.Back | src/frontend/src/pages/OnboardingPage.tsx:27 | back returns to step 1 and keeps every field |
| OnboardingPage.Onboarding.SetSkillInput | src/frontend/src/pages/OnboardingPage.tsx:34 | typing a skill changes only the input |
| OnboardingPage.Onboarding.AddSkillTag | src/frontend/src/pages/OnboardingPage.tsx:39-44 | an admitted skill is appended trimmed and only then is the input cleared; otherwise nothing changes |
| OnboardingPage.Onboarding.RemoveSkill | src/frontend/src/pages/OnboardingPage.tsx:46 | removal filters the list and keeps the invariant |
| OnboardingPage.Onboarding.Submit | src/frontend/src/pages/OnboardingPage.tsx:48-62 | nothing without the required fields; otherwise the typed fields, avatar "" and no social links |
| OnboardingPage.Requests | src/frontend/src/pages/OnboardingPage.tsx:64-69 | the profile save comes first; one skill add per tag follows only once it succeeded |
| OnboardingPage.SkillsFollowSave | src/frontend/src/pages/OnboardingPage.tsx:65-69 | a skill is sent only after the save succeeded, and then every tag is sent |
| ProfilePage.TargetPrincipal | src/frontend/src/pages/ProfilePage.tsx:122 | the viewed principal, else the caller |
| ProfilePage.IsOwnProfile | src/frontend/src/pages/ProfilePage.tsx:123 | true without a viewed principal, else iff it has the caller's text |
| ProfilePage.OwnProfileIffTargetIsCaller | src/frontend/src/pages/ProfilePage.tsx:122-123 | own profile iff the target has the caller's text |
| ProfilePage.PageReads | src/frontend/src/pages/ProfilePage.tsx:126-131 | six reads, the first the caller's own profile |
| ProfilePage.ProfileReadIgnoresTarget | src/frontend/src/pages/ProfilePage.tsx:126-127 | the profile read is the caller's whoever is viewed, while the lists follow the target |
| ProfilePage.IsFollowing | src/frontend/src/pages/ProfilePage.tsx:179-181 | false without a caller or followers, else iff a follower has the caller's text |
| ProfilePage.UserPosts | src/frontend/src/pages/ProfilePage.tsx:175-177 | the filter never yields more posts than the feed holds |
| ProfilePage.UserPostsMembers | src/frontend/src/pages/ProfilePage.tsx:175-177 | exactly the feed posts whose author has the target's text |
| ProfilePage.UserPostsAppend | src/frontend/src/pages/ProfilePage.tsx:175-177 | the filter keeps feed order |
| ProfilePage.FollowToggle | src/frontend/src/pages/ProfilePage.tsx:290-302 | nothing without a target, else unfollow iff following and follow otherwise |
| ProfilePage.FollowToggleRefreshesFollowers | src/frontend/src/pages/ProfilePage.tsx:290-302 | either toggle refreshes the followers read that the follow state comes from |
| ProfilePage.ReviewRequest | src/frontend/src/pages/ProfilePage.tsx:269-278 | nothing without a target, else the target, the scores and the trimmed comment |
| ProfilePage.ReviewRefreshesReputation | src/frontend/src/pages/ProfilePage.tsx:269-278 | of the page's six reads a review refreshes exactly the reputation read |
| ProfilePage.HasSocialLinks | src/frontend/src/pages/ProfilePage.tsx:324-330 | holds only for a non-empty link map |
| ProfilePage.HasSocialLinksOfSaved | src/frontend/src/pages/ProfilePage.tsx:323-330 | for saved links the section shows iff any link was saved |
| ProfilePage.LinksFrom | src/frontend/src/pages/ProfilePage.tsx:203-208 | a platform key iff its trimmed input is non-empty, holding the trimmed input |
| ProfilePage.LinksFromIdempotent | src/frontend/src/pages/ProfilePage.tsx:203-208 | saving saved links again changes nothing |
| ProfilePage.FormOf | src/frontend/src/pages/ProfilePage.tsx:183-196 | the dialog holds all five platform inputs and a year that converts back to the profile's |
| ProfilePage.Saved | src/frontend/src/pages/ProfilePage.tsx:198-218 | nothing without the required fields or a digit year; otherwise the inputs, `LinksFrom` and the current avatar or "" |
| ProfilePage.EditRoundTrip | src/frontend/src/pages/ProfilePage.tsx:183-218 | opening and saving unchanged reproduces a complete profile with clean links; absent links stay absent |
| ProfilePage.RoundTripAt | src/frontend/src/pages/ProfilePage.tsx:190-194 | one platform's link, if present non-empty and trimmed, survives the dialog unchanged; an absent one stays absent, whatever the other links hold |
| ProfilePage.PerLinkRoundTrip | src/frontend/src/pages/ProfilePage.tsx:183-208 | for any profile, a link survives open-and-save iff it was present and not blank, trimmed; clean links come back unchanged and absent links stay absent |
| ProfilePage.ProfileEditor.OpenEdit | src/frontend/src/pages/ProfilePage.tsx:183-196 | without a profile nothing changes; otherwise the dialog opens filled from it |
| ProfilePage.ProfileEditor.SaveEdit | src/frontend/src/pages/ProfilePage.tsx:198-219 | the save built platform by platform is exactly `Saved` |
| ProfilePage.ProfileEditor.AddLink | src/frontend/src/pages/ProfilePage.tsx:204-208 | one conditional assignment adds that platform's trimmed link iff it is non-blank |
| ProfilePage.ProfileEditor.SaveSucceeded | src/frontend/src/pages/ProfilePage.tsx:220 | a successful save closes the dialog |
| ProfilePage.ProfileEditor.HandleAddSkill | src/frontend/src/pages/ProfilePage.tsx:254-257 | the trimmed skill is sent iff admitted |
| ProfilePage.ProfileEditor.AddSkillSucceeded | src/frontend/src/pages/ProfilePage.tsx:258 | a successful add clears the input |
| TimeFormat.NsToMs | src/frontend/src/pages/CommunitiesPage.tsx:50 | `BigInt` division by 1,000,000 truncates toward zero |
| TimeFormat.MsRoundTrip | src/frontend/src/pages/EventsPage.tsx:200 | a date in ms scaled to ns converts back to the same ms |
| TimeFormat.ElapsedSince | src/frontend/src/pages/CommunitiesPage.tsx:51-55 | under a minute (the future included) is "just now"; minutes 1..59, hours 1..23, days ≥ 1, each the whole units elapsed |
| TimeFormat.ElapsedMonotone | src/frontend/src/components/PostCard.tsx:19-23 | as the clock advances a label never moves back |
| TimeFormat.Label | src/frontend/src/pages/CommunitiesPage.tsx:52-55 | "just now", or the count in decimal followed by "m ago", "h ago" or "d ago"; `LabelRoundTrip` makes it injective |
| TimeFormat.LabelRoundTrip | src/frontend/src/pages/CommunitiesPage.tsx:52-55 | every label reads back to its bucket and count, so labels never collide |
| TimeFormat.FormatTime | src/frontend/src/components/PostCard.tsx:17-24 | exactly the label of the bucket of `now − ms` after the ns-to-ms conversion, which reads back to that bucket and count; one definition serves both files |
| TimeFormat.FutureIsJustNow | src/frontend/src/pages/CommunitiesPage.tsx:52 | a timestamp at or after now reads "just now" |
| CommunitiesPage.IsMember | src/frontend/src/pages/CommunitiesPage.tsx:194-197 | false without a caller, else iff a member has the caller's text |
| CommunitiesPage.JoinLeave | src/frontend/src/pages/CommunitiesPage.tsx:199-211 | leave iff a member, join otherwise, on this community's id |
| CommunitiesPage.JoinLeaveRefreshesList | src/frontend/src/pages/CommunitiesPage.tsx:199-211 | either choice refreshes the community list and no message thread |
| CommunitiesPage.JoinThenLeave | src/frontend/src/pages/CommunitiesPage.tsx:199-211 | once a join shows in the list, the same card offers leave |
| CommunitiesPage.CategoryColor | src/frontend/src/pages/CommunitiesPage.tsx:33-47 | a listed category's own entry, any other category the "Other" entry |
| CommunitiesPage.CategoriesColoured | src/frontend/src/pages/CommunitiesPage.tsx:31-47 | every offered category has an entry; offered categories never share a colour |
| CommunitiesPage.SortByTime | src/frontend/src/pages/CommunitiesPage.tsx:130 | the displayed copy is in non-decreasing timestamp order and a permutation of the cached thread |
| CommunitiesPage.SortedThreadKeepsMessages | src/frontend/src/pages/CommunitiesPage.tsx:130 | the sorted copy shows every message, with none added or lost |
| CommunitiesPage.Thread.PostsRead | src/frontend/src/pages/CommunitiesPage.tsx:66 | the detail view reads its community's thread, enabled iff the id is non-empty |
| CommunitiesPage.Thread.SendEnabled | src/frontend/src/pages/CommunitiesPage.tsx:162 | the send button is enabled iff no send is pending and the message is not blank |
| CommunitiesPage.Thread.HandleSend | src/frontend/src/pages/CommunitiesPage.tsx:73-76 | nothing for blank text; otherwise the trimmed, non-empty message to this community |
| CommunitiesPage.Thread.SendSucceeded | src/frontend/src/pages/CommunitiesPage.tsx:78-79 | a successful send clears the box |
| CommunitiesPage.SendRefreshesOwnThread | src/frontend/src/pages/CommunitiesPage.tsx:75 | a sent message refreshes its own thread and no other |
| CommunitiesPage.Page.Select | src/frontend/src/pages/CommunitiesPage.tsx:328 | clicking a card selects that community |
| CommunitiesPage.Page.Back | src/frontend/src/pages/CommunitiesPage.tsx:235 | back clears the selection |
| CommunitiesPage.Page.ShowsDetail | src/frontend/src/pages/CommunitiesPage.tsx:230-238 | the detail view replaces the list exactly while a community is selected |
| CommunitiesPage.Page.CreateEnabled | src/frontend/src/pages/CommunitiesPage.tsx:289 | the create button is enabled iff nothing is pending, the name is not blank and a category is chosen; `HandleCreate` sends exactly when it is |
| CommunitiesPage.Page.HandleCreate | src/frontend/src/pages/CommunitiesPage.tsx:213-216 | nothing without a non-blank name and a category, exactly when the button is disabled; otherwise trimmed name and description |
| CommunitiesPage.Page.CreateSucceeded | src/frontend/src/pages/CommunitiesPage.tsx:218-222 | a successful create empties the inputs and closes the dialog |
| EventsPage.CleanPieces | src/frontend/src/pages/EventsPage.tsx:201 | every kept piece is non-empty, trimmed and comma-free, and none are added |
| EventsPage.CleanPiecesOfClean | src/frontend/src/pages/EventsPage.tsx:201 | the tag cleaning keeps a list of clean tags as it is |
| EventsPage.Tags | src/frontend/src/pages/EventsPage.tsx:201 | every tag is non-empty, trimmed and comma-free |
| EventsPage.TagsRoundTrip | src/frontend/src/pages/EventsPage.tsx:201 | clean tags joined with commas parse back to the same tags in order |
| EventsPage.BlankPieceDropped | src/frontend/src/pages/EventsPage.tsx:201 | a blank piece, such as the empty one in "a,,b", adds no tag |
| EventsPage.CleanPiecesOfPadded | src/frontend/src/pages/EventsPage.tsx:201 | pieces with white space around them give their trims, in order |
| EventsPage.PaddedTagsRoundTrip | src/frontend/src/pages/EventsPage.tsx:201 | tags typed with spaces after the commas, as in "Hackathon, AI, Web3", come back trimmed and in order |
| EventsPage.MaxParticipants | src/frontend/src/pages/EventsPage.tsx:209 | always ≥ 1; 50 for NaN or 0; otherwise `max(1, n)` |
| EventsPage.MaxParticipantsOfToString | src/frontend/src/pages/EventsPage.tsx:209 | a positive number typed as digits is sent as typed; the default "50" sends 50 |
| EventsPage.CreateForm.constructor | src/frontend/src/pages/EventsPage.tsx:188-193 | empty fields and a cap of "50" |
| EventsPage.CreateForm.HandleCreate | src/frontend/src/pages/EventsPage.tsx:198-210 | nothing without a non-blank title, a date text and a parseable date; otherwise the trimmed title and description, the date in ns (reading back as the ms entered), the tags and a cap ≥ 1 |
| EventsPage.CreateForm.CreateSucceeded | src/frontend/src/pages/EventsPage.tsx:212-218 | a successful create empties every field, resets the cap to "50" and closes the dialog |
| EventsPage.IsOrganizer | src/frontend/src/pages/EventsPage.tsx:43-45 | false without a caller, else iff the organizer has the caller's text |
| EventsPage.OffersApply | src/frontend/src/pages/EventsPage.tsx:101 | "Apply" is offered to everyone but the organizer |
| EventsPage.OffersApplicants | src/frontend/src/pages/EventsPage.tsx:114 | the "Applicants" toggle is offered only to the organizer |
| EventsPage.ExactlyOneAction | src/frontend/src/pages/EventsPage.tsx:101-124 | every card offers exactly one of Apply and Applicants; a signed-out visitor gets Apply |
| EventsPage.Card.ApplicantsRead | src/frontend/src/pages/EventsPage.tsx:47 | the event id only while the panel is open for the organizer, else null; enabled accordingly |
| EventsPage.Card.ShowsApplicants | src/frontend/src/pages/EventsPage.tsx:128 | the panel shows iff the applicant read carries the event id, and then it reads this event's applicants |
| EventsPage.Card.Toggle | src/frontend/src/pages/EventsPage.tsx:119 | the toggle flips the panel, so two toggles restore it |
| EventsPage.Card.Apply | src/frontend/src/pages/EventsPage.tsx:52-53 | apply sends this event's id |
| EventsPage.OnlyOrganizerReadsApplicants | src/frontend/src/pages/EventsPage.tsx:47 | a non-organizer never fetches applicants |
| EventsPage.DecisionRefreshesOwnList | src/frontend/src/pages/EventsPage.tsx:147-166 | approve or reject refreshes that event's applicant list and no other |
| PostCard.IsLiked | src/frontend/src/components/PostCard.tsx:32-34 | false without a caller, else iff a like has the caller's text |
| PostCard.LikeCount | src/frontend/src/components/PostCard.tsx:103 | the count is zero exactly when there are no likes |
| PostCard.LikeReflected | src/frontend/src/components/PostCard.tsx:32-34 | once the caller's like shows, the heart is filled and the count is one higher |
| PostCard.Like | src/frontend/src/components/PostCard.tsx:36-40 | a like of this post, refreshing both feeds |
| PostCard.Comments.Toggle | src/frontend/src/components/PostCard.tsx:107 | the button flips the panel, so two clicks restore it; the text is kept |
| PostCard.Comments.HandleComment | src/frontend/src/components/PostCard.tsx:42-46 | nothing for blank text; otherwise the trimmed, non-empty comment on this post |
| PostCard.Comments.CommentSucceeded | src/frontend/src/components/PostCard.tsx:47-48 | a successful comment clears the text |
| App.TabLabel | src/frontend/src/App.tsx:171 | "Home" for the dashboard, "Groups" for communities, otherwise the id capitalised |
| App.TabLabelsDistinct | src/frontend/src/App.tsx:160-171 | the six tab labels are pairwise different |
| App.ScreenOf | src/frontend/src/App.tsx:201-279 | initialising first, login iff no identity, spinner while loading, onboarding iff the profile read settled on null, else the page |
| App.ViewingPrincipal | src/frontend/src/App.tsx:238 | the profile page always receives no viewed principal |
| App.ProfilePageIsAlwaysOwn | src/frontend/src/App.tsx:234-239 | so the profile page from the shell is always the caller's own |
| App.Navigation.constructor | src/frontend/src/App.tsx:184-185 | the dashboard, with no viewed profile |
| App.Navigation.HandleViewProfile | src/frontend/src/App.tsx:190-193 | remembers the profile and opens the profile page, keeping the invariant |
| App.Navigation.HandlePageChange | src/frontend/src/App.tsx:195-198 | switches page; any page but profile forgets the viewed profile; the invariant is kept |
| App.Shell.ToggleMenu | src/frontend/src/App.tsx:115 | the menu button flips the overlay |
| App.Shell.MobileSelect | src/frontend/src/App.tsx:130 | choosing a page in the overlay changes the page and closes the overlay |

## Left out

- JSX, Tailwind classes, dialogs' open/close wiring beyond the fields above, skeletons and toasts are presentation.
- The remote actor and the identity provider are not part of this model; they appear only as `actorPresent`, `identity` and a `remoteError` parameter.
- React-query internals (request de-duplication, loading and error flags, refetch timing) are not modelled. The model keeps the declared keys, guards, fallbacks and invalidation filters, plus an abstract table with a stale flag.
- `crypto.randomUUID()` is a parameter (`freshId`), since it is random.
- `Date.now()`, `new Date(dateStr).getTime()` and `toLocaleDateString` are parameters or left out: they read the ambient clock and locale.
- Avatar upload (`File.arrayBuffer`, `ExternalBlob`) is I/O.
- The `Promise.all` parallel skill submission is concurrency. The model keeps only the fact that every skill is sent after the save.
- Floating point: `Number(...)` and `Math.round` are exact here. `DiscoverPage.RoundTwoFifthsStable` bounds the effect of the product's rounding error.
- `Text.ParseBigInt`: accepts only digit strings. `BigInt` also accepts surrounding white space, signs and `0x`/`0o`/`0b` prefixes, none of which the forms produce.
- `Text.ParseInt`: reads the decimal digit run exactly. Precision loss above 2^53 and `parseInt`'s other radix prefixes are not modelled.
- `CommunitiesPage.CategoryColor`: the lookup is on the listed categories only. Inherited object keys such as "toString" are not modelled, because categories come from a fixed select.
- `CommunitiesPage.SortByTime`: proves the copy sorted and a permutation, but not that equal timestamps keep their order (JavaScript's sort is stable).
- `Text.Trim`: strings are sequences of Unicode scalar values, not UTF-16 code units. Every character `trim` removes is a single code unit, so the result is the same; only `length` would count astral characters differently.
- `Text.Capitalize`: upper-cases ASCII letters only. The page ids are ASCII.
- LoginPage, GlobalFeedPage and DashboardPage are not part of this model. They are UI wiring, and the dashboard's one computation is `ReputationBar.AvgReputation`.
- The profile page's `handleRemoveSkill` and `handleLike` carry no logic beyond sending their argument. That is `Queries.MutationFn`.
- The review dialog's slider state and the edit dialog's per-field setters are plain assignments and are not modelled one by one.
