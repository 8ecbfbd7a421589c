/**
 * The communities page: membership, the join/leave toggle, category colours,
 * the create dialog, and a community's message thread with its send box.
 */
module CommunitiesPage {
  import opened Common
  import opened Identity
  import opened Text
  import opened Backend
  import Queries

  // ---------------------------------------------------------------- membership

  /** `isMember(community)`: false without a caller, else whether a member has the caller's text. */
  function IsMember(community: Community, caller: Option<Principal>): (b: bool)
    ensures b <==> caller.Some? && exists i :: 0 <= i < |community.members| && community.members[i].text == caller.value.text
  {
    HeldBy(community.members, caller)
  }

  /** `handleJoinLeave`: leave a community the caller belongs to, join any other. */
  function JoinLeave(community: Community, caller: Option<Principal>): (m: Queries.Mutation)
    ensures m.LeaveCommunity? <==> IsMember(community, caller)
    ensures m.JoinCommunity? <==> !IsMember(community, caller)
    ensures (m.LeaveCommunity? || m.JoinCommunity?) && m.id == community.id
  {
    if IsMember(community, caller) then Queries.LeaveCommunity(community.id)
    else Queries.JoinCommunity(community.id)
  }

  /**
   * Whichever way the toggle goes, its success refreshes the community list
   * (where membership is read) and no message thread.
   */
  lemma JoinLeaveRefreshesList(community: Community, caller: Option<Principal>, thread: Option<string>)
    ensures Queries.Affected(JoinLeave(community, caller), Queries.KeyOf(Queries.CommunitiesRead))
    ensures !Queries.Affected(JoinLeave(community, caller), Queries.KeyOf(Queries.CommunityPostsRead(thread)))
  {
    Queries.InvalidationExact(JoinLeave(community, caller), Queries.CommunitiesRead);
    Queries.InvalidationExact(JoinLeave(community, caller), Queries.CommunityPostsRead(thread));
  }

  /** Once the caller's join is reflected in the refetched list, the same card offers "Leave". */
  lemma JoinThenLeave(community: Community, caller: Principal, joined: Principal)
    requires !IsMember(community, Some(caller)) && joined.text == caller.text
    ensures JoinLeave(community, Some(caller)) == Queries.JoinCommunity(community.id)
    ensures JoinLeave(community.(members := community.members + [joined]), Some(caller))
      == Queries.LeaveCommunity(community.id)
  {
    HeldAfterAppend(community.members, caller, joined);
  }

  // ---------------------------------------------------------------- categories

  /** The categories the create dialog offers. */
  const Categories: seq<string> := ["Tech", "Science", "Arts", "Sports", "Business", "Gaming", "Music", "Research", "Other"]

  /** `CATEGORY_COLORS`: badge classes by category. */
  const CategoryColors: map<string, string> := map[
    "Tech" := "bg-blue-500/15 text-blue-400 border-blue-500/25",
    "Science" := "bg-purple-500/15 text-purple-400 border-purple-500/25",
    "Arts" := "bg-pink-500/15 text-pink-400 border-pink-500/25",
    "Sports" := "bg-orange-500/15 text-orange-400 border-orange-500/25",
    "Business" := "bg-amber-500/15 text-amber-400 border-amber-500/25",
    "Gaming" := "bg-green-500/15 text-green-400 border-green-500/25",
    "Music" := "bg-teal-500/15 text-teal-400 border-teal-500/25",
    "Research" := "bg-indigo-500/15 text-indigo-400 border-indigo-500/25",
    "Other" := "bg-muted text-muted-foreground border-border"
  ]

  /** `getCategoryColor`: the category's own entry, or the "Other" entry for any unknown category. */
  function CategoryColor(category: string): (c: string)
    ensures c in CategoryColors.Values
    ensures category in CategoryColors ==> c == CategoryColors[category]
    ensures category !in CategoryColors ==> c == CategoryColors["Other"]
  {
    if category in CategoryColors then CategoryColors[category] else CategoryColors["Other"]
  }

  /**
   * Every offered category has an entry of its own: no two offered categories
   * share a colour, and only "Other" looks like an unknown category.
   */
  lemma CategoriesColoured(category: string)
    ensures forall i :: 0 <= i < |Categories| ==> Categories[i] in CategoryColors
    ensures forall i, j :: 0 <= i < j < |Categories| ==> CategoryColor(Categories[i]) != CategoryColor(Categories[j])
    ensures category !in Categories ==> CategoryColor(category) == CategoryColor("Other")
  {
  }

  // ---------------------------------------------------------------- message thread

  /** Non-decreasing timestamps. */
  predicate ByTime(posts: seq<CommunityPost>) {
    forall i, j :: 0 <= i < j < |posts| ==> posts[i].timestamp <= posts[j].timestamp
  }

  /**
   * `[...posts].sort((a, b) => Number(a.timestamp - b.timestamp))`: a copy of
   * the cached thread put in time order, by insertion; the cached list, a
   * value here, is left as it was.
   */
  method SortByTime(posts: seq<CommunityPost>) returns (sorted: seq<CommunityPost>)
    ensures ByTime(sorted)
    ensures multiset(sorted) == multiset(posts)
  {
    var a := new CommunityPost[|posts|](k requires 0 <= k < |posts| => posts[k]);
    assert a[..] == posts;
    var i := 0;
    while i < a.Length
      invariant 0 <= i <= a.Length
      invariant ByTime(a[..i])
      invariant multiset(a[..]) == multiset(posts)
    {
      Insert(a, i);
      i := i + 1;
    }
    assert a[..a.Length] == a[..];
    sorted := a[..];
  }

  /** Moves `a[i]` down past every larger entry, so that `a[..i + 1]` is in time order. */
  method Insert(a: array<CommunityPost>, i: nat)
    requires i < a.Length && ByTime(a[..i])
    modifies a
    ensures ByTime(a[..i + 1])
    ensures multiset(a[..]) == multiset(old(a[..]))
  {
    var j := i;
    while j > 0 && a[j - 1].timestamp > a[j].timestamp
      invariant 0 <= j <= i
      invariant multiset(a[..]) == multiset(old(a[..]))
      invariant forall p, q :: 0 <= p < q <= i && p != j && q != j ==> a[p].timestamp <= a[q].timestamp
      invariant forall q :: j < q <= i ==> a[j].timestamp <= a[q].timestamp
    {
      Swap(a, j);
      j := j - 1;
    }
  }

  /** Exchanges `a[j - 1]` and `a[j]`. */
  method Swap(a: array<CommunityPost>, j: nat)
    requires 0 < j < a.Length
    modifies a
    ensures a[..] == old(a[..])[j - 1 := old(a[j])][j := old(a[j - 1])]
    ensures multiset(a[..]) == multiset(old(a[..]))
  {
    a[j - 1], a[j] := a[j], a[j - 1];
  }

  /** The thread as a chat window would list it: by time, every message once. */
  lemma SortedThreadKeepsMessages(posts: seq<CommunityPost>, sorted: seq<CommunityPost>)
    requires ByTime(sorted) && multiset(sorted) == multiset(posts)
    ensures |sorted| == |posts|
    ensures forall p :: p in sorted <==> p in posts
  {
    assert |multiset(sorted)| == |multiset(posts)|;
    forall p
      ensures p in sorted <==> p in posts
    {
      assert p in sorted <==> p in multiset(sorted);
      assert p in posts <==> p in multiset(posts);
    }
  }

  /** The message box of one community. */
  class Thread {
    const community: Community
    var message: string

    constructor (c: Community)
      ensures community == c && message == []
    {
      community := c;
      message := [];
    }

    /** The thread the detail view reads: the selected community's posts. */
    function PostsRead(): (r: Queries.Read)
      reads this
      ensures r == Queries.CommunityPostsRead(Some(community.id))
      ensures Queries.Enabled(r, true, false) <==> community.id != []
    {
      Queries.CommunityPostsRead(Some(community.id))
    }

    method SetMessage(text: string)
      modifies this
      ensures message == text
    {
      message := text;
    }

    /** The send button is enabled exactly when the trimmed message is non-empty and no send is pending. */
    predicate SendEnabled(isPending: bool)
      reads this
      ensures SendEnabled(isPending) <==> !isPending && !Blank(message)
    {
      !isPending && Trim(message) != []
    }

    /** `handleSend`: nothing for a blank message; otherwise the trimmed message to this community. */
    method HandleSend() returns (m: Option<Queries.Mutation>)
      ensures m.None? <==> Blank(message)
      ensures m.Some? ==> m.value == Queries.PostCommunityMessage(community.id, Trim(message))
      ensures m.Some? ==> m.value.content != [] && IsTrimmed(m.value.content)
    {
      var t := Trim(message);
      if t == [] {
        return None;
      }
      m := Some(Queries.PostCommunityMessage(community.id, t));
    }

    /** The send's `onSuccess` clears the box; a failed send keeps the text. */
    method SendSucceeded()
      modifies this
      ensures message == []
    {
      message := [];
    }
  }

  /** A message that is sent refreshes exactly its own community's thread among the threads. */
  lemma SendRefreshesOwnThread(id: string, content: string, other: Option<string>)
    ensures Queries.Affected(Queries.PostCommunityMessage(id, content), Queries.KeyOf(Queries.CommunityPostsRead(other)))
      <==> other == Some(id)
  {
    Queries.InvalidationExact(Queries.PostCommunityMessage(id, content), Queries.CommunityPostsRead(other));
  }

  // ---------------------------------------------------------------- the page

  /** The page: the selected community, and the create dialog with its inputs. */
  class Page {
    var selected: Option<Community>
    var createOpen: bool
    var newName: string
    var newDesc: string
    var newCategory: string

    constructor ()
      ensures selected.None? && !createOpen && newName == [] && newDesc == [] && newCategory == []
    {
      selected := None;
      createOpen := false;
      newName, newDesc, newCategory := [], [], [];
    }

    /** Clicking a card opens that community's detail view. */
    method Select(c: Community)
      modifies this
      ensures selected == Some(c)
      ensures createOpen == old(createOpen) && newName == old(newName) && newDesc == old(newDesc)
      ensures newCategory == old(newCategory)
    {
      selected := Some(c);
    }

    /** The detail view's back button returns to the list. */
    method Back()
      modifies this
      ensures selected.None?
      ensures createOpen == old(createOpen) && newName == old(newName) && newDesc == old(newDesc)
      ensures newCategory == old(newCategory)
    {
      selected := None;
    }

    /** The detail view replaces the list exactly when a community is selected. */
    predicate ShowsDetail()
      reads this
    {
      selected.Some?
    }

    /** Typing into the create dialog. */
    method SetInputs(name: string, desc: string, category: string)
      modifies this
      ensures newName == name && newDesc == desc && newCategory == category
      ensures selected == old(selected) && createOpen == old(createOpen)
    {
      newName, newDesc, newCategory := name, desc, category;
    }

    /** The create button is enabled exactly when the trimmed name is non-empty, a category is chosen and nothing is pending. */
    predicate CreateEnabled(isPending: bool)
      reads this
      ensures CreateEnabled(isPending) <==> !isPending && !Blank(newName) && newCategory != []
    {
      !isPending && Trim(newName) != [] && newCategory != []
    }

    /**
     * `handleCreate`: nothing without a non-blank name and a category;
     * otherwise the trimmed name and description with the chosen category.
     */
    method HandleCreate() returns (m: Option<Queries.Mutation>)
      ensures m.None? <==> Blank(newName) || newCategory == []
      ensures m.Some? ==> m.value == Queries.CreateCommunity(Trim(newName), Trim(newDesc), newCategory)
      ensures CreateEnabled(false) <==> m.Some?
    {
      var name := Trim(newName);
      if name == [] || newCategory == [] {
        return None;
      }
      m := Some(Queries.CreateCommunity(name, Trim(newDesc), newCategory));
    }

    /** The create's `onSuccess`: the inputs are emptied and the dialog closes. */
    method CreateSucceeded()
      modifies this
      ensures newName == [] && newDesc == [] && newCategory == [] && !createOpen
      ensures selected == old(selected)
    {
      newName := [];
      newDesc := [];
      newCategory := [];
      createOpen := false;
    }
  }
}
