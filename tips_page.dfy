/**
 * The comfort-tips screen: the fixed list of tips, the search-and-tab filter
 * and the favourite toggle on the list of liked tip ids.
 */
module TipsPage {
  import Text
  import Sequences

  datatype Tip = Tip(id: int, title: string, description: string, category: string, likes: nat, isLiked: bool)

  /** The nine tips the page ships with; tips 2 and 6 start out liked. */
  const Tips: seq<Tip> := [
    Tip(1, "Regular Team Check-ins",
        "Schedule brief daily check-ins to maintain team connection and address any concerns early.",
        "team", 24, false),
    Tip(2, "Mindfulness Breaks",
        "Encourage team members to take short mindfulness breaks throughout the day to reduce stress and improve focus.",
        "wellness", 42, true),
    Tip(3, "Workload Distribution",
        "Regularly review and adjust workloads to ensure no team member is overwhelmed with tasks.",
        "productivity", 18, false),
    Tip(4, "Recognition Program",
        "Implement a peer recognition program to boost morale and acknowledge team members' contributions.",
        "team", 31, false),
    Tip(5, "Ergonomic Workspace",
        "Provide guidance on setting up ergonomic workspaces to prevent physical strain during long work hours.",
        "wellness", 27, false),
    Tip(6, "Focus Time Blocks",
        "Designate specific hours for focused work with minimal interruptions to improve productivity.",
        "productivity", 35, true),
    Tip(7, "Team Building Activities",
        "Schedule regular virtual or in-person team building activities to strengthen relationships.",
        "team", 29, false),
    Tip(8, "Healthy Snack Options",
        "Provide healthy snack options in the office or encourage healthy eating habits for remote workers.",
        "wellness", 22, false),
    Tip(9, "Project Management Tools",
        "Utilize effective project management tools to keep everyone aligned and track progress efficiently.",
        "productivity", 33, false)
  ]

  /** `tips.filter(tip => tip.isLiked).map(tip => tip.id)`. */
  function LikedIds(tips: seq<Tip>): (ids: seq<int>)
    ensures |ids| <= |tips|
    ensures forall id :: id in ids ==> exists i :: 0 <= i < |tips| && tips[i].isLiked && tips[i].id == id
    ensures forall i :: 0 <= i < |tips| && tips[i].isLiked ==> tips[i].id in ids
  {
    if tips == [] then []
    else (if tips[0].isLiked then [tips[0].id] else []) + LikedIds(tips[1..])
  }

  /** The favourites the page starts with are tips 2 and 6. */
  lemma InitialLikedAreTwoAndSix()
    ensures LikedIds(Tips) == [2, 6]
  {
    TipsLayout();
    LikedIdsOfLayout(Tips);
  }

  /** Tip `k + 1` sits at index `k`, and only tips 2 and 6 are marked liked. */
  predicate HasTipsLayout(tips: seq<Tip>) {
    |tips| == 9 &&
    forall k :: 0 <= k < 9 ==> tips[k].id == k + 1 && (tips[k].isLiked <==> k == 1 || k == 5)
  }

  lemma TipsLayout()
    ensures HasTipsLayout(Tips)
  {
  }

  lemma LikedIdsOfLayout(tips: seq<Tip>)
    requires HasTipsLayout(tips)
    ensures LikedIds(tips) == [2, 6]
  {
    LikedIdsOfLayoutTail(tips);
    LikedIdsStep(tips, 4);
    LikedIdsStep(tips, 3);
    LikedIdsStep(tips, 2);
    LikedIdsStep(tips, 1);
    LikedIdsStep(tips, 0);
    assert tips[0..] == tips;
  }

  /** Of tips 6 to 9 only tip 6 is liked. */
  lemma LikedIdsOfLayoutTail(tips: seq<Tip>)
    requires HasTipsLayout(tips)
    ensures LikedIds(tips[5..]) == [6]
  {
    assert tips[9..] == [];
    LikedIdsStep(tips, 8);
    LikedIdsStep(tips, 7);
    LikedIdsStep(tips, 6);
    LikedIdsStep(tips, 5);
  }

  lemma LikedIdsStep(tips: seq<Tip>, k: nat)
    requires k < |tips|
    ensures LikedIds(tips[k..]) == (if tips[k].isLiked then [tips[k].id] else []) + LikedIds(tips[k + 1..])
  {
    assert tips[k..][1..] == tips[k + 1..];
  }

  /** The search: title or description contains the query, ignoring case. */
  predicate MatchesSearch(tip: Tip, query: string) {
    Text.Contains(Text.Lower(tip.title), Text.Lower(query)) ||
    Text.Contains(Text.Lower(tip.description), Text.Lower(query))
  }

  /** A category tab wants that category, "liked" a favourite, "all" or any other tab nothing more. */
  predicate InTab(tip: Tip, tab: string, liked: seq<int>) {
    if tab == "team" || tab == "wellness" || tab == "productivity" then tip.category == tab
    else if tab == "liked" then tip.id in liked
    else true
  }

  /** `filteredTips`. */
  function FilteredTips(tips: seq<Tip>, query: string, tab: string, liked: seq<int>): (r: seq<Tip>)
    ensures Sequences.IsSubsequence(r, tips)
    ensures forall t :: t in r ==> t in tips && MatchesSearch(t, query) && InTab(t, tab, liked)
    ensures forall t :: t in tips && MatchesSearch(t, query) && InTab(t, tab, liked) ==> t in r
  {
    var keep := (t: Tip) => MatchesSearch(t, query) && InTab(t, tab, liked);
    Sequences.FilterIsSubsequence(tips, keep);
    Sequences.Filter(tips, keep)
  }

  /** With an empty search box, the "all" tab shows every tip in order. */
  lemma EmptySearchShowsAll(tips: seq<Tip>, liked: seq<int>)
    ensures FilteredTips(tips, "", "all", liked) == tips
  {
    forall t | t in tips ensures MatchesSearch(t, "") {
      Text.ContainsEmpty(Text.Lower(t.title));
    }
    Sequences.FilterKeepsAll(tips, (t: Tip) => MatchesSearch(t, "") && InTab(t, "all", liked));
  }

  /** `handleLike`: a liked id is removed (every occurrence), an unliked one appended. */
  function Like(liked: seq<int>, tipId: int): (r: seq<int>)
    ensures tipId in r <==> tipId !in liked
    ensures forall id :: id != tipId ==> (id in r <==> id in liked)
    ensures tipId !in liked ==> r == liked + [tipId]
  {
    if tipId in liked then Sequences.RemoveAll(liked, tipId) else liked + [tipId]
  }

  /** Liking the same tip twice gives back the original favourites as a set. */
  lemma LikeTwiceRestores(liked: seq<int>, tipId: int)
    ensures forall id :: id in Like(Like(liked, tipId), tipId) <==> id in liked
  {
  }

  predicate NoDuplicates(ids: seq<int>) {
    forall i, j :: 0 <= i < j < |ids| ==> ids[i] != ids[j]
  }

  /** The favourites never hold an id twice: the toggle keeps a duplicate-free list duplicate-free. */
  lemma LikeKeepsNoDuplicates(liked: seq<int>, tipId: int)
    requires NoDuplicates(liked)
    ensures NoDuplicates(Like(liked, tipId))
  {
    var r := Like(liked, tipId);
    if tipId in liked {
      Sequences.RemoveAllCounts(liked, tipId);
      forall id ensures Sequences.Count(r, id) <= 1 {
        NoDuplicatesCount(liked, id);
      }
    } else {
      Sequences.CountAppendAll(liked, [tipId]);
      forall id ensures Sequences.Count(r, id) <= 1 {
        NoDuplicatesCount(liked, id);
        Sequences.CountPositiveIffIn(liked, tipId);
        assert [tipId][1..] == [];
        assert Sequences.Count([tipId], id) == if tipId == id then 1 else 0;
      }
    }
    CountAtMostOneNoDuplicates(r);
  }

  lemma {:induction false} NoDuplicatesCount(ids: seq<int>, id: int)
    requires NoDuplicates(ids)
    ensures Sequences.Count(ids, id) <= 1
    decreases |ids|
  {
    if ids != [] {
      NoDuplicatesCount(ids[1..], id);
      if ids[0] == id {
        Sequences.CountPositiveIffIn(ids[1..], id);
      }
    }
  }

  lemma {:induction false} CountAtMostOneNoDuplicates(ids: seq<int>)
    requires forall id :: Sequences.Count(ids, id) <= 1
    ensures NoDuplicates(ids)
    decreases |ids|
  {
    if ids != [] {
      forall id ensures Sequences.Count(ids[1..], id) <= 1 {
        assert Sequences.Count(ids, id) == (if ids[0] == id then 1 else 0) + Sequences.Count(ids[1..], id);
      }
      CountAtMostOneNoDuplicates(ids[1..]);
      assert Sequences.Count(ids, ids[0]) == 1 + Sequences.Count(ids[1..], ids[0]);
      Sequences.CountPositiveIffIn(ids[1..], ids[0]);
      forall i, j | 0 <= i < j < |ids| ensures ids[i] != ids[j] {
        if i > 0 {
          assert ids[i] == ids[1..][i - 1] && ids[j] == ids[1..][j - 1];
        } else {
          assert ids[j] == ids[1..][j - 1];
        }
      }
    }
  }

  class TipsPageState {
    var searchQuery: string
    var activeTab: string
    var likedTips: seq<int>

    ghost predicate Valid()
      reads this
    {
      NoDuplicates(likedTips)
    }

    /** The list as rendered. */
    function Visible(): seq<Tip>
      reads this
    {
      FilteredTips(Tips, searchQuery, activeTab, likedTips)
    }

    /**
     * The initial favourites are `LikedIds(Tips)`, written here as the value
     * `InitialLikedAreTwoAndSix` computes for it.
     */
    constructor ()
      ensures Valid()
      ensures searchQuery == "" && activeTab == "all" && likedTips == [2, 6]
    {
      searchQuery := "";
      activeTab := "all";
      likedTips := [2, 6];
    }

    /** `handleLike`; `added` tells which of the two notices is shown. */
    method HandleLike(tipId: int) returns (added: bool)
      requires Valid()
      modifies this
      ensures Valid()
      ensures added <==> tipId !in old(likedTips)
      ensures likedTips == Like(old(likedTips), tipId)
      ensures searchQuery == old(searchQuery) && activeTab == old(activeTab)
    {
      added := tipId !in likedTips;
      LikeKeepsNoDuplicates(likedTips, tipId);
      likedTips := Like(likedTips, tipId);
    }
  }
}
