/** The article list: placeholder articles for an empty backend, the
    category and search filter, and the per-card gradient and tag
    choices. */
module BlogPage {
  import opened Text
  import opened Records

  const Categories: seq<string> :=
    ["All", "AI Automation", "Lead Generation", "Revenue Intelligence", "Case Studies"]

  const Gradients: seq<string> := [
    "from-blue-600 to-indigo-600",
    "from-purple-600 to-pink-600",
    "from-emerald-600 to-teal-600",
    "from-orange-500 to-red-500",
    "from-cyan-600 to-blue-600",
    "from-violet-600 to-purple-600"
  ]

  // ---------------------------------------------------------------------
  // Placeholder articles
  // ---------------------------------------------------------------------

  datatype PlaceholderPost = PlaceholderPost(id: int, title: string, summary: string, author: string,
                                             category: string, days: int, tags: seq<string>)

  /** A placeholder article: no image, content "Full content here...",
      dated `days` days before `now`. */
  function Placeholder(p: PlaceholderPost, now: int): BlogPost
  {
    BlogPost(p.id, p.title, "Full content here...", now - DayMs * p.days, p.tags, p.author, p.summary, "", p.category)
  }

  const Placeholder1: PlaceholderPost :=
    PlaceholderPost(1, "How AI Lead Scoring is Revolutionizing B2B Sales in India",
        "Discover how Indian businesses are using AI-powered lead scoring to prioritize prospects and increase conversion rates by 3x.",
        "Rahul Gupta", "AI Automation", 2, ["AI", "Lead Scoring", "B2B Sales"])

  const Placeholder2: PlaceholderPost :=
    PlaceholderPost(2, "Revenue Forecasting: From Gut Feel to AI Precision",
        "Learn how CFOs at India's fastest-growing companies are replacing spreadsheet guesswork with AI-driven revenue forecasting.",
        "Priya Nair", "Revenue Intelligence", 5, ["Revenue", "Forecasting", "CFO"])

  const Placeholder3: PlaceholderPost :=
    PlaceholderPost(3, "WhatsApp Automation for Sales: A Complete Guide",
        "WhatsApp has a 98% open rate in India. Here's how to leverage it for sales follow-ups without being spammy.",
        "Amit Sharma", "AI Automation", 7, ["WhatsApp", "Automation", "Sales"])

  const Placeholder4: PlaceholderPost :=
    PlaceholderPost(4, "Case Study: How Manufacturing Co. Added ₹2Cr Revenue with AI",
        "A Pune-based manufacturing firm's journey from manual CRM to AI-driven revenue intelligence — and the numbers that followed.",
        "Neha Joshi", "Case Studies", 10, ["Case Study", "Manufacturing", "ROI"])

  const Placeholder5: PlaceholderPost :=
    PlaceholderPost(5, "The Ultimate Lead Generation Playbook for Indian SaaS Companies",
        "A tactical guide to building a reliable lead generation machine using multi-channel AI automation.",
        "Karan Mehta", "Lead Generation", 14, ["Lead Gen", "SaaS", "India"])

  const Placeholder6: PlaceholderPost :=
    PlaceholderPost(6, "AI vs Traditional CRM: What Indian SMBs Need to Know",
        "Why 78% of Indian SMBs are switching from traditional CRMs to AI-powered platforms — the complete comparison.",
        "Sunita Verma", "Revenue Intelligence", 18, ["CRM", "AI", "SMB"])

  /** The six placeholder articles, newest first. */
  function FallbackPosts(now: int): (r: seq<BlogPost>)
    ensures |r| == 6
  {
    [Placeholder(Placeholder1, now), Placeholder(Placeholder2, now), Placeholder(Placeholder3, now),
     Placeholder(Placeholder4, now), Placeholder(Placeholder5, now), Placeholder(Placeholder6, now)]
  }

  /** What the article-list query yields: the placeholders without a
      backend connection or when the backend has no articles, otherwise
      the backend's list unchanged. */
  function LoadPosts(connected: bool, result: seq<BlogPost>, now: int): (r: seq<BlogPost>)
    ensures connected && result != [] ==> r == result
    ensures !connected || result == [] ==> r == FallbackPosts(now)
  {
    if !connected then FallbackPosts(now)
    else if |result| > 0 then result else FallbackPosts(now)
  }

  /** `posts ?? fallbackPosts`: the list the page works from. */
  function DisplayPosts(data: Option<seq<BlogPost>>, now: int): (r: seq<BlogPost>)
    ensures data.Some? ==> r == data.value
    ensures data.None? ==> r == FallbackPosts(now)
  {
    match data
      case Some(posts) => posts
      case None => FallbackPosts(now)
  }

  /** The list the page works from is never empty once the query has
      answered or has not yet run. */
  lemma DisplayedListNonEmpty(connected: bool, result: seq<BlogPost>, now: int)
    ensures DisplayPosts(Some(LoadPosts(connected, result, now)), now) != []
    ensures DisplayPosts(None, now) != []
  {
  }

  // ---------------------------------------------------------------------
  // Filtering
  // ---------------------------------------------------------------------

  /** "All" keeps every category; any other choice keeps that exact one. */
  predicate MatchesCategory(post: BlogPost, category: string) {
    category == "All" || post.category == category
  }

  /** The empty query matches everything; otherwise the lower-cased query
      must occur in the lower-cased title or summary. */
  predicate MatchesSearch(post: BlogPost, query: string) {
    query == "" || Contains(Lower(post.title), Lower(query)) || Contains(Lower(post.summary), Lower(query))
  }

  predicate Keep(post: BlogPost, category: string, query: string) {
    MatchesCategory(post, category) && MatchesSearch(post, query)
  }

  /** `displayPosts.filter(...)`. */
  function Filtered(posts: seq<BlogPost>, category: string, query: string): (r: seq<BlogPost>)
    ensures |r| <= |posts|
    ensures forall i :: 0 <= i < |r| ==> Keep(r[i], category, query)
    decreases |posts|
  {
    if posts == [] then []
    else
      var rest := Filtered(posts[1..], category, query);
      if Keep(posts[0], category, query) then [posts[0]] + rest else rest
  }

  /** `sub` is `s` with some elements left out, the rest in order. */
  predicate IsSubsequence<T(==)>(sub: seq<T>, s: seq<T>)
    decreases |s|
  {
    if sub == [] then true
    else if s == [] then false
    else if sub[0] == s[0] then IsSubsequence(sub[1..], s[1..])
    else IsSubsequence(sub, s[1..])
  }

  /** The filter keeps exactly the posts that match, in their order, and
      nothing else: its result is an order-preserving subsequence of the
      input, no longer than it, whose members are the matching posts, each
      kept as often as it occurs. */
  lemma {:induction false} FilteredIsSelection(posts: seq<BlogPost>, category: string, query: string)
    ensures IsSubsequence(Filtered(posts, category, query), posts)
    ensures |Filtered(posts, category, query)| <= |posts|
    ensures forall p :: p in Filtered(posts, category, query) <==> p in posts && Keep(p, category, query)
    ensures forall p :: multiset(Filtered(posts, category, query))[p] ==
                          if Keep(p, category, query) then multiset(posts)[p] else 0
    decreases |posts|
  {
    if posts != [] {
      FilteredIsSelection(posts[1..], category, query);
      var rest := Filtered(posts[1..], category, query);
      if Keep(posts[0], category, query) {
        assert ([posts[0]] + rest)[1..] == rest;
      } else {
        SubsequenceOfTail(rest, posts);
      }
      assert posts == [posts[0]] + posts[1..];
    }
  }

  lemma {:induction false} SubsequenceOfTail<T>(sub: seq<T>, s: seq<T>)
    requires s != [] && IsSubsequence(sub, s[1..])
    ensures IsSubsequence(sub, s)
    decreases |s|, 1
  {
    if sub != [] && sub[0] == s[0] {
      SubsequenceDropFirst(sub, s[1..]);
    }
  }

  /** Leaving out the first element of a subsequence keeps a subsequence. */
  lemma {:induction false} SubsequenceDropFirst<T>(sub: seq<T>, s: seq<T>)
    requires sub != [] && IsSubsequence(sub, s)
    ensures IsSubsequence(sub[1..], s)
    decreases |s|, 2
  {
    assert s != [];
    if sub[0] == s[0] {
      SubsequenceOfTail(sub[1..], s);
    } else {
      SubsequenceDropFirst(sub, s[1..]);
      SubsequenceOfTail(sub[1..], s);
    }
  }

  /** With a specific category chosen, every post shown is of that
      category; with "All", no post is dropped for its category. */
  lemma CategoryFilter(posts: seq<BlogPost>, category: string, query: string)
    ensures category != "All" ==>
      forall p :: p in Filtered(posts, category, query) ==> p.category == category
    ensures category == "All" ==>
      forall p :: p in posts && MatchesSearch(p, query) ==> p in Filtered(posts, category, query)
  {
    FilteredIsSelection(posts, category, query);
  }

  /** Category "All" with an empty query shows every post, in order. */
  lemma {:induction false} FilterAllIsIdentity(posts: seq<BlogPost>)
    ensures Filtered(posts, "All", "") == posts
    decreases |posts|
  {
    if posts != [] {
      FilterAllIsIdentity(posts[1..]);
      assert posts == [posts[0]] + posts[1..];
    }
  }

  /** Filtering what was already filtered the same way changes nothing. */
  lemma {:induction false} FilterIdempotent(posts: seq<BlogPost>, category: string, query: string)
    ensures Filtered(Filtered(posts, category, query), category, query) == Filtered(posts, category, query)
    decreases |posts|
  {
    if posts != [] {
      FilterIdempotent(posts[1..], category, query);
      var rest := Filtered(posts[1..], category, query);
      if Keep(posts[0], category, query) {
        assert ([posts[0]] + rest)[1..] == rest;
      }
    }
  }

  /** The search ignores the case of the query. */
  lemma SearchIgnoresQueryCase(post: BlogPost, query: string)
    ensures MatchesSearch(post, Lower(query)) == MatchesSearch(post, query)
  {
    LowerIdempotent(query);
  }

  /** Only the title, summary and category decide whether a post is kept:
      tags, author, content, id, date and image are not searched. */
  lemma KeepIgnoresOtherFields(p: BlogPost, q: BlogPost, category: string, query: string)
    requires p.title == q.title && p.summary == q.summary && p.category == q.category
    ensures Keep(p, category, query) == Keep(q, category, query)
  {
  }

  // ---------------------------------------------------------------------
  // The grid
  // ---------------------------------------------------------------------

  datatype GridView = Skeletons | NoArticles | Cards(posts: seq<BlogPost>)

  /** Skeletons while loading, "No articles found" for an empty result,
      the cards otherwise. */
  function Grid(isLoading: bool, filtered: seq<BlogPost>): (v: GridView)
    ensures v == Skeletons <==> isLoading
    ensures v == NoArticles <==> !isLoading && filtered == []
    ensures v.Cards? ==> v.posts == filtered && filtered != []
  {
    if isLoading then Skeletons else if |filtered| == 0 then NoArticles else Cards(filtered)
  }

  /** The `index`-th card's gradient, cycling through the six. */
  function GradientIndex(index: nat): (g: nat)
    ensures g < |Gradients|
    ensures index < |Gradients| ==> g == index
    ensures (index - g) % |Gradients| == 0
  {
    index % |Gradients|
  }

  /** `tags.slice(0, 3)`: at most the first three tags. */
  function ShownTags(tags: seq<string>): (r: seq<string>)
    ensures |r| <= 3
    ensures r <= tags
    ensures |tags| <= 3 ==> r == tags
    ensures |tags| >= 3 ==> |r| == 3
  {
    if |tags| <= 3 then tags else tags[..3]
  }
}
