# NexVstar marketing site: the decision logic, modelled in Dafny

The NexVstar site is a React marketing front end. Most of it is static
content. What it decides at run time is modelled here, one Dafny module per
source file:

- **Chatbot** (`chatbot.dfy`, from `ChatbotWidget.tsx`). The scripted chat
  assistant. `getBotResponse` lower-cases the text, checks five keyword
  groups in a fixed order and picks one of six canned replies. The widget
  keeps an append-only transcript, numbered by a module-level counter.
  `sendMessage` appends the trimmed user text and then the reply. Blank
  text is ignored.
- **BlogPostPage** (`blog_post.dfy`). The article page:
  - the fallback article, used when the backend has none;
  - the line-oriented markup renderer, `renderContent`.
- **BlogPage** (`blog.dfy`). The article list:
  - placeholder articles for an empty backend;
  - the category and search filter;
  - the "No articles found" state;
  - card gradients and the three-tag limit.
- **CaseStudiesPage** (`case_studies.dfy`). Placeholder testimonials, the
  five-star rating row and the avatar initials.
- **Navbar** (`navbar.dfy`). The active-link rule over the link table.
- **CookieBanner** (`cookie_banner.dfy`). The consent banner:
  - a class over a local-storage map, the `visible` flag and the pending
    show-timer;
  - one method per button.
- **PricingPage** (`pricing.dfy`). The three plans, the monthly/annual
  toggle, the "/month", "(20% off)" and call-to-action labels, and the rupee
  amounts behind the "Save 20%" claims.
- **DashboardPreviewPage** (`dashboard.dfy`). Score-bar width and colour,
  the status badge lookup and the insight priority badge.
- **Records** (`records.dfy`). The `BlogPost` and `Testimonial` record
  shapes from `backend.d.ts`.
- **Text** (`text.dfy`). The JavaScript string operations the pages use:
  - `startsWith`, `endsWith`, `includes`;
  - ASCII `toLowerCase`;
  - `trim` with the JavaScript whitespace set;
  - `split`/`join` on one character;
  - decimal digits.

The chat transcript and the cookie banner change state in place, so they
are classes. Everything else is pure functions with lemmas.

The message counter is module-level (`ChatbotWidget.tsx:51`), so a
remounted widget starts again from the greeting but keeps numbering
upward.

## Model

| member | source | states |
|---|---|---|
| Chatbot.BotResponse | src/frontend/src/components/ChatbotWidget.tsx:31-49 | the responder is total and always returns one of the six canned replies, never the empty string |
| Chatbot.ReplyInjective | src/frontend/src/components/ChatbotWidget.tsx:22-29 | the six replies are pairwise different, so the reply identifies the topic |
| Chatbot.TopicOf | src/frontend/src/components/ChatbotWidget.tsx:32-48 | a topic is chosen only for an input whose lower-cased form mentions one of its keywords, and any packages keyword always wins |
| Chatbot.TopicIsFirstMatch | src/frontend/src/components/ChatbotWidget.tsx:33-48 | the if-chain equals a first-match scan over the ordered table of (keywords, topic) groups, with the default past the end |
| Chatbot.FirstMatchIsEarliest | src/frontend/src/components/ChatbotWidget.tsx:33-47 | for any table of distinct topics: the scan picks group i iff group i is mentioned and no earlier group is |
| Chatbot.FirstMatchDefault | src/frontend/src/components/ChatbotWidget.tsx:48 | for any such table: the scan yields the default iff no group from the start on is mentioned |
| Chatbot.FirstGroupWins | src/frontend/src/components/ChatbotWidget.tsx:33-47 | group i's reply is chosen iff the lower-cased input mentions group i and none of the groups before it |
| Chatbot.DefaultIffNoKeyword | src/frontend/src/components/ChatbotWidget.tsx:48 | the default reply comes iff the input contains none of the fifteen keywords |
| Chatbot.PackagesOverride | src/frontend/src/components/ChatbotWidget.tsx:33-35 | any input containing "package", "plan" or "tier" gets the packages reply, whatever surrounds the keyword |
| Chatbot.AiLeadIsScoring | src/frontend/src/components/ChatbotWidget.tsx:36-47 | an input with "ai lead" and no packages keyword also mentions "lead", yet gets the scoring reply |
| Chatbot.PlanPricingIsPackages | src/frontend/src/components/ChatbotWidget.tsx:33-43 | "what plan pricing do you have" gets the packages reply: group 1 wins over group 4 |
| Chatbot.GibberishIsDefault | src/frontend/src/components/ChatbotWidget.tsx:48 | "asdkjasd" matches no keyword and gets the default reply |
| Chatbot.TopicIgnoresCase | src/frontend/src/components/ChatbotWidget.tsx:32 | lower-casing the input first does not change the chosen reply |
| Chatbot.KeywordsHaveNoOuterSpace | src/frontend/src/components/ChatbotWidget.tsx:33-45 | every keyword is non-empty and starts and ends with a non-whitespace character |
| Chatbot.TopicIgnoresTrim | src/frontend/src/components/ChatbotWidget.tsx:32-47 | trimming the input first does not change the chosen topic |
| Chatbot.ResponseIgnoresTrim | src/frontend/src/components/ChatbotWidget.tsx:81-93 | the reply to the untrimmed text the bot receives equals the reply to the trimmed text the transcript stores |
| Chatbot.QuickReplyPackages | src/frontend/src/components/ChatbotWidget.tsx:15 | "What packages do you offer?" gets the packages reply |
| Chatbot.QuickReplyScoring | src/frontend/src/components/ChatbotWidget.tsx:16 | "How does AI scoring work?" gets the scoring reply |
| Chatbot.QuickReplyDemo | src/frontend/src/components/ChatbotWidget.tsx:17 | "Book a demo" gets the demo reply |
| Chatbot.QuickReplyPricing | src/frontend/src/components/ChatbotWidget.tsx:18 | "What's the pricing?" gets the pricing reply: none of the packages, scoring or demo keywords occur in it |
| Chatbot.QuickReplyLead | src/frontend/src/components/ChatbotWidget.tsx:19 | "How does lead capture work?" gets the lead reply: no keyword of the four earlier groups occurs in it |
| Chatbot.QuickRepliesAreTrimmed | src/frontend/src/components/ChatbotWidget.tsx:14-20 | the quick replies are non-blank and unchanged by trimming |
| Chatbot.TrimmedTextIsTrimmed | src/frontend/src/components/ChatbotWidget.tsx:76-81 | trimming non-blank text yields text with non-whitespace ends, and such text is its own trim |
| Chatbot.ExchangesGrow | src/frontend/src/components/ChatbotWidget.tsx:78-96 | appending a user message with trimmed text and a bot message one id later keeps the transcript a run of exchanges after the greeting |
| Chatbot.IdsGrow | src/frontend/src/components/ChatbotWidget.tsx:79-91 | appending messages numbered from the counter keeps ids strictly increasing |
| Chatbot.AppendExchange | src/frontend/src/components/ChatbotWidget.tsx:75-98 | a non-blank send keeps the transcript well formed: the greeting first, then exchanges, strictly increasing ids below the counter |
| Chatbot.AnsweredGrows | src/frontend/src/components/ChatbotWidget.tsx:81-96 | after a send, every bot message is still the reply to the text of the user message before it |
| Chatbot.ChatWidget.constructor | src/frontend/src/components/ChatbotWidget.tsx:51-66 | a new widget holds only the greeting with id 1, the counter at 2, an empty input and no typing |
| Chatbot.ChatWidget.Remount | src/frontend/src/components/ChatbotWidget.tsx:53-66 | a remount restores the initial transcript and keeps the module-level counter |
| Chatbot.ChatWidget.SetInput | src/frontend/src/components/ChatbotWidget.tsx:193 | typing changes the input box only |
| Chatbot.ChatWidget.SendMessage | src/frontend/src/components/ChatbotWidget.tsx:75-98 | blank text changes nothing and takes no id. Otherwise it appends the trimmed text as user message n and the reply as bot message n+1, advances the counter by two, clears the input and ends typing |
| Chatbot.ChatWidget.HandleSubmit | src/frontend/src/components/ChatbotWidget.tsx:100-103 | a blank input box changes nothing; otherwise its text is sent exactly as SendMessage sends it, the input is cleared and typing ends |
| Chatbot.ChatWidget.SendQuickReply | src/frontend/src/components/ChatbotWidget.tsx:181 | clicking a quick reply appends it verbatim and the reply to it, advances the counter by two, clears the input and ends typing |
| Text.Lower | src/frontend/src/components/ChatbotWidget.tsx:32 | lower-casing keeps the length, maps each character by ASCII case folding and leaves no upper-case letter |
| Text.Trim | src/frontend/src/components/ChatbotWidget.tsx:76 | trim removes exactly the leading and trailing whitespace: the result is a slice of the input with non-whitespace ends, or empty for blank input |
| Text.ContainsTrimmed | src/frontend/src/components/ChatbotWidget.tsx:33-45 | a keyword with non-whitespace ends occurs in a text iff it occurs in its trimmed form |
| Text.LowerOfTrim | src/frontend/src/components/ChatbotWidget.tsx:32 | lower-casing and trimming commute |
| Text.JoinSplit | src/frontend/src/pages/BlogPostPage.tsx:109 | joining the pieces of a split on a character gives the text back |
| Text.SplitJoin | src/frontend/src/pages/BlogPostPage.tsx:109 | splitting the join of separator-free pieces gives the pieces back |
| Text.Split | src/frontend/src/pages/BlogPostPage.tsx:109 | a split always yields at least one piece and no piece holds the separator |
| Text.JoinCount | src/frontend/src/pages/BlogPostPage.tsx:109 | joining separator-free pieces puts one separator fewer than there are pieces, the converse of SplitCount |
| Text.SplitCount | src/frontend/src/pages/BlogPostPage.tsx:109 | a split has one piece more than the text has separators |
| Text.ParseDecimal | src/frontend/src/pages/DashboardPreviewPage.tsx:305 | a number's decimal form reads back as the number |
| BlogPostPage.FallbackPost | src/frontend/src/pages/BlogPostPage.tsx:16-62 | the fallback article has id 1 and is dated two days before the page's clock |
| BlogPostPage.RouteId | src/frontend/src/pages/BlogPostPage.tsx:72 | `BigInt(id)` on the trimmed id: a blank id is 0; a digit-led id is a number iff it is all digits, and then its decimal value; a sign-led id is a number iff digits follow the sign, and then their value, negated after `-`; an id led by anything else throws |
| BlogPostPage.RouteIdOfDecimal | src/frontend/src/pages/BlogPostPage.tsx:72 | an article id written in decimal reads back as that id |
| BlogPostPage.RouteIdRejectsWords | src/frontend/src/pages/BlogPostPage.tsx:72 | `BigInt("abc")` throws |
| BlogPostPage.NegativeRouteId | src/frontend/src/pages/BlogPostPage.tsx:72 | `BigInt("-5")` is -5 |
| BlogPostPage.PositiveRouteId | src/frontend/src/pages/BlogPostPage.tsx:72 | `BigInt("+7")` is 7 |
| BlogPostPage.BareSignRouteIdRejected | src/frontend/src/pages/BlogPostPage.tsx:72 | `BigInt("-")` throws |
| BlogPostPage.LoadPost | src/frontend/src/pages/BlogPostPage.tsx:68-76 | the query is disabled exactly when no actor is ready (`enabled: !!actor && !isFetching`); once enabled, an error iff the route id is not a number, else the backend's article under that id or, when there is none, the fallback |
| BlogPostPage.View | src/frontend/src/pages/BlogPostPage.tsx:78-105 | skeletons iff loading; "Article not found." iff not loading and there is no data; otherwise the article |
| BlogPostPage.NotFoundIffBadRouteId | src/frontend/src/pages/BlogPostPage.tsx:68-105 | when the page is not loading, "Article not found." shows iff no actor is ready or the route id is not a number; with an actor ready, a stored article under the id is shown as stored |
| BlogPostPage.WordRouteIsNotFound | src/frontend/src/pages/BlogPostPage.tsx:72-105 | "/blog/abc" with an actor ready shows "Article not found." |
| BlogPostPage.BoldItemMatch | src/frontend/src/pages/BlogPostPage.tsx:118 | every match it reports has the bold list-item shape, with that name and rest |
| BlogPostPage.BoldItemMatchIsPattern | src/frontend/src/pages/BlogPostPage.tsx:118 | the scan matches "- **Name**: rest" iff the name is non-empty without '*' and the rest is non-empty without line terminators, and it returns exactly that name and rest |
| BlogPostPage.NumberedMatch | src/frontend/src/pages/BlogPostPage.tsx:128-129 | every match it reports is a digit run, ". " and the rest it returns |
| BlogPostPage.NumberedMatchIsPattern | src/frontend/src/pages/BlogPostPage.tsx:128-129 | the scan matches iff the line is digits, ". " and a rest; it strips exactly that prefix |
| BlogPostPage.Unbolded | src/frontend/src/pages/BlogPostPage.tsx:132 | slicing two characters off each end leaves the middle, or "" for lines shorter than four |
| BlogPostPage.ClassifyLine | src/frontend/src/pages/BlogPostPage.tsx:110-138 | each element is true to its line: a heading's line is its marker and text, a bold item's line has the bold-item shape, a bold paragraph's line is its text between "**" markers, a break iff the line is empty, a paragraph holds the line unchanged |
| BlogPostPage.Heading2Line | src/frontend/src/pages/BlogPostPage.tsx:111-113 | "## " + t renders as a level-2 heading of t |
| BlogPostPage.Heading3Line | src/frontend/src/pages/BlogPostPage.tsx:111-116 | "### " + t renders as a level-3 heading of t: the "## " test fails on its third character |
| BlogPostPage.BoldItemLine | src/frontend/src/pages/BlogPostPage.tsx:117-125 | a bold list-item line renders its name in bold followed by its rest |
| BlogPostPage.OtherStarredItemLine | src/frontend/src/pages/BlogPostPage.tsx:117-127 | any other "- **" line renders as a list item of the line minus its first two characters |
| BlogPostPage.NumberedLine | src/frontend/src/pages/BlogPostPage.tsx:128-130 | a numbered line renders as a list item without its number and ". " |
| BlogPostPage.BoldParagraphLine | src/frontend/src/pages/BlogPostPage.tsx:131-133 | a line that reaches this test and starts and ends with "**" renders as a bold paragraph of its middle, of length max(0, length - 4) |
| BlogPostPage.BreakIffEmpty | src/frontend/src/pages/BlogPostPage.tsx:134-136 | a line renders as a break iff it is empty |
| BlogPostPage.ParagraphLine | src/frontend/src/pages/BlogPostPage.tsx:111-137 | a line becomes a plain paragraph iff every earlier rule fails, and the paragraph holds the line unchanged |
| BlogPostPage.RenderContent | src/frontend/src/pages/BlogPostPage.tsx:108-139 | rendering gives one element per line: one more than the number of line breaks |
| BlogPostPage.RenderJoinedLines | src/frontend/src/pages/BlogPostPage.tsx:109 | rendering lines joined with line breaks yields each line's element in order |
| BlogPage.FallbackPosts | src/frontend/src/pages/BlogPage.tsx:22-89 | there are six placeholder articles |
| BlogPage.LoadPosts | src/frontend/src/pages/BlogPage.tsx:105-109 | without a connection, or for an empty backend list, the query yields the placeholders; otherwise it yields the backend's list unchanged |
| BlogPage.DisplayPosts | src/frontend/src/pages/BlogPage.tsx:114 | the page works from the query's data if any, else the placeholders |
| BlogPage.DisplayedListNonEmpty | src/frontend/src/pages/BlogPage.tsx:105-114 | the list the page works from is never empty |
| BlogPage.Filtered | src/frontend/src/pages/BlogPage.tsx:116-123 | every post shown matches the category (exact, or "All") and the search (empty, or a case-insensitive substring of title or summary), and there are no more than the posts |
| BlogPage.FilteredIsSelection | src/frontend/src/pages/BlogPage.tsx:116-123 | the filter yields an order-preserving subsequence of the posts holding exactly the matching posts, each as many times as it occurs in the input |
| BlogPage.CategoryFilter | src/frontend/src/pages/BlogPage.tsx:117 | with a chosen category only posts of exactly that category remain; with "All" no post is dropped for its category |
| BlogPage.FilterAllIsIdentity | src/frontend/src/pages/BlogPage.tsx:116-123 | "All" with an empty query keeps every post in order |
| BlogPage.FilterIdempotent | src/frontend/src/pages/BlogPage.tsx:116-123 | filtering twice the same way equals filtering once |
| BlogPage.SearchIgnoresQueryCase | src/frontend/src/pages/BlogPage.tsx:118-121 | lower-casing the query does not change which posts match |
| BlogPage.KeepIgnoresOtherFields | src/frontend/src/pages/BlogPage.tsx:117-121 | only title, summary and category decide a post's fate; tags, author and content are not searched |
| BlogPage.Grid | src/frontend/src/pages/BlogPage.tsx:179-200 | skeletons iff loading; "No articles found" iff not loading and nothing matches; otherwise the cards are exactly the filtered posts, in order |
| BlogPage.GradientIndex | src/frontend/src/pages/BlogPage.tsx:208 | the gradient index is always in bounds and repeats every six cards |
| BlogPage.ShownTags | src/frontend/src/pages/BlogPage.tsx:235 | a card shows a prefix of the tags of length min(3, number of tags) |
| CaseStudiesPage.LoadTestimonials | src/frontend/src/pages/CaseStudiesPage.tsx:144-148 | without a connection, or for an empty result, the query yields the placeholder testimonials; otherwise it yields the backend's list unchanged |
| CaseStudiesPage.DisplayTestimonials | src/frontend/src/pages/CaseStudiesPage.tsx:153 | the page shows the query's data if any, else the placeholders |
| CaseStudiesPage.DisplayedTestimonialsNonEmpty | src/frontend/src/pages/CaseStudiesPage.tsx:144-153 | the page always has testimonials to show |
| CaseStudiesPage.Stars | src/frontend/src/pages/CaseStudiesPage.tsx:126-137 | exactly five stars are drawn |
| CaseStudiesPage.FilledStarsArePrefix | src/frontend/src/pages/CaseStudiesPage.tsx:132 | a filled star is never preceded by an empty one |
| CaseStudiesPage.FilledCountIsClampedRating | src/frontend/src/pages/CaseStudiesPage.tsx:129-133 | the number of filled stars is the rating clamped to 0..5 |
| CaseStudiesPage.FirstLetters | src/frontend/src/pages/CaseStudiesPage.tsx:308 | the first character of each non-empty word, in order; empty words from extra spaces give nothing |
| CaseStudiesPage.Initials | src/frontend/src/pages/CaseStudiesPage.tsx:308 | the first characters of the first two non-empty words of the name, fewer when it has fewer words, whatever the spacing |
| CaseStudiesPage.EmptyWordAddsNothing | src/frontend/src/pages/CaseStudiesPage.tsx:308 | empty words from repeated spaces contribute no letter |
| CaseStudiesPage.InitialsOfWords | src/frontend/src/pages/CaseStudiesPage.tsx:308 | a name of two or more single-spaced words gets the first letters of its first two words |
| CaseStudiesPage.InitialsOfOneWord | src/frontend/src/pages/CaseStudiesPage.tsx:308 | a one-word name gets its first letter |
| CaseStudiesPage.InitialsOfRajeshMehta | src/frontend/src/pages/CaseStudiesPage.tsx:14 | "Rajesh Mehta" gets "RM" |
| Navbar.IsActive | src/frontend/src/components/Navbar.tsx:33-34 | a link is active only on paths that start with its own, and a link other than home on every such path |
| Navbar.HomeActiveIffRoot | src/frontend/src/components/Navbar.tsx:33-34 | the home link is active exactly on "/" |
| Navbar.OtherActiveIffPrefix | src/frontend/src/components/Navbar.tsx:34 | any other link is active exactly on paths that extend its own |
| Navbar.ActiveOnOwnPath | src/frontend/src/components/Navbar.tsx:33-34 | a link is active on its own path |
| Navbar.BlogMatchesByRawPrefix | src/frontend/src/components/Navbar.tsx:34 | "/blog" is active on "/blog/5" and on "/blogging", not on "/" |
| Navbar.PathsDiverge | src/frontend/src/components/Navbar.tsx:6-15 | no non-home path of the table is a prefix of another |
| Navbar.AtMostOneActive | src/frontend/src/components/Navbar.tsx:33-34 | for every current path at most one link of the table is active |
| CookieBanner.ConsentValue | src/frontend/src/components/CookieBanner.tsx:19-32 | each choice stores a non-empty value |
| CookieBanner.ConsentValuesDistinct | src/frontend/src/components/CookieBanner.tsx:20-30 | the three choices store three different values |
| CookieBanner.Record | src/frontend/src/components/CookieBanner.tsx:20-30 | recording a choice sets the consent key to its value, adds no other key and leaves every other key as it was |
| CookieBanner.ChoiceIsRemembered | src/frontend/src/components/CookieBanner.tsx:12-30 | after any choice the store holds a consent |
| CookieBanner.Render | src/frontend/src/components/CookieBanner.tsx:34 | nothing is rendered exactly when the banner is not visible |
| CookieBanner.ConsentBanner.Mount | src/frontend/src/components/CookieBanner.tsx:9-17 | mounting starts hidden and schedules the banner iff the stored consent is missing or empty |
| CookieBanner.ConsentBanner.TimerFires | src/frontend/src/components/CookieBanner.tsx:14 | the timer shows the banner and leaves the store alone |
| CookieBanner.ConsentBanner.Unmount | src/frontend/src/components/CookieBanner.tsx:15 | unmounting cancels a pending timer |
| CookieBanner.ConsentBanner.Choose | src/frontend/src/components/CookieBanner.tsx:19-32 | a button stores its choice under the consent key and hides the banner; the banner is on screen or scheduled only while no consent is stored |
| CookieBanner.ConsentBanner.AcceptAllCookies | src/frontend/src/components/CookieBanner.tsx:19-22 | stores "accepted" and hides the banner |
| CookieBanner.ConsentBanner.RejectNonEssential | src/frontend/src/components/CookieBanner.tsx:24-27 | stores "essential-only" and hides the banner |
| CookieBanner.ConsentBanner.DismissBanner | src/frontend/src/components/CookieBanner.tsx:29-32 | stores "dismissed" and hides the banner |
| CookieBanner.RemountAfterChoice | src/frontend/src/components/CookieBanner.tsx:11-17 | after any choice a later mount leaves the banner hidden with no timer |
| PricingPage.SelectedPricing | src/frontend/src/pages/PricingPage.tsx:128 | a card shows one of its plan's two records, and the toggle decides which whenever they differ |
| PricingPage.ShowsPerMonth | src/frontend/src/pages/PricingPage.tsx:149-151 | every price that is a rupee amount gets "/month" |
| PricingPage.ShowsDiscountTag | src/frontend/src/pages/PricingPage.tsx:154-157 | "(20% off)" shows only in annual mode, and there beside every setup fee that is a rupee amount |
| PricingPage.CtaLabel | src/frontend/src/pages/PricingPage.tsx:191 | "Contact Sales" iff the plan is Enterprise, else "Get Started" |
| PricingPage.ToggleSelectsRecord | src/frontend/src/pages/PricingPage.tsx:128 | the toggle shows the annual record when on and the monthly one when off, and the two differ for Starter and Growth |
| PricingPage.PerMonthExceptEnterprise | src/frontend/src/pages/PricingPage.tsx:149-151 | "/month" is left out exactly for Enterprise, in both modes |
| PricingPage.DiscountTagOnStarterAndGrowth | src/frontend/src/pages/PricingPage.tsx:155-157 | "(20% off)" shows exactly in annual mode on plans other than Enterprise |
| PricingPage.OnlyGrowthHighlighted | src/frontend/src/pages/PricingPage.tsx:15-58 | exactly the Growth plan is highlighted |
| PricingPage.ContactSalesOnlyForEnterprise | src/frontend/src/pages/PricingPage.tsx:191 | only the third card, Enterprise, says "Contact Sales" |
| PricingPage.RupeesOfDecimal | src/frontend/src/pages/PricingPage.tsx:19-34 | "₹" followed by a number's digits reads back as that number |
| PricingPage.StarterMonthlyPrice | src/frontend/src/pages/PricingPage.tsx:19 | "₹50,000" denotes 50000 rupees |
| PricingPage.StarterMonthlySetup | src/frontend/src/pages/PricingPage.tsx:19 | "₹30,000" denotes 30000 rupees |
| PricingPage.StarterAnnualPrice | src/frontend/src/pages/PricingPage.tsx:20 | "₹40,000" denotes 40000 rupees |
| PricingPage.StarterAnnualSetup | src/frontend/src/pages/PricingPage.tsx:20 | "₹25,000" denotes 25000 rupees |
| PricingPage.GrowthMonthlyPrice | src/frontend/src/pages/PricingPage.tsx:33 | "₹1,00,000" denotes 100000 rupees |
| PricingPage.GrowthMonthlySetup | src/frontend/src/pages/PricingPage.tsx:33 | "₹50,000" denotes 50000 rupees |
| PricingPage.GrowthAnnualPrice | src/frontend/src/pages/PricingPage.tsx:34 | "₹80,000" denotes 80000 rupees |
| PricingPage.GrowthAnnualSetup | src/frontend/src/pages/PricingPage.tsx:34 | "₹40,000" denotes 40000 rupees |
| PricingPage.EnterpriseHasNoAmount | src/frontend/src/pages/PricingPage.tsx:47 | "Custom" and "₹3L–₹10L" are not rupee amounts |
| PricingPage.AnnualPricesAreTwentyPercentOff | src/frontend/src/pages/PricingPage.tsx:19-34 | annual billing is 20% off the monthly price for Starter and Growth, as the "Save 20%" badge says |
| PricingPage.GrowthSetupTagIsTrue | src/frontend/src/pages/PricingPage.tsx:33-34 | Growth's "(20% off)" setup tag is true |
| PricingPage.StarterSetupTagIsFalse | src/frontend/src/pages/PricingPage.tsx:19-20 | Starter's "(20% off)" setup tag is false: 25000 is not 80% of 30000 |
| PricingPage.CorrectedStarterAnnualSetup | src/frontend/src/pages/PricingPage.tsx:20 | the corrected Starter annual setup fee, "₹24,000", denotes 24000 rupees |
| PricingPage.CorrectedSetupTagsAreTrue | src/frontend/src/pages/PricingPage.tsx:15-58 | with the corrected Starter fee every "(20% off)" setup tag is true |
| DashboardPreviewPage.StatusColorsCoverLeads | src/frontend/src/pages/DashboardPreviewPage.tsx:123-127 | every status used by the sample leads has a badge style |
| DashboardPreviewPage.Band | src/frontend/src/pages/DashboardPreviewPage.tsx:306 | top band iff score ≥ 75, bottom band iff score < 50 |
| DashboardPreviewPage.BarColour | src/frontend/src/pages/DashboardPreviewPage.tsx:306 | the bar is "#1F3A93" from 75, "#6C63FF" from 50 to 74, "#94a3b8" below |
| DashboardPreviewPage.BandMonotone | src/frontend/src/pages/DashboardPreviewPage.tsx:306 | a higher score never falls in a lower band |
| DashboardPreviewPage.ColourDeterminesBand | src/frontend/src/pages/DashboardPreviewPage.tsx:306 | two scores get the same colour iff they are in the same band |
| DashboardPreviewPage.BarWidth | src/frontend/src/pages/DashboardPreviewPage.tsx:305 | the width is a percentage |
| DashboardPreviewPage.BarWidthIsScore | src/frontend/src/pages/DashboardPreviewPage.tsx:305 | the width's number is exactly the score |
| DashboardPreviewPage.ToneClasses | src/frontend/src/pages/DashboardPreviewPage.tsx:406-411 | every tone but grey reuses one of the lead status badge styles |
| DashboardPreviewPage.PriorityTone | src/frontend/src/pages/DashboardPreviewPage.tsx:406-411 | red iff "Urgent", orange iff "High", blue iff "Medium", grey for anything else |
| DashboardPreviewPage.InsightTones | src/frontend/src/pages/DashboardPreviewPage.tsx:79-112 | the four insights get orange, grey ("Info"), red and blue |
| DashboardPreviewPage.ToneMatchesStatusStyle | src/frontend/src/pages/DashboardPreviewPage.tsx:407-409 | the urgent, high and medium badges use the hot, warm and cold status styles |

## Left out

- Timers and the typing pause. In `ChatbotWidget.tsx` the 800-1400 ms delay, drawn at random, is not modelled, and a send is one atomic step. The "typing" state between the user message and the reply is not modelled either.
- Overlapping sends. In `ChatbotWidget.tsx`, quick replies stay clickable while the bot is typing. That is concurrency, so sends are modelled one after another.
- Effects without logic: scrolling to the newest message, opening and closing the chat window, and message timestamps (`new Date()`).
- Chatbot.ChatWidget.Valid: keeps the transcript's structure (greeting, exchanges, increasing ids) but not the reply content. The content is stated by Chatbot.AnsweredGrows over the pure transcript, and SendMessage states the exact messages appended.
- Text.Lower: `toLowerCase` is modelled as ASCII case folding. Full Unicode case mapping is not modelled.
- Strings are sequences of code points. JavaScript's UTF-16 code units are not modelled, so `n[0]` in the initials takes a whole character.
- The navigation bar's scroll listener and mobile menu flag. The cookie banner's 1.5 s delay is modelled only as a pending timer that fires later.
- `formatDate` via `toLocaleDateString`. This is locale library behaviour; dates stay as millisecond counts, and the clock is a parameter.
- react-query caching, the `placeholderData` option and the loading flags. The loading flags are inputs to the view functions. The `enabled` guard is modelled on the article page only: the blog list and testimonials queries use their fallback lists as placeholder data and as the `??` default, so a disabled list query shows the same fallback that their models give for the disconnected case.
- The backend calls. Their results are parameters (the article backend as a map from id to article), and a failed call is not modelled.
- BlogPostPage.RouteId: the "0x", "0o" and "0b" prefixed forms that `BigInt` also accepts are modelled as throwing.
- BlogPostPage.LoadPost: the query function's own no-actor branch (`BlogPostPage.tsx:71`) is unreachable behind the `enabled` guard and is not modelled. A disabled query is modelled as not loading and without data, as in react-query v5 (so the page shows "Article not found."). Under react-query v4 a disabled query would stay in its loading state and show skeletons instead.
- JSX, CSS classes other than the badge styles, icons, and recharts charts.
- PricingPage: the feature lists and their "Everything in ..." emphasis, and the FAQ texts. These are static content.
- DashboardPreviewPage: the KPI cards, chart data, insight texts and lead values. These are static content. A lead's status is stored data, not computed from its score: L002 scores 74 but is "Hot". So no lemma relates score to status.
- CaseStudiesPage: the case-study cards and headline statistics. These are static content.
- Home, services, how-it-works, demo, footer and legal pages, and the router. They hold no decision logic, or only network submissions.

## Findings

| source | as written | input that shows it | evidently intended | confidence | as-written member | corrected member |
|---|---|---|---|---|---|---|
| src/frontend/src/pages/PricingPage.tsx:19-20 | Starter's annual setup fee is ₹25,000 against ₹30,000 monthly, yet annual mode tags it "(20% off)" (lines 155-157) | `annual` on, Starter card | a fee of ₹24,000, which is 20% off ₹30,000, as the tag beside it claims (the FAQ answer at line 71 says only that the setup fee is reduced) | medium, not executed | PricingPage.StarterSetupTagIsFalse | PricingPage.CorrectedSetupTagsAreTrue |

The display rules (PricingPage.PerMonthExceptEnterprise, PricingPage.DiscountTagOnStarterAndGrowth) depend only on the price strings and the "Custom" setup. The correction leaves both unchanged.
