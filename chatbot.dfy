/** The site's scripted chat assistant: a keyword responder that picks one
    of six canned replies, and the widget's transcript that every send
    appends a user message and a bot reply to. */
module Chatbot {
  import opened Text

  // ---------------------------------------------------------------------
  // Replies and keyword groups
  // ---------------------------------------------------------------------

  /** The six keys of the reply table. */
  datatype Topic = Packages | Scoring | Demo | Pricing | Lead | Default

  /** Each reply's first line, up to the blank line that follows it. */
  function Heading(t: Topic): string {
    match t
    case Packages => PackagesHeading
    case Scoring => ScoringHeading
    case Demo => DemoHeading
    case Pricing => PricingHeading
    case Lead => LeadHeading
    case Default => DefaultHeading
  }

  const PackagesHeading: string := "We offer 3 packages:"
  const ScoringHeading: string := "Our AI Lead Scoring engine analyzes:"
  const DemoHeading: string := "Great choice! You can book a free demo in 3 ways:"
  const PricingHeading: string := "Our pricing is structured as:"
  const LeadHeading: string := "Our AI Lead Capture system:"
  const DefaultHeading: string := "Hi! I'm NexVstar's AI assistant 🤖"

  /** The rest of each reply, from the blank line on. */
  function Details(t: Topic): string {
    match t
    case Packages => PackagesDetails
    case Scoring => ScoringDetails
    case Demo => DemoDetails
    case Pricing => PricingDetails
    case Lead => LeadDetails
    case Default => DefaultDetails
  }

  const PackagesDetails: string := "\n\n**Starter** - ₹30k setup + ₹50k/month\nIdeal for small businesses with up to 5 users\n\n**Growth** - ₹50k setup + ₹1L/month\nFor mid-size companies with CRM integration\n\n**Enterprise** - Custom ₹3L–₹10L/month\nFull AI suite with dedicated manager\n\nWould you like more details on any package?"
  const ScoringDetails: string := "\n\n• Engagement patterns & website behavior\n• Industry trends & company size\n• Past interaction history\n• Communication responsiveness\n\nEach lead gets a 0-100% conversion probability score, updated in real-time. Sales teams can prioritize leads with >70% scores for fastest conversion.\n\nWant to see a live demo?"
  const DemoDetails: string := "\n\n1. **Fill our form** → nexvstar.ai/demo\n2. **Call us** → +91 98765 43210\n3. **Email** → hello@nexvstar.ai\n\nOur team typically responds within 2 business hours. Demos run 30-45 minutes and include a live walkthrough of your potential ROI."
  const PricingDetails: string := "\n\n**Starter:** ₹30k (setup) + ₹50k/month\n**Growth:** ₹50k (setup) + ₹1L/month\n**Enterprise:** Custom ₹3L-₹10L/month\n\n**Add-ons:**\n• Extra dashboards: ₹10k-₹50k\n• AI optimization: ₹20k/month\n• Retainer support: ₹10k-₹20k/month\n\nAnnual plans get 20% discount! Shall I connect you with our sales team?"
  const LeadDetails: string := "\n\n✅ Collects leads from website forms automatically\n✅ Pulls prospects from LinkedIn Sales Navigator\n✅ Processes email inbox leads via AI parsing\n✅ Categorizes by company size, industry & intent\n✅ Scores and assigns to sales reps instantly\n\nAll leads appear on your dashboard in real-time with full context. Want to schedule a personalized walkthrough?"
  const DefaultDetails: string := "\n\nI can help you with:\n• Package & pricing information\n• How AI scoring works\n• Booking a demo\n• Lead capture & automation\n• Revenue forecasting insights\n\nWhat would you like to know?"

  /** The reply text for each key (`BOT_RESPONSES`). */
  function Reply(t: Topic): string {
    Heading(t) + Details(t)
  }

  /** The headings already differ within their first thirteen characters. */
  lemma HeadingsDiffer(t: Topic, u: Topic)
    requires t != u
    ensures 13 <= |Heading(t)| && 13 <= |Heading(u)|
    ensures exists k :: 0 <= k < 13 && Heading(t)[k] != Heading(u)[k]
  {
    var h, g := Heading(t), Heading(u);
    assert h[0] != g[0] || h[4] != g[4] || h[12] != g[12];
  }

  /** Different keys have different replies, so a reply tells which key
      chose it. */
  lemma ReplyInjective(t: Topic, u: Topic)
    requires t != u
    ensures Reply(t) != Reply(u)
  {
    HeadingsDiffer(t, u);
    var k :| 0 <= k < 13 && Heading(t)[k] != Heading(u)[k];
    assert Reply(t)[k] == Heading(t)[k];
    assert Reply(u)[k] == Heading(u)[k];
  }

  /** The five keyword groups, each tested as a substring of the
      lower-cased input. */
  const PackageKeywords: seq<string> := ["package", "plan", "tier"]
  const ScoringKeywords: seq<string> := ["scor", "ai lead"]
  const DemoKeywords: seq<string> := ["demo", "book", "schedule"]
  const PricingKeywords: seq<string> := ["pric", "cost", "fee", "₹"]
  const LeadKeywords: seq<string> := ["lead", "capture", "collect"]

  /** Some keyword of the group is a substring of `s`. */
  predicate Mentions(s: string, keywords: seq<string>) {
    exists k :: k in keywords && Contains(s, k)
  }

  /** `getBotResponse`'s decision: the first group, in this order, that the
      lower-cased input mentions picks the reply; none picks the default.
      A topic is only ever chosen for an input that mentions one of its
      keywords, and the packages group, tested first, always wins. */
  function TopicOf(input: string): (t: Topic)
    ensures t == Packages ==> Mentions(Lower(input), PackageKeywords)
    ensures t == Scoring ==> Mentions(Lower(input), ScoringKeywords)
    ensures t == Demo ==> Mentions(Lower(input), DemoKeywords)
    ensures t == Pricing ==> Mentions(Lower(input), PricingKeywords)
    ensures t == Lead ==> Mentions(Lower(input), LeadKeywords)
    ensures Mentions(Lower(input), PackageKeywords) ==> t == Packages
  {
    var lower := Lower(input);
    if Mentions(lower, PackageKeywords) then Packages
    else if Mentions(lower, ScoringKeywords) then Scoring
    else if Mentions(lower, DemoKeywords) then Demo
    else if Mentions(lower, PricingKeywords) then Pricing
    else if Mentions(lower, LeadKeywords) then Lead
    else Default
  }

  /** `getBotResponse`: always one of the six replies, never empty. */
  function BotResponse(input: string): (r: string)
    ensures exists t: Topic :: r == Reply(t)
    ensures r != ""
  {
    Reply(TopicOf(input))
  }

  // ---------------------------------------------------------------------
  // The order of the groups
  // ---------------------------------------------------------------------

  /** The keyword groups as an ordered table. */
  const Groups: seq<(seq<string>, Topic)> := [
    (PackageKeywords, Packages), (ScoringKeywords, Scoring), (DemoKeywords, Demo),
    (PricingKeywords, Pricing), (LeadKeywords, Lead)]

  /** A reference matcher: scan an ordered table from position `from` and
      take the topic of the first group `s` mentions. */
  function FirstMatch(s: string, groups: seq<(seq<string>, Topic)>, from: nat): Topic
    decreases |groups| - from
  {
    if from >= |groups| then Default
    else if Mentions(s, groups[from].0) then groups[from].1
    else FirstMatch(s, groups, from + 1)
  }

  /** The responder's chain of tests is the scan of the ordered table. */
  lemma TopicIsFirstMatch(input: string)
    ensures TopicOf(input) == FirstMatch(Lower(input), Groups, 0)
  {
    var l := Lower(input);
    assert FirstMatch(l, Groups, 4) == if Mentions(l, LeadKeywords) then Lead else Default;
    assert FirstMatch(l, Groups, 3) == if Mentions(l, PricingKeywords) then Pricing else FirstMatch(l, Groups, 4);
    assert FirstMatch(l, Groups, 2) == if Mentions(l, DemoKeywords) then Demo else FirstMatch(l, Groups, 3);
    assert FirstMatch(l, Groups, 1) == if Mentions(l, ScoringKeywords) then Scoring else FirstMatch(l, Groups, 2);
  }

  /** A table whose topics are distinct and none of them the default. */
  predicate DistinctTopics(groups: seq<(seq<string>, Topic)>) {
    (forall j :: 0 <= j < |groups| ==> groups[j].1 != Default) &&
    (forall j, k :: 0 <= j < k < |groups| ==> groups[j].1 != groups[k].1)
  }

  /** The scan returns the default or the topic of a group at or after
      `from`. */
  lemma {:induction false} FirstMatchFrom(s: string, groups: seq<(seq<string>, Topic)>, from: nat)
    ensures FirstMatch(s, groups, from) == Default ||
            exists j :: from <= j < |groups| && FirstMatch(s, groups, from) == groups[j].1
    decreases |groups| - from
  {
    if from < |groups| && !Mentions(s, groups[from].0) {
      FirstMatchFrom(s, groups, from + 1);
    }
  }

  /** The scan returns the topic of group `i` exactly when group `i` is
      mentioned and no group between `from` and `i` is. */
  lemma {:induction false} FirstMatchIsEarliest(s: string, groups: seq<(seq<string>, Topic)>, from: nat, i: nat)
    requires DistinctTopics(groups)
    requires from <= i < |groups|
    ensures FirstMatch(s, groups, from) == groups[i].1 <==>
              Mentions(s, groups[i].0) && forall j :: from <= j < i ==> !Mentions(s, groups[j].0)
    decreases i - from
  {
    if from == i && !Mentions(s, groups[i].0) {
      FirstMatchFrom(s, groups, i + 1);
    } else if from < i && !Mentions(s, groups[from].0) {
      FirstMatchIsEarliest(s, groups, from + 1, i);
    }
  }

  /** The scan gives the default exactly when no group from `from` on is
      mentioned. */
  lemma {:induction false} FirstMatchDefault(s: string, groups: seq<(seq<string>, Topic)>, from: nat)
    requires DistinctTopics(groups)
    ensures FirstMatch(s, groups, from) == Default <==>
              forall j :: from <= j < |groups| ==> !Mentions(s, groups[j].0)
    decreases |groups| - from
  {
    if from < |groups| {
      FirstMatchDefault(s, groups, from + 1);
    }
  }

  /** Group `i` picks the reply exactly when the input mentions it and no
      earlier group; a later group wins only when every earlier one
      missed. */
  lemma FirstGroupWins(input: string, i: nat)
    requires i < |Groups|
    ensures TopicOf(input) == Groups[i].1 <==>
              Mentions(Lower(input), Groups[i].0) && forall j :: 0 <= j < i ==> !Mentions(Lower(input), Groups[j].0)
  {
    TopicIsFirstMatch(input);
    assert DistinctTopics(Groups);
    FirstMatchIsEarliest(Lower(input), Groups, 0, i);
  }

  /** The default reply comes exactly when no keyword group is mentioned. */
  lemma DefaultIffNoKeyword(input: string)
    ensures TopicOf(input) == Default <==> forall j :: 0 <= j < |Groups| ==> !Mentions(Lower(input), Groups[j].0)
  {
    TopicIsFirstMatch(input);
    assert DistinctTopics(Groups);
    FirstMatchDefault(Lower(input), Groups, 0);
  }

  /** A packages keyword decides the reply whatever else the input holds. */
  lemma PackagesOverride(before: string, keyword: string, after: string)
    requires keyword in PackageKeywords
    ensures TopicOf(before + keyword + after) == Packages
  {
    var s := before + keyword + after;
    LowerAppend(before + keyword, after);
    LowerAppend(before, keyword);
    var l := Lower(s);
    assert Lower(keyword) == keyword;
    assert l[|before|..|before| + |keyword|] == keyword;
    assert OccursAt(l, keyword, |before|);
  }

  /** "ai lead" also holds "lead", so such inputs would match the lead
      group too; the scoring group comes first and wins unless a packages
      keyword is present. */
  lemma AiLeadIsScoring(input: string)
    requires Contains(Lower(input), "ai lead")
    requires !Mentions(Lower(input), PackageKeywords)
    ensures Mentions(Lower(input), LeadKeywords)
    ensures TopicOf(input) == Scoring
  {
    var l := Lower(input);
    var i :| 0 <= i <= |l| - 7 && OccursAt(l, "ai lead", i);
    assert l[i + 3..i + 7] == l[i..i + 7][3..7];
    assert OccursAt(l, "lead", i + 3);
    assert "lead" in LeadKeywords && Contains(l, "lead");
    assert "ai lead" in ScoringKeywords;
  }

  // ---------------------------------------------------------------------
  // Case and surrounding whitespace do not matter
  // ---------------------------------------------------------------------

  /** Matching ignores case. */
  lemma TopicIgnoresCase(input: string)
    ensures TopicOf(Lower(input)) == TopicOf(input)
  {
    LowerIdempotent(input);
  }

  /** No keyword starts or ends with whitespace. */
  lemma KeywordsHaveNoOuterSpace(j: nat, k: string)
    requires j < |Groups| && k in Groups[j].0
    ensures k != [] && !IsSpace(k[0]) && !IsSpace(k[|k| - 1])
  {
    assert j in {0, 1, 2, 3, 4};
  }

  /** The reply to a text is the reply to its trimmed form, so the bot may
      be given the untrimmed text while the transcript keeps the trimmed
      one. */
  lemma TopicIgnoresTrim(input: string)
    ensures TopicOf(Trim(input)) == TopicOf(input)
  {
    var l := Lower(input);
    LowerOfTrim(input);
    assert Lower(Trim(input)) == Trim(l);
    forall j, k | 0 <= j < |Groups| && k in Groups[j].0
      ensures Contains(Trim(l), k) <==> Contains(l, k)
    {
      KeywordsHaveNoOuterSpace(j, k);
      ContainsTrimmed(l, k);
    }
    forall j | 0 <= j < |Groups| ensures Mentions(Trim(l), Groups[j].0) <==> Mentions(l, Groups[j].0) {
    }
    TopicIsFirstMatch(input);
    TopicIsFirstMatch(Trim(input));
    assert Groups[0].0 == PackageKeywords && Groups[1].0 == ScoringKeywords && Groups[2].0 == DemoKeywords;
    assert Groups[3].0 == PricingKeywords && Groups[4].0 == LeadKeywords;
  }

  /** The reply to a text is the reply to its trimmed form. */
  lemma ResponseIgnoresTrim(input: string)
    ensures BotResponse(Trim(input)) == BotResponse(input)
  {
    TopicIgnoresTrim(input);
  }

  // ---------------------------------------------------------------------
  // The quick replies and sample inputs
  // ---------------------------------------------------------------------

  /** The five suggested questions shown under the transcript. */
  const QuickReplies: seq<string> := [
    "What packages do you offer?",
    "How does AI scoring work?",
    "Book a demo",
    "What's the pricing?",
    "How does lead capture work?"]

  // Each quick reply lower-cased, split around the keyword that decides
  // its reply.

  lemma PackagesQuestionLowered()
    ensures Lower(QuickReplies[0]) == "what " + "package" + "s do you offer?"
  {
  }

  lemma ScoringQuestionLowered()
    ensures Lower(QuickReplies[1]) == "how does ai " + "scor" + "ing work?"
  {
  }

  lemma DemoQuestionLowered()
    ensures Lower(QuickReplies[2]) == "book a " + "demo" + ""
  {
  }

  lemma PricingQuestionLowered()
    ensures Lower(QuickReplies[3]) == "what's the " + "pric" + "ing?"
  {
  }

  lemma LeadQuestionLowered()
    ensures Lower(QuickReplies[4]) == "how does " + "lead" + " capture work?"
  {
  }

  /** "What packages do you offer?" is answered with the packages reply. */
  lemma QuickReplyPackages()
    ensures TopicOf(QuickReplies[0]) == Packages
  {
    PackagesQuestionLowered();
    OccursBetween("what ", "package", "s do you offer?");
    assert "package" in PackageKeywords;
  }

  /** "How does AI scoring work?" is answered with the scoring reply. */
  lemma QuickReplyScoring()
    ensures TopicOf(QuickReplies[1]) == Scoring
  {
    ScoringQuestionLowered();
    var q := "how does ai " + "scor" + "ing work?";
    MissingCharNotContained(q, "package", 'p');
    MissingCharNotContained(q, "plan", 'p');
    MissingCharNotContained(q, "tier", 't');
    OccursBetween("how does ai ", "scor", "ing work?");
    assert "scor" in ScoringKeywords;
  }

  /** "Book a demo" is answered with the demo reply. */
  lemma QuickReplyDemo()
    ensures TopicOf(QuickReplies[2]) == Demo
  {
    DemoQuestionLowered();
    var q := "book a " + "demo" + "";
    MissingCharNotContained(q, "package", 'p');
    MissingCharNotContained(q, "plan", 'p');
    MissingCharNotContained(q, "tier", 't');
    MissingCharNotContained(q, "scor", 's');
    MissingCharNotContained(q, "ai lead", 'i');
    OccursBetween("book a ", "demo", "");
    assert "demo" in DemoKeywords;
  }

  /** No packages keyword occurs in "what's the pricing?": "tier" would
      have to straddle a space. */
  lemma PricingQuestionMissesPackages(q: string)
    requires q == "what's" + [' '] + ("the" + [' '] + "pricing?")
    ensures !Mentions(q, PackageKeywords)
  {
    MissingCharNotContained(q, "package", 'k');
    MissingCharNotContained(q, "plan", 'l');
    MissingCharNotContained("what's", "tier", 'i');
    MissingCharNotContained("the", "tier", 'i');
    MissingCharNotContained("pricing?", "tier", 't');
    NotContainedAroundSeparator("the", ' ', "pricing?", "tier");
    NotContainedAroundSeparator("what's", ' ', "the" + [' '] + "pricing?", "tier");
  }

  /** No scoring or demo keyword occurs in "what's the pricing?". */
  lemma PricingQuestionMissesMiddle(q: string)
    requires q == "what's" + [' '] + ("the" + [' '] + "pricing?")
    ensures !Mentions(q, ScoringKeywords) && !Mentions(q, DemoKeywords)
  {
    MissingCharNotContained(q, "scor", 'o');
    MissingCharNotContained(q, "ai lead", 'l');
    MissingCharNotContained(q, "demo", 'd');
    MissingCharNotContained(q, "book", 'b');
    MissingCharNotContained(q, "schedule", 'd');
  }

  /** "What's the pricing?" is answered with the pricing reply. */
  lemma QuickReplyPricing()
    ensures TopicOf(QuickReplies[3]) == Pricing
  {
    PricingQuestionLowered();
    var q := "what's the " + "pric" + "ing?";
    assert q == "what's" + [' '] + ("the" + [' '] + "pricing?");
    PricingQuestionMissesPackages(q);
    PricingQuestionMissesMiddle(q);
    OccursBetween("what's the ", "pric", "ing?");
    assert "pric" in PricingKeywords;
  }

  /** "scor", "schedule" and "cost" occur in no word of "how does lead
      capture work?" and cannot straddle a space. */
  lemma LeadQuestionMissesWords(k: string)
    requires k in ["scor", "schedule", "cost"]
    ensures !Contains("how" + [' '] + ("does" + [' '] + ("lead" + [' '] + ("capture" + [' '] + "work?"))), k)
  {
    MissingCharNotContained("how", k, 's');
    MissingCharNotContained("does", k, 'c');
    MissingCharNotContained("lead", k, 's');
    MissingCharNotContained("capture", k, 's');
    MissingCharNotContained("work?", k, 's');
    NotContainedAroundSeparator("capture", ' ', "work?", k);
    NotContainedAroundSeparator("lead", ' ', "capture" + [' '] + "work?", k);
    NotContainedAroundSeparator("does", ' ', "lead" + [' '] + ("capture" + [' '] + "work?"), k);
    NotContainedAroundSeparator("how", ' ', "does" + [' '] + ("lead" + [' '] + ("capture" + [' '] + "work?")), k);
  }

  /** No packages or scoring keyword occurs in "how does lead capture
      work?". */
  lemma LeadQuestionMissesEarly(q: string)
    requires q == "how" + [' '] + ("does" + [' '] + ("lead" + [' '] + ("capture" + [' '] + "work?")))
    ensures !Mentions(q, PackageKeywords) && !Mentions(q, ScoringKeywords)
  {
    MissingCharNotContained(q, "package", 'g');
    MissingCharNotContained(q, "plan", 'n');
    MissingCharNotContained(q, "tier", 'i');
    MissingCharNotContained(q, "ai lead", 'i');
    LeadQuestionMissesWords("scor");
  }

  /** No demo keyword occurs in "how does lead capture work?". */
  lemma LeadQuestionMissesDemo(q: string)
    requires q == "how" + [' '] + ("does" + [' '] + ("lead" + [' '] + ("capture" + [' '] + "work?")))
    ensures !Mentions(q, DemoKeywords)
  {
    MissingCharNotContained(q, "demo", 'm');
    MissingCharNotContained(q, "book", 'b');
    LeadQuestionMissesWords("schedule");
  }

  /** No pricing keyword occurs in "how does lead capture work?". */
  lemma LeadQuestionMissesPricing(q: string)
    requires q == "how" + [' '] + ("does" + [' '] + ("lead" + [' '] + ("capture" + [' '] + "work?")))
    ensures !Mentions(q, PricingKeywords)
  {
    MissingCharNotContained(q, "pric", 'i');
    LeadQuestionMissesWords("cost");
    MissingCharNotContained(q, "fee", 'f');
    MissingCharNotContained(q, "₹", '₹');
  }

  /** "How does lead capture work?" is answered with the lead reply. */
  lemma QuickReplyLead()
    ensures TopicOf(QuickReplies[4]) == Lead
  {
    LeadQuestionLowered();
    var q := "how does " + "lead" + " capture work?";
    assert q == "how" + [' '] + ("does" + [' '] + ("lead" + [' '] + ("capture" + [' '] + "work?")));
    LeadQuestionMissesEarly(q);
    LeadQuestionMissesDemo(q);
    LeadQuestionMissesPricing(q);
    OccursBetween("how does ", "lead", " capture work?");
    assert "lead" in LeadKeywords;
  }

  /** A text with none of the fifteen keywords gets the default reply. */
  lemma GibberishIsDefault()
    ensures TopicOf("asdkjasd") == Default
  {
    var l := Lower("asdkjasd");
    assert l == "asdkjasd";
    forall k | k in PackageKeywords + ScoringKeywords + DemoKeywords + PricingKeywords + LeadKeywords
      ensures !Contains(l, k)
    {
      var c := if k == "₹" then '₹' else if k == "fee" then 'f' else if k == "book" then 'b'
               else if k == "ai lead" || k == "lead" then 'l' else if k == "demo" then 'e'
               else if k == "tier" then 't' else if k == "package" || k == "plan" || k == "pric" then 'p'
               else 'c';
      MissingCharNotContained(l, k, c);
    }
  }

  /** Packages comes before pricing: "plan" wins over "pric". */
  lemma PlanPricingIsPackages()
    ensures TopicOf("what plan pricing do you have") == Packages
  {
    var l := Lower("what plan pricing do you have");
    assert l == "what plan pricing do you have";
    assert l == "what " + "plan" + " pricing do you have";
    OccursBetween("what ", "plan", " pricing do you have");
  }

  // ---------------------------------------------------------------------
  // The transcript
  // ---------------------------------------------------------------------

  datatype Role = User | Bot

  /** A chat message; its timestamp is not modelled. */
  datatype Message = Message(id: int, role: Role, content: string)

  /** The bot's greeting, the first message of every transcript. */
  const Greeting: string := "👋 Hi! I'm NexVstar's AI assistant. How can I help you boost your revenue today?"

  /** `initialMessages`: the greeting, created at module load with the
      first id the counter hands out. */
  const InitialMessages: seq<Message> := [Message(1, Bot, Greeting)]

  predicate IdsIncreasing(ms: seq<Message>) {
    forall i, j :: 0 <= i < j < |ms| ==> ms[i].id < ms[j].id
  }

  /** Text that trimming leaves as it is and that is not blank: it starts
      and ends with a character other than whitespace. */
  predicate IsTrimmedText(s: string) {
    s != [] && !IsSpace(s[0]) && !IsSpace(s[|s| - 1])
  }

  /** Trimming non-blank text gives trimmed text, and trimmed text is its
      own trimmed form. */
  lemma TrimmedTextIsTrimmed(s: string)
    ensures !IsBlank(s) ==> IsTrimmedText(Trim(s))
    ensures IsTrimmedText(s) ==> !IsBlank(s) && Trim(s) == s
  {
    if IsTrimmedText(s) {
      TrimUnique(s, 0, s);
    }
  }

  /** A user message holding trimmed, non-blank text followed by a bot
      message under the next id. */
  predicate IsExchange(u: Message, b: Message) {
    u.role == User && IsTrimmedText(u.content) && b.role == Bot && b.id == u.id + 1
  }

  /** After the greeting the transcript is a run of exchanges. */
  predicate Exchanges(ms: seq<Message>)
    decreases |ms|
  {
    if |ms| <= 1 then |ms| == 1
    else |ms| >= 3 && Exchanges(ms[..|ms| - 2]) && IsExchange(ms[|ms| - 2], ms[|ms| - 1])
  }

  /** The transcript invariant: the greeting first, then exchanges, ids
      increasing and all below the counter. */
  predicate WellFormed(ms: seq<Message>, nextId: int) {
    |ms| >= 1 && ms[0] == InitialMessages[0] &&
    IdsIncreasing(ms) && ms[|ms| - 1].id < nextId &&
    Exchanges(ms)
  }

  /** Pairing up the messages after the greeting, each bot message is the
      responder's reply to the text of the user message before it. */
  ghost predicate Answered(ms: seq<Message>)
    decreases |ms|
  {
    if |ms| <= 1 then |ms| == 1
    else |ms| >= 3 && Answered(ms[..|ms| - 2]) && ms[|ms| - 1].content == BotResponse(ms[|ms| - 2].content)
  }

  /** The two messages one send appends: the trimmed text under `id` and
      the reply to the text as typed under `id + 1`. */
  function Exchange(id: int, text: string): seq<Message> {
    [Message(id, User, Trim(text)), Message(id + 1, Bot, BotResponse(text))]
  }

  /** Appending one more exchange keeps the transcript a run of exchanges. */
  lemma ExchangesGrow(ms: seq<Message>, u: Message, b: Message)
    requires Exchanges(ms) && IsExchange(u, b)
    ensures Exchanges(ms + [u, b])
  {
    assert (ms + [u, b])[..|ms|] == ms;
  }

  /** Appending messages with ids above every earlier id keeps the ids
      increasing. */
  lemma IdsGrow(ms: seq<Message>, nextId: int, u: Message, b: Message)
    requires |ms| >= 1 && IdsIncreasing(ms) && ms[|ms| - 1].id < nextId
    requires u.id == nextId && b.id == nextId + 1
    ensures IdsIncreasing(ms + [u, b])
  {
    var ns := ms + [u, b];
    forall i, j | 0 <= i < j < |ns| ensures ns[i].id < ns[j].id {
      if j < |ms| {
        assert ns[i] == ms[i] && ns[j] == ms[j];
      } else if i < |ms| {
        assert ns[i] == ms[i];
        assert ms[i].id <= ms[|ms| - 1].id;
      }
    }
  }

  /** Sending non-blank text keeps the transcript well formed and moves
      the counter past both new ids. */
  lemma AppendExchange(ms: seq<Message>, nextId: int, text: string)
    requires WellFormed(ms, nextId) && !IsBlank(text)
    ensures WellFormed(ms + Exchange(nextId, text), nextId + 2)
  {
    var e := Exchange(nextId, text);
    TrimmedTextIsTrimmed(text);
    assert IsExchange(e[0], e[1]);
    ExchangesGrow(ms, e[0], e[1]);
    IdsGrow(ms, nextId, e[0], e[1]);
    assert e == [e[0], e[1]];
    assert (ms + e)[0] == ms[0];
  }

  /** Sending keeps every bot message the reply to the user message before
      it, although the user message holds the trimmed text and the reply
      was computed from the text as typed. */
  lemma AnsweredGrows(ms: seq<Message>, nextId: int, text: string)
    requires Answered(ms)
    ensures Answered(ms + Exchange(nextId, text))
  {
    var e := Exchange(nextId, text);
    ResponseIgnoresTrim(text);
    assert (ms + e)[..|ms|] == ms;
  }

  /** The chat widget's state. `nextId` is the module-level counter shared
      by every mount of the widget. */
  class ChatWidget {
    var messages: seq<Message>
    var nextId: int
    var input: string
    var isTyping: bool

    ghost predicate Valid()
      reads this
    {
      WellFormed(messages, nextId)
    }

    /** Module load and first mount: the greeting took id 1. */
    constructor ()
      ensures Valid()
      ensures messages == InitialMessages && nextId == 2 && input == "" && !isTyping
    {
      messages := InitialMessages;
      nextId := 2;
      input := "";
      isTyping := false;
    }

    /** A later mount starts again from `initialMessages`; the counter
        keeps counting. */
    method Remount()
      requires Valid()
      modifies this
      ensures Valid()
      ensures messages == InitialMessages && nextId == old(nextId) && input == "" && !isTyping
    {
      messages := InitialMessages;
      input := "";
      isTyping := false;
    }

    /** The input box's change handler. */
    method SetInput(text: string)
      requires Valid()
      modifies this
      ensures Valid()
      ensures input == text && messages == old(messages) && nextId == old(nextId) && isTyping == old(isTyping)
    {
      input := text;
    }

    /** `sendMessage`: blank text changes nothing; otherwise the trimmed
        text is appended as a user message, then, after the typing pause,
        the reply to the text as typed as a bot message, each under the
        next id. */
    method SendMessage(text: string)
      requires Valid()
      modifies this
      ensures Valid()
      ensures IsBlank(text) ==>
        messages == old(messages) && nextId == old(nextId) && input == old(input) && isTyping == old(isTyping)
      ensures !IsBlank(text) ==>
        messages == old(messages) + Exchange(old(nextId), text) && nextId == old(nextId) + 2 &&
        input == "" && !isTyping
    {
      if IsBlank(text) {
        return;
      }
      AppendExchange(messages, nextId, text);
      messages, nextId, input, isTyping := messages + Exchange(nextId, text), nextId + 2, "", false;
    }

    /** The form's submit handler: sends the input box's text unless it is
        blank. */
    method HandleSubmit()
      requires Valid()
      modifies this
      ensures Valid()
      ensures IsBlank(old(input)) ==>
        messages == old(messages) && nextId == old(nextId) && input == old(input) && isTyping == old(isTyping)
      ensures !IsBlank(old(input)) ==>
        messages == old(messages) + Exchange(old(nextId), old(input)) && nextId == old(nextId) + 2 &&
        input == "" && !isTyping
    {
      if !IsBlank(input) {
        SendMessage(input);
      }
    }

    /** Clicking the `i`-th quick reply sends its text, which needs no
        trimming. */
    method SendQuickReply(i: nat)
      requires Valid() && i < |QuickReplies|
      modifies this
      ensures Valid()
      ensures messages == old(messages) + Exchange(old(nextId), QuickReplies[i])
      ensures messages[|messages| - 2].content == QuickReplies[i]
      ensures nextId == old(nextId) + 2 && input == "" && !isTyping
    {
      QuickRepliesAreTrimmed(i);
      SendMessage(QuickReplies[i]);
    }
  }

  /** The quick replies have no whitespace to trim. */
  lemma QuickRepliesAreTrimmed(i: nat)
    requires i < |QuickReplies|
    ensures !IsBlank(QuickReplies[i]) && Trim(QuickReplies[i]) == QuickReplies[i]
  {
    var q := QuickReplies[i];
    assert i in {0, 1, 2, 3, 4};
    assert !IsSpace(q[0]) && !IsSpace(q[|q| - 1]);
    TrimUnique(q, 0, q);
  }
}
