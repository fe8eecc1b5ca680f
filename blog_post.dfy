/** The article page: the fallback article that stands in for a missing
    one, and the line-oriented markup renderer that turns an article's
    content into headings, list items and paragraphs. */
module BlogPostPage {
  import opened Text
  import opened Records

  // ---------------------------------------------------------------------
  // Loading an article
  // ---------------------------------------------------------------------

  const FallbackContent: string := "## The Rise of AI in Indian B2B Sales\n\nThe Indian B2B sales landscape has been undergoing a significant transformation over the past few years. Traditional methods of lead qualification — manual spreadsheets, intuition-based prioritization, and generalized follow-up sequences — are rapidly giving way to AI-powered systems that can analyze hundreds of data points in milliseconds.\n\n## What is AI Lead Scoring?\n\nAI Lead Scoring is the process of using machine learning algorithms to assign a numerical score (typically 0-100%) to each prospect based on their likelihood to convert into a paying customer. Unlike traditional rule-based scoring, AI scoring continuously learns from new data, improving its accuracy over time.\n\n### Key Factors Analyzed\n\n- **Digital Engagement**: Website visits, content downloads, email opens\n- **Firmographic Data**: Company size, industry, revenue range\n- **Behavioral Signals**: Demo requests, pricing page visits, competitor comparisons\n- **Communication Patterns**: Response rate, meeting attendance, question quality\n\n## Why Indian Businesses Are Adopting It Fast\n\nIndia's B2B market has unique characteristics that make AI lead scoring particularly valuable:\n\n1. **High Lead Volume**: Indian companies often generate thousands of inbound leads monthly\n2. **Diverse Industries**: From IT to manufacturing, each sector has different conversion patterns\n3. **Time Zone Optimization**: AI can calculate the best time to contact prospects across different regions\n4. **Language Intelligence**: Modern AI systems can analyze communications in Hindi, regional languages, and English\n\n## Real Results from Indian Companies\n\nCompanies using NexVstar's AI Lead Scoring have reported:\n- 3x improvement in conversion rates within 90 days\n- 60% reduction in time spent on manual lead qualification\n- 45% increase in sales team productivity\n- ₹50L+ additional revenue in the first year\n\n## Getting Started\n\nImplementation is surprisingly straightforward. The NexVstar platform integrates with your existing CRM and email systems within 48 hours, requiring no technical expertise from your team.\n\n**Ready to see how AI scoring could transform your sales pipeline?** Book a free demo to see your potential ROI."

  /** The placeholder article, dated two days before `now` (milliseconds
      since the epoch, the page's clock reading). */
  function FallbackPost(now: int): (p: BlogPost)
    ensures p.id == 1 && p.date == now - 2 * DayMs
  {
    BlogPost(
      1,
      "How AI Lead Scoring is Revolutionizing B2B Sales in India",
      FallbackContent,
      now - DayMs * 2,
      ["AI", "Lead Scoring", "B2B Sales", "India"],
      "Rahul Gupta",
      "Discover how Indian businesses are using AI-powered lead scoring to prioritize prospects and increase conversion rates by 3x.",
      "",
      "AI Automation")
  }

  /** `BigInt(id)` on the route parameter: surrounding whitespace is
      ignored, a blank string is 0, and otherwise an optional sign must be
      followed by decimal digits only; `None` stands for the SyntaxError
      it throws on anything else, such as "abc". */
  function RouteId(id: string): (r: Option<int>)
    ensures Trim(id) == "" ==> r == Some(0)
    ensures Trim(id) != "" && IsDigit(Trim(id)[0]) ==>
              (r.Some? <==> ParseNat(Trim(id)).Some?) && (r.Some? ==> r.value == ParseNat(Trim(id)).value)
    ensures Trim(id) != "" && (Trim(id)[0] == '+' || Trim(id)[0] == '-') ==>
              (r.Some? <==> ParseNat(Trim(id)[1..]).Some?)
    ensures Trim(id) != "" && Trim(id)[0] == '+' && r.Some? ==> r.value == ParseNat(Trim(id)[1..]).value
    ensures Trim(id) != "" && Trim(id)[0] == '-' && r.Some? ==> r.value == 0 - (ParseNat(Trim(id)[1..]).value as int)
    ensures Trim(id) != "" && !IsDigit(Trim(id)[0]) && Trim(id)[0] != '+' && Trim(id)[0] != '-' ==> r.None?
  {
    var t := Trim(id);
    if t == "" then Some(0)
    else if t[0] == '+' || t[0] == '-' then
      match ParseNat(t[1..])
        case Some(n) => Some(if t[0] == '-' then 0 - (n as int) else n as int)
        case None => None
    else
      match ParseNat(t)
        case Some(n) => ValueUpToDigits(t, |t|); Some(n)
        case None => None
  }

  /** The route id of an article, written in decimal, reads back as that
      id. */
  lemma RouteIdOfDecimal(n: nat)
    ensures RouteId(Decimal(n)) == Some(n)
  {
    var s := Decimal(n);
    TrimUnique(s, 0, s);
    ParseDecimal(n);
  }

  /** A route id made of letters makes `BigInt` throw. */
  lemma RouteIdRejectsWords()
    ensures RouteId("abc") == None
  {
    TrimUnique("abc", 0, "abc");
  }

  /** `BigInt("-5")` is -5. */
  lemma NegativeRouteId()
    ensures RouteId("-5") == Some(-5)
  {
    TrimUnique("-5", 0, "-5");
    assert "-5"[1..] == "5";
  }

  /** `BigInt("+7")` is 7. */
  lemma PositiveRouteId()
    ensures RouteId("+7") == Some(7)
  {
    TrimUnique("+7", 0, "+7");
    assert "+7"[1..] == "7";
  }

  /** A sign with no digits after it throws: `BigInt("-")`. */
  lemma BareSignRouteIdRejected()
    ensures RouteId("-") == None
  {
    TrimUnique("-", 0, "-");
    assert "-"[1..] == "";
  }

  /** Where the article query stands: disabled (it runs only once the
      backend actor is ready), settled with an article, or settled with
      an error (the exception `BigInt` throws for a malformed route id). */
  datatype PostQuery = Disabled | Fetched(post: BlogPost) | Failed

  /** The article query for route id `id`, against a backend whose
      articles are `backend` by id. `ready` is the query's `enabled` flag:
      an actor is present and not fetching. Without it the query function
      never runs, so its own no-actor branch is unreachable. Once ready:
      an error when the route id is not a number; otherwise the backend's
      article under that id or, when it has none, the fallback. */
  function LoadPost(ready: bool, id: string, backend: map<int, BlogPost>, now: int): (q: PostQuery)
    ensures q == Disabled <==> !ready
    ensures ready ==> (q == Failed <==> RouteId(id).None?)
    ensures ready && RouteId(id).Some? && RouteId(id).value in backend ==>
              q == Fetched(backend[RouteId(id).value])
    ensures ready && RouteId(id).Some? && RouteId(id).value !in backend ==>
              q == Fetched(FallbackPost(now))
  {
    if !ready then Disabled
    else match RouteId(id)
      case None => Failed
      case Some(n) => if n in backend then Fetched(backend[n]) else Fetched(FallbackPost(now))
  }

  /** The query's `data`: absent while disabled and after an error. */
  function QueryData(q: PostQuery): Option<BlogPost> {
    match q
      case Fetched(post) => Some(post)
      case Disabled => None
      case Failed => None
  }

  datatype PostView = Loading | NotFound | Article(post: BlogPost)

  /** What the page shows for the query state: skeletons while loading,
      "Article not found." when there is no data, the article otherwise. */
  function View(isLoading: bool, data: Option<BlogPost>): (v: PostView)
    ensures v == Loading <==> isLoading
    ensures v == NotFound <==> !isLoading && data.None?
    ensures v.Article? ==> data == Some(v.post)
  {
    if isLoading then Loading
    else match data
      case None => NotFound
      case Some(post) => Article(post)
  }

  /** When the page is not loading, "Article not found." shows exactly
      when the query is disabled (no actor ready) or the route id is not a
      number; otherwise it shows an article, the backend's own when it has
      one under that id. */
  lemma NotFoundIffBadRouteId(ready: bool, id: string, backend: map<int, BlogPost>, now: int)
    ensures View(false, QueryData(LoadPost(ready, id, backend, now))) == NotFound <==>
              !ready || RouteId(id).None?
    ensures ready && RouteId(id).Some? && RouteId(id).value in backend ==>
              View(false, QueryData(LoadPost(ready, id, backend, now))) == Article(backend[RouteId(id).value])
  {
    var q := LoadPost(ready, id, backend, now);
    if q.Fetched? {
      assert QueryData(q) == Some(q.post);
      assert View(false, Some(q.post)) == Article(q.post);
    } else {
      assert QueryData(q) == None;
    }
  }

  /** "/blog/abc" with an actor ready shows "Article not found.". */
  lemma WordRouteIsNotFound(backend: map<int, BlogPost>, now: int)
    ensures View(false, QueryData(LoadPost(true, "abc", backend, now))) == NotFound
  {
    RouteIdRejectsWords();
  }

  // ---------------------------------------------------------------------
  // Line classification
  // ---------------------------------------------------------------------

  /** One rendered line. Plain list items come from "- **" lines that are
      not of the bold "Name: rest" shape and from numbered lines. */
  datatype Element =
    | Heading2(text: string)
    | Heading3(text: string)
    | BoldItem(name: string, rest: string)
    | Item(text: string)
    | BoldParagraph(text: string)
    | Break
    | Paragraph(text: string)

  /** The characters a regular expression `.` does not match. */
  predicate IsLineTerminator(c: char) {
    c == '\n' || c == '\r' || c == '\U{2028}' || c == '\U{2029}'
  }

  predicate NoLineTerminator(s: string) {
    forall i :: 0 <= i < |s| ==> !IsLineTerminator(s[i])
  }

  /** The bold list-item pattern `- **Name**: rest` written out: a name of
      one or more characters other than '*', and a rest of one or more
      characters that are not line terminators, reaching the end. */
  predicate IsBoldItemLine(line: string, name: string, rest: string) {
    line == "- **" + name + "**: " + rest
    && name != [] && '*' !in name
    && rest != [] && NoLineTerminator(rest)
  }

  /** Index of the first '*' at or after `i`, or `|s|` if there is none. */
  function FirstStar(s: string, i: nat): (j: nat)
    requires i <= |s|
    ensures i <= j <= |s|
    ensures forall k :: i <= k < j ==> s[k] != '*'
    ensures j < |s| ==> s[j] == '*'
    decreases |s| - i
  {
    if i == |s| then |s| else if s[i] == '*' then i else FirstStar(s, i + 1)
  }

  /** The match of `/^- \*\*([^*]+)\*\*: (.+)$/` on `line`: the name and
      the rest, or `None`. The name group can only end at the first '*'
      after the opening marker, so the match is found by one scan. */
  function BoldItemMatch(line: string): (m: Option<(string, string)>)
    ensures m.Some? ==> IsBoldItemLine(line, m.value.0, m.value.1)
  {
    if !StartsWith(line, "- **") then None
    else
      var j := FirstStar(line, 4);
      if j > 4 && j + 4 < |line| && line[j..j + 4] == "**: " && NoLineTerminator(line[j + 4..])
      then
        assert line == line[..4] + line[4..j] + line[j..j + 4] + line[j + 4..];
        assert forall k :: 0 <= k < j - 4 ==> line[4..j][k] == line[4 + k];
        Some((line[4..j], line[j + 4..]))
      else None
  }

  /** The scan finds a match exactly when the line has the bold list-item
      shape, and then it finds that name and rest. */
  lemma BoldItemMatchIsPattern(line: string, name: string, rest: string)
    ensures BoldItemMatch(line) == Some((name, rest)) <==> IsBoldItemLine(line, name, rest)
  {
    if BoldItemMatch(line) == Some((name, rest)) {
      var j := FirstStar(line, 4);
      assert name == line[4..j] && rest == line[j + 4..];
      assert forall k :: 0 <= k < |name| ==> name[k] == line[4 + k];
      assert line == line[..4] + line[4..j] + line[j..j + 4] + line[j + 4..];
      assert line[..4] == "- **";
    }
    if IsBoldItemLine(line, name, rest) {
      var n := |name|;
      assert line[..4] == "- **";
      assert forall k :: 4 <= k < 4 + n ==> line[k] == name[k - 4];
      assert line[4 + n] == '*';
      var j := FirstStar(line, 4);
      assert j == 4 + n;
      assert line[j..j + 4] == "**: ";
      assert line[4..j] == name;
      assert line[j + 4..] == rest;
    }
  }

  /** Number of decimal digits at the start of `s` from index `i` on. */
  function DigitRun(s: string, i: nat): (j: nat)
    requires i <= |s|
    ensures i <= j <= |s|
    ensures forall k :: i <= k < j ==> IsDigit(s[k])
    ensures j < |s| ==> !IsDigit(s[j])
    decreases |s| - i
  {
    if i == |s| || !IsDigit(s[i]) then i else DigitRun(s, i + 1)
  }

  predicate AllDigits(s: string) {
    forall i :: 0 <= i < |s| ==> IsDigit(s[i])
  }

  /** The numbered-item pattern `^\d+\. ` written out. */
  predicate IsNumberedLine(line: string, number: string, rest: string) {
    line == number + ". " + rest && number != [] && AllDigits(number)
  }

  /** What `line.replace(/^\d+\. /, "")` leaves when the pattern matches,
      `None` when it does not. */
  function NumberedMatch(line: string): (r: Option<string>)
    ensures r.Some? ==> |r.value| + 3 <= |line| && IsNumberedLine(line, line[..|line| - |r.value| - 2], r.value)
  {
    var n := DigitRun(line, 0);
    if n > 0 && n + 2 <= |line| && line[n..n + 2] == ". " then
      assert line == line[..n] + ". " + line[n + 2..];
      Some(line[n + 2..])
    else None
  }

  /** The scan matches exactly the numbered lines, and strips exactly the
      number and ". ". */
  lemma NumberedMatchIsPattern(line: string)
    ensures NumberedMatch(line).Some? <==> exists number, rest :: IsNumberedLine(line, number, rest)
    ensures forall number, rest :: IsNumberedLine(line, number, rest) ==> NumberedMatch(line) == Some(rest)
  {
    var n := DigitRun(line, 0);
    if NumberedMatch(line).Some? {
      assert line == line[..n] + ". " + line[n + 2..];
      assert IsNumberedLine(line, line[..n], line[n + 2..]);
    }
    forall number, rest | IsNumberedLine(line, number, rest)
      ensures NumberedMatch(line) == Some(rest)
    {
      NumberedLineDigits(line, number, rest);
    }
  }

  lemma NumberedLineDigits(line: string, number: string, rest: string)
    requires IsNumberedLine(line, number, rest)
    ensures NumberedMatch(line) == Some(rest)
  {
    var m := |number|;
    assert forall k :: 0 <= k < m ==> line[k] == number[k];
    assert line[m] == '.';
    var n := DigitRun(line, 0);
    assert n == m;
    assert line[n..n + 2] == ". ";
    assert line[n + 2..] == rest;
  }

  /** `line.slice(2, -2)`: empty when the line is shorter than four. */
  function Unbolded(line: string): (t: string)
    ensures |line| >= 4 ==> |t| == |line| - 4 && line == line[..2] + t + line[|line| - 2..]
    ensures |line| < 4 ==> t == ""
  {
    if |line| >= 4 then line[2..|line| - 2] else ""
  }

  /** The renderer's rule for one line, tried in order: "## ", "### ",
      "- **" (bold item or plain item), a numbered prefix, a line both
      starting and ending with "**", the empty line, anything else. */
  function ClassifyLine(line: string): (e: Element)
    ensures e.Heading2? ==> line == "## " + e.text
    ensures e.Heading3? ==> line == "### " + e.text
    ensures e.BoldItem? ==> IsBoldItemLine(line, e.name, e.rest)
    ensures e.BoldParagraph? ==>
              StartsWith(line, "**") && EndsWith(line, "**") && (|line| >= 4 ==> line == "**" + e.text + "**")
    ensures e == Break <==> line == ""
    ensures e.Paragraph? ==> e.text == line
  {
    assert StartsWith(line, "## ") ==> line == "## " + line[3..];
    assert StartsWith(line, "### ") ==> line == "### " + line[4..];
    if StartsWith(line, "## ") then Heading2(line[3..])
    else if StartsWith(line, "### ") then Heading3(line[4..])
    else if StartsWith(line, "- **") then
      match BoldItemMatch(line)
        case Some((name, rest)) => BoldItem(name, rest)
        case None => Item(line[2..])
    else if NumberedMatch(line).Some? then Item(NumberedMatch(line).value)
    else if StartsWith(line, "**") && EndsWith(line, "**") then BoldParagraph(Unbolded(line))
    else if line == "" then Break
    else Paragraph(line)
  }

  // ---------------------------------------------------------------------
  // What each kind of line becomes
  // ---------------------------------------------------------------------

  /** "## text" is a level-2 heading holding the text after the marker. */
  lemma Heading2Line(text: string)
    ensures ClassifyLine("## " + text) == Heading2(text)
  {
    assert ("## " + text)[..3] == "## ";
    assert ("## " + text)[3..] == text;
  }

  /** "### text" is a level-3 heading: it never passes the "## " test,
      since its third character is '#'. */
  lemma Heading3Line(text: string)
    ensures ClassifyLine("### " + text) == Heading3(text)
  {
    var line := "### " + text;
    assert line[2] == '#';
    NotPrefixWhenDiffering(line, "## ", 2);
    assert line[..4] == "### ";
    assert line[4..] == text;
  }

  /** A line of the bold list-item shape renders its name in bold
      followed by the rest. */
  lemma BoldItemLine(line: string, name: string, rest: string)
    requires IsBoldItemLine(line, name, rest)
    ensures ClassifyLine(line) == BoldItem(name, rest)
  {
    BoldItemMatchIsPattern(line, name, rest);
    assert line[..4] == "- **";
    NotPrefixWhenDiffering(line, "## ", 0);
    NotPrefixWhenDiffering(line, "### ", 0);
  }

  /** Any other "- **" line is a plain item that keeps the "**" (only
      "- " is dropped). */
  lemma OtherStarredItemLine(line: string)
    requires StartsWith(line, "- **")
    requires forall name, rest :: !IsBoldItemLine(line, name, rest)
    ensures ClassifyLine(line) == Item(line[2..])
  {
    NotPrefixWhenDiffering(line, "## ", 0);
    NotPrefixWhenDiffering(line, "### ", 0);
    if BoldItemMatch(line).Some? {
      var m := BoldItemMatch(line).value;
      BoldItemMatchIsPattern(line, m.0, m.1);
      assert false;
    }
  }

  /** A line starting with digits and ". " is an item without that
      prefix. */
  lemma NumberedLine(line: string, number: string, rest: string)
    requires IsNumberedLine(line, number, rest)
    ensures ClassifyLine(line) == Item(rest)
  {
    NumberedLineDigits(line, number, rest);
    assert IsDigit(line[0]);
    NotPrefixWhenDiffering(line, "## ", 0);
    NotPrefixWhenDiffering(line, "### ", 0);
    NotPrefixWhenDiffering(line, "- **", 0);
  }

  /** A line that reaches the bold-paragraph test and both starts and ends
      with "**" becomes a bold paragraph of what lies between the markers;
      "**" and "***" give an empty one. */
  lemma BoldParagraphLine(line: string)
    requires !StartsWith(line, "## ") && !StartsWith(line, "### ") && !StartsWith(line, "- **")
    requires NumberedMatch(line).None?
    requires StartsWith(line, "**") && EndsWith(line, "**")
    ensures ClassifyLine(line) == BoldParagraph(Unbolded(line))
    ensures |line| >= 4 ==> line == "**" + Unbolded(line) + "**"
    ensures |Unbolded(line)| == if |line| >= 4 then |line| - 4 else 0
  {
  }

  /** Exactly the empty line is a break. */
  lemma BreakIffEmpty(line: string)
    ensures ClassifyLine(line) == Break <==> line == ""
  {
  }

  /** A paragraph holds its line unchanged, and only lines that match none
      of the earlier rules become paragraphs. */
  lemma ParagraphLine(line: string)
    ensures ClassifyLine(line).Paragraph? <==>
      line != "" && !StartsWith(line, "## ") && !StartsWith(line, "### ") && !StartsWith(line, "- **")
      && NumberedMatch(line).None? && !(StartsWith(line, "**") && EndsWith(line, "**"))
    ensures ClassifyLine(line).Paragraph? ==> ClassifyLine(line).text == line
  {
  }

  // ---------------------------------------------------------------------
  // Rendering a whole article
  // ---------------------------------------------------------------------

  /** `content.split("\n").map(...)`: one element per line, in order,
      so one more than there are line breaks. */
  function RenderContent(content: string): (r: seq<Element>)
    ensures |r| == multiset(content)['\n'] + 1
  {
    SplitCount(content, '\n');
    var lines := Split(content, '\n');
    seq(|lines|, i requires 0 <= i < |lines| => ClassifyLine(lines[i]))
  }

  /** Rendering lines joined with line breaks classifies each of those
      lines, in their order. */
  lemma RenderJoinedLines(lines: seq<string>)
    requires |lines| >= 1
    requires forall i :: 0 <= i < |lines| ==> '\n' !in lines[i]
    ensures |RenderContent(Join(lines, '\n'))| == |lines|
    ensures forall i :: 0 <= i < |lines| ==> RenderContent(Join(lines, '\n'))[i] == ClassifyLine(lines[i])
  {
    SplitJoin(lines, '\n');
  }
}
