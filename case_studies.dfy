/** The case-studies page: placeholder testimonials for an empty backend,
    the five-star rating row and the avatar initials. */
module CaseStudiesPage {
  import opened Text
  import opened Records

  // ---------------------------------------------------------------------
  // Placeholder testimonials
  // ---------------------------------------------------------------------

  const FallbackTestimonial1: Testimonial := Testimonial(
    1, "Rajesh Mehta", "CEO",
    "NexVstar transformed how we handle leads. Our conversion rate jumped from 12% to 38% in just 90 days. The AI scoring alone saved us 40 hours per week in manual qualification.",
    "TechServe India", "", 5)

  const FallbackTestimonial2: Testimonial := Testimonial(
    2, "Priya Sharma", "Head of Sales",
    "The revenue forecasting dashboard is incredibly accurate. We now plan our quarterly budgets with 94% confidence. Best investment we've made for our sales team.",
    "GrowthWave Solutions", "", 5)

  const FallbackTestimonial3: Testimonial := Testimonial(
    3, "Amit Verma", "Operations Director",
    "We were skeptical about AI automation, but NexVstar proved us wrong. ₹2 crore in additional revenue in 6 months. The enterprise insights alone paid for the platform 10x over.",
    "Summit Manufacturing", "", 5)

  const FallbackTestimonial4: Testimonial := Testimonial(
    4, "Kavitha Nair", "VP Marketing",
    "Our sales cycle dropped from 45 days to 18 days after implementing NexVstar's follow-up automation. The AI knows exactly when and how to engage each prospect.",
    "InfoPulse Technologies", "", 4)

  const FallbackTestimonial5: Testimonial := Testimonial(
    5, "Suresh Kumar", "Founder",
    "Finally, a platform that understands the Indian market. NexVstar's AI is trained on Indian business patterns, making the lead scoring remarkably accurate for our B2B sales.",
    "DataBridge Analytics", "", 5)

  const FallbackTestimonial6: Testimonial := Testimonial(
    6, "Anita Desai", "CFO",
    "The board-ready PDF reports from NexVstar are professional and comprehensive. Our investors are impressed with the data-driven approach. Highly recommended for enterprise teams.",
    "Horizon Group", "", 5)

  const FallbackTestimonials: seq<Testimonial> := [
    FallbackTestimonial1, FallbackTestimonial2, FallbackTestimonial3,
    FallbackTestimonial4, FallbackTestimonial5, FallbackTestimonial6
  ]

  /** What the testimonial query yields: the placeholders without a
      backend connection or when the backend has none, otherwise the
      backend's list unchanged. */
  function LoadTestimonials(connected: bool, result: seq<Testimonial>): (r: seq<Testimonial>)
    ensures connected && result != [] ==> r == result
    ensures !connected || result == [] ==> r == FallbackTestimonials
  {
    if !connected then FallbackTestimonials
    else if |result| > 0 then result else FallbackTestimonials
  }

  /** `testimonials ?? fallbackTestimonials`: the list the page shows. */
  function DisplayTestimonials(data: Option<seq<Testimonial>>): (r: seq<Testimonial>)
    ensures data.Some? ==> r == data.value
    ensures data.None? ==> r == FallbackTestimonials
  {
    match data
      case Some(list) => list
      case None => FallbackTestimonials
  }

  /** The page always has testimonials to show. */
  lemma DisplayedTestimonialsNonEmpty(connected: bool, result: seq<Testimonial>)
    ensures DisplayTestimonials(Some(LoadTestimonials(connected, result))) != []
    ensures DisplayTestimonials(None) != []
  {
  }

  // ---------------------------------------------------------------------
  // Star rating
  // ---------------------------------------------------------------------

  /** The five stars of `StarRating`: star `k + 1` is filled when
      `k + 1 <= rating`. */
  function Stars(rating: int): (r: seq<bool>)
    ensures |r| == 5
  {
    seq(5, k requires 0 <= k < 5 => k + 1 <= rating)
  }

  /** Number of filled stars. */
  function FilledCount(stars: seq<bool>): nat
    decreases |stars|
  {
    if stars == [] then 0 else (if stars[0] then 1 else 0) + FilledCount(stars[1..])
  }

  function Clamp(x: int, lo: int, hi: int): int
    requires lo <= hi
  {
    if x < lo then lo else if x > hi then hi else x
  }

  /** The filled stars come first: a filled star is never preceded by an
      empty one. */
  lemma FilledStarsArePrefix(rating: int)
    ensures forall i, j :: 0 <= i < j < 5 && Stars(rating)[j] ==> Stars(rating)[i]
  {
  }

  /** A row of `n` filled stars followed by empty ones has `n` filled. */
  lemma {:induction false} FilledCountOfPrefix(stars: seq<bool>, n: nat)
    requires n <= |stars|
    requires forall k :: 0 <= k < |stars| ==> (stars[k] <==> k < n)
    ensures FilledCount(stars) == n
    decreases |stars|
  {
    if stars != [] {
      var m := if n > 0 then n - 1 else 0;
      FilledCountOfPrefix(stars[1..], m);
    }
  }

  /** The number of filled stars is the rating clamped to 0..5. */
  lemma FilledCountIsClampedRating(rating: int)
    ensures FilledCount(Stars(rating)) == Clamp(rating, 0, 5)
  {
    FilledCountOfPrefix(Stars(rating), Clamp(rating, 0, 5));
  }

  // ---------------------------------------------------------------------
  // Initials
  // ---------------------------------------------------------------------

  /** The words that are not empty, in order: what is left of a split on
      spaces once leading, trailing and repeated spaces are ignored. */
  function NonEmptyWords(words: seq<string>): (r: seq<string>)
    ensures |r| <= |words|
    ensures forall i :: 0 <= i < |r| ==> r[i] != ""
    decreases |words|
  {
    if words == [] then []
    else (if words[0] == "" then [] else [words[0]]) + NonEmptyWords(words[1..])
  }

  /** `words.map(n => n[0]).join("")`: an empty word yields `undefined`,
      which joins as nothing, so the result holds the first character of
      each non-empty word, in order. */
  function FirstLetters(words: seq<string>): (r: string)
    ensures |r| == |NonEmptyWords(words)|
    ensures forall i :: 0 <= i < |r| ==> r[i] == NonEmptyWords(words)[i][0]
    decreases |words|
  {
    if words == [] then ""
    else
      var rest := FirstLetters(words[1..]);
      if words[0] == "" then rest
      else
        assert NonEmptyWords(words) == [words[0]] + NonEmptyWords(words[1..]);
        [words[0][0]] + rest
  }

  /** `name.split(" ").map(n => n[0]).join("").slice(0, 2)`: the first
      characters of the first two non-empty words of the name (fewer when
      it has fewer words). */
  function Initials(name: string): (r: string)
    ensures var words := NonEmptyWords(Split(name, ' '));
            |r| == (if |words| < 2 then |words| else 2) &&
            forall i :: 0 <= i < |r| ==> r[i] == words[i][0]
  {
    var letters := FirstLetters(Split(name, ' '));
    if |letters| <= 2 then letters else letters[..2]
  }

  /** Empty words, which repeated spaces produce, add no letter. */
  lemma {:induction false} EmptyWordAddsNothing(before: seq<string>, after: seq<string>)
    ensures FirstLetters(before + [""] + after) == FirstLetters(before + after)
    decreases |before|
  {
    if before == [] {
      assert before + [""] + after == [""] + after;
      assert ([""] + after)[1..] == after;
      assert before + after == after;
    } else {
      EmptyWordAddsNothing(before[1..], after);
      assert (before + [""] + after)[1..] == before[1..] + [""] + after;
      assert (before + after)[1..] == before[1..] + after;
    }
  }

  /** For a name of two or more words separated by single spaces, the
      initials are the first letters of the first two words. */
  lemma InitialsOfWords(words: seq<string>)
    requires |words| >= 2
    requires forall i :: 0 <= i < |words| ==> words[i] != "" && ' ' !in words[i]
    ensures Initials(Join(words, ' ')) == [words[0][0], words[1][0]]
  {
    SplitJoin(words, ' ');
    assert words[1..][1..] == words[2..];
    var tail := FirstLetters(words[2..]);
    assert FirstLetters(words) == [words[0][0]] + ([words[1][0]] + tail);
  }

  /** A single-word name gives that word's first letter. */
  lemma InitialsOfOneWord(word: string)
    requires word != "" && ' ' !in word
    ensures Initials(word) == [word[0]]
  {
    SplitJoin([word], ' ');
  }

  /** "Rajesh Mehta" gives "RM". */
  lemma InitialsOfRajeshMehta()
    ensures Initials("Rajesh Mehta") == "RM"
  {
    var words := ["Rajesh", "Mehta"];
    assert Join(words, ' ') == "Rajesh Mehta";
    InitialsOfWords(words);
  }
}
