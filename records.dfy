/** The two record shapes the backend canister returns to the pages:
    blog posts and client testimonials. Integer fields are `bigint` on
    the wire and unbounded here. */
module Records {

  datatype BlogPost = BlogPost(
    id: int,
    title: string,
    content: string,
    date: int,
    tags: seq<string>,
    author: string,
    summary: string,
    imageUrl: string,
    category: string)

  datatype Testimonial = Testimonial(
    id: int,
    clientName: string,
    role: string,
    quote: string,
    company: string,
    avatarUrl: string,
    rating: int)

  /** Milliseconds in a day; the placeholder posts are dated a whole
      number of days before the current time. */
  const DayMs: int := 86400000
}
