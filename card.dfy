/**
 * The media card: a poster with a rating badge, a year badge shown only for a
 * truthy year, and a play/title overlay shown while the pointer hovers.
 */
module MediaCard {
  import opened Wrappers
  import opened Js
  import opened Display

  /** The card's `content` prop; every field may be absent or of the wrong type. */
  datatype Content = Content(
    id: Value,
    title: Value,
    year: Value,
    poster: Value,
    voteAverage: Value,
    mediaType: Value)

  const PosterBase: string := "https://image.tmdb.org/t/p/w500"
  const PlaceholderPoster: string := "https://via.placeholder.com/500x750?text=No+Poster"

  /**
   * `year || ""`: the year itself when truthy; "" for an absent year, 0 or NaN.
   * The result is never a falsy number, so the badge guard never prints a stray "0".
   */
  function SafeYear(year: Value): (r: Value)
    ensures Truthy(r) <==> Truthy(year)
    ensures Truthy(year) ==> r == year
    ensures !Truthy(r) ==> r == Str("")
  {
    Or(year, Str(""))
  }

  /** The poster image: the TMDB w500 URL of a truthy poster path, else the placeholder. */
  function PosterSrc(poster: Value): (r: string)
    ensures !Truthy(poster) ==> r == PlaceholderPoster
    ensures Truthy(poster) ==>
      |r| >= |PosterBase| && r[..|PosterBase|] == PosterBase && r[|PosterBase|..] == ToString(poster)
  {
    if Truthy(poster) then PosterBase + ToString(poster) else PlaceholderPoster
  }

  /** A poster URL never coincides with the placeholder, so a missing poster is recognisable. */
  lemma PosterNeverPlaceholder(poster: Value)
    requires Truthy(poster)
    ensures PosterSrc(poster) != PlaceholderPoster
  {
    assert PosterSrc(poster)[8] == 'i';
    assert PlaceholderPoster[8] == 'v';
  }

  /** Distinct string poster paths give distinct image URLs. */
  lemma PosterSrcInjective(a: string, b: string)
    requires a != "" && b != "" && PosterSrc(Str(a)) == PosterSrc(Str(b))
    ensures a == b
  {
  }

  /** What one render pass of the card shows. */
  datatype CardView = CardView(
    imageSrc: string,
    alt: Value,
    rating: string,
    yearBadge: Option<Value>,   // the year badge and its text, when rendered
    overlay: Option<Value>)     // the hover overlay and its title, when rendered

  function Render(content: Content, hovered: bool): (r: CardView)
    ensures r.imageSrc == PosterSrc(content.poster)
    ensures Truthy(r.alt) && r.alt == SafeTitle(content.title)
    ensures r.rating == SafeRating(content.voteAverage)
    ensures r.yearBadge.Some? <==> Truthy(content.year)
    ensures r.yearBadge.Some? ==> r.yearBadge.value == content.year
    ensures r.overlay.Some? <==> hovered
    ensures r.overlay.Some? ==> r.overlay.value == r.alt
  {
    var safeTitle := SafeTitle(content.title);
    var safeYear := SafeYear(content.year);
    CardView(
      PosterSrc(content.poster),
      safeTitle,
      SafeRating(content.voteAverage),
      if Truthy(safeYear) then Some(safeYear) else None,
      if hovered then Some(safeTitle) else None)
  }

  /** The pointer events the card listens to. */
  datatype PointerEvent = Enter | Leave

  /** The hover flag after one event: each handler sets it outright. */
  function Hovered(before: bool, e: PointerEvent): bool {
    e == Enter
  }

  /** The hover flag after a sequence of events, starting from `start`. */
  function HoveredAfter(start: bool, events: seq<PointerEvent>): bool
    decreases |events|
  {
    if events == [] then start else HoveredAfter(Hovered(start, events[0]), events[1..])
  }

  /**
   * Only the last event matters: the card is hovered exactly when the last
   * pointer event was an enter, or, with no events, when it started hovered.
   */
  lemma {:induction false} HoveredAfterLast(start: bool, events: seq<PointerEvent>)
    ensures HoveredAfter(start, events) ==
      if events == [] then start else events[|events| - 1] == Enter
    decreases |events|
  {
    if events != [] {
      HoveredAfterLast(Hovered(start, events[0]), events[1..]);
    }
  }

  /** Repeating an event changes nothing: both handlers are idempotent. */
  lemma HandlersIdempotent(start: bool, events: seq<PointerEvent>, e: PointerEvent)
    ensures HoveredAfter(start, events + [e, e]) == HoveredAfter(start, events + [e])
  {
    HoveredAfterLast(start, events + [e, e]);
    HoveredAfterLast(start, events + [e]);
  }

  /** A mounted card: its content prop and the `isHovered` state it owns. */
  class Card {
    const content: Content
    var isHovered: bool

    /** Mounting: not hovered. */
    constructor (content: Content)
      ensures this.content == content && !isHovered
    {
      this.content := content;
      isHovered := false;
    }

    /** The pointer-enter handler. */
    method PointerEnter()
      modifies this`isHovered
      ensures isHovered == Hovered(old(isHovered), Enter)
      ensures isHovered
    {
      isHovered := true;
    }

    /** The pointer-leave handler. */
    method PointerLeave()
      modifies this`isHovered
      ensures isHovered == Hovered(old(isHovered), Leave)
      ensures !isHovered
    {
      isHovered := false;
    }

    /** What the card renders in its current state. */
    function View(): (r: CardView)
      reads this
      ensures r == Render(content, isHovered)
      ensures r.overlay.Some? <==> isHovered
      ensures r.yearBadge.Some? <==> Truthy(content.year)
    {
      Render(content, isHovered)
    }
  }
}
