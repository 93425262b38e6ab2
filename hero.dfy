/**
 * The hero slideshow: a current index over the featured items supplied by the
 * slider context, advanced by a repeating timer and set by dot clicks, and a
 * render pass that chooses between a loading skeleton, an empty placeholder
 * and the active slide, deriving every displayed field defensively.
 */
module HeroSlideshow {
  import opened Wrappers
  import opened Js
  import opened Display

  /** One featured item; every field may be absent or of the wrong type. */
  datatype FeaturedItem = FeaturedItem(
    id: Value,
    title: Value,
    overview: Value,
    releaseDate: Value,
    backdropPath: Value,
    logo: Value,
    voteAverage: Value,
    genres: Value,
    kind: Value)  // the item's `type` field: "movie", "tv", ...

  /** An exception thrown during a render pass. */
  datatype RenderError = TypeError(message: string)

  const BackdropBase: string := "https://image.tmdb.org/t/p/original"
  const LogoBase: string := "https://image.tmdb.org/t/p/w500"
  const DefaultKind: string := "movie"

  // ---------------------------------------------------------------------------
  // The index: timer ticks and dot clicks
  // ---------------------------------------------------------------------------

  /**
   * The index after one timer tick over a list of `n` items. No interval is
   * installed while the list is empty, so then nothing changes. An index left
   * over from a longer list is not reset; the tick itself brings it back.
   */
  function NextIndex(index: nat, n: nat): (r: nat)
    ensures n == 0 ==> r == index
    ensures n > 0 ==> r < n
    ensures n > 0 && index + 1 < n ==> r == index + 1
    ensures n > 0 && index + 1 == n ==> r == 0
  {
    if n == 0 then index else (index + 1) % n
  }

  /** The index after `k` timer ticks with the list length fixed at `n`. */
  function AfterTicks(index: nat, n: nat, k: nat): nat
    decreases k
  {
    if k == 0 then index else AfterTicks(NextIndex(index, n), n, k - 1)
  }

  lemma MulAtLeast(d: int, n: int)
    requires d >= 1 && n > 0
    ensures d * n >= n
  {
  }

  lemma ModUnique(a: int, n: int, q: int, m: int)
    requires n > 0 && 0 <= m < n && a == q * n + m
    ensures a % n == m
  {
    var q0, m0 := a / n, a % n;
    assert a == q0 * n + m0;
    if q0 < q {
      assert (q - q0) * n == q * n - q0 * n;
      MulAtLeast(q - q0, n);
    } else if q0 > q {
      assert (q0 - q) * n == q0 * n - q * n;
      MulAtLeast(q0 - q, n);
    }
  }

  lemma ModAddLeft(a: nat, b: nat, n: nat)
    requires n > 0
    ensures (a % n + b) % n == (a + b) % n
  {
    var s := a % n + b;
    var q := a / n;
    assert a + b == q * n + s;
    var q2, m2 := s / n, s % n;
    assert s == q2 * n + m2;
    assert a + b == (q + q2) * n + m2 by {
      assert (q + q2) * n == q * n + q2 * n;
    }
    ModUnique(a + b, n, q + q2, m2);
  }

  /**
   * With `n` items, `k >= 1` ticks from any index `p` — also one left over
   * from a longer list — reach `(p + k) % n`.
   */
  lemma {:induction false} TicksRotate(p: nat, n: nat, k: nat)
    requires n > 0 && k >= 1
    ensures AfterTicks(p, n, k) == (p + k) % n
    decreases k
  {
    if k > 1 {
      TicksRotate(NextIndex(p, n), n, k - 1);
      ModAddLeft(p + 1, k - 1, n);
    }
  }

  /** From the initial index 0, after `k` ticks the index is `k mod n`. */
  lemma TicksFromStart(n: nat, k: nat)
    requires n > 0
    ensures AfterTicks(0, n, k) == k % n
  {
    if k > 0 {
      TicksRotate(0, n, k);
    }
  }

  /** While the list is empty no interval runs, so ticks never move the index. */
  lemma {:induction false} NoTicksWhileEmpty(p: nat, k: nat)
    ensures AfterTicks(p, 0, k) == p
    decreases k
  {
    if k > 0 {
      NoTicksWhileEmpty(p, k - 1);
    }
  }

  // ---------------------------------------------------------------------------
  // Field defaulting for the current item
  // ---------------------------------------------------------------------------

  /**
   * `release_date ? release_date.substring(0, 4) : ""`. A truthy value that is
   * not a string has no `substring` method, and the render pass throws.
   */
  function SafeYear(releaseDate: Value): (r: Result<string, RenderError>)
    ensures !Truthy(releaseDate) ==> r == Ok("")
    ensures releaseDate.Str? ==> r.Ok?
    ensures releaseDate.Str? ==>
      |r.value| == Min(4, |releaseDate.s|) && r.value == releaseDate.s[..|r.value|]
    ensures Truthy(releaseDate) && !releaseDate.Str? ==> r.Err?
  {
    if !Truthy(releaseDate) then Ok("")
    else if releaseDate.Str? then Ok(Substring(releaseDate.s, 0, 4))
    else Err(TypeError("release_date.substring is not a function"))
  }

  /** `Array.isArray(genres) ? genres.slice(0, 2) : []`. */
  function SafeGenres(genres: Value): (r: seq<Value>)
    ensures |r| <= 2
    ensures IsArray(genres) ==>
      |r| == Min(2, |genres.elems|) && r == genres.elems[..|r|]
    ensures !IsArray(genres) ==> r == []
  {
    if IsArray(genres) then Slice(genres.elems, 0, 2) else []
  }

  /** `overview || ""`. */
  function SafeOverview(overview: Value): (r: Value)
    ensures Truthy(overview) ==> r == overview
    ensures !Truthy(overview) ==> r == Str("")
  {
    Or(overview, Str(""))
  }

  /** The key of the animated slide: "movie-<id>" for a truthy id, else "index-<index>". */
  function UniqueKey(id: Value, index: nat): (r: string)
    ensures |r| >= 6
    ensures Truthy(id) ==> r[..6] == "movie-" && r[6..] == ToString(id)
    ensures !Truthy(id) ==> r[..6] == "index-" && r[6..] == IntToDecimal(index)
  {
    if Truthy(id) then "movie-" + ToString(id) else "index-" + IntToDecimal(index)
  }

  /** Two slides without an id, at different positions, get different keys. */
  lemma IndexKeysDistinct(id1: Value, id2: Value, i: nat, j: nat)
    requires !Truthy(id1) && !Truthy(id2) && i != j
    ensures UniqueKey(id1, i) != UniqueKey(id2, j)
  {
  }

  /** A key built from an id never collides with one built from a position. */
  lemma IdKeyNeverIndexKey(id1: Value, id2: Value, i: nat, j: nat)
    requires Truthy(id1) && !Truthy(id2)
    ensures UniqueKey(id1, i) != UniqueKey(id2, j)
  {
  }

  /** Distinct string ids give distinct keys. */
  lemma StringIdKeysDistinct(a: string, b: string, i: nat, j: nat)
    requires a != b && a != "" && b != ""
    ensures UniqueKey(Str(a), i) != UniqueKey(Str(b), j)
  {
  }

  /**
   * The target of both the play and the "More Info" link:
   * `/${type || 'movie'}/${id || ''}`.
   */
  function DetailHref(item: FeaturedItem): (r: string)
    ensures |r| >= 2 && r[0] == '/'
    ensures Truthy(item.kind) && Truthy(item.id) ==>
      r == "/" + ToString(item.kind) + "/" + ToString(item.id)
    ensures Truthy(item.kind) && !Truthy(item.id) ==> r == "/" + ToString(item.kind) + "/"
    ensures !Truthy(item.kind) && Truthy(item.id) ==> r == "/movie/" + ToString(item.id)
    ensures !Truthy(item.kind) && !Truthy(item.id) ==> r == "/movie/"
  {
    "/" + ToString(Or(item.kind, Str(DefaultKind))) + "/" + ToString(Or(item.id, Str("")))
  }

  /**
   * The route reads back: for a type and an id that are non-empty strings
   * without "/", the link has exactly two "/", before the type and before the id.
   */
  lemma DetailHrefSegments(item: FeaturedItem, kind: string, id: string)
    requires item.kind == Str(kind) && item.id == Str(id) && kind != "" && id != ""
    requires forall k :: 0 <= k < |kind| ==> kind[k] != '/'
    requires forall k :: 0 <= k < |id| ==> id[k] != '/'
    ensures var r := DetailHref(item);
      && |r| == |kind| + |id| + 2
      && r[1..|kind| + 1] == kind && r[|kind| + 2..] == id
      && forall k :: 0 <= k < |r| ==> (r[k] == '/' <==> k == 0 || k == |kind| + 1)
  {
  }

  /** The backdrop image, shown only when the backdrop path is truthy. */
  function BackdropSrc(backdropPath: Value): (r: Option<string>)
    ensures r.Some? <==> Truthy(backdropPath)
    ensures r.Some? ==> |r.value| >= |BackdropBase|
    ensures r.Some? ==>
      r.value[..|BackdropBase|] == BackdropBase && r.value[|BackdropBase|..] == ToString(backdropPath)
  {
    if Truthy(backdropPath) then Some(BackdropBase + ToString(backdropPath)) else None
  }

  /** The slide heading: the logo image when the logo path is truthy, else the title. */
  datatype Heading = Logo(src: string) | Title(text: Value)

  function HeadingOf(item: FeaturedItem): (r: Heading)
    ensures r.Logo? <==> Truthy(item.logo)
    ensures r.Logo? ==> |r.src| >= |LogoBase|
    ensures r.Logo? ==>
      r.src[..|LogoBase|] == LogoBase && r.src[|LogoBase|..] == ToString(item.logo)
    ensures r.Title? ==> Truthy(r.text) && r.text == SafeTitle(item.title)
  {
    if Truthy(item.logo) then Logo(LogoBase + ToString(item.logo))
    else Title(SafeTitle(item.title))
  }

  /** Which of the `n` navigation dots is drawn as the active one. */
  function Dots(n: nat, index: nat): (r: seq<bool>)
    ensures |r| == n
    ensures forall k :: 0 <= k < n ==> (r[k] <==> k == index)
  {
    seq(n, k => k == index)
  }

  // ---------------------------------------------------------------------------
  // The render pass
  // ---------------------------------------------------------------------------

  /** Everything the active slide shows, derived from the current item. */
  datatype Slide = Slide(
    key: string,          // key of the animated backdrop
    infoKey: string,      // key of the animated info block
    backdrop: Option<string>,
    heading: Heading,
    alt: Value,           // alt text of the images
    rating: string,
    year: string,
    genres: seq<Value>,
    overview: Value,
    playHref: string,
    infoHref: string,
    dots: seq<bool>)

  /** The three render modes; the active one carries the load-error banner flag. */
  datatype View = Loading | Empty | Active(slide: Slide, warning: bool)

  /** `movies[currentIndex]`: None for a falsy entry and for an index out of range. */
  function CurrentMovie(movies: seq<Option<FeaturedItem>>, index: nat): (r: Option<FeaturedItem>)
    ensures index >= |movies| ==> r.None?
    ensures index < |movies| ==> r == movies[index]
  {
    if index < |movies| then movies[index] else None
  }

  function MakeSlide(item: FeaturedItem, index: nat, n: nat, year: string): Slide {
    var key := UniqueKey(item.id, index);
    Slide(
      key, "info-" + key,
      BackdropSrc(item.backdropPath),
      HeadingOf(item),
      SafeTitle(item.title),
      SafeRating(item.voteAverage),
      year,
      SafeGenres(item.genres),
      SafeOverview(item.overview),
      DetailHref(item), DetailHref(item),
      Dots(n, index))
  }

  /**
   * One render pass. Loading wins over everything; otherwise an empty list or
   * a falsy current entry (including an index beyond the end of the list)
   * shows the empty placeholder; otherwise the current item is shown, unless
   * deriving its year throws. The error flag only adds a banner.
   */
  function Render(index: nat, movies: seq<Option<FeaturedItem>>, isLoading: bool, error: Value)
    : (r: Result<View, RenderError>)
    ensures isLoading ==> r == Ok(Loading)
    ensures !isLoading && (|movies| == 0 || index >= |movies| || movies[index].None?) ==>
      r == Ok(Empty)
    ensures !isLoading && index < |movies| && movies[index].Some? ==>
      (r.Err? <==> SafeYear(movies[index].value.releaseDate).Err?)
    ensures (!isLoading && index < |movies| && movies[index].Some?
             && SafeYear(movies[index].value.releaseDate).Ok?) ==>
      r.Ok? && r.value.Active?
    ensures r.Ok? && r.value.Active? ==>
      && index < |movies| && movies[index].Some?
      && var item, s := movies[index].value, r.value.slide;
      && s.infoKey == "info-" + s.key
      && s.backdrop == BackdropSrc(item.backdropPath)
      && s.heading == HeadingOf(item)
      && s.alt == SafeTitle(item.title)
      && s.rating == SafeRating(item.voteAverage)
      && s.genres == SafeGenres(item.genres)
      && s.overview == SafeOverview(item.overview)
    ensures r.Ok? && r.value.Active? ==>
      && !isLoading && index < |movies| && movies[index].Some?
      && r.value.warning == Truthy(error)
      && r.value.slide.year == SafeYear(movies[index].value.releaseDate).value
      && r.value.slide.key == UniqueKey(movies[index].value.id, index)
      && r.value.slide.playHref == r.value.slide.infoHref == DetailHref(movies[index].value)
    ensures r.Ok? && r.value.Active? ==>
      var dots := r.value.slide.dots;
      |dots| == |movies| && dots[index]
      && forall k :: 0 <= k < |dots| && k != index ==> !dots[k]
  {
    if isLoading then Ok(Loading)
    else
      var current := CurrentMovie(movies, index);
      if current.None? || |movies| == 0 then Ok(Empty)
      else
        var item := current.value;
        match SafeYear(item.releaseDate)
        case Err(e) => Err(e)
        case Ok(year) => Ok(Active(MakeSlide(item, index, |movies|, year), Truthy(error)))
  }

  /** The error flag never changes the mode or the slide; it only sets the banner. */
  lemma ErrorOnlyAddsBanner(index: nat, movies: seq<Option<FeaturedItem>>, isLoading: bool, e1: Value, e2: Value)
    ensures Render(index, movies, isLoading, e1).Ok? == Render(index, movies, isLoading, e2).Ok?
    ensures Render(index, movies, isLoading, e1).Ok? ==>
      match Render(index, movies, isLoading, e1).value
      case Active(s, _) => Render(index, movies, isLoading, e2) == Ok(Active(s, Truthy(e2)))
      case _ => Render(index, movies, isLoading, e2) == Render(index, movies, isLoading, e1)
  {
  }

  /**
   * After the list shrinks below the index, the view is empty until the next
   * tick, which lands inside the new list.
   */
  lemma ShrunkListRecoversOnTick(index: nat, movies: seq<Option<FeaturedItem>>, error: Value)
    requires 0 < |movies| <= index
    ensures Render(index, movies, false, error) == Ok(Empty)
    ensures NextIndex(index, |movies|) < |movies|
    ensures NextIndex(index, |movies|) == (index + 1) % |movies|
  {
  }

  // ---------------------------------------------------------------------------
  // The component's state
  // ---------------------------------------------------------------------------

  /**
   * The mounted slideshow: the `currentIndex` state it owns, and the latest
   * values of the slider context it reads (`movies`, `isLoading`, `error`).
   * There is deliberately no invariant tying the index to the list length.
   */
  class Slideshow {
    var currentIndex: nat
    var movies: seq<Option<FeaturedItem>>
    var isLoading: bool
    var error: Value

    /** Mounting: the index starts at 0. */
    constructor (movies: seq<Option<FeaturedItem>>, isLoading: bool, error: Value)
      ensures currentIndex == 0
      ensures this.movies == movies && this.isLoading == isLoading && this.error == error
    {
      currentIndex := 0;
      this.movies := movies;
      this.isLoading := isLoading;
      this.error := error;
    }

    /** One firing of the 8000 ms interval; there is no interval while the list is empty. */
    method Tick()
      modifies this`currentIndex
      ensures currentIndex == NextIndex(old(currentIndex), |movies|)
      ensures |movies| > 0 ==> currentIndex < |movies|
    {
      if |movies| == 0 {
        return;
      }
      currentIndex := (currentIndex + 1) % |movies|;
    }

    /** A click on navigation dot `j`. */
    method SelectDot(j: nat)
      modifies this`currentIndex
      ensures currentIndex == j
    {
      currentIndex := j;
    }

    /** The slider context delivers new values; the index is not reset. */
    method Receive(movies: seq<Option<FeaturedItem>>, isLoading: bool, error: Value)
      modifies this`movies, this`isLoading, this`error
      ensures this.movies == movies && this.isLoading == isLoading && this.error == error
      ensures currentIndex == old(currentIndex)
    {
      this.movies := movies;
      this.isLoading := isLoading;
      this.error := error;
    }

    /** What the component renders in its current state. */
    function View(): (r: Result<View, RenderError>)
      reads this
      ensures r == Render(currentIndex, movies, isLoading, error)
      ensures isLoading ==> r == Ok(Loading)
      ensures !isLoading && currentIndex >= |movies| ==> r == Ok(Empty)
      ensures r.Ok? && r.value.Active? ==>
        currentIndex < |movies| == |r.value.slide.dots| && r.value.slide.dots[currentIndex]
    {
      Render(currentIndex, movies, isLoading, error)
    }
  }
}
