/** One article card: the date label, the title and description with their
    English variants, the image source, the credibility bar and its shimmer, and
    the `expanded`, `imageLoaded` and `imageError` flags its handlers set. */
module NewsCard {
  import opened Wrappers
  import opened ArticleTypes
  import opened Platform
  import opened CredibilityColors
  import NewsPage

  /** `formatDate`: "No date" for a missing, empty or "brak danych" input, for text
      that is not a valid date, and when the relative formatter throws. */
  function FormatDate(lib: DateLib, input: Option<string>): (r: string)
    ensures input.None? ==> r == "No date"
    ensures input.Some? && input.value in {"", "brak danych"} ==> r == "No date"
    ensures input.Some? && !lib.parses(input.value) ==> r == "No date"
    ensures input.Some? && input.value !in {"", "brak danych"} && lib.parses(input.value) ==>
              r == (match lib.relativeToNow(input.value) case Some(t) => t case None => "No date")
  {
    match input
    case None => "No date"
    case Some(s) =>
      if s == "" || s == "brak danych" then "No date"
      else if !lib.parses(s) then "No date"
      else match lib.relativeToNow(s)
        case Some(t) => t
        case None => "No date"
  }

  /** `'title_en' in article && article.title_en ? article.title_en : article.title || 'No title'`. */
  function DisplayTitle(a: Article): (r: string)
    ensures r != ""
    ensures a.titleEn.Some? && a.titleEn.value != "" ==> r == a.titleEn.value
    ensures (a.titleEn.None? || a.titleEn.value == "") && a.title != "" ==> r == a.title
    ensures (a.titleEn.None? || a.titleEn.value == "") && a.title == "" ==> r == "No title"
  {
    if a.titleEn.Some? && a.titleEn.value != "" then a.titleEn.value
    else if a.title != "" then a.title
    else "No title"
  }

  /** The same rule for the description. */
  function DisplayDescription(a: Article): (r: string)
    ensures r != ""
    ensures a.descriptionEn.Some? && a.descriptionEn.value != "" ==> r == a.descriptionEn.value
    ensures (a.descriptionEn.None? || a.descriptionEn.value == "") && a.description != "" ==> r == a.description
    ensures (a.descriptionEn.None? || a.descriptionEn.value == "") && a.description == "" ==> r == "No description"
  {
    if a.descriptionEn.Some? && a.descriptionEn.value != "" then a.descriptionEn.value
    else if a.description != "" then a.description
    else "No description"
  }

  /** `imageError || !article.image_url ? placeholder : article.image_url`. */
  function ImageSrc(imageError: bool, imageUrl: string): (r: string)
    ensures r != ""
    ensures imageError || imageUrl == "" ==> r == Placeholder
    ensures !imageError && imageUrl != "" ==> r == imageUrl
  {
    if imageError || imageUrl == "" then Placeholder else imageUrl
  }

  // ---------------------------------------------------------------------------
  // Flags

  datatype CardFlags = CardFlags(expanded: bool, imageLoaded: bool, imageError: bool)

  const InitialFlags: CardFlags := CardFlags(false, false, false)

  /** A click on the description, the image's load event, or its error event. */
  datatype CardEvent = DescriptionClick | ImageLoad | ImageFail

  function CardStep(f: CardFlags, e: CardEvent): (r: CardFlags)
    ensures e.DescriptionClick? ==> r == f.(expanded := !f.expanded)
    ensures e.ImageLoad? ==> r == f.(imageLoaded := true)
    ensures e.ImageFail? ==> r == f.(imageError := true)
  {
    match e
    case DescriptionClick => f.(expanded := !f.expanded)
    case ImageLoad => f.(imageLoaded := true)
    case ImageFail => f.(imageError := true)
  }

  function CardRun(evs: seq<CardEvent>): CardFlags
  {
    if evs == [] then InitialFlags else CardStep(CardRun(evs[..|evs| - 1]), evs[|evs| - 1])
  }

  /** How many description clicks the events hold. */
  function Clicks(evs: seq<CardEvent>): nat
  {
    if evs == [] then 0
    else Clicks(evs[..|evs| - 1]) + (if evs[|evs| - 1].DescriptionClick? then 1 else 0)
  }

  /** `imageError` is set once and never cleared: it holds exactly when some image error occurred. */
  lemma {:induction false} ImageErrorIsSticky(evs: seq<CardEvent>)
    ensures CardRun(evs).imageError <==> exists i :: 0 <= i < |evs| && evs[i].ImageFail?
  {
    if evs != [] {
      var init := evs[..|evs| - 1];
      ImageErrorIsSticky(init);
      if exists i :: 0 <= i < |init| && init[i].ImageFail? {
        var i :| 0 <= i < |init| && init[i].ImageFail?;
        assert evs[i] == init[i];
      }
      if exists i :: 0 <= i < |evs| && evs[i].ImageFail? {
        var i :| 0 <= i < |evs| && evs[i].ImageFail?;
        if i < |init| { assert init[i] == evs[i]; }
      }
    }
  }

  /** The description is expanded exactly after an odd number of clicks. */
  lemma {:induction false} ExpandedAfterOddClicks(evs: seq<CardEvent>)
    ensures CardRun(evs).expanded <==> Clicks(evs) % 2 == 1
  {
    if evs != [] {
      ExpandedAfterOddClicks(evs[..|evs| - 1]);
    }
  }

  /** `imageLoaded` is set once and never cleared: it holds exactly when some load event occurred. */
  lemma {:induction false} ImageLoadedIsSticky(evs: seq<CardEvent>)
    ensures CardRun(evs).imageLoaded <==> exists i :: 0 <= i < |evs| && evs[i].ImageLoad?
  {
    if evs != [] {
      var init := evs[..|evs| - 1];
      ImageLoadedIsSticky(init);
      if exists i :: 0 <= i < |init| && init[i].ImageLoad? {
        var i :| 0 <= i < |init| && init[i].ImageLoad?;
        assert evs[i] == init[i];
      }
      if exists i :: 0 <= i < |evs| && evs[i].ImageLoad? {
        var i :| 0 <= i < |evs| && evs[i].ImageLoad?;
        if i < |init| { assert init[i] == evs[i]; }
      }
    }
  }

  /** The spinner shows while the image has neither loaded nor failed. */
  function ShowSpinner(f: CardFlags): bool
  {
    !f.imageLoaded && !f.imageError
  }

  /** The spinner shows exactly until the image's first load or error event, and never
      comes back: clicks on the description do not affect it. */
  lemma SpinnerUntilImageSettles(evs: seq<CardEvent>)
    ensures ShowSpinner(CardRun(evs)) <==> forall i :: 0 <= i < |evs| ==> evs[i].DescriptionClick?
  {
    ImageLoadedIsSticky(evs);
    ImageErrorIsSticky(evs);
    if !forall i :: 0 <= i < |evs| ==> evs[i].DescriptionClick? {
      var i :| 0 <= i < |evs| && !evs[i].DescriptionClick?;
      assert evs[i].ImageLoad? || evs[i].ImageFail?;
    }
  }

  /** The toggle's label. */
  function ToggleLabel(f: CardFlags): (r: string)
    ensures r == "Read less" <==> f.expanded
    ensures r == "Read more" <==> !f.expanded
  {
    if f.expanded then "Read less" else "Read more"
  }

  /** After an image error, whatever follows, the card shows the placeholder and no spinner. */
  lemma AfterImageErrorPlaceholder(evs: seq<CardEvent>, i: nat, imageUrl: string)
    requires i < |evs| && evs[i].ImageFail?
    ensures ImageSrc(CardRun(evs).imageError, imageUrl) == Placeholder
    ensures !ShowSpinner(CardRun(evs))
  {
    ImageErrorIsSticky(evs);
  }

  // ---------------------------------------------------------------------------
  // The rendered card

  datatype CardView = CardView(
    title: string,
    description: string,
    dateLabel: string,
    imageSrc: string,
    spinner: bool,
    barWidth: int,
    barColor: string,
    shimmerDuration: Option<string>,
    toggleLabel: string)

  /** What the card renders for an article in a given flag state; `shimmerDuration`
      is `Some` exactly when the shimmer overlay is drawn. The card formats
      `created_at`; `published_at` is not shown. */
  function Render(lib: DateLib, a: Article, f: CardFlags): (v: CardView)
    ensures v.title == DisplayTitle(a) && v.description == DisplayDescription(a)
    ensures v.imageSrc == ImageSrc(f.imageError, a.imageUrl)
    ensures v.spinner == ShowSpinner(f) && v.toggleLabel == ToggleLabel(f)
    ensures v.shimmerDuration.Some? <==> a.credibilityScore >= 25
    ensures v.shimmerDuration.Some? ==>
              v.shimmerDuration.value == ShimmerDuration(ShimmerIntensity(a.credibilityScore))
    ensures 25 <= a.credibilityScore < 50 ==> v.shimmerDuration == Some("3s")
    ensures 50 <= a.credibilityScore < 75 ==> v.shimmerDuration == Some("2.5s")
    ensures 75 <= a.credibilityScore ==> v.shimmerDuration == Some("2s")
    ensures v.barWidth == a.credibilityScore
    ensures v.barColor == CredibilityColor(a.credibilityScore) && IsLowerHexColor(v.barColor)
    ensures a.credibilityScore <= 0 ==> v.barColor == "#ef4444"
    ensures a.credibilityScore >= 100 ==> v.barColor == "#15803d"
    ensures v.dateLabel == FormatDate(lib, Some(a.createdAt))
  {
    ColorOutOfRange(a.credibilityScore);
    var intensity := ShimmerIntensity(a.credibilityScore);
    CardView(
      title := DisplayTitle(a),
      description := DisplayDescription(a),
      dateLabel := FormatDate(lib, Some(a.createdAt)),
      imageSrc := ImageSrc(f.imageError, a.imageUrl),
      spinner := ShowSpinner(f),
      barWidth := a.credibilityScore,
      barColor := CredibilityColor(a.credibilityScore),
      shimmerDuration := if intensity != "none" then Some(ShimmerDuration(intensity)) else None,
      toggleLabel := ToggleLabel(f))
  }

  /** On the news page's cards the English variants are never set, and the stored
      image (or the placeholder) is shown until it fails. */
  lemma NewsPageCardText(lib: DateLib, nowMs: int, doc: Doc, f: CardFlags)
    requires NewsPage.DocDefined(doc.data)
    ensures var a := NewsPage.MapDocument(lib, nowMs, doc);
            var v := Render(lib, a, f);
            && v.title == (if a.title != "" then a.title else "No title")
            && v.description == (if a.description != "" then a.description else "No description")
            && (!f.imageError ==> v.imageSrc == a.imageUrl)
  {
  }

  /** With a coherent date library, a news-page card says "No date" for an empty
      `created_at` and otherwise shows the relative formatter's output unless it throws. */
  lemma NewsPageCardDate(lib: DateLib, nowMs: int, doc: Doc)
    requires NewsPage.DocDefined(doc.data) && Coherent(lib)
    ensures var a := NewsPage.MapDocument(lib, nowMs, doc);
            && (a.createdAt == "" ==> FormatDate(lib, Some(a.createdAt)) == "No date")
            && (a.createdAt != "" ==>
                  FormatDate(lib, Some(a.createdAt))
                  == match lib.relativeToNow(a.createdAt) case Some(t) => t case None => "No date")
  {
    var a := NewsPage.MapDocument(lib, nowMs, doc);
    NewsPage.MappedDatesParse(lib, nowMs, doc);
    assert a.createdAt != "" ==> lib.parses(a.createdAt);
    assert !lib.parses("brak danych");
  }

  /** The card component's flags and handlers. */
  class Card {
    var expanded: bool
    var imageLoaded: bool
    var imageError: bool

    function Flags(): CardFlags
      reads this
    {
      CardFlags(expanded, imageLoaded, imageError)
    }

    constructor ()
      ensures Flags() == InitialFlags
    {
      expanded, imageLoaded, imageError := false, false, false;
    }

    /** `setExpanded(v => !v)`. */
    method ToggleExpanded()
      modifies this
      ensures Flags() == CardStep(old(Flags()), DescriptionClick)
      ensures expanded == !old(expanded) && imageLoaded == old(imageLoaded) && imageError == old(imageError)
    {
      expanded := !expanded;
    }

    /** `handleImageLoad`. */
    method HandleImageLoad()
      modifies this
      ensures Flags() == CardStep(old(Flags()), ImageLoad)
      ensures imageLoaded && expanded == old(expanded) && imageError == old(imageError)
    {
      imageLoaded := true;
    }

    /** `handleImageError`. */
    method HandleImageError()
      modifies this
      ensures Flags() == CardStep(old(Flags()), ImageFail)
      ensures imageError && expanded == old(expanded) && imageLoaded == old(imageLoaded)
    {
      imageError := true;
    }
  }
}
