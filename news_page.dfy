/** The news page: each stored document is mapped to an `Article` with per-field
    defaults and normalised dates, and the page keeps `cards`, `loading` and
    `error`, driven by the subscription's events. */
module NewsPage {
  import opened Wrappers
  import opened ArticleTypes
  import opened Platform
  import LanguageContext

  // ---------------------------------------------------------------------------
  // Dates

  /** A seconds object needs its `nanoseconds`: a missing one makes the time value
      NaN and `toISOString` throw, while a null one reads as 0. */
  predicate StampDefined(d: Field<StoredDate>)
  {
    d.Has? && d.value.Stamp? && d.value.seconds.Has? ==> d.value.nanoseconds != Absent
  }

  predicate DocDefined(data: StoredDoc)
  {
    StampDefined(data.createdAt) && StampDefined(data.publishedAt)
  }

  predicate SnapshotDefined(docs: seq<Doc>)
  {
    forall i :: 0 <= i < |docs| ==> DocDefined(docs[i].data)
  }

  /** The integral time value `new Date(x)` keeps: x truncated toward zero. */
  function Trunc(x: real): (n: int)
    ensures 0.0 <= x ==> n as real <= x < n as real + 1.0
    ensures x < 0.0 ==> n as real - 1.0 < x <= n as real
  {
    if x >= 0.0 then x.Floor else -((-x).Floor)
  }

  /** `new Date(seconds * 1000 + nanoseconds / 1e6)` as a time value, with the sum
      computed exactly over the reals rather than in doubles. For a date at or after
      1970 with non-negative nanoseconds it is the whole milliseconds: the
      nanoseconds' fraction of a millisecond is dropped, and a null counts as 0. */
  function StampMillis(seconds: int, nanoseconds: Field<int>): (ms: int)
    requires nanoseconds != Absent
    ensures seconds >= 0 && nanoseconds.Has? && nanoseconds.value >= 0 ==>
              ms == seconds * 1000 + nanoseconds.value / 1000000
    ensures seconds >= 0 && nanoseconds.Null? ==> ms == seconds * 1000
  {
    var nanos := if nanoseconds.Has? then nanoseconds.value else 0;
    WholeMillis(seconds * 1000, nanos);
    Trunc((seconds * 1000) as real + nanos as real / 1000000.0)
  }

  /** Adding a non-negative nanosecond count to a non-negative whole millisecond
      count and truncating keeps the whole milliseconds of the nanoseconds. */
  lemma WholeMillis(whole: int, nanos: int)
    ensures whole >= 0 && nanos >= 0 ==>
              Trunc(whole as real + nanos as real / 1000000.0) == whole + nanos / 1000000
  {
    if whole < 0 || nanos < 0 { return; }
    var x := whole as real + nanos as real / 1000000.0;
    var q, m := nanos / 1000000, nanos % 1000000;
    assert nanos as real / 1000000.0 == q as real + m as real / 1000000.0;
    assert (whole + q) as real <= x < (whole + q) as real + 1.0;
  }

  /** The shared shape of the `created_at` and `published_at` branches; they differ
      only in what a falsy value (missing, null or empty text) becomes. */
  function NormalizeDate(lib: DateLib, raw: Field<StoredDate>, fallback: string): (r: string)
    requires StampDefined(raw)
    ensures raw.Has? && raw.value.Stamp? && raw.value.seconds.Has? ==>
              r == lib.isoOfMillis(StampMillis(raw.value.seconds.value, raw.value.nanoseconds))
    ensures raw.Has? && raw.value.Stamp? && !raw.value.seconds.Has? ==> r == ""
    ensures raw.Has? && raw.value.Text? && raw.value.text != "" ==>
              r == (if lib.parses(raw.value.text) then raw.value.text else "")
    ensures raw.Absent? || raw.Null? || raw == Has(Text("")) ==> r == fallback
  {
    match raw
    case Has(Stamp(Has(seconds), nanoseconds)) => lib.isoOfMillis(StampMillis(seconds, nanoseconds))
    // any other object: `new Date(object)` is an invalid date
    case Has(Stamp(_, _)) => ""
    case Has(Text(text)) =>
      if text == "" then fallback
      else if lib.parses(text) then text
      else ""
    case _ => fallback
  }

  /** What a normalised date can be: the library's ISO text, stored text that
      parses (returned as stored), the fallback, or empty. */
  lemma NormalizedDateCases(lib: DateLib, raw: Field<StoredDate>, fallback: string)
    requires StampDefined(raw)
    ensures var r := NormalizeDate(lib, raw, fallback);
            || r == ""
            || r == fallback
            || (exists ms :: r == lib.isoOfMillis(ms))
            || (raw == Has(Text(r)) && lib.parses(r))
  {
    var r := NormalizeDate(lib, raw, fallback);
    if raw.Has? && raw.value.Stamp? && raw.value.seconds.Has? {
      var ms := StampMillis(raw.value.seconds.value, raw.value.nanoseconds);
      assert r == lib.isoOfMillis(ms);
    }
  }

  // ---------------------------------------------------------------------------
  // Mapping a document

  /** `value || ''` on a stored string field. */
  function OrEmpty(f: Field<string>): (r: string)
    ensures TruthyText(f) ==> r == f.value
    ensures !TruthyText(f) ==> r == ""
  {
    if f.Has? then f.value else ""
  }

  /** The `Article` built for one document; `nowMs` is the clock reading used when
      `created_at` is falsy. */
  function MapDocument(lib: DateLib, nowMs: int, doc: Doc): (a: Article)
    requires DocDefined(doc.data)
    ensures a.id == doc.id
    ensures a.title == OrEmpty(doc.data.title) && a.description == OrEmpty(doc.data.description)
    ensures a.trend == OrEmpty(doc.data.trend) && a.source == OrEmpty(doc.data.source)
    ensures a.imageUrl == (if TruthyText(doc.data.imageUrl) then doc.data.imageUrl.value else Placeholder)
    ensures a.credibilityScore == (if doc.data.credibilityScore.Has? then doc.data.credibilityScore.value else 0)
    ensures a.createdAt == NormalizeDate(lib, doc.data.createdAt, lib.isoOfMillis(nowMs))
    ensures a.publishedAt == NormalizeDate(lib, doc.data.publishedAt, "")
    ensures a.titleEn.None? && a.descriptionEn.None? && a.titlePl.None? && a.descriptionPl.None?
    ensures a.imageUrl != ""
  {
    var data := doc.data;
    Article(
      id := doc.id,
      title := OrEmpty(data.title),
      description := OrEmpty(data.description),
      titleEn := None,
      titlePl := None,
      descriptionEn := None,
      descriptionPl := None,
      imageUrl := if TruthyText(data.imageUrl) then data.imageUrl.value else Placeholder,
      credibilityScore := if data.credibilityScore.Has? && data.credibilityScore.value != 0
                          then data.credibilityScore.value else 0,
      trend := OrEmpty(data.trend),
      source := OrEmpty(data.source),
      publishedAt := NormalizeDate(lib, data.publishedAt, ""),
      createdAt := NormalizeDate(lib, data.createdAt, lib.isoOfMillis(nowMs)))
  }

  /** A document with no fields at all still maps: empty strings, score 0, the
      placeholder image, no publication date and the current time as creation date. */
  lemma EmptyDocumentMaps(lib: DateLib, nowMs: int, id: string)
    ensures var a := MapDocument(lib, nowMs, Doc(id, StoredDoc(Absent, Absent, Absent, Absent, Absent,
                                                 Absent, Absent, Absent, Absent, Absent, Absent)));
            && a.id == id && a.title == "" && a.description == "" && a.trend == "" && a.source == ""
            && a.imageUrl == Placeholder && a.credibilityScore == 0
            && a.publishedAt == "" && a.createdAt == lib.isoOfMillis(nowMs)
  {
  }

  /** `snapshot.docs.map(...)`: one article per document, in delivered order. */
  function MapSnapshot(lib: DateLib, nowMs: int, docs: seq<Doc>): (cards: seq<Article>)
    requires SnapshotDefined(docs)
    ensures |cards| == |docs|
    ensures forall i :: 0 <= i < |docs| ==> cards[i] == MapDocument(lib, nowMs, docs[i])
  {
    if docs == [] then []
    else [MapDocument(lib, nowMs, docs[0])] + MapSnapshot(lib, nowMs, docs[1..])
  }

  /** The cards carry the snapshot's document identifiers, in the delivered order. */
  lemma {:induction false} SnapshotKeepsOrder(lib: DateLib, nowMs: int, docs: seq<Doc>)
    requires SnapshotDefined(docs)
    ensures Ids(MapSnapshot(lib, nowMs, docs)) == DocIds(docs)
  {
    if docs != [] {
      SnapshotKeepsOrder(lib, nowMs, docs[1..]);
      assert MapSnapshot(lib, nowMs, docs) == [MapDocument(lib, nowMs, docs[0])] + MapSnapshot(lib, nowMs, docs[1..]);
    }
  }

  function Ids(cards: seq<Article>): seq<string>
  {
    if cards == [] then [] else [cards[0].id] + Ids(cards[1..])
  }

  function DocIds(docs: seq<Doc>): seq<string>
  {
    if docs == [] then [] else [docs[0].id] + DocIds(docs[1..])
  }

  /** With a coherent date library, a non-empty date on a card always parses: a
      card's date is either empty or one the card can format. */
  lemma MappedDatesParse(lib: DateLib, nowMs: int, doc: Doc)
    requires Coherent(lib) && DocDefined(doc.data)
    ensures var a := MapDocument(lib, nowMs, doc);
            && (a.createdAt != "" ==> lib.parses(a.createdAt))
            && (a.publishedAt != "" ==> lib.parses(a.publishedAt))
  {
    NormalizedDateCases(lib, doc.data.createdAt, lib.isoOfMillis(nowMs));
    NormalizedDateCases(lib, doc.data.publishedAt, "");
  }

  // ---------------------------------------------------------------------------
  // Page state

  datatype PageState = PageState(cards: seq<Article>, loading: bool, error: Option<string>)

  /** `useState([])`, `useState(true)`, `useState(null)`. */
  const Initial: PageState := PageState([], true, None)

  predicate EventDefined(ev: StoreEvent)
  {
    ev.Snapshot? ==> SnapshotDefined(ev.docs)
  }

  /** One callback: a snapshot replaces `cards` and clears `loading`; a query error
      or a setup failure records `message` and clears `loading`. Nothing resets `error`. */
  function Step(lib: DateLib, st: PageState, ev: StoreEvent): (r: PageState)
    requires EventDefined(ev)
    ensures !r.loading
    ensures ev.Snapshot? ==> r.cards == MapSnapshot(lib, ev.nowMs, ev.docs) && r.error == st.error
    ensures ev.StreamError? ==> r.cards == st.cards && r.error == Some(ev.message)
    ensures ev.SetupFailure? ==> r.cards == st.cards && r.error == MessageOf(ev.thrown)
  {
    match ev
    case Snapshot(docs, nowMs) =>
      if docs == [] then st.(cards := [], loading := false)
      else st.(cards := MapSnapshot(lib, nowMs, docs), loading := false)
    case StreamError(message) => st.(error := Some(message), loading := false)
    case SetupFailure(thrown) => st.(error := MessageOf(thrown), loading := false)
  }

  predicate EventsDefined(evs: seq<StoreEvent>)
  {
    forall i :: 0 <= i < |evs| ==> EventDefined(evs[i])
  }

  /** The state after the events, in order, starting from `Initial`. */
  function Run(lib: DateLib, evs: seq<StoreEvent>): PageState
    requires EventsDefined(evs)
  {
    if evs == [] then Initial else Step(lib, Run(lib, evs[..|evs| - 1]), evs[|evs| - 1])
  }

  /** `loading` holds exactly until the first event. */
  lemma LoadingUntilFirstEvent(lib: DateLib, evs: seq<StoreEvent>)
    requires EventsDefined(evs)
    ensures Run(lib, evs).loading <==> evs == []
  {
  }

  /** The error of the last failure event stays, whatever snapshots follow it. */
  lemma {:induction false} ErrorSurvivesSnapshots(lib: DateLib, evs: seq<StoreEvent>, i: nat)
    requires EventsDefined(evs) && i < |evs| && !evs[i].Snapshot?
    requires forall j :: i < j < |evs| ==> evs[j].Snapshot?
    ensures Run(lib, evs).error
            == (if evs[i].StreamError? then Some(evs[i].message) else MessageOf(evs[i].thrown))
  {
    if i < |evs| - 1 {
      ErrorSurvivesSnapshots(lib, evs[..|evs| - 1], i);
    }
  }

  /** Without a failure event there is no error. */
  lemma {:induction false} NoErrorWithoutFailure(lib: DateLib, evs: seq<StoreEvent>)
    requires EventsDefined(evs)
    requires forall j :: 0 <= j < |evs| ==> evs[j].Snapshot?
    ensures Run(lib, evs).error.None?
  {
    if evs != [] {
      NoErrorWithoutFailure(lib, evs[..|evs| - 1]);
    }
  }

  /** `cards` are those of the last snapshot, whatever errors follow it. */
  lemma {:induction false} CardsOfLastSnapshot(lib: DateLib, evs: seq<StoreEvent>, i: nat)
    requires EventsDefined(evs) && i < |evs| && evs[i].Snapshot?
    requires forall j :: i < j < |evs| ==> !evs[j].Snapshot?
    ensures Run(lib, evs).cards == MapSnapshot(lib, evs[i].nowMs, evs[i].docs)
  {
    if i < |evs| - 1 {
      CardsOfLastSnapshot(lib, evs[..|evs| - 1], i);
    }
  }

  /** Before any snapshot there are no cards. */
  lemma {:induction false} NoCardsWithoutSnapshot(lib: DateLib, evs: seq<StoreEvent>)
    requires EventsDefined(evs)
    requires forall j :: 0 <= j < |evs| ==> !evs[j].Snapshot?
    ensures Run(lib, evs).cards == []
  {
    if evs != [] {
      NoCardsWithoutSnapshot(lib, evs[..|evs| - 1]);
    }
  }

  // ---------------------------------------------------------------------------
  // Rendering

  datatype PageView =
    | ErrorView(text: string)
    | LoadingView(text: string)
    | EmptyView(text: string)
    | ListView(cards: seq<Article>)

  /** The error view, then the loading text, then the empty-list text, then the list.
      `error` is tested for truthiness, so an empty message shows no error. */
  function Render(st: PageState): (v: PageView)
    ensures v.ErrorView? <==> st.error.Some? && st.error.value != ""
    ensures v.ErrorView? ==> v.text == LanguageContext.T("error") + ": " + st.error.value
    ensures v.LoadingView? <==> !v.ErrorView? && st.loading
    ensures v.EmptyView? <==> !v.ErrorView? && !st.loading && st.cards == []
    ensures v.ListView? ==> v.cards == st.cards && v.cards != []
  {
    if st.error.Some? && st.error.value != "" then
      ErrorView(LanguageContext.T("error") + ": " + st.error.value)
    else if st.loading then LoadingView(LanguageContext.T("loading"))
    else if |st.cards| == 0 then EmptyView(LanguageContext.T("noArticlesFound"))
    else ListView(st.cards)
  }

  /** The empty list shows the key `noArticlesFound` itself, which the table lacks;
      the loading text is translated. */
  lemma RenderedTexts(st: PageState)
    ensures Render(st).EmptyView? ==> Render(st).text == "noArticlesFound"
    ensures Render(st).LoadingView? ==> Render(st).text == "Loading..."
  {
  }

  /** Once a query error with a message has arrived, the page shows it for good:
      later snapshots change `cards` but the error view hides them. */
  lemma ErrorViewIsFinal(lib: DateLib, evs: seq<StoreEvent>, i: nat)
    requires EventsDefined(evs) && i < |evs| && evs[i].StreamError? && evs[i].message != ""
    requires forall j :: i < j < |evs| ==> evs[j].Snapshot?
    ensures Render(Run(lib, evs)) == ErrorView("Error: " + evs[i].message)
  {
    ErrorSurvivesSnapshots(lib, evs, i);
  }

  // ---------------------------------------------------------------------------
  // The component

  /** The page component's state and its subscription callbacks. */
  class Page {
    var cards: seq<Article>
    var loading: bool
    var error: Option<string>

    function State(): PageState
      reads this
    {
      PageState(cards, loading, error)
    }

    constructor ()
      ensures State() == Initial
    {
      cards, loading, error := [], true, None;
    }

    /** The snapshot callback: an empty snapshot sets `[]`, any other the mapped documents. */
    method OnSnapshot(lib: DateLib, nowMs: int, docs: seq<Doc>)
      requires SnapshotDefined(docs)
      modifies this
      ensures cards == MapSnapshot(lib, nowMs, docs) && !loading && error == old(error)
      ensures State() == Step(lib, old(State()), Snapshot(docs, nowMs))
    {
      if |docs| == 0 {
        cards := [];
        loading := false;
        return;
      }
      var arr := MapSnapshot(lib, nowMs, docs);
      cards := arr;
      loading := false;
    }

    /** The error callback: `setError(error.message)`, `setLoading(false)`. */
    method OnError(message: string)
      modifies this
      ensures cards == old(cards) && !loading && error == Some(message)
      ensures forall lib :: State() == Step(lib, old(State()), StreamError(message))
    {
      error := Some(message);
      loading := false;
    }

    /** The `catch` around the subscription set-up: `setError(err.message)`. */
    method OnSetupThrow(thrown: Thrown)
      modifies this
      ensures cards == old(cards) && !loading && error == MessageOf(thrown)
      ensures forall lib :: State() == Step(lib, old(State()), SetupFailure(thrown))
    {
      error := MessageOf(thrown);
      loading := false;
    }

    /** What the component renders. */
    function View(): PageView
      reads this
    {
      Render(State())
    }
  }
}
