/** The feed component: the same subscription events as the news page, but a
    snapshot stores each document's own fields (no defaults) and clears the error,
    and the loading skeleton takes priority over the error. */
module NewsFeed {
  import opened Wrappers
  import opened ArticleTypes
  import opened Platform
  import NewsPage

  /** `{ id: doc.id, ...data }`: the stored fields with the identifier in front; a
      stored `id` field, even a null one, overrides the document identifier. */
  function Spread(doc: Doc): (r: StoredDoc)
    ensures r.id == (if doc.data.id.Absent? then Has(doc.id) else doc.data.id)
    ensures r.(id := doc.data.id) == doc.data
  {
    if doc.data.id.Absent? then doc.data.(id := Has(doc.id)) else doc.data
  }

  /** `snapshot.docs.map(...)` with `Spread`. */
  function SpreadAll(docs: seq<Doc>): (records: seq<StoredDoc>)
    ensures |records| == |docs|
    ensures forall i :: 0 <= i < |docs| ==> records[i] == Spread(docs[i])
  {
    if docs == [] then [] else [Spread(docs[0])] + SpreadAll(docs[1..])
  }

  /** Absent fields stay absent: a document without a title gives a record without
      one, where the news page would have put an empty string. */
  lemma NoDefaultsApplied(doc: Doc)
    ensures doc.data.title.Absent? ==> Spread(doc).title.Absent?
    ensures doc.data.imageUrl.Absent? ==> Spread(doc).imageUrl.Absent?
    ensures doc.data.credibilityScore.Absent? ==> Spread(doc).credibilityScore.Absent?
    ensures doc.data.id.Has? ==> Spread(doc).id == doc.data.id
  {
  }

  datatype FeedState = FeedState(articles: seq<StoredDoc>, isLoading: bool, error: Option<string>)

  const Initial: FeedState := FeedState([], true, None)

  /** The message recorded for a set-up failure. */
  function SetupMessage(t: Thrown): (m: string)
    ensures t.ErrorInstance? ==> m == t.errorMessage
    ensures t.OtherValue? ==> m == "Unknown error"
  {
    if t.ErrorInstance? then t.errorMessage else "Unknown error"
  }

  /** One callback of the feed. */
  function Step(st: FeedState, ev: StoreEvent): (r: FeedState)
    ensures !r.isLoading
    ensures ev.Snapshot? ==> r.articles == SpreadAll(ev.docs) && r.error.None?
    ensures ev.StreamError? ==> r.articles == st.articles && r.error == Some(ev.message)
    ensures ev.SetupFailure? ==> r.articles == st.articles && r.error == Some(SetupMessage(ev.thrown))
  {
    match ev
    case Snapshot(docs, _) => FeedState(SpreadAll(docs), false, None)
    case StreamError(message) => st.(error := Some(message), isLoading := false)
    case SetupFailure(thrown) => st.(error := Some(SetupMessage(thrown)), isLoading := false)
  }

  function Run(evs: seq<StoreEvent>): FeedState
  {
    if evs == [] then Initial else Step(Run(evs[..|evs| - 1]), evs[|evs| - 1])
  }

  /** `isLoading` holds exactly until the first event. */
  lemma LoadingUntilFirstEvent(evs: seq<StoreEvent>)
    ensures Run(evs).isLoading <==> evs == []
  {
  }

  /** The error is that of the last event, and only when it is a failure: a snapshot clears it. */
  lemma ErrorOfLastEvent(evs: seq<StoreEvent>)
    requires evs != []
    ensures var last := evs[|evs| - 1];
            Run(evs).error == match last
                              case Snapshot(_, _) => None
                              case StreamError(m) => Some(m)
                              case SetupFailure(t) => Some(SetupMessage(t))
  {
  }

  /** `articles` are those of the last snapshot, whatever errors follow it. */
  lemma {:induction false} ArticlesOfLastSnapshot(evs: seq<StoreEvent>, i: nat)
    requires i < |evs| && evs[i].Snapshot?
    requires forall j :: i < j < |evs| ==> !evs[j].Snapshot?
    ensures Run(evs).articles == SpreadAll(evs[i].docs)
  {
    if i < |evs| - 1 {
      ArticlesOfLastSnapshot(evs[..|evs| - 1], i);
    }
  }

  /** Before any snapshot there are no articles. */
  lemma {:induction false} NoArticlesWithoutSnapshot(evs: seq<StoreEvent>)
    requires forall j :: 0 <= j < |evs| ==> !evs[j].Snapshot?
    ensures Run(evs).articles == []
  {
    if evs != [] {
      NoArticlesWithoutSnapshot(evs[..|evs| - 1]);
    }
  }

  datatype FeedView = Skeleton | ErrorText(text: string) | List(cards: seq<StoredDoc>)

  /** The loading skeleton, then the error, then the list (`error` tested for truthiness). */
  function Render(st: FeedState): (v: FeedView)
    ensures v.Skeleton? <==> st.isLoading
    ensures v.ErrorText? <==> !st.isLoading && st.error.Some? && st.error.value != ""
    ensures v.ErrorText? ==> v.text == "Error loading articles: " + st.error.value
    ensures v.List? ==> v.cards == st.articles
  {
    if st.isLoading then Skeleton
    else if st.error.Some? && st.error.value != "" then ErrorText("Error loading articles: " + st.error.value)
    else List(st.articles)
  }

  /** A snapshot after a failure brings the list back. */
  lemma SnapshotRecovers(evs: seq<StoreEvent>, docs: seq<Doc>, nowMs: int)
    ensures Render(Run(evs + [Snapshot(docs, nowMs)])) == List(SpreadAll(docs))
  {
    assert (evs + [Snapshot(docs, nowMs)])[..|evs|] == evs;
  }

  /** The two components disagree after a query error followed by a snapshot: the
      news page keeps showing the error, the feed shows the new list. */
  lemma ErrorThenSnapshot(lib: DateLib, message: string, docs: seq<Doc>, nowMs: int)
    requires message != "" && NewsPage.SnapshotDefined(docs)
    ensures var evs := [StreamError(message), Snapshot(docs, nowMs)];
            && NewsPage.EventsDefined(evs)
            && NewsPage.Render(NewsPage.Run(lib, evs)) == NewsPage.ErrorView("Error: " + message)
            && Render(Run(evs)) == List(SpreadAll(docs))
  {
    var evs := [StreamError(message), Snapshot(docs, nowMs)];
    assert NewsPage.EventsDefined(evs);
    NewsPage.ErrorViewIsFinal(lib, evs, 0);
    SnapshotRecovers([StreamError(message)], docs, nowMs);
  }

  /** The feed's state and its subscription callbacks. */
  class Feed {
    var articles: seq<StoredDoc>
    var isLoading: bool
    var error: Option<string>

    function State(): FeedState
      reads this
    {
      FeedState(articles, isLoading, error)
    }

    constructor ()
      ensures State() == Initial
    {
      articles, isLoading, error := [], true, None;
    }

    /** `setArticles(news)`, `setIsLoading(false)`, `setError(null)`. */
    method OnSnapshot(docs: seq<Doc>)
      modifies this
      ensures articles == SpreadAll(docs) && !isLoading && error.None?
      ensures forall nowMs :: State() == Step(old(State()), Snapshot(docs, nowMs))
    {
      var news := SpreadAll(docs);
      articles := news;
      isLoading := false;
      error := None;
    }

    /** `setError(error.message)`, `setIsLoading(false)`. */
    method OnError(message: string)
      modifies this
      ensures articles == old(articles) && !isLoading && error == Some(message)
      ensures State() == Step(old(State()), StreamError(message))
    {
      error := Some(message);
      isLoading := false;
    }

    /** The `catch` around the set-up: the `Error`'s message, or `'Unknown error'`. */
    method OnSetupThrow(thrown: Thrown)
      modifies this
      ensures articles == old(articles) && !isLoading && error == Some(SetupMessage(thrown))
      ensures State() == Step(old(State()), SetupFailure(thrown))
    {
      error := Some(if thrown.ErrorInstance? then thrown.errorMessage else "Unknown error");
      isLoading := false;
    }

    function View(): FeedView
      reads this
    {
      Render(State())
    }
  }
}
