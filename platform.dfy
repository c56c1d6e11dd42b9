/** What the model takes from the JavaScript runtime and the libraries it calls:
    date handling, thrown values and the events a live query delivers. */
module Platform {
  import opened Wrappers
  import opened ArticleTypes

  /** The library date operations, left uninterpreted.
      - parses(s): `new Date(s)` is a valid date (`!isNaN(date.getTime())`);
      - isoOfMillis(ms): `new Date(ms).toISOString()` for an integral time value;
      - relativeToNow(s): `formatDistanceToNow(new Date(s), {addSuffix: true})`
        read against the wall clock, or None when it throws. */
  datatype DateLib = DateLib(
    parses: string -> bool,
    isoOfMillis: int -> string,
    relativeToNow: string -> Option<string>)

  /** What the JavaScript Date implementation guarantees and the lemmas rely on:
      its own ISO output parses back, and the Polish "no data" text does not parse. */
  ghost predicate Coherent(lib: DateLib)
  {
    && (forall ms :: lib.parses(lib.isoOfMillis(ms)))
    && !lib.parses("brak danych")
  }

  /** A value caught by a `catch` clause: an `Error` instance, whose `message` is a
      string, or any other value, whose `message` property may be missing. */
  datatype Thrown = ErrorInstance(errorMessage: string) | OtherValue(messageProperty: Option<string>)

  /** `err.message` read on the thrown value. */
  function MessageOf(t: Thrown): (m: Option<string>)
    ensures t.ErrorInstance? ==> m == Some(t.errorMessage)
    ensures t.OtherValue? ==> m == t.messageProperty
  {
    match t
    case ErrorInstance(msg) => Some(msg)
    case OtherValue(p) => p
  }

  /** What a component's subscription effect can observe: a snapshot of the ordered
      documents (with the clock reading taken while it is mapped), a query error
      carrying `error.message`, or an exception thrown while the subscription is set up. */
  datatype StoreEvent =
    | Snapshot(docs: seq<Doc>, nowMs: int)
    | StreamError(message: string)
    | SetupFailure(thrown: Thrown)
}
