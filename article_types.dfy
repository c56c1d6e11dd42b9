/** The article record a card displays and the shape of a stored document. */
module ArticleTypes {
  import opened Wrappers

  /** The image shown when an article has none or its image fails to load. */
  const Placeholder: string := "/news-placeholder.png"

  /** The `Article` record. The optional language variants are `Option`s;
      `credibilityScore` is an integer (fractional and NaN scores are not modelled). */
  datatype Article = Article(
    id: string,
    title: string,
    description: string,
    titleEn: Option<string>,
    titlePl: Option<string>,
    descriptionEn: Option<string>,
    descriptionPl: Option<string>,
    imageUrl: string,
    credibilityScore: int,
    trend: string,
    source: string,
    publishedAt: string,
    createdAt: string)

  /** A field of a stored document: missing (reads as `undefined`), stored as `null`,
      or holding a value. */
  datatype Field<T> = Absent | Null | Has(value: T)

  /** A stored date: an object exposing `seconds`/`nanoseconds` (a Firestore
      Timestamp, or a plain map; either field may be missing or null), or text. */
  datatype StoredDate =
    | Stamp(seconds: Field<int>, nanoseconds: Field<int>)
    | Text(text: string)

  /** The fields of a stored article document, each possibly missing or null. */
  datatype StoredDoc = StoredDoc(
    id: Field<string>,
    title: Field<string>,
    description: Field<string>,
    titleEn: Field<string>,
    descriptionEn: Field<string>,
    imageUrl: Field<string>,
    credibilityScore: Field<int>,
    trend: Field<string>,
    source: Field<string>,
    publishedAt: Field<StoredDate>,
    createdAt: Field<StoredDate>)

  /** A document of a snapshot: the identifier the store assigned and its data. */
  datatype Doc = Doc(id: string, data: StoredDoc)

  /** JavaScript truthiness of a stored string field. */
  predicate TruthyText(f: Field<string>)
  {
    f.Has? && f.value != ""
  }
}
