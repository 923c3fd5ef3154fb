/** The request models of the API, the errors its handlers raise, and the
    `to_id` projection applied to every document they return. */
module Models {
  import opened Bson

  /** How a handler fails: a 422 validation error, a 404, or a 500. */
  datatype Error = InvalidInput | NotFound | ServerError

  datatype Result<T> = Ok(value: T) | Err(error: Error)

  /** `Literal["movie", "series"]`. */
  datatype Kind = Movie | Series

  function KindName(k: Kind): string
  {
    match k
    case Movie => "movie"
    case Series => "series"
  }

  /** The `ContentIn` request body (defaults already filled in). */
  datatype ContentIn = ContentIn(
    title: string,
    description: Option<string>,
    kind: Kind,
    genres: seq<string>,
    year: Option<int>,
    rating: Option<real>,
    posterUrl: Option<string>,
    backdropUrl: Option<string>,
    trailerUrl: Option<string>,
    streamUrl: Option<string>,
    durationMinutes: Option<int>,
    cast: seq<string>,
    director: Option<string>,
    metadata: map<string, Value>,
    isPublished: bool)

  /** The field bounds `ContentIn` declares: year in 1900..2100, rating in 0..10,
      a duration of at least one minute; an absent value passes. */
  predicate WellFormed(c: ContentIn)
    ensures c.year.None? && c.rating.None? && c.durationMinutes.None? ==> WellFormed(c)
    ensures c.year.Some? && (c.year.value < 1900 || c.year.value > 2100) ==> !WellFormed(c)
    ensures c.rating.Some? && (c.rating.value < 0.0 || c.rating.value > 10.0) ==> !WellFormed(c)
    ensures c.durationMinutes.Some? && c.durationMinutes.value < 1 ==> !WellFormed(c)
  {
    (c.year.Some? ==> 1900 <= c.year.value <= 2100) &&
    (c.rating.Some? ==> 0.0 <= c.rating.value <= 10.0) &&
    (c.durationMinutes.Some? ==> c.durationMinutes.value >= 1)
  }

  function OptText(o: Option<string>): Value
  {
    if o.Some? then Str(o.value) else Null
  }

  function Texts(s: seq<string>): (r: Value)
    ensures r.Array? && |r.items| == |s|
    ensures forall i :: 0 <= i < |s| ==> r.items[i] == Str(s[i])
  {
    Array(seq(|s|, i requires 0 <= i < |s| => Str(s[i])))
  }

  /** `payload.model_dump()`: one field per model attribute, under its Python name. */
  function Dump(c: ContentIn): (d: Doc)
    ensures "_id" !in d && "id" !in d && "created_at" !in d
    ensures "title" in d && "type" in d && "genres" in d && "is_published" in d
    ensures d["title"] == Str(c.title) && d["type"] == Str(KindName(c.kind))
    ensures d["genres"] == Texts(c.genres) && d["is_published"] == Bool(c.isPublished)
  {
    map[
      "title" := Str(c.title),
      "description" := OptText(c.description),
      "type" := Str(KindName(c.kind)),
      "genres" := Texts(c.genres),
      "year" := (if c.year.Some? then Int(c.year.value) else Null),
      "rating" := (if c.rating.Some? then Real(c.rating.value) else Null),
      "poster_url" := OptText(c.posterUrl),
      "backdrop_url" := OptText(c.backdropUrl),
      "trailer_url" := OptText(c.trailerUrl),
      "stream_url" := OptText(c.streamUrl),
      "duration_minutes" := (if c.durationMinutes.Some? then Int(c.durationMinutes.value) else Null),
      "cast" := Texts(c.cast),
      "director" := OptText(c.director),
      "metadata" := Object(c.metadata),
      "is_published" := Bool(c.isPublished)]
  }

  /** Whether `create_document` can encode the dumped payload.  Its only
      integers are the year, the duration and those inside `metadata`. */
  predicate Storable(c: ContentIn)
    ensures WellFormed(c) ==>
      (Storable(c) <==>
        (c.durationMinutes.Some? ==> FitsInt64(c.durationMinutes.value)) && Encodes(Object(c.metadata)))
    ensures c.durationMinutes == Some(Int64Limit) ==> !Storable(c)
  {
    Encodes(if c.year.Some? then Int(c.year.value) else Null) &&
    Encodes(if c.durationMinutes.Some? then Int(c.durationMinutes.value) else Null) &&
    Encodes(Object(c.metadata))
  }

  /** `Storable` is exactly: every field of the dumped payload encodes. */
  lemma StorableDump(c: ContentIn)
    ensures Storable(c) <==> forall k :: k in Dump(c) ==> Encodes(Dump(c)[k])
  {
    var d := Dump(c);
    if Storable(c) {
      forall k | k in d ensures Encodes(d[k]) {
        DumpFieldEncodes(c, k);
      }
    } else {
      assert !Encodes(d["year"]) || !Encodes(d["duration_minutes"]) || !Encodes(d["metadata"]);
    }
  }

  lemma DumpFieldEncodes(c: ContentIn, k: string)
    requires Storable(c) && k in Dump(c)
    ensures Encodes(Dump(c)[k])
  {
    if k == "genres" || k == "cast" {
      DumpListEncodes(c, k);
    } else {
      assert k in {"title", "description", "type", "year", "rating", "poster_url", "backdrop_url",
                   "trailer_url", "stream_url", "duration_minutes", "director", "metadata", "is_published"};
    }
  }

  lemma DumpListEncodes(c: ContentIn, k: string)
    requires k == "genres" || k == "cast"
    ensures Encodes(Dump(c)[k])
  {
    var s := if k == "genres" then c.genres else c.cast;
    assert Dump(c)[k] == Texts(s);
    forall x | x in Texts(s).items ensures Encodes(x) {
      var i :| 0 <= i < |s| && Texts(s).items[i] == x;
    }
  }

  /** The `WatchEntry` request body; `progress` must lie in [0, 1]. */
  datatype WatchEntry = WatchEntry(contentId: string, progress: real)

  predicate ProgressInRange(e: WatchEntry)
    ensures e.progress == 0.0 || e.progress == 1.0 ==> ProgressInRange(e)
    ensures e.progress < 0.0 || e.progress > 1.0 ==> !ProgressInRange(e)
  {
    0.0 <= e.progress <= 1.0
  }

  /** Python's `str` of an ObjectId is its hex text. */
  ghost predicate ShowsIds(show: Value -> string)
  {
    forall h :: show(Oid(h)) == h
  }

  /** `to_id`: the document with its `_id` renamed to a string `id`.  `show` is
      Python's `str` applied to the stored id. */
  function ToId(doc: Doc, show: Value -> string): (r: Doc)
    ensures "_id" !in doc ==> r == doc
    ensures "_id" in doc ==>
      "_id" !in r && r.Keys == doc.Keys - {"_id"} + {"id"} && r["id"] == Str(show(doc["_id"]))
    ensures forall k :: k in doc && k != "_id" && k != "id" ==> k in r && r[k] == doc[k]
  {
    if doc == map[] then doc
    else if "_id" in doc then (doc - {"_id"})["id" := Str(show(doc["_id"]))]
    else doc
  }

  /** Projecting twice is projecting once: a projected document has no `_id` left. */
  lemma ToIdIdempotent(doc: Doc, show: Value -> string)
    ensures ToId(ToId(doc, show), show) == ToId(doc, show)
  {
  }

  /** `[to_id(x) for x in cursor]`: one document per cursor document, in cursor
      order, none with an `_id` left; a stored id comes back as the string `id`,
      and every other field as it was. */
  function Project(docs: seq<Doc>, show: Value -> string): (r: seq<Doc>)
    ensures |r| == |docs|
    ensures forall i :: 0 <= i < |r| ==> "_id" !in r[i]
    ensures forall i :: 0 <= i < |r| && "_id" in docs[i] ==> "id" in r[i] && r[i]["id"] == Str(show(docs[i]["_id"]))
    ensures forall i, k :: 0 <= i < |r| && k in docs[i] && k != "_id" && k != "id" ==> k in r[i] && r[i][k] == docs[i][k]
    ensures forall i :: 0 <= i < |r| ==>
      r[i].Keys == docs[i].Keys - {"_id"} + (if "_id" in docs[i] then {"id"} else {})
    ensures forall i :: 0 <= i < |r| && "_id" !in docs[i] ==> r[i] == docs[i]
  {
    seq(|docs|, i requires 0 <= i < |docs| => ToId(docs[i], show))
  }
}
