/** The catalogue side of the API as functions of the stored content: the filter
    `list_content` builds, the listing every catalogue endpoint returns, the genre
    interest `recommendations` derives from a user's favourites, and what
    inserting and deleting a document does to id lookups. */
module Catalog {
  import opened Bson
  import opened Query
  import opened Models
  import opened Profiles

  /** Python truthiness of an optional query string: given and not empty. */
  predicate Given(o: Option<string>)
  {
    o.Some? && o.value != ""
  }

  /** The filter `list_content(q, genre, type)` sends to the store. */
  function CatalogFilter(q: Option<string>, genre: Option<string>, kind: Option<string>): (f: Filter)
    ensures f.Keys <= {"is_published", "title", "genres", "type"}
    ensures "is_published" in f && f["is_published"] == Eq(Bool(true))
    ensures ("title" in f <==> Given(q)) && (Given(q) ==> f["title"] == Regex(q.value))
    ensures ("genres" in f <==> Given(genre)) && (Given(genre) ==> f["genres"] == Eq(Str(genre.value)))
    ensures ("type" in f <==> Given(kind)) && (Given(kind) ==> f["type"] == Eq(Str(kind.value)))
  {
    var f := map["is_published" := Eq(Bool(true))];
    var f := if Given(q) then f["title" := Regex(q.value)] else f;
    var f := if Given(genre) then f["genres" := Eq(Str(genre.value))] else f;
    if Given(kind) then f["type" := Eq(Str(kind.value))] else f
  }

  /** `[to_id(x) for x in db["content"].find(f).skip(skip).limit(limit).sort("created_at", -1)]`. */
  function Listing(content: seq<Doc>, f: Filter, skip: nat, limit: int, show: Value -> string): (r: seq<Doc>)
    ensures |r| <= |content| && (limit != 0 ==> |r| <= Abs(limit))
    ensures forall i :: 0 <= i < |r| ==> "_id" !in r[i]
  {
    Project(Page(SortByRecency(Find(content, f)), skip, limit), show)
  }

  /** Matching never looks at `_id` or `id` unless the filter names them, so the
      projection keeps every match and the sort key. */
  lemma ToIdKeepsMatch(d: Doc, f: Filter, show: Value -> string)
    requires "_id" !in f && "id" !in f
    ensures Matches(ToId(d, show), f) <==> Matches(d, f)
    ensures Stamp(ToId(d, show)) == Stamp(d)
  {
    var r := ToId(d, show);
    forall k | k in f ensures Get(r, k) == Get(d, k) {
    }
    assert Get(r, "created_at") == Get(d, "created_at");
  }

  /** A listing is at most `limit` long (0: no bound), most recent first, and
      holds only projections of stored documents that match the filter. */
  lemma ListingSound(content: seq<Doc>, f: Filter, skip: nat, limit: int, show: Value -> string)
    requires "_id" !in f && "id" !in f
    ensures var r := Listing(content, f, skip, limit, show);
      (limit != 0 ==> |r| <= Abs(limit)) &&
      ByRecency(r) &&
      (forall i :: 0 <= i < |r| ==> Matches(r[i], f)) &&
      (forall i :: 0 <= i < |r| ==> exists d :: d in content && Matches(d, f) && r[i] == ToId(d, show))
  {
    var found := Find(content, f);
    var sorted := SortByRecency(found);
    var page := Page(sorted, skip, limit);
    var r := Project(page, show);
    forall i | 0 <= i < |r|
      ensures Matches(r[i], f)
      ensures exists d :: d in content && Matches(d, f) && r[i] == ToId(d, show)
    {
      var d := page[i];
      assert d == sorted[skip + i];
      assert d in multiset(sorted);
      assert d in found;
      ToIdKeepsMatch(d, f, show);
    }
    forall i, j | 0 <= i < j < |r| ensures NewerOrSame(r[i], r[j]) {
      assert page[i] == sorted[skip + i] && page[j] == sorted[skip + j];
      ToIdKeepsMatch(page[i], f, show);
      ToIdKeepsMatch(page[j], f, show);
    }
  }

  /** What every document `list_content` returns satisfies: published, and
      matching each of the title, genre and type conditions that were given. */
  lemma CatalogListingSound(content: seq<Doc>, q: Option<string>, genre: Option<string>,
                            kind: Option<string>, skip: nat, limit: int, show: Value -> string)
    ensures var r := Listing(content, CatalogFilter(q, genre, kind), skip, limit, show);
      (limit != 0 ==> |r| <= Abs(limit)) && ByRecency(r) &&
      forall i :: 0 <= i < |r| ==>
        Holds(Eq(Bool(true)), Get(r[i], "is_published")) &&
        (Given(q) ==> Holds(Regex(q.value), Get(r[i], "title"))) &&
        (Given(genre) ==> Holds(Eq(Str(genre.value)), Get(r[i], "genres"))) &&
        (Given(kind) ==> Holds(Eq(Str(kind.value)), Get(r[i], "type")))
  {
    var f := CatalogFilter(q, genre, kind);
    ListingSound(content, f, skip, limit, show);
    var r := Listing(content, f, skip, limit, show);
    forall i | 0 <= i < |r|
      ensures Holds(Eq(Bool(true)), Get(r[i], "is_published"))
      ensures Given(q) ==> Holds(Regex(q.value), Get(r[i], "title"))
      ensures Given(genre) ==> Holds(Eq(Str(genre.value)), Get(r[i], "genres"))
      ensures Given(kind) ==> Holds(Eq(Str(kind.value)), Get(r[i], "type"))
    {
      assert Matches(r[i], f);
      assert "is_published" in f;
    }
  }

  /** `{"_id": ObjectId(...)}` and `{"_id": {"$in": [...]}}`. */
  function IdFilter(id: Value): Filter
  {
    map["_id" := Eq(id)]
  }

  function IdsFilter(ids: set<Value>): Filter
  {
    map["_id" := In(ids)]
  }

  /** The ids `recommendations` looks up: the favourites that are valid ObjectId
      text, as parsed ids; the others are dropped without an error. */
  function FavoriteIds(favorites: set<string>): (ids: set<Value>)
    ensures forall i :: i in favorites && IsValidId(i) ==> ParseId(i).value in ids
    ensures forall v :: v in ids ==> exists i :: i in favorites && IsValidId(i) && ParseId(i) == Some(v)
  {
    set i | i in favorites && IsValidId(i) :: Oid(Lower(i))
  }

  /** The values `for g in d.get("genres", [])` visits: the elements of a list,
      the one-letter strings of a string, nothing for an absent field. */
  function Tags(d: Doc): (tags: seq<Value>)
    ensures Get(d, "genres").Array? ==> tags == Get(d, "genres").items
    ensures Get(d, "genres").Str? ==>
      |tags| == |Get(d, "genres").s| &&
      forall i :: 0 <= i < |tags| ==> tags[i] == Str([Get(d, "genres").s[i]])
    ensures !Get(d, "genres").Array? && !Get(d, "genres").Str? ==> tags == []
  {
    match Get(d, "genres")
    case Array(items) => items
    case Str(s) => seq(|s|, i requires 0 <= i < |s| => Str([s[i]]))
    case _ => []
  }

  function Elements(s: seq<Value>): set<Value>
  {
    set x | x in s
  }

  /** The genres collected from the documents, visited in order. */
  function GenreUnion(docs: seq<Doc>): set<Value>
    decreases |docs|
  {
    if docs == [] then {}
    else GenreUnion(docs[..|docs| - 1]) + Elements(Tags(docs[|docs| - 1]))
  }

  /** A genre is collected exactly when one of the documents carries it. */
  lemma {:induction false} GenreUnionMembers(docs: seq<Doc>, g: Value)
    ensures g in GenreUnion(docs) <==> exists d :: d in docs && g in Tags(d)
    decreases |docs|
  {
    if docs != [] {
      var init := docs[..|docs| - 1];
      var last := docs[|docs| - 1];
      GenreUnionMembers(init, g);
      assert docs == init + [last];
      if g in GenreUnion(docs) {
        if g in GenreUnion(init) {
          var d :| d in init && g in Tags(d);
          assert d in docs;
        } else {
          assert last in docs;
        }
      }
      if d :| d in docs && g in Tags(d) {
        if d != last {
          assert d in init;
        }
      }
    }
  }

  lemma GenreUnionAll(docs: seq<Doc>)
    ensures forall g :: g in GenreUnion(docs) <==> exists d :: d in docs && g in Tags(d)
  {
    forall g ensures g in GenreUnion(docs) <==> exists d :: d in docs && g in Tags(d) {
      GenreUnionMembers(docs, g);
    }
  }

  /** The genres `recommendations(uid)` filters on: those of the content the
      user's valid favourites name, published or not.  Empty when there is no
      uid, no profile or no favourite. */
  function Interest(content: seq<Doc>, profiles: map<string, Profile>, uid: Option<string>): (genres: set<Value>)
    ensures forall g :: g in genres <==>
      Given(uid) && uid.value in profiles &&
      exists d :: d in content && Matches(d, IdsFilter(FavoriteIds(profiles[uid.value].favorites))) && g in Tags(d)
  {
    if !Given(uid) || uid.value !in profiles then {}
    else
      var favorites := profiles[uid.value].favorites;
      var docs := Find(content, IdsFilter(FavoriteIds(favorites)));
      GenreUnionAll(docs);
      if favorites == {} then
        assert FavoriteIds(favorites) == {};
        assert forall d :: !Matches(d, IdsFilter({})) by {
          forall d ensures !Matches(d, IdsFilter({})) {
            assert !Holds(In({}), Get(d, "_id"));
          }
        }
        {}
      else GenreUnion(docs)
  }

  /** The filter `recommendations` sends: published content, sharing a genre with
      the interest when there is one. */
  function RecommendationFilter(genres: set<Value>): (f: Filter)
    ensures "_id" !in f && "id" !in f
    ensures "is_published" in f && f["is_published"] == Eq(Bool(true))
    ensures genres != {} ==> f.Keys == {"is_published", "genres"} && f["genres"] == In(genres)
    ensures genres == {} ==> f == CatalogFilter(None, None, None)
  {
    var f := map["is_published" := Eq(Bool(true))];
    if genres == {} then f else f["genres" := In(genres)]
  }

  /** A favourite that is not a valid id changes nothing about the interest,
      even when it is the only favourite. */
  lemma InvalidFavoriteIgnored(content: seq<Doc>, profiles: map<string, Profile>, uid: string, bad: string)
    requires uid in profiles && !IsValidId(bad)
    ensures var p := profiles[uid];
      Interest(content, profiles[uid := p.(favorites := p.favorites + {bad})], Some(uid)) ==
      Interest(content, profiles, Some(uid))
  {
    var p := profiles[uid];
    assert FavoriteIds(p.favorites + {bad}) == FavoriteIds(p.favorites);
    if p.favorites == {} {
      var none := Find(content, IdsFilter({}));
      if none != [] {
        assert Matches(none[0], IdsFilter({}));
      }
    }
  }

  /** Every stored document carries an ObjectId, and no two the same one. */
  predicate DistinctIds(docs: seq<Doc>)
  {
    (forall i :: 0 <= i < |docs| ==> "_id" in docs[i] && docs[i]["_id"].Oid?) &&
    (forall i, j :: 0 <= i < j < |docs| ==> Get(docs[i], "_id") != Get(docs[j], "_id"))
  }

  /** The document `create_content` stores: the dumped payload with the id and the
      creation time the store assigns. */
  function Stored(payload: ContentIn, id: string, now: int): Doc
  {
    Dump(payload)["_id" := Oid(id)]["created_at" := Date(now)]
  }

  /** After appending a document under a fresh id, looking that id up finds it. */
  lemma AppendThenFind(content: seq<Doc>, s: Doc, id: Value)
    requires FirstMatch(content, IdFilter(id)).None? && Get(s, "_id") == id
    ensures FirstMatch(content + [s], IdFilter(id)) == Some(|content|)
  {
    var all := content + [s];
    var f := IdFilter(id);
    assert Matches(s, f) by {
      assert f.Keys == {"_id"} && Holds(f["_id"], Get(s, "_id"));
    }
    assert all[|content|] == s;
    assert forall j :: 0 <= j < |content| ==> all[j] == content[j] && !Matches(all[j], f);
    var r := FirstMatch(all, f);
    assert r.Some?;
    assert r.value == |content|;
  }

  /** After `create_content` stores a payload under a fresh id, `get_content` of
      that id finds the new document. */
  lemma CreateThenFind(content: seq<Doc>, payload: ContentIn, id: string, now: int)
    requires FirstMatch(content, IdFilter(Oid(id))).None?
    ensures FirstMatch(content + [Stored(payload, id, now)], IdFilter(Oid(id))) == Some(|content|)
  {
    var s := Stored(payload, id, now);
    assert Get(s, "_id") == Oid(id);
    AppendThenFind(content, s, Oid(id));
  }

  /** The projection of a stored document is the payload with its creation time
      and its id text, and nothing else. */
  lemma StoredProjection(payload: ContentIn, id: string, now: int, show: Value -> string)
    requires ShowsIds(show)
    ensures ToId(Stored(payload, id, now), show) ==
      Dump(payload)["created_at" := Date(now)]["id" := Str(id)]
  {
    var d := Dump(payload);
    var s := Stored(payload, id, now);
    assert "_id" in s && s["_id"] == Oid(id);
    assert s - {"_id"} == d["created_at" := Date(now)];
  }

  /** The id `create_content` returns is one `get_content` accepts, and the
      lookup finds the created document, whose `id` is that same text. */
  lemma CreateThenGet(content: seq<Doc>, payload: ContentIn, id: string, now: int, show: Value -> string)
    requires IsCanonicalId(id) && FirstMatch(content, IdFilter(Oid(id))).None? && ShowsIds(show)
    ensures var all := content + [Stored(payload, id, now)];
      IsValidId(id) &&
      FirstMatch(all, IdFilter(Oid(Lower(id)))) == Some(|content|) &&
      ToId(all[|content|], show) == Dump(payload)["created_at" := Date(now)]["id" := Str(id)]
  {
    ParseCanonical(id);
    CreateThenFind(content, payload, id, now);
    StoredProjection(payload, id, now, show);
  }

  /** The genres `recommendations` collects from a created document are the
      payload's genres, in order. */
  lemma TagsOfStored(payload: ContentIn, id: string, now: int)
    ensures var tags := Tags(Stored(payload, id, now));
      |tags| == |payload.genres| && forall i :: 0 <= i < |tags| ==> tags[i] == Str(payload.genres[i])
  {
    assert Get(Stored(payload, id, now), "genres") == Texts(payload.genres);
  }

  /** Inserting a document under a fresh id keeps the ids distinct. */
  lemma AppendKeepsDistinct(content: seq<Doc>, payload: ContentIn, id: string, now: int)
    requires DistinctIds(content) && FirstMatch(content, IdFilter(Oid(id))).None?
    ensures DistinctIds(content + [Stored(payload, id, now)])
  {
    var all := content + [Stored(payload, id, now)];
    forall i, j | 0 <= i < j < |all| ensures Get(all[i], "_id") != Get(all[j], "_id") {
      assert all[i] == content[i];
      if j == |content| {
        assert !Matches(content[i], IdFilter(Oid(id)));
      } else {
        assert all[j] == content[j];
      }
    }
  }

  /** Deleting by id keeps the ids distinct, and the deleted id is gone. */
  lemma DeleteThenMissing(content: seq<Doc>, id: Value)
    requires DistinctIds(content)
    ensures DistinctIds(DeleteOne(content, IdFilter(id)).0)
    ensures FirstMatch(DeleteOne(content, IdFilter(id)).0, IdFilter(id)).None?
  {
    var f := IdFilter(id);
    match FirstMatch(content, f)
    case None =>
    case Some(k) =>
      var rest := content[..k] + content[k + 1..];
      assert DeleteOne(content, f).0 == rest;
      assert forall i :: 0 <= i < |rest| ==> rest[i] == content[if i < k then i else i + 1];
      forall i | 0 <= i < |rest| ensures !Matches(rest[i], f) {
        var j := if i < k then i else i + 1;
        assert rest[i] == content[j];
        assert Get(content[k], "_id") == id;
        if j < k {
          assert Get(content[j], "_id") != Get(content[k], "_id");
        } else {
          assert Get(content[k], "_id") != Get(content[j], "_id");
        }
      }
  }
}
