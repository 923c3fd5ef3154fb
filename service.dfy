/** The request handlers over the two collections they share.  `connected` is
    false when no database is configured (`db is None`). */
module Service {
  import opened Bson
  import opened Query
  import opened Models
  import opened Profiles
  import opened Catalog

  /** The counts `admin_metrics` reports. */
  datatype Metrics = Metrics(contentCount: nat, users: nat, favorites: nat)

  /** The genres `recommendations` collects from the favourited documents, one
      document and one tag at a time. */
  method CollectGenres(favDocs: seq<Doc>) returns (genres: set<Value>)
    ensures genres == GenreUnion(favDocs)
    ensures forall g :: g in genres <==> exists d :: d in favDocs && g in Tags(d)
  {
    genres := {};
    var n := 0;
    while n < |favDocs|
      invariant 0 <= n <= |favDocs|
      invariant genres == GenreUnion(favDocs[..n])
    {
      var tags := Tags(favDocs[n]);
      var m := 0;
      while m < |tags|
        invariant 0 <= m <= |tags|
        invariant genres == GenreUnion(favDocs[..n]) + Elements(tags[..m])
      {
        assert tags[..m + 1] == tags[..m] + [tags[m]];
        genres := genres + {tags[m]};
        m := m + 1;
      }
      assert tags[..m] == tags;
      assert favDocs[..n + 1][..n] == favDocs[..n];
      n := n + 1;
    }
    assert favDocs[..n] == favDocs;
    forall g ensures g in genres <==> exists d :: d in favDocs && g in Tags(d) {
      GenreUnionMembers(favDocs, g);
    }
  }

  class Store {
    var connected: bool
    var content: seq<Doc>                  // the `content` collection, in store order
    var profiles: map<string, Profile>     // the `userprofile` collection, by uid

    /** Every document has its own ObjectId; every history is keyed by content id. */
    ghost predicate Valid()
      reads this
    {
      DistinctIds(content) &&
      forall u :: u in profiles ==> KeyedUnique(profiles[u].history)
    }

    constructor (connected: bool)
      ensures Valid()
      ensures this.connected == connected && content == [] && profiles == map[]
    {
      this.connected := connected;
      content := [];
      profiles := map[];
    }

    /** `GET /api/content`. */
    method ListContent(q: Option<string>, genre: Option<string>, kind: Option<string>,
                       skip: int, limit: int, show: Value -> string)
      returns (r: Result<seq<Doc>>)
      ensures limit > 100 ==> r == Err(InvalidInput)
      ensures limit <= 100 && !connected ==> r == Ok([])
      ensures limit <= 100 && connected && (skip < 0 || !Encodable(skip) || !Encodable(limit)) ==>
        r == Err(ServerError)
      ensures limit <= 100 && connected && skip >= 0 && Encodable(skip) && Encodable(limit) ==>
        r == Ok(Listing(content, CatalogFilter(q, genre, kind), skip, limit, show))
      ensures r.Ok? ==> (limit != 0 ==> |r.value| <= Abs(limit)) && ByRecency(r.value)
      ensures r.Ok? ==> forall i :: 0 <= i < |r.value| ==>
        var d := r.value[i];
        Holds(Eq(Bool(true)), Get(d, "is_published")) &&
        (Given(q) ==> Holds(Regex(q.value), Get(d, "title"))) &&
        (Given(genre) ==> Holds(Eq(Str(genre.value)), Get(d, "genres"))) &&
        (Given(kind) ==> Holds(Eq(Str(kind.value)), Get(d, "type")))
    {
      if limit > 100 {
        return Err(InvalidInput);
      }
      if !connected {
        return Ok([]);
      }
      var filt: Filter := map["is_published" := Eq(Bool(true))];
      if Given(q) {
        filt := filt["title" := Regex(q.value)];
      }
      if Given(genre) {
        filt := filt["genres" := Eq(Str(genre.value))];
      }
      if Given(kind) {
        filt := filt["type" := Eq(Str(kind.value))];
      }
      assert filt == CatalogFilter(q, genre, kind);
      if skip < 0 || !Encodable(skip) || !Encodable(limit) {
        return Err(ServerError);
      }
      CatalogListingSound(content, q, genre, kind, skip, limit, show);
      r := Ok(Listing(content, filt, skip, limit, show));
    }

    /** `POST /api/content`: stores the payload under the id and creation time the
        store assigns (`newId`, `now`) and returns the id.  A payload the driver
        cannot encode is not stored, and the failure surfaces as a server error. */
    method CreateContent(payload: ContentIn, newId: string, now: int) returns (r: Result<string>)
      requires Valid()
      requires IsCanonicalId(newId) && FirstMatch(content, IdFilter(Oid(newId))).None?
      modifies this
      ensures Valid()
      ensures connected == old(connected) && profiles == old(profiles)
      ensures !WellFormed(payload) ==> r == Err(InvalidInput) && content == old(content)
      ensures WellFormed(payload) && (!connected || !Storable(payload)) ==>
        r == Err(ServerError) && content == old(content)
      ensures WellFormed(payload) && connected && Storable(payload) ==>
        r == Ok(newId) && content == old(content) + [Stored(payload, newId, now)]
    {
      if !WellFormed(payload) {
        return Err(InvalidInput);
      }
      if !connected {
        return Err(ServerError);
      }
      if !Storable(payload) {
        return Err(ServerError);
      }
      AppendKeepsDistinct(content, payload, newId, now);
      content := content + [Stored(payload, newId, now)];
      r := Ok(newId);
    }

    /** `GET /api/content/{id}`: a malformed id is reported as not found. */
    method GetContent(id: string, show: Value -> string) returns (r: Result<Doc>)
      ensures !connected ==> r == Err(ServerError)
      ensures connected && !IsValidId(id) ==> r == Err(NotFound)
      ensures connected && IsValidId(id) ==>
        match FirstMatch(content, IdFilter(Oid(Lower(id))))
        case None => r == Err(NotFound)
        case Some(i) => r == Ok(ToId(content[i], show))
    {
      if !connected {
        return Err(ServerError);
      }
      var oid := ParseId(id);
      if oid.None? {
        return Err(NotFound);
      }
      var found := FirstMatch(content, IdFilter(oid.value));
      if found.None? {
        return Err(NotFound);
      }
      r := Ok(ToId(content[found.value], show));
    }

    /** `DELETE /api/content/{id}`: deleting nothing is reported as not found. */
    method DeleteContent(id: string) returns (r: Result<()>)
      requires Valid()
      modifies this
      ensures Valid()
      ensures connected == old(connected) && profiles == old(profiles)
      ensures !connected ==> r == Err(ServerError) && content == old(content)
      ensures connected && !IsValidId(id) ==> r == Err(NotFound) && content == old(content)
      ensures connected && IsValidId(id) ==>
        var (rest, deleted) := DeleteOne(old(content), IdFilter(Oid(Lower(id))));
        content == rest && r == (if deleted == 1 then Ok(()) else Err(NotFound))
    {
      if !connected {
        return Err(ServerError);
      }
      var oid := ParseId(id);
      if oid.None? {
        return Err(NotFound);
      }
      DeleteThenMissing(content, oid.value);
      var (rest, deleted) := DeleteOne(content, IdFilter(oid.value));
      content := rest;
      if deleted == 0 {
        return Err(NotFound);
      }
      r := Ok(());
    }

    /** `GET /api/users/{uid}`: creates an empty profile for an unknown uid, then
        returns the stored profile. */
    method GetUser(uid: string) returns (r: Result<ProfileOut>)
      requires Valid()
      modifies this
      ensures Valid()
      ensures connected == old(connected) && content == old(content)
      ensures !connected ==> r == Err(ServerError) && profiles == old(profiles)
      ensures connected ==>
        profiles == Provision(old(profiles), uid) && r == Ok(View(uid, profiles[uid]))
    {
      if !connected {
        return Err(ServerError);
      }
      if uid !in profiles {
        profiles := profiles[uid := EmptyProfile];
      }
      r := Ok(View(uid, profiles[uid]));
    }

    /** `POST /api/users/{uid}/favorites`: removes the id from the favourites if it
        is there, adds it otherwise. */
    method ToggleFavorite(uid: string, contentId: string) returns (r: Result<Action>)
      requires Valid()
      modifies this
      ensures Valid()
      ensures connected == old(connected) && content == old(content)
      ensures !connected ==> r == Err(ServerError) && profiles == old(profiles)
      ensures connected && uid !in old(profiles) ==> r == Err(NotFound) && profiles == old(profiles)
      ensures connected && uid in old(profiles) ==>
        var p := old(profiles)[uid];
        var (favorites, action) := Toggle(p.favorites, contentId);
        r == Ok(action) && profiles == old(profiles)[uid := p.(favorites := favorites)]
    {
      if !connected {
        return Err(ServerError);
      }
      if uid !in profiles {
        return Err(NotFound);
      }
      var favs := profiles[uid].favorites;
      var action;
      if contentId in favs {
        favs := favs - {contentId};
        action := Removed;
      } else {
        favs := favs + {contentId};
        action := Added;
      }
      profiles := profiles[uid := profiles[uid].(favorites := favs)];
      r := Ok(action);
    }

    /** `POST /api/users/{uid}/history`: overwrites the progress of the first
        entry for the same content, or appends the entry. */
    method UpdateHistory(uid: string, entry: WatchEntry) returns (r: Result<()>)
      requires Valid()
      modifies this
      ensures Valid()
      ensures connected == old(connected) && content == old(content)
      ensures !ProgressInRange(entry) ==> r == Err(InvalidInput) && profiles == old(profiles)
      ensures ProgressInRange(entry) && !connected ==> r == Err(ServerError) && profiles == old(profiles)
      ensures ProgressInRange(entry) && connected && uid !in old(profiles) ==>
        r == Err(NotFound) && profiles == old(profiles)
      ensures ProgressInRange(entry) && connected && uid in old(profiles) ==>
        var p := old(profiles)[uid];
        r == Ok(()) && profiles == old(profiles)[uid := p.(history := Upsert(p.history, entry))]
    {
      if !ProgressInRange(entry) {
        return Err(InvalidInput);
      }
      if !connected {
        return Err(ServerError);
      }
      if uid !in profiles {
        return Err(NotFound);
      }
      var history := profiles[uid].history;
      var found := false;
      var i := 0;
      while i < |history|
        invariant 0 <= i <= |history|
        invariant history == profiles[uid].history
        invariant forall k :: 0 <= k < i ==> history[k].contentId != entry.contentId
      {
        if history[i].contentId == entry.contentId {
          UpsertOverwrites(history, entry, i);
          history := history[i := history[i].(progress := entry.progress)];
          found := true;
          break;
        }
        i := i + 1;
      }
      if !found {
        UpsertAppends(history, entry);
        history := history + [entry];
      }
      UpsertKeepsKeyedUnique(profiles[uid].history, entry);
      profiles := profiles[uid := profiles[uid].(history := history)];
      r := Ok(());
    }

    /** The filter `recommendations` builds: published content, narrowed to the
        genres of the user's valid favourites when there are any. */
    method InterestFilter(uid: Option<string>) returns (filt: Filter)
      ensures filt == RecommendationFilter(Interest(content, profiles, uid))
    {
      filt := map["is_published" := Eq(Bool(true))];
      if Given(uid) {
        var favs := if uid.value in profiles then profiles[uid.value].favorites else {};
        if favs != {} {
          var favDocs := Find(content, IdsFilter(FavoriteIds(favs)));
          var genres := CollectGenres(favDocs);
          if genres != {} {
            filt := filt["genres" := In(genres)];
          }
        }
      }
    }

    /** `GET /api/recommendations`: published content sharing a genre with the
        user's favourites, most recent first; the plain published listing when
        there is no such genre.  A limit too wide for the driver is a server error. */
    method Recommendations(uid: Option<string>, limit: int, show: Value -> string) returns (r: Result<seq<Doc>>)
      ensures !connected ==> r == Ok([])
      ensures connected && !Encodable(limit) ==> r == Err(ServerError)
      ensures connected && Encodable(limit) ==>
        r == Ok(Listing(content, RecommendationFilter(Interest(content, profiles, uid)), 0, limit, show))
      ensures connected && Encodable(limit) && Interest(content, profiles, uid) == {} ==>
        r == Ok(Listing(content, CatalogFilter(None, None, None), 0, limit, show))
      ensures r.Ok? ==> (limit != 0 ==> |r.value| <= Abs(limit)) && ByRecency(r.value)
      ensures r.Ok? ==> forall i :: 0 <= i < |r.value| ==> Holds(Eq(Bool(true)), Get(r.value[i], "is_published"))
      ensures r.Ok? && Interest(content, profiles, uid) != {} ==>
        forall i :: 0 <= i < |r.value| ==> Holds(In(Interest(content, profiles, uid)), Get(r.value[i], "genres"))
    {
      if !connected {
        return Ok([]);
      }
      var filt := InterestFilter(uid);
      if !Encodable(limit) {
        return Err(ServerError);
      }
      ListingSound(content, filt, 0, limit, show);
      r := Ok(Listing(content, filt, 0, limit, show));
    }

    /** `GET /api/admin/metrics`: all zeros without a database. */
    method AdminMetrics() returns (m: Metrics)
      ensures !connected ==> m == Metrics(0, 0, 0)
      ensures connected ==> m == Metrics(|content|, |profiles|, TotalFavorites(profiles))
    {
      if !connected {
        return Metrics(0, 0, 0);
      }
      var favs := 0;
      var rest := profiles.Keys;
      while rest != {}
        invariant rest <= profiles.Keys
        invariant favs + SumFavorites(profiles, rest) == TotalFavorites(profiles)
        decreases rest
      {
        var u :| u in rest;
        SumFavoritesRemove(profiles, rest, u);
        favs := favs + |profiles[u].favorites|;
        rest := rest - {u};
      }
      m := Metrics(|content|, |profiles|, favs);
    }
  }
}
