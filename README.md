# OTT streaming catalogue backend — a Dafny model

This project models the request handlers of a video-streaming catalogue API
(`main.py`): listing and searching published content, creating, fetching and
deleting content, lazily created user profiles with a favourite toggle and a
watch-history upsert, genre-based recommendations, and the admin metrics.

The document store is abstract state in the class `Service.Store`:

- `content`: the content collection, a sequence of documents in store order;
- `profiles`: the profile collection, a map from uid to profile;
- `connected`: false when no database is configured (`db is None`).

Each handler is a method of `Store` that is proved against specification
functions.

- `Bson` holds the values a document can carry and ObjectId parsing.
- `Query` holds what the store does with a filter, with `sort("created_at", -1)`
  and with `skip` and `limit`. Matching follows the store's rules: an equality or
  `$in` condition also matches an array field that holds a matching element.
- `Models` holds the request models, the error results and `to_id`.
- `Profiles` holds the profile specifications: `Provision`, `Toggle`, `Upsert`
  and `TotalFavorites`.
- `Catalog` holds the filters the handlers build, the listing they return, and
  the genre interest behind recommendations.

Behaviour of the code worth knowing, which the model keeps:

- `list_content` rejects `limit > 100` as invalid input. It does not clamp it.
- A limit of 0 means "no limit", and a negative limit is taken by its
  magnitude. So `limit=0` and `limit=-500` are not held to the cap of 100.
- `recommendations` caps nothing: any limit the driver can encode is used as given.
- A negative `skip` makes the driver raise, which surfaces as a server error.
  So does a `skip`, or the magnitude of a `limit`, of 2^63 or more, because the
  driver cannot encode it as an 8-byte BSON integer. Nothing bounds a negative
  `limit` in `list_content`, or any `limit` in `recommendations`, before that point.
- `create_content` fails with a server error when the payload holds an
  integer outside [-2^63, 2^63). `duration_minutes` has only a lower
  bound, and `metadata` has none, so such a payload passes validation, and the
  driver then cannot encode it.
- An empty `q`, `genre`, `type` or `uid` counts as absent (Python truthiness).
- The genres behind recommendations come from every favourited document,
  published or not. Only the recommended documents must be published.
- A malformed id is reported as not found, on both fetch and delete.

The code sends `q` as a case-insensitive regular expression. The model reads
it as literal text, searched without regard to ASCII case (see
`Query.RegexMatches` under "Left out").

## Model

| member | source | states |
|---|---|---|
| `Models.ToId` | main.py:53-59 | a document without `_id`, the empty one included, comes back unchanged; otherwise `_id` is gone, `id` holds the id as a string, and every other field is unchanged |
| `Models.ToIdIdempotent` | main.py:53-59 | projecting a projected document changes nothing |
| `Models.Project` | main.py:115 | one document per cursor document; none keeps an `_id`; a document that had one carries it as the string `id` and has no other new field; a document without `_id` comes back unchanged; every other field is unchanged |
| `Models.Dump` | main.py:21-36 | the dumped payload has no `_id`, `id` or `created_at`; its title, type, genres and publication flag are the payload's |
| `Models.WellFormed` | main.py:26-32 | a payload that sets no year, rating or duration passes; a year outside 1900..2100, a rating outside 0..10 or a duration under one minute fails |
| `Models.Storable` | main.py:121 | for a payload that passes validation, the driver can store it exactly when the duration and every integer inside `metadata` fit in 8 bytes; a duration of 2^63 cannot be stored |
| `Models.StorableDump` | main.py:121 | a payload is storable exactly when every field of its dumped document encodes |
| `Models.ProgressInRange` | main.py:187 | both ends of [0, 1] pass, and any progress below 0 or above 1 fails |
| `Bson.ParseId` | main.py:129-131 | parsing succeeds exactly for a valid id; the parsed id has the same length and no upper-case digit |
| `Bson.ParseCanonical` | main.py:121-129 | the id text returned on creation parses back to that same id |
| `Bson.ParseIgnoresCase` | main.py:129 | two id strings that differ only in letter case are both rejected or denote the same id |
| `Query.Find` | main.py:114 | every listed document matches the filter, and a document is listed exactly when it is stored and matches |
| `Query.HoldsOnScalars` | main.py:106-113 | an equal value satisfies an equality condition, and for a non-array field only an equal value does; for a non-array field `$in` holds exactly for listed values; an empty `$in` matches nothing |
| `Query.Matches` | main.py:114 | the empty filter matches every document |
| `Query.FindAppend` | main.py:114 | searching a concatenation lists the first part's matches, then the second's |
| `Query.FirstMatch` | main.py:129 | the position found holds a match and no earlier position does; when there is none, no document matches |
| `Query.FirstMatchIsFirstFound` | main.py:129 | `find_one` finds nothing exactly when `find` lists nothing, and otherwise finds the document `find` lists first |
| `Query.DeleteOne` | main.py:141-145 | with no match nothing is deleted and the count is 0; otherwise exactly the first match is removed and the count is 1 |
| `Query.Insert` | main.py:114 | inserting into the sorted run adds exactly that one document |
| `Query.InsertByRecency` | main.py:114 | inserting into a run sorted newest first keeps it sorted |
| `Query.SortByRecency` | main.py:114 | the sorted cursor is newest first and is a permutation of the matches |
| `Query.Page` | main.py:114 | the page is a contiguous run starting at `skip`; it has at most `abs(limit)` documents unless the limit is 0; it stops early only because of the limit |
| `Catalog.CatalogFilter` | main.py:106-113 | the filter always requires publication; it has a title regex, genre or type condition exactly when that parameter is non-empty, and no other field |
| `Catalog.Listing` | main.py:114-115 | the listing is no longer than the collection, within the limit unless it is 0, and no listed document keeps an `_id` |
| `Catalog.ToIdKeepsMatch` | main.py:53-59 | the projection matches a filter that does not mention `_id` or `id` exactly when the stored document does, and keeps the sort key |
| `Catalog.ListingSound` | main.py:114-115 | a listing is within the limit, newest first, and holds only projections of stored documents that match the filter |
| `Catalog.CatalogListingSound` | main.py:104-115 | every listed document is published and satisfies each given title, genre and type condition; the listing is within the limit and newest first |
| `Service.Store.ListContent` | main.py:96-115 | a limit over 100 is rejected; no database gives `[]`; a negative skip, or a skip or limit magnitude of 2^63 or more, is a server error; otherwise the result is the sorted, skipped, limited listing of published matches |
| `Service.Store.CreateContent` | main.py:117-122 | invalid input, a missing database and a payload the driver cannot encode change nothing (the last two are server errors); otherwise the dumped payload is appended with its new id and creation time, and the id is returned |
| `Catalog.StoredProjection` | main.py:121-134 | when `str` of an ObjectId is its hex text, the projection of a created document is the payload plus its creation time and `id` set to the returned id text |
| `Catalog.CreateThenGet` | main.py:117-134 | the id `create_content` returns is one `get_content` accepts; looking it up finds the created document, whose `id` is that same text |
| `Catalog.AppendThenFind` | main.py:121-129 | after a document is appended under a fresh id, looking that id up finds that document |
| `Catalog.CreateThenFind` | main.py:121-129 | after creation under a fresh id, fetching that id finds the new document |
| `Catalog.AppendKeepsDistinct` | main.py:121 | creation under a fresh id keeps the stored ids distinct |
| `Service.Store.GetContent` | main.py:124-134 | no database is a server error; a malformed id or an id with no document is not found; otherwise the result is the projection of the first document with that id |
| `Service.Store.DeleteContent` | main.py:136-146 | no database is a server error; a malformed id is not found; otherwise the first document with that id is removed, and deleting nothing is not found |
| `Catalog.DeleteThenMissing` | main.py:141-145 | after a delete by id the ids stay distinct and no document has the deleted id |
| `Profiles.Provision` | main.py:153-158 | an absent uid gets an empty profile (no favourites, history or preferences); every stored profile is kept as it is |
| `Profiles.ProvisionIdempotent` | main.py:153-158 | a second `get_user` of the same uid changes nothing more |
| `Service.Store.GetUser` | main.py:149-166 | no database is a server error; otherwise the profiles are provisioned for the uid and the stored profile is returned |
| `Profiles.Toggle` | main.py:175-181 | the action is "removed" exactly when the id was a favourite; afterwards the id is a favourite exactly when the action is "added"; no other favourite changes |
| `Profiles.ToggleTwice` | main.py:175-182 | toggling the same id twice restores the favourites, and the two calls report opposite actions |
| `Profiles.ToggleMovesTotal` | main.py:175-182 | a toggle moves the metrics' favourites total up by one on "added" and down by one on "removed" |
| `Service.Store.ToggleFavorite` | main.py:168-183 | no database is a server error; an absent profile is not found and nothing changes; otherwise only that profile's favourites change, to the toggled set, and the action is returned |
| `Profiles.Upsert` | main.py:196-205 | the history keeps its length or grows by one; no existing position changes its content id; a new last entry is the entry sent |
| `Profiles.UpsertOverwrites` | main.py:198-203 | when an entry for the content exists, only the first such entry changes, and only in its progress; the length stays the same |
| `Profiles.UpsertAppends` | main.py:204-205 | when no entry for the content exists, the entry is appended at the end |
| `Profiles.UpsertRecords` | main.py:196-205 | afterwards the history holds the entry as given |
| `Profiles.UpsertIds` | main.py:196-205 | the content ids present grow by exactly the entry's content id |
| `Profiles.UpsertKeepsKeyedUnique` | main.py:196-206 | a history with at most one entry per content id keeps that property |
| `Profiles.UpsertIdempotent` | main.py:196-206 | sending the same entry twice leaves the history as sending it once |
| `Service.Store.UpdateHistory` | main.py:185-207 | progress outside [0, 1] is invalid input; no database is a server error; an absent profile is not found; otherwise only that profile's history changes, to the upserted one |
| `Catalog.FavoriteIds` | main.py:218-220 | every valid favourite contributes its parsed id; every id looked up comes from a valid favourite |
| `Catalog.Tags` | main.py:223 | a list of genres is visited as it is; a string is visited character by character, each as a one-character string; any other field, or none, gives no genres |
| `Catalog.TagsOfStored` | main.py:221-224 | the genres collected from a created document are its payload's genres, in order |
| `Catalog.GenreUnionAll` | main.py:221-224 | the collected genres are exactly the tags some favourited document carries |
| `Catalog.Interest` | main.py:216-224 | a genre is in the interest exactly when a uid is given, it has a profile, and some stored document whose id is one of its valid favourites carries that genre |
| `Catalog.GenreUnionMembers` | main.py:221-224 | a genre is collected exactly when one of the favourited documents carries it |
| `Catalog.RecommendationFilter` | main.py:215-226 | the filter requires publication; with a non-empty interest it also requires a shared genre and has no other field; with an empty interest it is the plain catalogue filter |
| `Catalog.InvalidFavoriteIgnored` | main.py:218-220 | adding a favourite that is not a valid id leaves the genre interest unchanged, even when it is the only favourite |
| `Service.CollectGenres` | main.py:221-224 | the collected genres are exactly the tags carried by some favourited document |
| `Service.Store.InterestFilter` | main.py:215-226 | the filter built step by step is the recommendation filter for the user's genre interest |
| `Service.Store.Recommendations` | main.py:210-228 | no database gives `[]`; a limit magnitude of 2^63 or more is a server error; otherwise every result is published, newest first and within the limit; with a non-empty interest every result shares a genre with it; otherwise the result is the plain published listing |
| `Profiles.SumFavorites` | main.py:237-239 | the sum over a set of profiles is at least each one's favourites count, and 0 when none has a favourite |
| `Profiles.TotalFavorites` | main.py:237-239 | the total over all profiles is at least each profile's favourites count, and 0 when no profile has a favourite |
| `Profiles.SumFavoritesRemove` | main.py:237-239 | the favourites total is the same whichever profile the scan visits first |
| `Profiles.SumFavoritesSame` | main.py:237-239 | two profile collections whose favourites agree on the scanned uids have the same total |
| `Profiles.SumFavoritesUpdate` | main.py:237-239 | replacing one profile changes the total by the difference of its favourites' sizes |
| `Service.Store.AdminMetrics` | main.py:231-240 | no database gives all zeros; otherwise the counts are the number of documents, the number of profiles, and the sum of favourites' sizes over all profiles |
| `Service.Store.constructor` | main.py:8 | a fresh store is empty, valid, and connected or not as given |

## Left out

- HTTP and process plumbing is not modelled: routing, CORS, the `/` and `/test` endpoints and the uvicorn start-up (main.py:10-18, 63-93, 242-245).
- The `database` module and `create_document` are not part of this model. An insertion is an append that adds `_id` and `created_at`. Anything else that helper may add is not modelled.
- The fresh id and the clock reading are parameters (`newId`, `now`). `CreateContent` requires the id to be fresh and in canonical form.
- Python's `str` of a stored id is the parameter `show`, because the model does not define `str` for every value kind. The id round trip (`Catalog.StoredProjection`, `Catalog.CreateThenGet`) assumes only that `show` gives an ObjectId's hex text, which is what `str` does.
- `ObjectId` parsing comes from a foreign library. It is modelled as "24 hexadecimal digits", and the parsed id is the lower-case text.
- `Query.RegexMatches`: the `$regex` title search with option `i` is modelled as a search for the pattern's literal text, ignoring ASCII case. Regular-expression operators and Unicode case folding are not modelled. A `q` that is not a valid regular expression (such as `(`) makes the store raise while the cursor is read, a server error; the model lists the documents whose title contains that text.
- `Query.SortByRecency`: the store's cross-type ordering of `created_at` is not modelled. A value that is not a date sorts as missing, after all dates. Ties keep the store's order, which the store itself does not promise. Every document the model creates has a date.
- `Query.Holds`: the store compares numbers of different kinds by value (1 equals 1.0). The model compares values structurally. No filter the handlers build compares numbers.
- `Catalog.Tags`: a `genres` field holding a dict or a scalar contributes no genres. Python would visit a dict's keys and reject a scalar. Every document the model creates has a list of genres.
- `Query.Find`: its contract does not state that the store's order is kept. The body keeps it, and the listings are stated through this function.
- The handlers' return values are modelled, not the HTTP responses. `response_model=ContentOut` (main.py:96, 124, 210) keeps only the `ContentOut` fields of each returned document, so `created_at` does not reach the client. A stored document that fails `ContentOut` validation (a missing title, say) becomes a server error. Neither step is modelled.
- `Models.Storable` covers only the 8-byte integer bound. Other reasons an insert can fail, such as a document over the 16 MB BSON size limit or a `metadata` key the store refuses, are not modelled.
- Floats (`rating`, `progress`) are opaque `real` values. The code never computes with them.
- Pydantic validation is modelled only for the range checks: year, rating, duration, progress, and `list_content`'s `limit` bound (`le=100`). A wrongly typed request field is not modelled.
- Store faults (a lost connection, a time-out) are not modelled: the modelled store never fails. In the code they surface as a server error, except in `get_content` and `delete_content`. There the `try` around the store call (main.py:128-131, 140-143) catches every exception, so a fault is reported as not found.
- Concurrency is not modelled. Concurrent toggles or history updates race, and the last writer wins. Concurrent `get_user` calls can create two profiles for one uid.
- The map from uid to profile holds one profile per uid, which is what sequential use produces.
- Favourites are a set. The stored list comes from a Python set, so its order is unspecified. Its length equals the set's size.
- Every profile has all its fields, because only `get_user` creates profiles. So the `.get(..., default)` fallbacks in main.py:163-165, 175, 196 and 239 never apply, and `get_user` returns the profile it created without reading it back.
- schemas.py declares models that no handler uses, and it has no logic.
