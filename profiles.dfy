/** User profiles: lazy creation, the favourite toggle, the watch-history upsert
    and the favourites total the admin metrics report. */
module Profiles {
  import opened Bson
  import opened Models

  /** A stored profile; the collection maps each uid to at most one of these. */
  datatype Profile = Profile(
    displayName: Option<string>,
    avatarUrl: Option<string>,
    favorites: set<string>,
    history: seq<WatchEntry>,
    preferences: map<string, Value>)

  /** `UserProfileOut`, the view `get_user` returns. */
  datatype ProfileOut = ProfileOut(
    uid: string,
    displayName: Option<string>,
    avatarUrl: Option<string>,
    favorites: set<string>,
    history: seq<WatchEntry>,
    preferences: map<string, Value>)

  function View(uid: string, p: Profile): ProfileOut
  {
    ProfileOut(uid, p.displayName, p.avatarUrl, p.favorites, p.history, p.preferences)
  }

  /** `UserProfileOut(uid=uid)`: no name or avatar, nothing favourited or watched. */
  const EmptyProfile := Profile(None, None, {}, [], map[])

  /** The profiles after `get_user(uid)`: an absent uid gets an empty profile,
      every stored profile is left as it is. */
  function Provision(profiles: map<string, Profile>, uid: string): (r: map<string, Profile>)
    ensures r.Keys == profiles.Keys + {uid}
    ensures uid !in profiles ==> r[uid] == EmptyProfile
    ensures forall u :: u in profiles ==> r[u] == profiles[u]
  {
    if uid in profiles then profiles else profiles[uid := EmptyProfile]
  }

  /** A second `get_user` changes nothing more. */
  lemma ProvisionIdempotent(profiles: map<string, Profile>, uid: string)
    ensures Provision(Provision(profiles, uid), uid) == Provision(profiles, uid)
  {
  }

  datatype Action = Added | Removed

  /** The favourites after `toggle_favorite`, and the action it reports. */
  function Toggle(favorites: set<string>, contentId: string): (r: (set<string>, Action))
    ensures r.1 == Removed <==> contentId in favorites
    ensures contentId in r.0 <==> r.1 == Added
    ensures r.0 - {contentId} == favorites - {contentId}
  {
    if contentId in favorites then (favorites - {contentId}, Removed)
    else (favorites + {contentId}, Added)
  }

  /** Toggling the same id twice restores the favourites, and the two calls
      report opposite actions. */
  lemma ToggleTwice(favorites: set<string>, contentId: string)
    ensures Toggle(Toggle(favorites, contentId).0, contentId).0 == favorites
    ensures Toggle(Toggle(favorites, contentId).0, contentId).1 != Toggle(favorites, contentId).1
  {
  }

  /** At most one history entry per content id. */
  predicate KeyedUnique(h: seq<WatchEntry>)
  {
    forall i, j :: 0 <= i < j < |h| ==> h[i].contentId != h[j].contentId
  }

  /** The history after `update_history`: the first entry for the same content
      gets the new progress; without one, the entry is appended. */
  function Upsert(h: seq<WatchEntry>, e: WatchEntry): (r: seq<WatchEntry>)
    ensures |h| <= |r| <= |h| + 1
    ensures forall k :: 0 <= k < |h| ==> r[k].contentId == h[k].contentId
    ensures |r| == |h| + 1 ==> r[|h|] == e
  {
    if h == [] then [e]
    else if h[0].contentId == e.contentId then [h[0].(progress := e.progress)] + h[1..]
    else [h[0]] + Upsert(h[1..], e)
  }

  /** With an entry for the content, only the first such entry changes, and only
      in its progress. */
  lemma {:induction false} UpsertOverwrites(h: seq<WatchEntry>, e: WatchEntry, i: nat)
    requires i < |h| && h[i].contentId == e.contentId
    requires forall k :: 0 <= k < i ==> h[k].contentId != e.contentId
    ensures Upsert(h, e) == h[i := h[i].(progress := e.progress)]
  {
    if i > 0 {
      UpsertOverwrites(h[1..], e, i - 1);
      assert h == [h[0]] + h[1..];
    }
  }

  /** Without an entry for the content, the entry goes at the end. */
  lemma {:induction false} UpsertAppends(h: seq<WatchEntry>, e: WatchEntry)
    requires forall k :: 0 <= k < |h| ==> h[k].contentId != e.contentId
    ensures Upsert(h, e) == h + [e]
  {
    if h != [] {
      UpsertAppends(h[1..], e);
      assert h == [h[0]] + h[1..];
    }
  }

  /** After the upsert the history records the entry exactly as given. */
  lemma {:induction false} UpsertRecords(h: seq<WatchEntry>, e: WatchEntry)
    ensures e in Upsert(h, e)
  {
    if h != [] && h[0].contentId != e.contentId {
      UpsertRecords(h[1..], e);
    }
  }

  /** The content ids of the history. */
  function Ids(h: seq<WatchEntry>): set<string>
  {
    set k | 0 <= k < |h| :: h[k].contentId
  }

  /** The upsert adds exactly the entry's content id to the ids present. */
  lemma UpsertIds(h: seq<WatchEntry>, e: WatchEntry)
    ensures Ids(Upsert(h, e)) == Ids(h) + {e.contentId}
  {
    UpsertRecords(h, e);
    IdsKeptPlus(h, Upsert(h, e), e);
  }

  /** A history that keeps every position's content id and may add `e` at the
      end, and that holds `e`, has the old ids plus `e`'s. */
  lemma IdsKeptPlus(h: seq<WatchEntry>, r: seq<WatchEntry>, e: WatchEntry)
    requires |h| <= |r| <= |h| + 1 && e in r
    requires forall k :: 0 <= k < |h| ==> r[k].contentId == h[k].contentId
    requires |r| == |h| + 1 ==> r[|h|] == e
    ensures Ids(r) == Ids(h) + {e.contentId}
  {
    forall x | x in Ids(r) ensures x in Ids(h) + {e.contentId} {
      var k :| 0 <= k < |r| && r[k].contentId == x;
      if k < |h| {
        assert h[k].contentId == x;
      }
    }
    forall x | x in Ids(h) + {e.contentId} ensures x in Ids(r) {
      if x == e.contentId {
        var k :| 0 <= k < |r| && r[k] == e;
      } else {
        var k :| 0 <= k < |h| && h[k].contentId == x;
        assert r[k].contentId == x;
      }
    }
  }

  /** A history keyed by content id stays keyed by content id. */
  lemma UpsertKeepsKeyedUnique(h: seq<WatchEntry>, e: WatchEntry)
    requires KeyedUnique(h)
    ensures KeyedUnique(Upsert(h, e))
  {
    if i :| 0 <= i < |h| && h[i].contentId == e.contentId {
      UpsertOverwrites(h, e, i);
      var r := Upsert(h, e);
      assert forall k :: 0 <= k < |h| ==> r[k].contentId == h[k].contentId;
    } else {
      UpsertAppends(h, e);
      var r := h + [e];
      forall i, j | 0 <= i < j < |r| ensures r[i].contentId != r[j].contentId {
        if j < |h| {
          assert r[i] == h[i] && r[j] == h[j];
        } else {
          assert r[i] == h[i];
        }
      }
    }
  }

  /** Sending the same entry twice leaves the history as sending it once. */
  lemma {:induction false} UpsertIdempotent(h: seq<WatchEntry>, e: WatchEntry)
    ensures Upsert(Upsert(h, e), e) == Upsert(h, e)
  {
    if h != [] && h[0].contentId != e.contentId {
      UpsertIdempotent(h[1..], e);
    }
  }

  /** The sum of the favourites' sizes over the profiles of `uids`. */
  ghost function SumFavorites(profiles: map<string, Profile>, uids: set<string>): (n: nat)
    requires uids <= profiles.Keys
    ensures forall u :: u in uids ==> |profiles[u].favorites| <= n
    ensures (forall u :: u in uids ==> profiles[u].favorites == {}) ==> n == 0
    decreases uids
  {
    if uids == {} then 0
    else
      var u :| u in uids;
      |profiles[u].favorites| + SumFavorites(profiles, uids - {u})
  }

  /** The sum does not depend on the order the profiles are visited in. */
  lemma {:induction false} SumFavoritesRemove(profiles: map<string, Profile>, uids: set<string>, u: string)
    requires uids <= profiles.Keys && u in uids
    ensures SumFavorites(profiles, uids) == |profiles[u].favorites| + SumFavorites(profiles, uids - {u})
    decreases uids
  {
    var w :| w in uids && SumFavorites(profiles, uids) == |profiles[w].favorites| + SumFavorites(profiles, uids - {w});
    if w != u {
      SumFavoritesRemove(profiles, uids - {w}, u);
      SumFavoritesRemove(profiles, uids - {u}, w);
      assert uids - {w} - {u} == uids - {u} - {w};
    }
  }

  /** The favourites total over every stored profile. */
  ghost function TotalFavorites(profiles: map<string, Profile>): (n: nat)
    ensures forall u :: u in profiles ==> |profiles[u].favorites| <= n
    ensures (forall u :: u in profiles ==> profiles[u].favorites == {}) ==> n == 0
  {
    SumFavorites(profiles, profiles.Keys)
  }

  /** The sums agree on two profile collections that differ only at `uid`, apart
      from the favourites of `uid` itself. */
  lemma {:induction false} SumFavoritesUpdate(m: map<string, Profile>, uids: set<string>, uid: string, p: Profile)
    requires uids <= m.Keys && uid in uids
    ensures SumFavorites(m[uid := p], uids) + |m[uid].favorites| == SumFavorites(m, uids) + |p.favorites|
  {
    var n := m[uid := p];
    SumFavoritesRemove(m, uids, uid);
    SumFavoritesRemove(n, uids, uid);
    SumFavoritesSame(m, n, uids - {uid});
  }

  lemma {:induction false} SumFavoritesSame(m: map<string, Profile>, n: map<string, Profile>, uids: set<string>)
    requires uids <= m.Keys && uids <= n.Keys
    requires forall u :: u in uids ==> m[u].favorites == n[u].favorites
    ensures SumFavorites(m, uids) == SumFavorites(n, uids)
    decreases uids
  {
    if uids != {} {
      var u :| u in uids;
      SumFavoritesRemove(m, uids, u);
      SumFavoritesRemove(n, uids, u);
      SumFavoritesSame(m, n, uids - {u});
    }
  }

  /** A toggle moves the favourites total by exactly one, up when it adds. */
  lemma ToggleMovesTotal(profiles: map<string, Profile>, uid: string, contentId: string)
    requires uid in profiles
    ensures var (favs, action) := Toggle(profiles[uid].favorites, contentId);
      TotalFavorites(profiles[uid := profiles[uid].(favorites := favs)]) ==
        if action == Added then TotalFavorites(profiles) + 1 else TotalFavorites(profiles) - 1
  {
    var (favs, action) := Toggle(profiles[uid].favorites, contentId);
    var next := profiles[uid := profiles[uid].(favorites := favs)];
    assert next.Keys == profiles.Keys;
    SumFavoritesUpdate(profiles, profiles.Keys, uid, profiles[uid].(favorites := favs));
    SumFavoritesRemove(profiles, profiles.Keys, uid);
  }
}
