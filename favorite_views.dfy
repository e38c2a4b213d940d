/** The favorites pages of apps/views/favorite.py: the list of a profile's favorites, newest
    first, and the removal of one favorite by its id and owner. */
module FavoriteViews {
  import opened Common
  import opened Sorting
  import opened Favorites
  import opened Exercises

  /** The tables the favorites pages read and write: favorites, collections, and the keys of the
      profiles and exercises they point at. */
  class FavoriteDb {
    var favorites: map<nat, Favorite>
    var collections: map<nat, Collection>
    var profiles: set<nat>
    var exercises: map<nat, Exercise>

    ghost predicate Valid()
      reads this
    {
      && TablesValid(favorites, collections, profiles, exercises.Keys)
      && forall k :: k in exercises ==> exercises[k].id == k
    }

    constructor ()
      ensures Valid()
      ensures favorites == map[] && collections == map[] && profiles == {} && exercises == map[]
    {
      favorites := map[];
      collections := map[];
      profiles := {};
      exercises := map[];
    }
  }

  // ===== the favorites list =====

  /** One entry of the `favorites` list the page renders. */
  datatype FavoriteItem = FavoriteItem(
    id: nat, title: string, thumbnailUrl: string, muscleGroup: string, difficulty: string,
    equipment: string, exerciseId: nat)

  function ItemOf(f: Favorite, e: Exercise): FavoriteItem {
    FavoriteItem(f.id, e.name, e.thumbnail.GetOr(""), e.muscleGroup, e.difficulty, e.equipment, f.exercise)
  }

  function FavoriteId(f: Favorite): nat {
    f.id
  }

  function IdsOf(rows: seq<Favorite>): set<nat> {
    set i | 0 <= i < |rows| :: rows[i].id
  }

  function ItemIds(items: seq<FavoriteItem>): set<nat> {
    set i | 0 <= i < |items| :: items[i].id
  }

  lemma IdsOfAppend(rows: seq<Favorite>, f: Favorite)
    ensures IdsOf(rows + [f]) == IdsOf(rows) + {f.id}
  {
    var r := rows + [f];
    forall k | k in IdsOf(rows) ensures k in IdsOf(r) {
      var i :| 0 <= i < |rows| && rows[i].id == k;
      assert r[i].id == k;
    }
    assert r[|rows|].id == f.id;
  }

  /** `Favorite.objects.filter(user=profile)`: the profile's rows, each once, in no particular
      order yet. */
  method ProfileFavorites(db: FavoriteDb, p: nat) returns (rows: seq<Favorite>)
    requires db.Valid()
    ensures forall i :: 0 <= i < |rows| ==>
      rows[i].id in db.favorites && db.favorites[rows[i].id] == rows[i] && rows[i].user == p
    ensures forall k :: k in db.favorites && db.favorites[k].user == p ==> k in IdsOf(rows)
    ensures DistinctBy(rows, FavoriteId)
  {
    var mine := set k | k in db.favorites && db.favorites[k].user == p;
    var left := mine;
    rows := [];
    while left != {}
      invariant left <= mine
      invariant forall i :: 0 <= i < |rows| ==>
        rows[i].id in mine - left && db.favorites[rows[i].id] == rows[i] && rows[i].user == p
      invariant IdsOf(rows) == mine - left
      invariant DistinctBy(rows, FavoriteId)
      decreases left
    {
      var k :| k in left;
      assert db.favorites[k].id == k;
      IdsOfAppend(rows, db.favorites[k]);
      rows := rows + [db.favorites[k]];
      left := left - {k};
    }
  }

  /** The rows whose exercise exists (`if obj:`), in the order given. */
  function Kept(rows: seq<Favorite>, exercises: map<nat, Exercise>): (r: seq<Favorite>)
    ensures forall f :: f in r <==> f in rows && f.exercise in exercises
    ensures forall i :: 0 <= i < |r| ==> r[i].exercise in exercises
  {
    if rows == [] then []
    else
      var last := rows[|rows| - 1];
      var init := rows[..|rows| - 1];
      assert rows == init + [last];
      Kept(init, exercises) + if last.exercise in exercises then [last] else []
  }

  lemma {:induction false} KeptSorted(rows: seq<Favorite>, exercises: map<nat, Exercise>)
    requires SortedBy(rows, FavoriteNewerFirst)
    ensures SortedBy(Kept(rows, exercises), FavoriteNewerFirst)
  {
    if rows != [] {
      var last := rows[|rows| - 1];
      var init := rows[..|rows| - 1];
      KeptSorted(init, exercises);
      var k := Kept(init, exercises);
      forall i | 0 <= i < |k|
        ensures FavoriteNewerFirst(k[i], last)
      {
        assert k[i] in init;
        var j :| 0 <= j < |init| && init[j] == k[i];
        assert rows[j] == k[i];
      }
    }
  }

  lemma {:induction false} KeptDistinct(rows: seq<Favorite>, exercises: map<nat, Exercise>)
    requires DistinctBy(rows, FavoriteId)
    ensures DistinctBy(Kept(rows, exercises), FavoriteId)
  {
    if rows != [] {
      var last := rows[|rows| - 1];
      var init := rows[..|rows| - 1];
      KeptDistinct(init, exercises);
      var k := Kept(init, exercises);
      forall i | 0 <= i < |k|
        ensures FavoriteId(k[i]) != FavoriteId(last)
      {
        assert k[i] in init;
        var j :| 0 <= j < |init| && init[j] == k[i];
        assert rows[j] == k[i];
      }
    }
  }

  function ItemsOf(kept: seq<Favorite>, exercises: map<nat, Exercise>): (items: seq<FavoriteItem>)
    requires forall i :: 0 <= i < |kept| ==> kept[i].exercise in exercises
    ensures |items| == |kept|
    ensures forall i :: 0 <= i < |kept| ==> items[i].id == kept[i].id
  {
    seq(|kept|, i requires 0 <= i < |kept| => ItemOf(kept[i], exercises[kept[i].exercise]))
  }

  lemma ItemsOfAppend(kept: seq<Favorite>, f: Favorite, exercises: map<nat, Exercise>)
    requires forall i :: 0 <= i < |kept| ==> kept[i].exercise in exercises
    requires f.exercise in exercises
    ensures ItemsOf(kept + [f], exercises) == ItemsOf(kept, exercises) + [ItemOf(f, exercises[f.exercise])]
  {
  }

  lemma KeptPrefix(rows: seq<Favorite>, i: nat, exercises: map<nat, Exercise>)
    requires i < |rows|
    ensures Kept(rows[..i + 1], exercises) ==
      Kept(rows[..i], exercises) + if rows[i].exercise in exercises then [rows[i]] else []
  {
    assert rows[..i + 1][..i] == rows[..i];
  }

  /** What the favorites page lists for profile `p`: each of the profile's favorites whose
      exercise exists, once, rendered from its own row and exercise, newest first. */
  ghost predicate ListsFavorites(favorites: map<nat, Favorite>, exercises: map<nat, Exercise>, p: nat,
                                 items: seq<FavoriteItem>) {
    && (forall i :: 0 <= i < |items| ==>
          && items[i].id in favorites && favorites[items[i].id].user == p
          && favorites[items[i].id].exercise in exercises
          && items[i] == ItemOf(favorites[items[i].id], exercises[favorites[items[i].id].exercise]))
    && (forall k :: k in favorites && favorites[k].user == p && favorites[k].exercise in exercises
                    <==> k in ItemIds(items))
    && (forall i, j :: 0 <= i < j < |items| ==> items[i].id != items[j].id)
    && (forall i, j :: 0 <= i < j < |items| ==>
          favorites[items[i].id].createdAt >= favorites[items[j].id].createdAt)
  }

  /** Every kept row is one of the profile's rows of the table. */
  lemma KeptRowsOwn(favorites: map<nat, Favorite>, exercises: map<nat, Exercise>, p: nat,
                    rows: seq<Favorite>, ordered: seq<Favorite>)
    requires forall i :: 0 <= i < |rows| ==>
      rows[i].id in favorites && favorites[rows[i].id] == rows[i] && rows[i].user == p
    requires multiset(ordered) == multiset(rows)
    ensures forall i :: 0 <= i < |Kept(ordered, exercises)| ==>
      var f := Kept(ordered, exercises)[i];
      f.id in favorites && favorites[f.id] == f && f.user == p
  {
    var kept := Kept(ordered, exercises);
    forall i | 0 <= i < |kept|
      ensures kept[i].id in favorites && favorites[kept[i].id] == kept[i] && kept[i].user == p
    {
      assert kept[i] in ordered;
      assert kept[i] in multiset(rows);
    }
  }

  /** Every row of the profile whose exercise exists is kept. */
  lemma KeptComplete(favorites: map<nat, Favorite>, exercises: map<nat, Exercise>, p: nat,
                     rows: seq<Favorite>, ordered: seq<Favorite>)
    requires forall i :: 0 <= i < |rows| ==>
      rows[i].id in favorites && favorites[rows[i].id] == rows[i] && rows[i].user == p
    requires forall k :: k in favorites && favorites[k].user == p ==> k in IdsOf(rows)
    requires multiset(ordered) == multiset(rows)
    ensures forall k :: k in favorites && favorites[k].user == p && favorites[k].exercise in exercises ==>
      k in IdsOf(Kept(ordered, exercises))
  {
    var kept := Kept(ordered, exercises);
    forall k | k in favorites && favorites[k].user == p && favorites[k].exercise in exercises
      ensures k in IdsOf(kept)
    {
      var i :| 0 <= i < |rows| && rows[i].id == k;
      assert rows[i] in multiset(ordered);
      assert rows[i] in kept;
      var j :| 0 <= j < |kept| && kept[j] == rows[i];
    }
  }

  /** The page's loop over the sorted rows lists exactly the profile's favorites. */
  lemma ListedItems(favorites: map<nat, Favorite>, exercises: map<nat, Exercise>, p: nat,
                    rows: seq<Favorite>, ordered: seq<Favorite>)
    requires forall i :: 0 <= i < |rows| ==>
      rows[i].id in favorites && favorites[rows[i].id] == rows[i] && rows[i].user == p
    requires forall k :: k in favorites && favorites[k].user == p ==> k in IdsOf(rows)
    requires DistinctBy(rows, FavoriteId)
    requires ordered == FavoritesInOrder(rows)
    ensures ListsFavorites(favorites, exercises, p, ItemsOf(Kept(ordered, exercises), exercises))
  {
    KeptRowsOwn(favorites, exercises, p, rows, ordered);
    KeptComplete(favorites, exercises, p, rows, ordered);
    PermutationKeepsDistinct(ordered, rows, FavoriteId);
    KeptDistinct(ordered, exercises);
    KeptSorted(ordered, exercises);
    ItemsListFavorites(favorites, exercises, p, Kept(ordered, exercises));
  }

  /** Rendering the profile's rows, each once and newest first, gives the page's list. */
  lemma ItemsListFavorites(favorites: map<nat, Favorite>, exercises: map<nat, Exercise>, p: nat,
                           kept: seq<Favorite>)
    requires forall i :: 0 <= i < |kept| ==> kept[i].exercise in exercises
    requires forall i :: 0 <= i < |kept| ==>
      kept[i].id in favorites && favorites[kept[i].id] == kept[i] && kept[i].user == p
    requires forall k :: k in favorites && favorites[k].user == p && favorites[k].exercise in exercises ==>
      k in IdsOf(kept)
    requires DistinctBy(kept, FavoriteId)
    requires SortedBy(kept, FavoriteNewerFirst)
    ensures ListsFavorites(favorites, exercises, p, ItemsOf(kept, exercises))
  {
    var items := ItemsOf(kept, exercises);
    assert ItemIds(items) == IdsOf(kept) by {
      forall k | k in IdsOf(kept) ensures k in ItemIds(items) {
        var i :| 0 <= i < |kept| && kept[i].id == k;
        assert items[i].id == k;
      }
    }
    forall i, j | 0 <= i < j < |items|
      ensures favorites[items[i].id].createdAt >= favorites[items[j].id].createdAt
    {
      assert FavoriteNewerFirst(kept[i], kept[j]);
    }
    forall i, j | 0 <= i < j < |items|
      ensures items[i].id != items[j].id
    {
      assert FavoriteId(kept[i]) != FavoriteId(kept[j]);
    }
  }

  /** The page's loop: an entry for every row whose exercise exists, in the rows' order. */
  method RenderItems(ordered: seq<Favorite>, exercises: map<nat, Exercise>) returns (items: seq<FavoriteItem>)
    ensures items == ItemsOf(Kept(ordered, exercises), exercises)
  {
    items := [];
    var i := 0;
    while i < |ordered|
      invariant 0 <= i <= |ordered|
      invariant items == ItemsOf(Kept(ordered[..i], exercises), exercises)
    {
      var f := ordered[i];
      KeptPrefix(ordered, i, exercises);
      if f.exercise in exercises {
        ItemsOfAppend(Kept(ordered[..i], exercises), f, exercises);
        items := items + [ItemOf(f, exercises[f.exercise])];
      }
      i := i + 1;
    }
    assert ordered[..|ordered|] == ordered;
  }

  /** The favorites page: its items and `total_count`, or the `RelatedObjectDoesNotExist` that
      `request.user.profile` raises for an account without a profile (Django answers 500). */
  datatype FavoritesPage = Listed(items: seq<FavoriteItem>, total: nat) | NoProfile

  /** The favorites page of the logged-in account, whose profile is `profile` (`None` when it has
      none): the profile's favorites with their exercise, newest first, and `total_count`. */
  method FavoritesList(db: FavoriteDb, profile: Option<nat>) returns (page: FavoritesPage)
    requires db.Valid()
    ensures page == NoProfile <==> profile.None?
    ensures page.Listed? ==> page.total == |page.items|
    ensures page.Listed? ==> ListsFavorites(db.favorites, db.exercises, profile.value, page.items)
  {
    if profile.None? {
      return NoProfile;
    }
    var p := profile.value;
    var rows := ProfileFavorites(db, p);
    var ordered := FavoritesInOrder(rows);
    var items := RenderItems(ordered, db.exercises);
    ListedItems(db.favorites, db.exercises, p, rows, ordered);
    page := Listed(items, |items|);
  }

  // ===== removing a favorite =====

  /** What the view filters `Favorite.user` with: a profile, as the column expects, or the
      logged-in account, which is what the view passes. */
  datatype Owner = Profile(profile: nat) | Account(account: nat)

  datatype RemoveReply = Removed | NotFound | Raised(exception: string)

  /** `Favorite.objects.get(id=..., user=owner)` and the delete: filtering the profile column
      with an account raises `ValueError`; otherwise the row with that id and owner is deleted,
      or there is none and the reply is 404. */
  function Removal(favorites: map<nat, Favorite>, favoriteId: nat, owner: Owner)
    : (r: (RemoveReply, map<nat, Favorite>))
    ensures owner.Account? <==> r.0 == Raised("ValueError")
    ensures r.0 == Removed <==>
      owner.Profile? && favoriteId in favorites && favorites[favoriteId].user == owner.profile
    ensures r.0 == Removed ==> r.1.Keys == favorites.Keys - {favoriteId}
    ensures r.0 != Removed ==> r.1 == favorites
    ensures forall k :: k in r.1 ==> k in favorites && r.1[k] == favorites[k]
  {
    match owner
    case Account(_) => (Raised("ValueError"), favorites)
    case Profile(p) =>
      if favoriteId in favorites && favorites[favoriteId].user == p
      then (Removed, favorites - {favoriteId})
      else (NotFound, favorites)
  }

  /** Removing a favorite keeps the tables valid; nothing points at a favorite. */
  lemma RemovalValid(favorites: map<nat, Favorite>, collections: map<nat, Collection>,
                     profiles: set<nat>, exercises: set<nat>, favoriteId: nat, owner: Owner)
    requires TablesValid(favorites, collections, profiles, exercises)
    ensures TablesValid(Removal(favorites, favoriteId, owner).1, collections, profiles, exercises)
  {
    FavoritesSubtable(favorites, Removal(favorites, favoriteId, owner).1);
  }

  /** `RemoveFavoriteView.delete` for the owner value it is given. */
  method Delete(db: FavoriteDb, favoriteId: nat, owner: Owner) returns (r: RemoveReply)
    requires db.Valid()
    modifies db
    ensures (r, db.favorites) == Removal(old(db.favorites), favoriteId, owner)
    ensures db.collections == old(db.collections) && db.profiles == old(db.profiles)
    ensures db.exercises == old(db.exercises)
    ensures db.Valid()
  {
    RemovalValid(db.favorites, db.collections, db.profiles, db.exercises.Keys, favoriteId, owner);
    if owner.Account? {
      r := Raised("ValueError");
    } else if favoriteId in db.favorites && db.favorites[favoriteId].user == owner.profile {
      db.favorites := db.favorites - {favoriteId};
      r := Removed;
    } else {
      r := NotFound;
    }
  }

  /** The view as written passes the logged-in account as the owner, so every request raises and
      no favorite is ever removed. */
  method RemoveFavoriteAsWritten(db: FavoriteDb, favoriteId: nat, account: nat) returns (r: RemoveReply)
    requires db.Valid()
    modifies db
    ensures r == Raised("ValueError")
    ensures db.favorites == old(db.favorites) && db.collections == old(db.collections)
    ensures db.Valid()
  {
    r := Delete(db, favoriteId, Account(account));
  }

  /** `post` answers as `delete` does. */
  method RemoveFavoritePost(db: FavoriteDb, favoriteId: nat, account: nat) returns (r: RemoveReply)
    requires db.Valid()
    modifies db
    ensures (r, db.favorites) == Removal(old(db.favorites), favoriteId, Account(account))
    ensures db.Valid()
  {
    r := RemoveFavoriteAsWritten(db, favoriteId, account);
  }

  /** A concrete case: profile 7 of account 3 owns favorite 1, and asking to remove it raises
      instead of removing it. */
  lemma AsWrittenKeepsOwnFavorite()
    ensures var favorites := map[1 := Favorite(1, 7, 5, None, None, 0)];
      && Removal(favorites, 1, Account(3)).0 == Raised("ValueError")
      && 1 in Removal(favorites, 1, Account(3)).1
      && Removal(favorites, 1, Profile(7)).0 == Removed
  {
  }

  /** The removal with the owner the column expects, the requesting account's profile: exactly
      the row with that id and owner goes, or the reply is 404 and nothing changes. */
  method RemoveFavorite(db: FavoriteDb, favoriteId: nat, profile: nat) returns (r: RemoveReply)
    requires db.Valid()
    modifies db
    ensures r == Removed <==> favoriteId in old(db.favorites) && old(db.favorites)[favoriteId].user == profile
    ensures r == Removed ==> db.favorites == old(db.favorites) - {favoriteId}
    ensures r != Removed ==> r == NotFound && db.favorites == old(db.favorites)
    ensures db.collections == old(db.collections) && db.Valid()
  {
    r := Delete(db, favoriteId, Profile(profile));
  }
}
