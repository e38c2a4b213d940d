/** The favorite tables of apps/models/favorites.py: a user profile's favorite exercises and its
    named collections of exercises, with the uniqueness rules the tables declare and what the
    database does to them when a collection, a profile or an exercise is deleted. */
module Favorites {
  import opened Common
  import opened Sorting

  /** A `Favorite` row: a profile's favorite exercise, optionally filed in one of the
      collections. */
  datatype Favorite = Favorite(
    id: nat, user: nat, exercise: nat, collection: Option<nat>, notes: Option<string>, createdAt: int)

  /** A `FavoriteCollection` row with its many-to-many set of exercises. */
  datatype Collection = Collection(
    id: nat, user: nat, name: string, description: Option<string>, exercises: set<nat>, createdAt: int)

  /** `unique_together = ('user', 'exercise')`, with every row stored under its own key. */
  predicate UniqueFavorites(favorites: map<nat, Favorite>) {
    && (forall k :: k in favorites ==> favorites[k].id == k)
    && forall a, b :: a in favorites && b in favorites && a != b ==>
         (favorites[a].user, favorites[a].exercise) != (favorites[b].user, favorites[b].exercise)
  }

  /** `unique_together = ['user', 'name']`, with every row stored under its own key. */
  predicate UniqueCollectionNames(collections: map<nat, Collection>) {
    && (forall k :: k in collections ==> collections[k].id == k)
    && forall a, b :: a in collections && b in collections && a != b ==>
         (collections[a].user, collections[a].name) != (collections[b].user, collections[b].name)
  }

  /** Both uniqueness rules, and every foreign key pointing at an existing row: a favorite at its
      profile, its exercise and its collection, a collection at its profile and its exercises. */
  predicate TablesValid(favorites: map<nat, Favorite>, collections: map<nat, Collection>,
                        profiles: set<nat>, exercises: set<nat>) {
    && UniqueFavorites(favorites)
    && UniqueCollectionNames(collections)
    && (forall k :: k in favorites ==>
          && favorites[k].user in profiles && favorites[k].exercise in exercises
          && (favorites[k].collection.Some? ==> favorites[k].collection.value in collections))
    && (forall k :: k in collections ==>
          collections[k].user in profiles && collections[k].exercises <= exercises)
  }

  /** The keys of the favorites of `user` for `exercise`. */
  function FavoritesFor(favorites: map<nat, Favorite>, user: nat, exercise: nat): (ks: set<nat>)
    ensures forall k :: k in ks <==> k in favorites && favorites[k].user == user && favorites[k].exercise == exercise
  {
    set k | k in favorites && favorites[k].user == user && favorites[k].exercise == exercise
  }

  /** A profile has at most one favorite per exercise. */
  lemma AtMostOneFavorite(favorites: map<nat, Favorite>, user: nat, exercise: nat)
    requires UniqueFavorites(favorites)
    ensures |FavoritesFor(favorites, user, exercise)| <= 1
  {
    var ks := FavoritesFor(favorites, user, exercise);
    if ks != {} {
      var a :| a in ks;
      assert ks == {a} by {
        forall b | b in ks ensures b == a {}
      }
    }
  }

  /** The exercises `user` has marked as favorite. */
  function FavoriteExercises(favorites: map<nat, Favorite>, user: nat): (es: set<nat>)
    ensures forall e :: e in es <==> exists k :: k in favorites && favorites[k].user == user && favorites[k].exercise == e
  {
    set k | k in favorites && favorites[k].user == user :: favorites[k].exercise
  }

  /** `exercise_count`: how many exercises the collection holds. */
  function ExerciseCount(c: Collection): (n: nat)
    ensures n == 0 <==> c.exercises == {}
  {
    |c.exercises|
  }

  // ===== delete rules =====

  /** Keeping some favorites, possibly with their collection changed, keeps them unique. */
  lemma FavoritesSubtable(favorites: map<nat, Favorite>, r: map<nat, Favorite>)
    requires UniqueFavorites(favorites)
    requires forall k :: k in r ==>
      k in favorites && r[k].id == k && r[k].user == favorites[k].user && r[k].exercise == favorites[k].exercise
    ensures UniqueFavorites(r)
  {
    forall a, b | a in r && b in r && a != b
      ensures (r[a].user, r[a].exercise) != (r[b].user, r[b].exercise)
    {
      assert (favorites[a].user, favorites[a].exercise) != (favorites[b].user, favorites[b].exercise);
    }
  }

  /** Deleting collection `c` (`on_delete=SET_NULL`): the favorites filed in it stay, with their
      collection cleared; nothing else changes. */
  function CollectionDeleted(favorites: map<nat, Favorite>, c: nat): (r: map<nat, Favorite>)
    ensures r.Keys == favorites.Keys
    ensures forall k :: k in r ==>
      r[k] == if favorites[k].collection == Some(c) then favorites[k].(collection := None) else favorites[k]
  {
    map k | k in favorites :: if favorites[k].collection == Some(c) then favorites[k].(collection := None) else favorites[k]
  }

  /** Deleting a collection keeps every favorite and the tables valid. */
  lemma CollectionDeletedValid(favorites: map<nat, Favorite>, collections: map<nat, Collection>,
                               profiles: set<nat>, exercises: set<nat>, c: nat)
    requires TablesValid(favorites, collections, profiles, exercises)
    ensures TablesValid(CollectionDeleted(favorites, c), collections - {c}, profiles, exercises)
    ensures forall k :: k in CollectionDeleted(favorites, c) ==> CollectionDeleted(favorites, c)[k].collection != Some(c)
  {
    FavoritesSubtable(favorites, CollectionDeleted(favorites, c));
  }

  /** Deleting profile `p` (`CASCADE`): its favorites and its collections go, and the favorites of
      other profiles filed in one of its collections keep their row with the collection
      cleared. */
  function ProfileDeleted(favorites: map<nat, Favorite>, collections: map<nat, Collection>, p: nat)
    : (r: (map<nat, Favorite>, map<nat, Collection>))
    ensures forall k :: k in r.0 <==> k in favorites && favorites[k].user != p
    ensures forall k :: k in r.1 <==> k in collections && collections[k].user != p
    ensures forall k :: k in r.0 ==>
      var f := favorites[k];
      r.0[k] == if f.collection.Some? && f.collection.value in collections && collections[f.collection.value].user == p
                then f.(collection := None) else f
    ensures forall k :: k in r.1 ==> r.1[k] == collections[k]
  {
    var gone := set k | k in collections && collections[k].user == p;
    var kept := map k | k in favorites && favorites[k].user != p ::
      if favorites[k].collection.Some? && favorites[k].collection.value in gone
      then favorites[k].(collection := None) else favorites[k];
    (kept, map k | k in collections && collections[k].user != p :: collections[k])
  }

  lemma ProfileDeletedValid(favorites: map<nat, Favorite>, collections: map<nat, Collection>,
                            profiles: set<nat>, exercises: set<nat>, p: nat)
    requires TablesValid(favorites, collections, profiles, exercises)
    ensures var r := ProfileDeleted(favorites, collections, p);
      && TablesValid(r.0, r.1, profiles - {p}, exercises)
      && (forall k :: k in r.0 ==> r.0[k].user != p)
      && (forall k :: k in r.1 ==> r.1[k].user != p)
  {
    var r := ProfileDeleted(favorites, collections, p);
    FavoritesSubtable(favorites, r.0);
    forall k | k in r.0 && r.0[k].collection.Some?
      ensures r.0[k].collection.value in r.1
    {
      var c := favorites[k].collection.value;
      assert c in collections && collections[c].user != p;
    }
  }

  /** Deleting exercise `e` (`CASCADE`): its favorites go, and it leaves every collection, whose
      other members stay. */
  function ExerciseDeleted(favorites: map<nat, Favorite>, collections: map<nat, Collection>, e: nat)
    : (r: (map<nat, Favorite>, map<nat, Collection>))
    ensures forall k :: k in r.0 <==> k in favorites && favorites[k].exercise != e
    ensures forall k :: k in r.0 ==> r.0[k] == favorites[k]
    ensures r.1.Keys == collections.Keys
    ensures forall k :: k in r.1 ==> r.1[k] == collections[k].(exercises := collections[k].exercises - {e})
  {
    (map k | k in favorites && favorites[k].exercise != e :: favorites[k],
     map k | k in collections :: collections[k].(exercises := collections[k].exercises - {e}))
  }

  lemma ExerciseDeletedValid(favorites: map<nat, Favorite>, collections: map<nat, Collection>,
                             profiles: set<nat>, exercises: set<nat>, e: nat)
    requires TablesValid(favorites, collections, profiles, exercises)
    ensures var r := ExerciseDeleted(favorites, collections, e);
      && TablesValid(r.0, r.1, profiles, exercises - {e})
      && (forall k :: k in r.0 ==> r.0[k].exercise != e)
  {
    var r := ExerciseDeleted(favorites, collections, e);
    forall a, b | a in r.1 && b in r.1 && a != b
      ensures (r.1[a].user, r.1[a].name) != (r.1[b].user, r.1[b].name)
    {
      assert (collections[a].user, collections[a].name) != (collections[b].user, collections[b].name);
    }
  }

  /** A collection's count drops by one when one of its exercises is deleted, and stays when
      another exercise is. */
  lemma ExerciseCountAfterDelete(c: Collection, e: nat)
    ensures e in c.exercises ==> ExerciseCount(c.(exercises := c.exercises - {e})) == ExerciseCount(c) - 1
    ensures e !in c.exercises ==> ExerciseCount(c.(exercises := c.exercises - {e})) == ExerciseCount(c)
  {
    if e !in c.exercises {
      assert c.exercises - {e} == c.exercises;
    }
  }

  // ===== ordering =====

  /** `ordering = ['-created_at']`, shared by both tables. */
  predicate FavoriteNewerFirst(a: Favorite, b: Favorite) {
    a.createdAt >= b.createdAt
  }

  predicate CollectionNewerFirst(a: Collection, b: Collection) {
    a.createdAt >= b.createdAt
  }

  /** The rows of a table listed in their declared order. */
  function FavoritesInOrder(rows: seq<Favorite>): (r: seq<Favorite>)
    ensures multiset(r) == multiset(rows)
    ensures SortedBy(r, FavoriteNewerFirst)
  {
    assert TotalPreorder(FavoriteNewerFirst);
    SortBySorted(rows, FavoriteNewerFirst);
    SortBy(rows, FavoriteNewerFirst)
  }

  function CollectionsInOrder(rows: seq<Collection>): (r: seq<Collection>)
    ensures multiset(r) == multiset(rows)
    ensures SortedBy(r, CollectionNewerFirst)
  {
    assert TotalPreorder(CollectionNewerFirst);
    SortBySorted(rows, CollectionNewerFirst);
    SortBy(rows, CollectionNewerFirst)
  }
}
