/** The favorites store (src/utils/favorites.ts): one list of `FavoriteCard`s kept under a
    single storage key and rewritten whole on every change. A favorite is identified by its
    (ayahId, backgroundIndex) pair; its `id` is what removal goes by. */
module Favorites {
  import opened Wrappers

  /** `FavoriteCard` of src/types/index.ts. */
  datatype FavoriteCard = FavoriteCard(id: string, ayahId: int, backgroundIndex: int, fontFamily: string, createdAt: int)

  /** What the storage key holds: nothing yet, something that cannot be read or parsed, or
      a saved list. */
  datatype Slot = Empty | Unreadable | Saved(list: seq<FavoriteCard>)

  predicate SamePair(f: FavoriteCard, ayahId: int, backgroundIndex: int) {
    f.ayahId == ayahId && f.backgroundIndex == backgroundIndex
  }

  /** Some entry of `favs` carries the pair. */
  ghost predicate HasPair(favs: seq<FavoriteCard>, ayahId: int, backgroundIndex: int) {
    exists i :: 0 <= i < |favs| && SamePair(favs[i], ayahId, backgroundIndex)
  }

  /** No two entries share an (ayahId, backgroundIndex) pair. */
  ghost predicate UniquePairs(favs: seq<FavoriteCard>) {
    forall i, j :: 0 <= i < j < |favs| ==> !SamePair(favs[j], favs[i].ayahId, favs[i].backgroundIndex)
  }

  /** Some entry of `favs` carries the id. */
  ghost predicate HasId(favs: seq<FavoriteCard>, id: string) {
    exists i :: 0 <= i < |favs| && favs[i].id == id
  }

  /** The position `favorites.find(f => pair matches)` stops at: the first match. */
  function FindIndex(favs: seq<FavoriteCard>, ayahId: int, backgroundIndex: int): (r: Option<nat>)
    ensures r.None? <==> !HasPair(favs, ayahId, backgroundIndex)
    ensures r.Some? ==> r.value < |favs| && SamePair(favs[r.value], ayahId, backgroundIndex)
    ensures r.Some? ==> forall j :: 0 <= j < r.value ==> !SamePair(favs[j], ayahId, backgroundIndex)
  {
    if |favs| == 0 then None
    else if SamePair(favs[0], ayahId, backgroundIndex) then Some(0)
    else
      match FindIndex(favs[1..], ayahId, backgroundIndex)
      case None =>
        assert forall i :: 1 <= i < |favs| ==> favs[i] == favs[1..][i - 1];
        None
      case Some(k) => Some(k + 1)
  }

  /** `favorites.find(...)`: the first entry with the pair, or `undefined`. */
  function Find(favs: seq<FavoriteCard>, ayahId: int, backgroundIndex: int): (r: Option<FavoriteCard>)
    ensures r.None? <==> !HasPair(favs, ayahId, backgroundIndex)
    ensures r.Some? ==> r.value in favs && SamePair(r.value, ayahId, backgroundIndex)
    ensures r.Some? ==>
      exists k :: 0 <= k < |favs| && favs[k] == r.value && forall j :: 0 <= j < k ==> !SamePair(favs[j], ayahId, backgroundIndex)
  {
    match FindIndex(favs, ayahId, backgroundIndex)
    case None => None
    case Some(k) => Some(favs[k])
  }

  /** `favorites.filter(f => f.id !== id)`. */
  function Removed(favs: seq<FavoriteCard>, id: string): (r: seq<FavoriteCard>)
    ensures |r| <= |favs|
    ensures forall f :: f in r <==> f in favs && f.id != id
    ensures !HasId(favs, id) ==> r == favs
  {
    if |favs| == 0 then []
    else
      var tail := Removed(favs[1..], id);
      assert !HasId(favs, id) ==> !HasId(favs[1..], id) by {
        if HasId(favs[1..], id) {
          var i :| 0 <= i < |favs[1..]| && favs[1..][i].id == id;
          assert favs[i + 1].id == id;
        }
      }
      if favs[0].id == id then tail else [favs[0]] + tail
  }

  /** The list `addFavorite` leaves behind: unchanged when the pair is already stored,
      otherwise the new entry followed by the old ones. */
  function Added(favs: seq<FavoriteCard>, ayahId: int, backgroundIndex: int, fontFamily: string,
                 freshId: string, now: int): (r: seq<FavoriteCard>)
    ensures HasPair(favs, ayahId, backgroundIndex) ==> r == favs
    ensures !HasPair(favs, ayahId, backgroundIndex) ==>
      |r| == |favs| + 1 && r[1..] == favs &&
      r[0] == FavoriteCard(freshId, ayahId, backgroundIndex, fontFamily, now)
  {
    if Find(favs, ayahId, backgroundIndex).Some? then favs
    else [FavoriteCard(freshId, ayahId, backgroundIndex, fontFamily, now)] + favs
  }

  /** The list and flag `toggleFavorite` leaves behind: the stored entry with the pair removed
      by its id (reporting false), or a new entry added (reporting true). */
  function Toggled(favs: seq<FavoriteCard>, ayahId: int, backgroundIndex: int, fontFamily: string,
                   freshId: string, now: int): (r: (seq<FavoriteCard>, bool))
    ensures r.1 <==> !HasPair(favs, ayahId, backgroundIndex)
    ensures r.1 ==> r.0 == Added(favs, ayahId, backgroundIndex, fontFamily, freshId, now)
    ensures !r.1 ==> r.0 == Removed(favs, Find(favs, ayahId, backgroundIndex).value.id)
  {
    match Find(favs, ayahId, backgroundIndex)
    case Some(existing) => (Removed(favs, existing.id), false)
    case None => (Added(favs, ayahId, backgroundIndex, fontFamily, freshId, now), true)
  }

  // ----- properties of the list operations -----

  /** `filter` keeps the order: it distributes over concatenation. */
  lemma {:induction false} RemovedDistributes(a: seq<FavoriteCard>, b: seq<FavoriteCard>, id: string)
    ensures Removed(a + b, id) == Removed(a, id) + Removed(b, id)
    decreases |a|
  {
    if |a| == 0 {
      assert a + b == b;
    } else {
      assert (a + b)[1..] == a[1..] + b;
      RemovedDistributes(a[1..], b, id);
    }
  }

  /** Adding a pair that is already stored changes nothing, whatever font, id and time. */
  lemma AddIdempotent(favs: seq<FavoriteCard>, ayahId: int, backgroundIndex: int,
                      font1: string, id1: string, t1: int, font2: string, id2: string, t2: int)
    ensures var once := Added(favs, ayahId, backgroundIndex, font1, id1, t1);
      Added(once, ayahId, backgroundIndex, font2, id2, t2) == once
  {
    var once := Added(favs, ayahId, backgroundIndex, font1, id1, t1);
    if !HasPair(favs, ayahId, backgroundIndex) {
      assert SamePair(once[0], ayahId, backgroundIndex);
    }
  }

  /** Adding keeps pairs unique. */
  lemma AddedKeepsUnique(favs: seq<FavoriteCard>, ayahId: int, backgroundIndex: int, fontFamily: string,
                         freshId: string, now: int)
    requires UniquePairs(favs)
    ensures UniquePairs(Added(favs, ayahId, backgroundIndex, fontFamily, freshId, now))
  {
    var r := Added(favs, ayahId, backgroundIndex, fontFamily, freshId, now);
    if !HasPair(favs, ayahId, backgroundIndex) {
      forall i, j | 0 <= i < j < |r|
        ensures !SamePair(r[j], r[i].ayahId, r[i].backgroundIndex)
      {
        assert r[j] == favs[j - 1];
        if i > 0 {
          assert r[i] == favs[i - 1];
        }
      }
    }
  }

  /** Removing keeps pairs unique. */
  lemma {:induction false} RemovedKeepsUnique(favs: seq<FavoriteCard>, id: string)
    requires UniquePairs(favs)
    ensures UniquePairs(Removed(favs, id))
    decreases |favs|
  {
    if |favs| > 0 {
      var tail := favs[1..];
      assert UniquePairs(tail) by {
        forall i, j | 0 <= i < j < |tail|
          ensures !SamePair(tail[j], tail[i].ayahId, tail[i].backgroundIndex)
        {
          assert tail[i] == favs[i + 1] && tail[j] == favs[j + 1];
        }
      }
      RemovedKeepsUnique(tail, id);
      var rt := Removed(tail, id);
      if favs[0].id != id {
        var r := [favs[0]] + rt;
        forall i, j | 0 <= i < j < |r|
          ensures !SamePair(r[j], r[i].ayahId, r[i].backgroundIndex)
        {
          if i == 0 {
            assert r[j] in tail;
            var k :| 0 <= k < |tail| && tail[k] == r[j];
            assert favs[k + 1] == r[j];
          } else {
            assert r[i] == rt[i - 1] && r[j] == rt[j - 1];
          }
        }
      }
    }
  }

  /** After a toggle the pair is stored exactly when the toggle reports true. */
  lemma ToggledReportsState(favs: seq<FavoriteCard>, ayahId: int, backgroundIndex: int, fontFamily: string,
                            freshId: string, now: int)
    requires UniquePairs(favs)
    ensures var r := Toggled(favs, ayahId, backgroundIndex, fontFamily, freshId, now);
      HasPair(r.0, ayahId, backgroundIndex) == r.1 && UniquePairs(r.0)
  {
    var r := Toggled(favs, ayahId, backgroundIndex, fontFamily, freshId, now);
    if r.1 {
      AddedKeepsUnique(favs, ayahId, backgroundIndex, fontFamily, freshId, now);
      assert SamePair(r.0[0], ayahId, backgroundIndex);
    } else {
      var k := FindIndex(favs, ayahId, backgroundIndex).value;
      var existing := favs[k];
      RemovedKeepsUnique(favs, existing.id);
      forall i | 0 <= i < |r.0|
        ensures !SamePair(r.0[i], ayahId, backgroundIndex)
      {
        assert r.0[i] in favs && r.0[i].id != existing.id;
        var j :| 0 <= j < |favs| && favs[j] == r.0[i];
        assert j != k;
      }
    }
  }

  /** Toggling an absent pair twice restores the list, provided the fresh id of the first
      toggle is not already in use (removal goes by id and would take the namesake too). */
  lemma ToggleTwiceRestores(favs: seq<FavoriteCard>, ayahId: int, backgroundIndex: int,
                            font1: string, id1: string, t1: int, font2: string, id2: string, t2: int)
    requires !HasPair(favs, ayahId, backgroundIndex)
    requires !HasId(favs, id1)
    ensures var first := Toggled(favs, ayahId, backgroundIndex, font1, id1, t1);
      var second := Toggled(first.0, ayahId, backgroundIndex, font2, id2, t2);
      first.1 && !second.1 && second.0 == favs
  {
    var first := Toggled(favs, ayahId, backgroundIndex, font1, id1, t1);
    var added := FavoriteCard(id1, ayahId, backgroundIndex, font1, t1);
    assert first.0 == [added] + favs;
    assert FindIndex(first.0, ayahId, backgroundIndex) == Some(0);
    RemovedDistributes([added], favs, id1);
    assert Removed([added], id1) == [];
  }

  /** The persisted store, with the storage round trip replaced by a field. */
  class FavoritesStore {
    var slot: Slot

    /** Every list the store ever writes has unique pairs. */
    ghost predicate Valid()
      reads this
    {
      UniquePairs(GetFavorites())
    }

    constructor (initial: Slot)
      ensures slot == initial
    {
      slot := initial;
    }

    /** `getFavorites`: the saved list, or the empty list when nothing is stored or the stored
        value cannot be read or parsed. */
    function GetFavorites(): (favs: seq<FavoriteCard>)
      reads this
      ensures slot.Saved? ==> favs == slot.list
      ensures !slot.Saved? ==> favs == []
    {
      match slot
      case Saved(list) => list
      case _ => []
    }

    /** `isFavorite`: some stored entry matches both the ayah id and the background index. */
    function IsFavorite(ayahId: int, backgroundIndex: int): (b: bool)
      reads this
      ensures b <==> HasPair(GetFavorites(), ayahId, backgroundIndex)
      ensures b <==> exists f :: f in GetFavorites() && SamePair(f, ayahId, backgroundIndex)
    {
      Find(GetFavorites(), ayahId, backgroundIndex).Some?
    }

    /** `addFavorite`. With the pair already stored the existing entry comes back and nothing is
        written; otherwise the new entry is written in front of the old ones. */
    method AddFavorite(ayahId: int, backgroundIndex: int, fontFamily: string, freshId: string, now: int)
      returns (favorite: FavoriteCard)
      modifies this
      ensures GetFavorites() == Added(old(GetFavorites()), ayahId, backgroundIndex, fontFamily, freshId, now)
      ensures HasPair(old(GetFavorites()), ayahId, backgroundIndex) ==>
        slot == old(slot) && Some(favorite) == Find(old(GetFavorites()), ayahId, backgroundIndex)
      ensures !HasPair(old(GetFavorites()), ayahId, backgroundIndex) ==>
        slot.Saved? && favorite == FavoriteCard(freshId, ayahId, backgroundIndex, fontFamily, now)
      ensures old(Valid()) ==> Valid()
    {
      var favorites := GetFavorites();
      var found := Find(favorites, ayahId, backgroundIndex);
      if found.Some? {
        return found.value;
      }
      favorite := FavoriteCard(freshId, ayahId, backgroundIndex, fontFamily, now);
      slot := Saved([favorite] + favorites);
      if UniquePairs(favorites) {
        AddedKeepsUnique(favorites, ayahId, backgroundIndex, fontFamily, freshId, now);
      }
    }

    /** `removeFavorite`: writes back the entries whose id differs, in order. */
    method RemoveFavorite(id: string)
      modifies this
      ensures slot == Saved(Removed(old(GetFavorites()), id))
      ensures GetFavorites() == Removed(old(GetFavorites()), id)
      ensures old(Valid()) ==> Valid()
    {
      var favorites := GetFavorites();
      slot := Saved(Removed(favorites, id));
      if UniquePairs(favorites) {
        RemovedKeepsUnique(favorites, id);
      }
    }

    /** `toggleFavorite`. */
    method ToggleFavorite(ayahId: int, backgroundIndex: int, fontFamily: string, freshId: string, now: int)
      returns (isFavorite: bool, favorite: Option<FavoriteCard>)
      modifies this
      ensures (GetFavorites(), isFavorite) == Toggled(old(GetFavorites()), ayahId, backgroundIndex, fontFamily, freshId, now)
      ensures isFavorite ==> favorite == Some(FavoriteCard(freshId, ayahId, backgroundIndex, fontFamily, now))
      ensures !isFavorite ==> favorite.None?
      ensures old(Valid()) ==> Valid() && IsFavorite(ayahId, backgroundIndex) == isFavorite
    {
      var favorites := GetFavorites();
      var existing := Find(favorites, ayahId, backgroundIndex);
      if UniquePairs(favorites) {
        ToggledReportsState(favorites, ayahId, backgroundIndex, fontFamily, freshId, now);
      }
      if existing.Some? {
        RemoveFavorite(existing.value.id);
        isFavorite, favorite := false, None;
      } else {
        var added := AddFavorite(ayahId, backgroundIndex, fontFamily, freshId, now);
        isFavorite, favorite := true, Some(added);
      }
    }
  }
}
