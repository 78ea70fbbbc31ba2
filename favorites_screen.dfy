/** The favorites screen (src/screens/FavoritesScreen.tsx): it turns the stored favorites into
    display cards by looking each ayah up, rebuilds them after a removal, and tracks the
    visible card. */
module FavoritesScreen {
  import opened Wrappers
  import opened Content
  import opened Backgrounds
  import opened Favorites

  /** `CardData` as the screen builds it (FavoritesScreen.tsx:64-71); its image comes from
      `getBackgroundByIndex`, which gives `undefined` for some negative indices. */
  datatype DisplayCard = DisplayCard(id: string, ayah: Ayah, surah: Surah, backgroundImage: Option<string>,
                                     backgroundIndex: int, fontFamily: string)

  /** The favorite's ayah id resolves to an ayah with its surah. */
  predicate Resolves(t: Tables, fav: FavoriteCard) {
    var found := GetAyahById(t, fav.ayahId);
    found.Ok? && found.value.Some?
  }

  /** The `map` callback for one favorite. `ayahData!.ayah` reads a field of `null` when the
      lookup finds nothing, which throws, as does a lookup whose surah is missing. */
  function ToCard(t: Tables, fav: FavoriteCard): (r: Result<DisplayCard>)
    ensures r.Ok? <==> Resolves(t, fav)
    ensures r.Ok? ==>
      && r.value.id == fav.id
      && r.value.backgroundIndex == fav.backgroundIndex
      && r.value.fontFamily == fav.fontFamily
      && r.value.backgroundImage == GetBackgroundByIndex(fav.backgroundIndex)
      && GetAyahById(t, fav.ayahId) == Ok(Some(AyahWithSurah(r.value.ayah, r.value.surah)))
  {
    match GetAyahById(t, fav.ayahId)
    case Fail(why) => Fail(why)
    case Ok(None) => Fail("cannot read 'ayah' of null")
    case Ok(Some(found)) =>
      Ok(DisplayCard(fav.id, found.ayah, found.surah, GetBackgroundByIndex(fav.backgroundIndex),
                     fav.backgroundIndex, fav.fontFamily))
  }

  /** The projection of `loadFavorites`: `favs.map(...)`, which throws at the first favorite
      that does not resolve. The `.filter(card => card.ayah)` after it keeps every card it can
      be reached with, since each of them holds an ayah, so it is not written out. */
  function Project(t: Tables, favs: seq<FavoriteCard>): (r: Result<seq<DisplayCard>>)
    ensures r.Ok? <==> forall i :: 0 <= i < |favs| ==> Resolves(t, favs[i])
    ensures r.Ok? ==> |r.value| == |favs| && forall i :: 0 <= i < |favs| ==> ToCard(t, favs[i]) == Ok(r.value[i])
  {
    if |favs| == 0 then Ok([])
    else
      match ToCard(t, favs[0])
      case Fail(why) => Fail(why)
      case Ok(card) =>
        match Project(t, favs[1..])
        case Fail(why) =>
          assert exists i :: 1 <= i < |favs| && !Resolves(t, favs[i]) by {
            var j :| 0 <= j < |favs[1..]| && !Resolves(t, favs[1..][j]);
            assert favs[j + 1] == favs[1..][j];
          }
          Fail(why)
        case Ok(rest) =>
          assert forall i :: 1 <= i < |favs| ==> favs[i] == favs[1..][i - 1];
          Ok([card] + rest)
  }

  /** When every favorite resolves there is one card per favorite, in the same order, carrying
      the favorite's id, background and font and the ayah and surah found for its ayah id. */
  lemma ProjectOneCardPerFavorite(t: Tables, favs: seq<FavoriteCard>, i: nat)
    requires forall j :: 0 <= j < |favs| ==> Resolves(t, favs[j])
    requires i < |favs|
    ensures var r := Project(t, favs);
      && r.Ok? && |r.value| == |favs|
      && r.value[i].id == favs[i].id
      && r.value[i].backgroundIndex == favs[i].backgroundIndex
      && r.value[i].fontFamily == favs[i].fontFamily
      && r.value[i].backgroundImage == GetBackgroundByIndex(favs[i].backgroundIndex)
      && GetAyahById(t, favs[i].ayahId) == Ok(Some(AyahWithSurah(r.value[i].ayah, r.value[i].surah)))
  {
    var r := Project(t, favs);
    assert ToCard(t, favs[i]) == Ok(r.value[i]);
  }

  /** A single favorite whose ayah id is not in the table makes the whole projection throw. */
  lemma ProjectFailsOnUnresolvedId(t: Tables, favs: seq<FavoriteCard>, i: nat)
    requires i < |favs|
    requires !(favs[i].ayahId >= 0 && favs[i].ayahId in t.ayahData)
    ensures Project(t, favs).Fail?
  {
    assert !Resolves(t, favs[i]);
  }

  /** The cards carry exactly the ids of the favorites they were built from. */
  lemma ProjectedIds(t: Tables, favs: seq<FavoriteCard>, id: string)
    requires Project(t, favs).Ok?
    ensures (exists c :: c in Project(t, favs).value && c.id == id) <==> HasId(favs, id)
  {
    var cards := Project(t, favs).value;
    if exists c :: c in cards && c.id == id {
      var c :| c in cards && c.id == id;
      var k :| 0 <= k < |cards| && cards[k] == c;
      assert ToCard(t, favs[k]) == Ok(cards[k]);
    }
    if HasId(favs, id) {
      var k :| 0 <= k < |favs| && favs[k].id == id;
      assert ToCard(t, favs[k]) == Ok(cards[k]);
      assert cards[k] in cards;
    }
  }

  /** The screen's state, over the shared store and the content tables. */
  class FavoritesScreenState {
    const tables: Tables
    const store: FavoritesStore
    var favorites: seq<FavoriteCard>
    var cards: seq<DisplayCard>
    var loading: bool
    /** `None` when the list reported a `null` index. */
    var currentIndex: Option<nat>

    /** The screen as first rendered, before `loadFavorites` has run. */
    constructor (tables: Tables, store: FavoritesStore)
      ensures this.tables == tables && this.store == store
      ensures favorites == [] && cards == [] && loading && currentIndex == Some(0)
    {
      this.tables := tables;
      this.store := store;
      favorites, cards, loading := [], [], true;
      currentIndex := Some(0);
    }

    /** `loadFavorites`. The favorites are read and kept; when the projection succeeds its
        cards replace the old ones and loading ends; when it throws, the old cards stay and
        loading stays on. */
    method LoadFavorites()
      modifies this`favorites, this`cards, this`loading
      ensures favorites == store.GetFavorites()
      ensures Project(tables, favorites).Ok? ==> cards == Project(tables, favorites).value && !loading
      ensures Project(tables, favorites).Fail? ==> cards == old(cards) && loading
    {
      loading := true;
      var favs := store.GetFavorites();
      favorites := favs;
      var projected := Project(tables, favs);
      if projected.Fail? {
        return;
      }
      cards := projected.value;
      loading := false;
    }

    /** `handleRemoveFavorite(id)`: remove from the store, then reload. Once the reload has
        finished no card carries the id. */
    method HandleRemoveFavorite(id: string)
      modifies store, this`favorites, this`cards, this`loading
      ensures store.GetFavorites() == Removed(old(store.GetFavorites()), id)
      ensures favorites == store.GetFavorites()
      ensures forall f :: f in favorites ==> f.id != id
      ensures Project(tables, favorites).Ok? ==> cards == Project(tables, favorites).value && !loading
      ensures Project(tables, favorites).Fail? ==> cards == old(cards) && loading
      ensures !loading ==> forall c :: c in cards ==> c.id != id
    {
      store.RemoveFavorite(id);
      LoadFavorites();
      if !loading {
        ProjectedIds(tables, favorites, id);
      }
    }

    /** `onViewableItemsChanged`: with at least one visible item the first item's index
        becomes current, `null` included. */
    method OnViewableItemsChanged(viewable: seq<Option<nat>>)
      modifies this`currentIndex
      ensures |viewable| > 0 ==> currentIndex == viewable[0]
      ensures |viewable| == 0 ==> currentIndex == old(currentIndex)
    {
      if |viewable| > 0 {
        currentIndex := viewable[0];
      }
    }
  }
}
