# Islamic Statuses: a verified model of the feed, favorites and audio logic

The app shows an endless, swipeable feed of cards, each a Quran verse (ayah with its surah)
or a hadith over a background photo in some font. Beneath the UI sit a few pieces of state
and list logic, modelled here in Dafny and proved:

- **Content lookup** (`content.dfy`, module `Content`, after `src/utils/dataLoader.ts`).
  The bundled ayah and surah JSON objects are maps keyed by integer.
  `Object.values` visits such keys in ascending order (`SortedKeys`, `ObjectValues`).
  `getAyahById` returns `null` exactly when the id is absent.
  Otherwise it converts the record field for field and joins the surah keyed by
  `surah_number`; reading a field of a missing surah throws (`Result.Fail`).
  `getRandomAyah` receives its random index as a parameter.
- **Backgrounds** (`backgrounds.dfy`, module `Backgrounds`, after `src/constants/images.ts`).
  The 55 image file names in manifest order.
  `getBackgroundByIndex` uses JavaScript's truncating `%`: a negative index gives `undefined`,
  except for multiples of 55, where the remainder `-0` reads element 0.
- **Favorites store** (`favorites.dfy`, module `Favorites`, after `src/utils/favorites.ts`).
  The class `FavoritesStore` holds the storage slot as a field: empty, unreadable, or a saved list.
  `addFavorite`, `removeFavorite` and `toggleFavorite` are methods that rewrite the slot.
  Each is tied to a pure function on lists: `Added`, `Removed`, `Toggled`.
  Identity is the pair (ayahId, backgroundIndex). Removal goes by record id.
  The class invariant `Valid()` says no two entries share a pair.
- **Feed controller** (`feed.dfy`, module `Feed`, after `App.tsx`).
  `generateCard` and `generateInitialCards` are functions.
  Every random draw is an input `Draw`: coin, background index, font, id, ayah and hadith.
  A card's content is a sum type: Quran (ayah and surah) or hadith.
  The class `FeedController` holds `cards`, `currentIndex`, `contentFilter`, `tafseerState` and
  `showHadithEnglish`; its methods are the `MainContent` handlers.
  Its invariant says:
  - every card's image is the list entry at its background index;
  - every card's kind conforms to the filter at its position (under 'both', Quran exactly on
    even positions);
  - the current index points at a card;
  - the tafseer mode is 0, 1 or 2.
- **Audio** (`audio.dfy`, module `Audio`, after `src/hooks/useQuranAudio.ts`).
  The zero-padded URL and the `ayaKey` string, with decoding and injectivity lemmas.
  A pure transition function `PlayPause`/`StatusUpdate` over the state (playingKey, loaded
  source, playing), and the class `AudioController` whose methods follow it.
  The player transport is abstract: each call either succeeds or throws.
- **Favorites screen** (`favorites_screen.dfy`, module `FavoritesScreen`, after
  `src/screens/FavoritesScreen.tsx`). The projection of stored favorites to display cards,
  and the screen state updated by `loadFavorites`, `handleRemoveFavorite` and
  `onViewableItemsChanged`.

Notes on the code as written:

- Favorite identity is (ayahId, backgroundIndex) as in `favorites.ts`. The content type is
  not part of it.
- `App.tsx` passes four arguments to the three-parameter `toggleFavorite` and imports a
  `getRandomHadith` that `dataLoader.ts` does not export; a hadith is therefore an input.
- The loader never attaches tafseer or meanings text to an ayah.
- The favorites screen does not skip a favorite whose ayah id no longer resolves. The `!` at
  FavoritesScreen.tsx:66 throws first, so `loadFavorites` stops: the old cards stay and
  `loading` stays true (`Project`, `LoadFavorites`).
- The favorites screen, unlike `App.tsx`, stores a `null` first visible index as is.

## Model

| member | source | states |
|---|---|---|
| Content.SortedKeys | src/utils/dataLoader.ts:9-10 | the keys in ascending order: each key exactly once, strictly increasing, same count as the key set |
| Content.ObjectValues | src/utils/dataLoader.ts:9-10 | `Object.values`: one value per entry, the i-th being the map's value at the i-th smallest key |
| Content.Join | src/utils/dataLoader.ts:44-58 | succeeds iff the ayah's surah_number is a key of the surah table; the ayah converts back to the raw record and the surah to the surah-table entry under that number |
| Content.GetAyahById | src/utils/dataLoader.ts:40-60 | null exactly when the table has no entry for id; throws exactly when the entry's surah is missing; otherwise the ayah and surah are the entry and its surah, field for field |
| Content.GetRandomAyah | src/utils/dataLoader.ts:15-35 | with no ayahs it throws; otherwise it succeeds exactly when the surah of the entry at the drawn position of the key-ordered values exists, and then the result is that entry joined with its surah, equal to `getAyahById` of that key |
| Content.GetTotalAyahCount | src/utils/dataLoader.ts:65 | the number of entries in the ayah table |
| Content.GetAllSurahs | src/utils/dataLoader.ts:70-77 | one surah per surah-table entry, same count, the i-th converting back to the entry at the i-th smallest key |
| Content.AllSurahsComplete | src/utils/dataLoader.ts:70-77 | every surah-table entry appears, converted, in the result |
| Content.ConversionsRoundTrip | src/utils/dataLoader.ts:45-58 | the field-for-field conversions lose nothing: converting back gives the raw record |
| Backgrounds.BackgroundListSize | src/constants/images.ts:4-60 | the background list has 55 entries |
| Backgrounds.GetRandomBackground | src/constants/images.ts:62-65 | the returned index is the draw, below 55, and the source is the image `getBackgroundByIndex` gives for that index |
| Backgrounds.GetBackgroundByIndex | src/constants/images.ts:67-69 | for i ≥ 0 the entry at i mod 55; undefined exactly for negative i that are not multiples of 55; a negative multiple of 55 reads entry 0; a defined result is always a list entry |
| Backgrounds.ByIndexInRange | src/constants/images.ts:67-69 | for 0 ≤ i < 55 the lookup is entry i |
| Backgrounds.ByIndexPeriodic | src/constants/images.ts:67-69 | for i ≥ 0, lookup(i + 55) = lookup(i) |
| Backgrounds.ByIndexNotPeriodicBelowZero | src/constants/images.ts:67-69 | lookup(-1) is undefined while lookup(54) is an image |
| Favorites.FindIndex | src/utils/favorites.ts:32-34 | none iff no entry has the pair; otherwise the position of the first entry with the pair |
| Favorites.Find | src/utils/favorites.ts:91-93 | undefined iff no entry has the pair; otherwise the first stored entry with the pair |
| Favorites.Removed | src/utils/favorites.ts:61 | keeps exactly the entries whose id differs; an unknown id leaves the list unchanged |
| Favorites.RemovedDistributes | src/utils/favorites.ts:61 | removal keeps order: it distributes over concatenation |
| Favorites.Added | src/utils/favorites.ts:31-46 | a stored pair leaves the list unchanged; an absent pair puts the new entry (given id, ayahId, backgroundIndex, font, time) in front of the old list |
| Favorites.AddIdempotent | src/utils/favorites.ts:31-35 | adding the same pair again, with any font, id or time, changes nothing, so the first font is kept |
| Favorites.AddedKeepsUnique | src/utils/favorites.ts:31-46 | adding preserves "no two entries share a pair" |
| Favorites.RemovedKeepsUnique | src/utils/favorites.ts:58-62 | removing preserves "no two entries share a pair" |
| Favorites.Toggled | src/utils/favorites.ts:85-102 | reports true iff the pair was absent; then the list is the added list, otherwise the list with the found entry's id removed |
| Favorites.ToggledReportsState | src/utils/favorites.ts:85-102 | with unique pairs, after a toggle the pair is stored iff the toggle reported true, and pairs stay unique |
| Favorites.ToggleTwiceRestores | src/utils/favorites.ts:91-100 | toggling an absent pair twice, with a fresh id unused in the list, reports true then false and restores the original list |
| Favorites.FavoritesStore.GetFavorites | src/utils/favorites.ts:10-18 | the saved list, or the empty list when nothing is stored or the stored value cannot be read |
| Favorites.FavoritesStore.IsFavorite | src/utils/favorites.ts:72-80 | true iff some stored entry matches both ayahId and backgroundIndex |
| Favorites.FavoritesStore.AddFavorite | src/utils/favorites.ts:23-53 | the stored list becomes `Added` of the old one; a stored pair returns the existing entry and writes nothing; otherwise it returns the new entry; keeps the invariant |
| Favorites.FavoritesStore.RemoveFavorite | src/utils/favorites.ts:58-67 | writes `Removed` of the old list; keeps the invariant |
| Favorites.FavoritesStore.ToggleFavorite | src/utils/favorites.ts:85-102 | the list and flag are `Toggled` of the old list; the returned favorite is the new entry when added; with the invariant, `isFavorite` afterwards equals the flag |
| Feed.GenerateCard | App.tsx:35-76 | quran for the Quran filter, hadith for the hadith filter; for 'both' with a hint, quran iff the hint is even, without one the coin decides; a quran card holds the drawn ayah and surah, a hadith card the drawn hadith; id, font and background index come from the draw, and the image matches the index |
| Feed.GenerateBatch | App.tsx:181-185 | one card per draw, card i generated with position hint start + i |
| Feed.GenerateInitialCards | App.tsx:79-81 | exactly count cards, card i generated with hint i |
| Feed.BatchConforms | App.tsx:181-185 | every card of a batch placed at start conforms to the filter at its position and has a matching image |
| Feed.InitialCardsFollowFilter | App.tsx:79-81 | under 'both' the first batch alternates quran on even and hadith on odd positions; under a single-kind filter every card is of that kind |
| Feed.NextTafseerState | App.tsx:157-159 | the next mode is in {0,1,2}: one more than the current one below 2, and 0 exactly after 2 |
| Feed.TafseerCyclesInThree | App.tsx:157-159 | three presses return to the starting mode, one or two do not |
| Feed.FeedController.constructor | App.tsx:94-103 | ten initial cards for 'both', index 0, tafseer 0, English hidden, invariant established |
| Feed.FeedController.HandleSetContentFilter | App.tsx:134-140 | the whole feed is replaced by ten cards generated for the new filter, the index resets to 0 and the filter is stored |
| Feed.FeedController.OnViewableItemsChanged | App.tsx:170-174 | the first visible item's index becomes current; an empty or null-index notification changes nothing |
| Feed.FeedController.OnEndReached | App.tsx:181-186 | five cards generated for hints |cards| to |cards|+4 are appended; the old cards are an unchanged prefix |
| Feed.FeedController.HandleNewAyah | App.tsx:189-202 | only the content of the current card changes, to content generated with the current filter and index; id, background and font of that card, the other cards and the length stay |
| Feed.FeedController.HandleSelectBackground | App.tsx:204-214 | the current card alone takes background index i and image i |
| Feed.FeedController.HandleRandomFont | App.tsx:216-226 | the current card alone takes the drawn font |
| Feed.FeedController.HandleToggleTafseer | App.tsx:157-159 | the mode advances (s + 1) mod 3 and stays in {0,1,2} |
| Feed.FeedController.HandleToggleHadithEnglish | App.tsx:161-163 | the English flag flips |
| Audio.NumberStringRoundTrip | src/hooks/useQuranAudio.ts:9-12 | the decimal text of a number reads back as that number |
| Audio.PadStartZeros | src/hooks/useQuranAudio.ts:9-12 | the padded string is at least the width long and reads as the same number |
| Audio.AudioUrlDecodes | src/hooks/useQuranAudio.ts:9-12 | for surah and ayah up to 999 the URL is the fixed prefix, two 3-digit segments reading back as the two numbers, and ".mp3" |
| Audio.AudioUrlInjective | src/hooks/useQuranAudio.ts:9-12 | distinct pairs up to 999 give distinct URLs |
| Audio.AudioUrlAmbiguousPast999 | src/hooks/useQuranAudio.ts:9-12 | past 999 two ayahs share a URL: (100, 1001) and (1001, 1) |
| Audio.GetAudioUrl | src/hooks/useQuranAudio.ts:9-12 | the URL is the fixed prefix, at least six characters, then ".mp3"; the full decoding is stated by `AudioUrlDecodes` (prefix, two 3-digit segments reading back as the numbers, ".mp3") and `AudioUrlInjective` |
| Audio.AyaKey | src/hooks/useQuranAudio.ts:19 | the key is as long as both numbers' digits plus one, with a dash right after the surah's digits; injectivity is stated by `AyaKeyInjective` (equal keys come from equal pairs) |
| Audio.AyaKeyInjective | src/hooks/useQuranAudio.ts:19 | equal keys come from equal (surah, ayah) pairs |
| Audio.PlayPause | src/hooks/useQuranAudio.ts:21-50 | on the current key it flips playing and loads nothing; on another key it loads that ayah's URL, plays and makes the key current; a transport failure clears the key |
| Audio.StatusUpdate | src/hooks/useQuranAudio.ts:52-56 | takes the transport's playing flag; an end-of-track report (`didJustFinish` turning true) clears the key |
| Audio.IsPlaying | App.tsx:151-155 | true exactly when the current key is this ayah's `ayaKey` and the player is playing; `AtMostOnePlaying` shows it holds for at most one ayah |
| Audio.PlayPauseKeepsInvariants | src/hooks/useQuranAudio.ts:38-47 | the key stays null or the key of a requested pair, and the loaded source stays the URL of the key's ayah |
| Audio.StatusUpdateKeepsInvariants | src/hooks/useQuranAudio.ts:52-56 | status reports keep both invariants |
| Audio.SameKeyTwiceRestores | src/hooks/useQuranAudio.ts:27-35 | two presses on the current ayah give back the same state |
| Audio.NewKeyPlaysThenPauses | src/hooks/useQuranAudio.ts:38-42 | a press on another ayah loads its URL and plays it; a second press pauses it and keeps key and source |
| Audio.AtMostOnePlaying | App.tsx:151-155 | at most one (surah, ayah) pair is reported as playing |
| Audio.NothingPlaysAfterErrorOrFinish | src/hooks/useQuranAudio.ts:44-56 | after a transport failure or the end of a track no ayah is reported as playing |
| Audio.AudioController.constructor | src/hooks/useQuranAudio.ts:15-17 | no key, no source, not playing |
| Audio.AudioController.OnPlayPause | src/hooks/useQuranAudio.ts:21-50 | the state becomes `PlayPause` of the old state and the pair is recorded as requested; invariants kept |
| Audio.AudioController.OnStatusUpdate | src/hooks/useQuranAudio.ts:52-56 | the state becomes `StatusUpdate` of the old state; invariants kept |
| FavoritesScreen.ToCard | src/screens/FavoritesScreen.tsx:62-71 | succeeds iff the ayah id resolves; the card takes id, background index and font from the favorite, the image from `getBackgroundByIndex`, ayah and surah from `getAyahById` |
| FavoritesScreen.Project | src/screens/FavoritesScreen.tsx:62-72 | succeeds iff every favorite resolves, and then gives one card per favorite, in order |
| FavoritesScreen.ProjectOneCardPerFavorite | src/screens/FavoritesScreen.tsx:62-72 | when all ids resolve, card i carries favorite i's id, background and font and the ayah and surah of its ayah id |
| FavoritesScreen.ProjectFailsOnUnresolvedId | src/screens/FavoritesScreen.tsx:63-66 | one favorite whose ayah id is not in the table makes the projection throw |
| FavoritesScreen.ProjectedIds | src/screens/FavoritesScreen.tsx:64-65 | some card carries an id iff some favorite does |
| FavoritesScreen.FavoritesScreenState.constructor | src/screens/FavoritesScreen.tsx:34-37 | no favorites, no cards, loading, index 0 |
| FavoritesScreen.FavoritesScreenState.LoadFavorites | src/screens/FavoritesScreen.tsx:56-76 | favorites become the stored list; on success the projected cards are set and loading ends; on a throw the cards stay and loading stays on |
| FavoritesScreen.FavoritesScreenState.HandleRemoveFavorite | src/screens/FavoritesScreen.tsx:78-81 | the store drops the id and the screen reloads: favorites become the stored list, which has no entry with the id; when the projection succeeds the cards are the rebuilt projection and loading ends, when it throws the old cards stay and loading stays on; once loading has ended no card carries the id |
| FavoritesScreen.FavoritesScreenState.OnViewableItemsChanged | src/screens/FavoritesScreen.tsx:115-119 | with at least one visible item its index (possibly null) becomes current; otherwise nothing changes |

## Left out

- Rendering, styling and layout (StoryCard, CustomizationModal, AppMenuModal, ActionButtons, FlatList settings) are presentation.
- AsyncStorage and JSON (de)serialisation: the stored list is a field. A read or parse failure is the `Unreadable` slot. Write failures are not modelled, so `addFavorite`/`removeFavorite` never throw here.
- `Math.random`, `Date.now` and the id strings are inputs: the background index, the font name, the coin, the fresh id, the creation time and the ayah and hadith records.
- src/constants/fonts.ts is not part of this model. A font is any string, and `getRandomFont`'s pick is an input.
- The hadith loader (`getRandomHadith`) is not part of this model. A hadith record is an input.
- The expo-audio transport is abstract. A call succeeds or throws. After a throw, the loaded source and the playing flag are left as they were; the real player's state is then unknown.
- `handleAudio` and `handleToggleFavorite` of App.tsx, and the effect that refreshes `currentIsFavorite`, are left out. They only forward to `onPlayPause` and `toggleFavorite`, and `handleToggleFavorite`'s call does not match `toggleFavorite`'s parameters.
- Image capture and sharing (`handleShare` in both screens, the 100 ms wait), the Android back button and AppActionsService.ts are platform calls.
- Async interleaving: each handler is one atomic step. `handleRemoveFavorite` does not await its reload, and that is modelled as running to completion.
- Audio.AudioController.OnPlayPause: the handler's closure captures `playingKey` and `status.playing` when it is rendered; the model reads the current values.
- Feed.FeedController.HandleSelectBackground: requires an index of the background list, since the customization sheet only offers those positions.
- Feed.FeedController.OnViewableItemsChanged: requires the visible indices to be positions of the current feed.
- Content: the JSON tables are maps with natural-number keys. Non-integer keys, whose `Object.values` order is insertion order, are not modelled.
- Audio: surah and ayah numbers are naturals. The text of a negative number is not modelled.
