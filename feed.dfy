/** The card feed of App.tsx: `generateCard`, `generateInitialCards` and the state handlers of
    `MainContent`. Every random draw (`Math.random`, `Date.now`, `getRandomFont`,
    `getRandomAyah`, `getRandomHadith`) arrives as a `Draw`. */
module Feed {
  import opened Wrappers
  import opened Content
  import opened Backgrounds

  /** `ContentFilter`. */
  datatype ContentFilter = QuranOnly | HadithOnly | Both

  /** The content part of a card: `type: 'quran'` with `ayah` and `surah`, or `type: 'hadith'`
      with `hadith`; the fields of the other kind are absent. */
  datatype CardContent = QuranContent(ayah: Ayah, surah: Surah) | HadithContent(hadith: Hadith)

  /** A card as `generateCard` builds it (App.tsx:53-75). */
  datatype Card = Card(id: string, backgroundImage: string, backgroundIndex: nat, fontFamily: string,
                       content: CardContent)

  /** The random inputs of one `generateCard` call: the coin of `Math.random() > 0.5`, the
      background index drawn by `getRandomBackground`, the font of `getRandomFont`, the id built
      from `Date.now` and `Math.random`, and the records `getRandomAyah` and `getRandomHadith`
      would return. */
  datatype Draw = Draw(coin: bool, backgroundIndex: nat, fontFamily: string, id: string,
                       verse: AyahWithSurah, hadith: Hadith)

  /** A background index `getRandomBackground` can return. */
  predicate ValidCardDraw(d: Draw) {
    d.backgroundIndex < |BackgroundImages|
  }

  predicate ValidCardDraws(ds: seq<Draw>) {
    forall i :: 0 <= i < |ds| ==> ValidCardDraw(ds[i])
  }

  /** The card's image is the list entry at its background index. */
  predicate ConsistentBackground(c: Card) {
    c.backgroundIndex < |BackgroundImages| && c.backgroundImage == BackgroundImages[c.backgroundIndex]
  }

  /** The content kind a filter allows at position `i` of a feed: one kind for a single-kind
      filter, and for 'both' the Quran on even positions and a hadith on odd ones. */
  predicate Conforms(filter: ContentFilter, i: nat, c: Card) {
    match filter
    case QuranOnly => c.content.QuranContent?
    case HadithOnly => c.content.HadithContent?
    case Both => c.content.QuranContent? <==> i % 2 == 0
  }

  /** `generateCard(filter, forceBothIndex)`, with `hint` the optional position. */
  function GenerateCard(filter: ContentFilter, hint: Option<nat>, d: Draw): (c: Card)
    requires ValidCardDraw(d)
    ensures c.id == d.id && c.backgroundIndex == d.backgroundIndex && c.fontFamily == d.fontFamily
    ensures ConsistentBackground(c)
    ensures filter == QuranOnly ==> c.content.QuranContent?
    ensures filter == HadithOnly ==> c.content.HadithContent?
    ensures filter == Both && hint.Some? ==> (c.content.QuranContent? <==> hint.value % 2 == 0)
    ensures filter == Both && hint.None? ==> (c.content.QuranContent? <==> d.coin)
    ensures c.content.QuranContent? ==> c.content == QuranContent(d.verse.ayah, d.verse.surah)
    ensures c.content.HadithContent? ==> c.content == HadithContent(d.hadith)
  {
    var quran :=
      match filter
      case QuranOnly => true
      case HadithOnly => false
      case Both => if hint.Some? then hint.value % 2 == 0 else d.coin;
    var background := GetRandomBackground(d.backgroundIndex);
    var content := if quran then QuranContent(d.verse.ayah, d.verse.surah) else HadithContent(d.hadith);
    Card(d.id, background.source, background.index, d.fontFamily, content)
  }

  /** `Array.from({ length: n }, (_, i) => generateCard(filter, start + i))`. */
  function GenerateBatch(filter: ContentFilter, start: nat, draws: seq<Draw>): (cards: seq<Card>)
    requires ValidCardDraws(draws)
    ensures |cards| == |draws|
    ensures forall i :: 0 <= i < |cards| ==> cards[i] == GenerateCard(filter, Some(start + i), draws[i])
  {
    seq(|draws|, i requires 0 <= i < |draws| => GenerateCard(filter, Some(start + i), draws[i]))
  }

  /** `generateInitialCards(count, filter)`. */
  function GenerateInitialCards(count: nat, filter: ContentFilter, draws: seq<Draw>): (cards: seq<Card>)
    requires |draws| == count && ValidCardDraws(draws)
    ensures |cards| == count
    ensures forall i :: 0 <= i < count ==> cards[i] == GenerateCard(filter, Some(i), draws[i])
  {
    GenerateBatch(filter, 0, draws)
  }

  /** A batch placed at `start` conforms to its filter at every position and has consistent
      backgrounds. */
  lemma BatchConforms(filter: ContentFilter, start: nat, draws: seq<Draw>)
    requires ValidCardDraws(draws)
    ensures var cards := GenerateBatch(filter, start, draws);
      forall i :: 0 <= i < |cards| ==> Conforms(filter, start + i, cards[i]) && ConsistentBackground(cards[i])
  {
  }

  /** With 'both', the first batch alternates Quran, hadith, Quran, ... from position 0; with a
      single-kind filter every card is of that kind. */
  lemma InitialCardsFollowFilter(count: nat, filter: ContentFilter, draws: seq<Draw>)
    requires |draws| == count && ValidCardDraws(draws)
    ensures var cards := GenerateInitialCards(count, filter, draws);
      forall i :: 0 <= i < count ==>
        (filter == Both ==> (cards[i].content.QuranContent? <==> i % 2 == 0)) &&
        (filter == QuranOnly ==> cards[i].content.QuranContent?) &&
        (filter == HadithOnly ==> cards[i].content.HadithContent?)
  {
  }

  /** `(prev + 1) % 3`. */
  function NextTafseerState(s: int): (r: int)
    requires 0 <= s < 3
    ensures 0 <= r < 3
    ensures r != s
    ensures r == 0 <==> s == 2
    ensures s < 2 ==> r == s + 1
  {
    (s + 1) % 3
  }

  /** The tafseer mode returns to where it started after three presses. */
  lemma TafseerCyclesInThree(s: int)
    requires 0 <= s < 3
    ensures NextTafseerState(NextTafseerState(NextTafseerState(s))) == s
    ensures NextTafseerState(s) != s && NextTafseerState(NextTafseerState(s)) != s
  {
  }

  /** The state of `MainContent` that the handlers update. */
  class FeedController {
    var cards: seq<Card>
    var currentIndex: nat
    var contentFilter: ContentFilter
    var tafseerState: int
    var showHadithEnglish: bool

    /** The current index points at a card, the tafseer mode is one of 0, 1, 2, every card's
        image matches its background index, and every card's kind conforms to the filter at
        its position. */
    ghost predicate Valid()
      reads this
    {
      && currentIndex < |cards|
      && 0 <= tafseerState < 3
      && forall i :: 0 <= i < |cards| ==> ConsistentBackground(cards[i]) && Conforms(contentFilter, i, cards[i])
    }

    /** The initial state: ten cards for 'both', index 0, tafseer off, English hidden. */
    constructor (draws: seq<Draw>)
      requires |draws| == 10 && ValidCardDraws(draws)
      ensures Valid()
      ensures cards == GenerateInitialCards(10, Both, draws)
      ensures currentIndex == 0 && contentFilter == Both && tafseerState == 0 && !showHadithEnglish
    {
      cards := GenerateInitialCards(10, Both, draws);
      currentIndex := 0;
      contentFilter := Both;
      tafseerState := 0;
      showHadithEnglish := false;
      BatchConforms(Both, 0, draws);
    }

    /** `handleSetContentFilter`: a full reset to ten fresh cards for the new filter. */
    method HandleSetContentFilter(filter: ContentFilter, draws: seq<Draw>)
      requires Valid()
      requires |draws| == 10 && ValidCardDraws(draws)
      modifies this
      ensures Valid()
      ensures contentFilter == filter && currentIndex == 0
      ensures cards == GenerateInitialCards(10, filter, draws)
      ensures tafseerState == old(tafseerState) && showHadithEnglish == old(showHadithEnglish)
    {
      contentFilter := filter;
      currentIndex := 0;
      cards := GenerateInitialCards(10, filter, draws);
      BatchConforms(filter, 0, draws);
    }

    /** `onViewableItemsChanged`: `viewable` lists the indices of the visible items (`None` for
        a null index); the first one becomes current, and an empty list or a null index is
        ignored. */
    method OnViewableItemsChanged(viewable: seq<Option<nat>>)
      requires Valid()
      requires forall v :: v in viewable && v.Some? ==> v.value < |cards|
      modifies this`currentIndex
      ensures Valid()
      ensures |viewable| > 0 && viewable[0].Some? ==> currentIndex == viewable[0].value
      ensures !(|viewable| > 0 && viewable[0].Some?) ==> currentIndex == old(currentIndex)
    {
      if |viewable| > 0 && viewable[0].Some? {
        currentIndex := viewable[0].value;
      }
    }

    /** `onEndReached`: five cards generated for positions `|cards|` to `|cards| + 4` are
        appended; the existing cards stay as they are. */
    method OnEndReached(draws: seq<Draw>)
      requires Valid()
      requires |draws| == 5 && ValidCardDraws(draws)
      modifies this`cards
      ensures Valid()
      ensures cards == old(cards) + GenerateBatch(contentFilter, |old(cards)|, draws)
      ensures |cards| == |old(cards)| + 5 && cards[..|old(cards)|] == old(cards)
    {
      BatchConforms(contentFilter, |cards|, draws);
      cards := cards + GenerateBatch(contentFilter, |cards|, draws);
    }

    /** `handleNewAyah`: only the content of the current card is replaced, with content generated
        for the current filter and position. */
    method HandleNewAyah(d: Draw)
      requires Valid()
      requires ValidCardDraw(d)
      modifies this`cards
      ensures Valid()
      ensures |cards| == |old(cards)|
      ensures cards[currentIndex] ==
        old(cards[currentIndex]).(content := GenerateCard(contentFilter, Some(currentIndex), d).content)
      ensures forall i :: 0 <= i < |cards| && i != currentIndex ==> cards[i] == old(cards[i])
    {
      var newContent := GenerateCard(contentFilter, Some(currentIndex), d);
      cards := cards[currentIndex := cards[currentIndex].(content := newContent.content)];
    }

    /** `handleSelectBackground(index)`: the current card takes the background at `index`. The
        customization sheet only offers positions of the background list. */
    method HandleSelectBackground(index: nat)
      requires Valid()
      requires index < |BackgroundImages|
      modifies this`cards
      ensures Valid()
      ensures |cards| == |old(cards)|
      ensures cards[currentIndex] ==
        old(cards[currentIndex]).(backgroundImage := BackgroundImages[index], backgroundIndex := index)
      ensures forall i :: 0 <= i < |cards| && i != currentIndex ==> cards[i] == old(cards[i])
    {
      cards := cards[currentIndex := cards[currentIndex].(backgroundImage := BackgroundImages[index], backgroundIndex := index)];
    }

    /** `handleRandomFont`: the current card takes the drawn font. */
    method HandleRandomFont(newFont: string)
      requires Valid()
      modifies this`cards
      ensures Valid()
      ensures |cards| == |old(cards)|
      ensures cards[currentIndex] == old(cards[currentIndex]).(fontFamily := newFont)
      ensures forall i :: 0 <= i < |cards| && i != currentIndex ==> cards[i] == old(cards[i])
    {
      cards := cards[currentIndex := cards[currentIndex].(fontFamily := newFont)];
    }

    /** `handleToggleTafseer`: none, tafseer, meanings, none, ... */
    method HandleToggleTafseer()
      requires Valid()
      modifies this`tafseerState
      ensures Valid()
      ensures tafseerState == NextTafseerState(old(tafseerState))
    {
      tafseerState := (tafseerState + 1) % 3;
    }

    /** `handleToggleHadithEnglish`. */
    method HandleToggleHadithEnglish()
      requires Valid()
      modifies this`showHadithEnglish
      ensures Valid()
      ensures showHadithEnglish == !old(showHadithEnglish)
    {
      showHadithEnglish := !showHadithEnglish;
    }
  }
}
