/** Recitation audio (src/hooks/useQuranAudio.ts): the URL of an ayah's recording, the key
    that names an ayah, and the single playback slot `playingKey` beside an abstract player
    transport. Also `isPlaying` of App.tsx:151-155. */
module Audio {
  import opened Wrappers

  // ----- decimal text of a natural number -----

  predicate IsDigit(c: char) {
    '0' <= c <= '9'
  }

  predicate AllDigits(s: string) {
    forall i :: 0 <= i < |s| ==> IsDigit(s[i])
  }

  function DigitChar(d: nat): (c: char)
    requires d < 10
    ensures IsDigit(c) && DigitValue(c) == d
  {
    ('0' as int + d) as char
  }

  function DigitValue(c: char): nat
    requires IsDigit(c)
  {
    (c as int - '0' as int) as nat
  }

  /** `n.toString()` for a natural number: decimal digits without leading zeros. */
  function NumberToString(n: nat): (s: string)
    ensures 1 <= |s| && AllDigits(s)
    ensures n < 10 ==> |s| == 1
    ensures n < 100 ==> |s| <= 2
    ensures n < 1000 ==> |s| <= 3
  {
    if n < 10 then [DigitChar(n)] else NumberToString(n / 10) + [DigitChar(n % 10)]
  }

  /** Reads a string of digits as a decimal number; leading zeros are allowed. */
  function StringToNumber(s: string): nat
    requires AllDigits(s)
  {
    if |s| == 0 then 0 else StringToNumber(s[..|s| - 1]) * 10 + DigitValue(s[|s| - 1])
  }

  /** Reading back the decimal text of `n` gives `n`. */
  lemma {:induction false} NumberStringRoundTrip(n: nat)
    ensures StringToNumber(NumberToString(n)) == n
  {
    if n >= 10 {
      var s := NumberToString(n);
      assert s[..|s| - 1] == NumberToString(n / 10);
      NumberStringRoundTrip(n / 10);
    }
  }

  /** `n` copies of '0'. */
  function Zeros(n: nat): (z: string)
    ensures |z| == n && AllDigits(z)
    ensures forall i :: 0 <= i < n ==> z[i] == '0'
  {
    seq(n, _ => '0')
  }

  /** Leading zeros do not change the value. */
  lemma {:induction false} LeadingZerosIgnored(n: nat, s: string)
    requires AllDigits(s)
    ensures StringToNumber(Zeros(n) + s) == StringToNumber(s)
    decreases |s|
  {
    if |s| == 0 {
      assert Zeros(n) + s == Zeros(n);
      ZerosAreZero(n);
    } else {
      var t := Zeros(n) + s;
      assert t[..|t| - 1] == Zeros(n) + s[..|s| - 1];
      LeadingZerosIgnored(n, s[..|s| - 1]);
    }
  }

  lemma {:induction false} ZerosAreZero(n: nat)
    ensures StringToNumber(Zeros(n)) == 0
  {
    if n > 0 {
      assert Zeros(n)[..n - 1] == Zeros(n - 1);
      ZerosAreZero(n - 1);
    }
  }

  /** `s.padStart(width, '0')`: zeros in front up to `width` characters; a longer string is
      left alone. */
  function PadStartZeros(s: string, width: nat): (r: string)
    ensures |r| == if |s| >= width then |s| else width
    ensures AllDigits(s) ==> AllDigits(r) && StringToNumber(r) == StringToNumber(s)
  {
    if |s| >= width then s
    else
      var r := Zeros(width - |s|) + s;
      if AllDigits(s) then LeadingZerosIgnored(width - |s|, s); r else r
  }

  // ----- URL and key -----

  const AudioBase := "https://everyayah.com/data/Alafasy_128kbps/"

  /** `getAudioUrl(surah_number, ayah_number)`. */
  function GetAudioUrl(surahNumber: nat, ayahNumber: nat): (url: string)
    ensures |url| >= |AudioBase| + 10
    ensures url[..|AudioBase|] == AudioBase && url[|url| - 4..] == ".mp3"
  {
    AudioBase + PadStartZeros(NumberToString(surahNumber), 3) + PadStartZeros(NumberToString(ayahNumber), 3) + ".mp3"
  }

  /** For numbers up to 999 each segment is exactly three digits and reads back as the number. */
  lemma AudioUrlDecodes(surahNumber: nat, ayahNumber: nat)
    requires surahNumber < 1000 && ayahNumber < 1000
    ensures var url := GetAudioUrl(surahNumber, ayahNumber);
      var p := |AudioBase|;
      && |url| == p + 10
      && url[..p] == AudioBase
      && url[p + 6..] == ".mp3"
      && AllDigits(url[p..p + 3]) && StringToNumber(url[p..p + 3]) == surahNumber
      && AllDigits(url[p + 3..p + 6]) && StringToNumber(url[p + 3..p + 6]) == ayahNumber
  {
    var url := GetAudioUrl(surahNumber, ayahNumber);
    var p := |AudioBase|;
    var x := PadStartZeros(NumberToString(surahNumber), 3);
    var y := PadStartZeros(NumberToString(ayahNumber), 3);
    assert url == AudioBase + x + y + ".mp3";
    assert url[p..p + 3] == x && url[p + 3..p + 6] == y;
    NumberStringRoundTrip(surahNumber);
    NumberStringRoundTrip(ayahNumber);
  }

  /** Different ayahs with numbers up to 999 have different URLs. */
  lemma AudioUrlInjective(s1: nat, a1: nat, s2: nat, a2: nat)
    requires s1 < 1000 && a1 < 1000 && s2 < 1000 && a2 < 1000
    requires GetAudioUrl(s1, a1) == GetAudioUrl(s2, a2)
    ensures s1 == s2 && a1 == a2
  {
    AudioUrlDecodes(s1, a1);
    AudioUrlDecodes(s2, a2);
  }

  /** Past 999 the padding no longer fixes the segment width, and two ayahs can share a URL. */
  lemma AudioUrlAmbiguousPast999()
    ensures GetAudioUrl(100, 1001) == GetAudioUrl(1001, 1)
  {
    assert NumberToString(100) == "100";
    assert NumberToString(1001) == "1001";
    assert NumberToString(1) == "1";
    assert PadStartZeros("1", 3) == "001";
  }

  /** `ayaKey(sura, aya)`: `${sura}-${aya}`. */
  function AyaKey(sura: nat, aya: nat): (key: string)
    ensures |key| == |NumberToString(sura)| + 1 + |NumberToString(aya)|
    ensures key[|NumberToString(sura)|] == '-'
  {
    NumberToString(sura) + "-" + NumberToString(aya)
  }

  /** Distinct pairs of naturals give distinct keys: the dash sits right after the first
      number, since digits are never a dash. */
  lemma AyaKeyInjective(s1: nat, a1: nat, s2: nat, a2: nat)
    requires AyaKey(s1, a1) == AyaKey(s2, a2)
    ensures s1 == s2 && a1 == a2
  {
    var x1, y1 := NumberToString(s1), NumberToString(a1);
    var x2, y2 := NumberToString(s2), NumberToString(a2);
    var k := AyaKey(s1, a1);
    assert k == x1 + "-" + y1 && k == x2 + "-" + y2;
    assert k[|x1|] == '-' && k[|x2|] == '-';
    assert forall i :: 0 <= i < |x1| ==> k[i] == x1[i];
    assert forall i :: 0 <= i < |x2| ==> k[i] == x2[i];
    assert |x1| == |x2|;
    assert x1 == k[..|x1|] == x2;
    assert y1 == k[|x1| + 1..] == y2;
    NumberStringRoundTrip(s1);
    NumberStringRoundTrip(s2);
    NumberStringRoundTrip(a1);
    NumberStringRoundTrip(a2);
  }

  // ----- the playback slot -----

  /** What a transport call (`replace`, `play`, `pause`) does: completes, or throws. */
  datatype Transport = Succeeds | Fails

  /** `playingKey`, the source loaded into the player, and whether the player reports that it
      is playing (`status.playing`). */
  datatype PlayerState = PlayerState(playingKey: Option<string>, source: Option<string>, playing: bool)

  const Idle := PlayerState(None, None, false)

  /** `onPlayPause({surah_number, ayah_number})`. On the current key the player is paused or
      resumed and nothing is loaded; on another key its URL is loaded and played and the key
      becomes current; a transport failure clears the key. */
  function PlayPause(st: PlayerState, surahNumber: nat, ayahNumber: nat, t: Transport): (r: PlayerState)
    ensures t == Fails ==> r.playingKey.None?
    ensures t == Succeeds && st.playingKey == Some(AyaKey(surahNumber, ayahNumber)) ==>
      r.playingKey == st.playingKey && r.source == st.source && r.playing == !st.playing
    ensures t == Succeeds && st.playingKey != Some(AyaKey(surahNumber, ayahNumber)) ==>
      r == PlayerState(Some(AyaKey(surahNumber, ayahNumber)), Some(GetAudioUrl(surahNumber, ayahNumber)), true)
  {
    var key := AyaKey(surahNumber, ayahNumber);
    if t == Fails then
      st.(playingKey := None)
    else if st.playingKey == Some(key) then
      st.(playing := !st.playing)
    else
      PlayerState(Some(key), Some(GetAudioUrl(surahNumber, ayahNumber)), true)
  }

  /** A status report from the transport; when it says the track just finished the key is
      cleared (the `didJustFinish` effect). The effect runs when `didJustFinish` changes, so a
      report with `didJustFinish` set stands for the flag turning true: the end-of-track
      event. */
  function StatusUpdate(st: PlayerState, nowPlaying: bool, didJustFinish: bool): (r: PlayerState)
    ensures r.playing == nowPlaying && r.source == st.source
    ensures didJustFinish ==> r.playingKey.None?
    ensures !didJustFinish ==> r.playingKey == st.playingKey
  {
    st.(playing := nowPlaying, playingKey := if didJustFinish then None else st.playingKey)
  }

  /** `isPlaying` of App.tsx for a Quran card: its key is current and the player is playing. */
  function IsPlaying(st: PlayerState, surahNumber: nat, ayahNumber: nat): (b: bool)
    ensures b <==> st.playing && st.playingKey == Some(AyaKey(surahNumber, ayahNumber))
  {
    st.playingKey == Some(AyaKey(surahNumber, ayahNumber)) && st.playing
  }

  /** The key is null or names a pair that was asked for. */
  ghost predicate KeyRequested(st: PlayerState, requested: set<(nat, nat)>) {
    st.playingKey.Some? ==> exists p :: p in requested && AyaKey(p.0, p.1) == st.playingKey.value
  }

  /** The loaded source is the URL of the ayah the key names. */
  ghost predicate SourceMatchesKey(st: PlayerState) {
    forall s: nat, a: nat :: st.playingKey == Some(AyaKey(s, a)) ==> st.source == Some(GetAudioUrl(s, a))
  }

  /** Both invariants survive every play/pause request. */
  lemma PlayPauseKeepsInvariants(st: PlayerState, requested: set<(nat, nat)>, surahNumber: nat, ayahNumber: nat,
                                 t: Transport)
    requires KeyRequested(st, requested) && SourceMatchesKey(st)
    ensures var r := PlayPause(st, surahNumber, ayahNumber, t);
      KeyRequested(r, requested + {(surahNumber, ayahNumber)}) && SourceMatchesKey(r)
  {
    var r := PlayPause(st, surahNumber, ayahNumber, t);
    var key := AyaKey(surahNumber, ayahNumber);
    if t == Succeeds && st.playingKey != Some(key) {
      assert (surahNumber, ayahNumber) in requested + {(surahNumber, ayahNumber)};
      forall s: nat, a: nat | r.playingKey == Some(AyaKey(s, a))
        ensures r.source == Some(GetAudioUrl(s, a))
      {
        AyaKeyInjective(s, a, surahNumber, ayahNumber);
      }
    }
  }

  /** Both invariants survive every status report. */
  lemma StatusUpdateKeepsInvariants(st: PlayerState, requested: set<(nat, nat)>, nowPlaying: bool, didJustFinish: bool)
    requires KeyRequested(st, requested) && SourceMatchesKey(st)
    ensures var r := StatusUpdate(st, nowPlaying, didJustFinish);
      KeyRequested(r, requested) && SourceMatchesKey(r)
  {
  }

  /** Pressing play/pause twice on the current ayah gives back the same state. */
  lemma SameKeyTwiceRestores(st: PlayerState, surahNumber: nat, ayahNumber: nat)
    requires st.playingKey == Some(AyaKey(surahNumber, ayahNumber))
    ensures PlayPause(PlayPause(st, surahNumber, ayahNumber, Succeeds), surahNumber, ayahNumber, Succeeds) == st
  {
  }

  /** Starting another ayah plays it; a second press pauses it and keeps it loaded. */
  lemma NewKeyPlaysThenPauses(st: PlayerState, surahNumber: nat, ayahNumber: nat)
    requires st.playingKey != Some(AyaKey(surahNumber, ayahNumber))
    ensures var once := PlayPause(st, surahNumber, ayahNumber, Succeeds);
      IsPlaying(once, surahNumber, ayahNumber) &&
      once.source == Some(GetAudioUrl(surahNumber, ayahNumber))
    ensures var twice := PlayPause(PlayPause(st, surahNumber, ayahNumber, Succeeds), surahNumber, ayahNumber, Succeeds);
      !IsPlaying(twice, surahNumber, ayahNumber) &&
      twice.playingKey == Some(AyaKey(surahNumber, ayahNumber)) &&
      twice.source == Some(GetAudioUrl(surahNumber, ayahNumber))
  {
  }

  /** At most one ayah is reported as playing. */
  lemma AtMostOnePlaying(st: PlayerState, s1: nat, a1: nat, s2: nat, a2: nat)
    requires IsPlaying(st, s1, a1) && IsPlaying(st, s2, a2)
    ensures s1 == s2 && a1 == a2
  {
    AyaKeyInjective(s1, a1, s2, a2);
  }

  /** After a failure or the end of a track no ayah is reported as playing. */
  lemma NothingPlaysAfterErrorOrFinish(st: PlayerState, surahNumber: nat, ayahNumber: nat, s: nat, a: nat,
                                       nowPlaying: bool)
    ensures !IsPlaying(PlayPause(st, surahNumber, ayahNumber, Fails), s, a)
    ensures !IsPlaying(StatusUpdate(st, nowPlaying, true), s, a)
  {
  }

  /** The hook's state: the `playingKey` slot and the player. */
  class AudioController {
    var playingKey: Option<string>
    var source: Option<string>
    var playing: bool
    /** Every pair ever passed to `onPlayPause`. */
    ghost var requested: set<(nat, nat)>

    function State(): PlayerState
      reads this
    {
      PlayerState(playingKey, source, playing)
    }

    ghost predicate Valid()
      reads this
    {
      KeyRequested(State(), requested) && SourceMatchesKey(State())
    }

    constructor ()
      ensures Valid() && State() == Idle && requested == {}
    {
      playingKey, source, playing := None, None, false;
      requested := {};
    }

    /** `onPlayPause`, one transport outcome given. */
    method OnPlayPause(surahNumber: nat, ayahNumber: nat, t: Transport)
      requires Valid()
      modifies this
      ensures Valid()
      ensures State() == PlayPause(old(State()), surahNumber, ayahNumber, t)
      ensures requested == old(requested) + {(surahNumber, ayahNumber)}
    {
      ghost var next := PlayPause(State(), surahNumber, ayahNumber, t);
      PlayPauseKeepsInvariants(State(), requested, surahNumber, ayahNumber, t);
      requested := requested + {(surahNumber, ayahNumber)};
      var key := AyaKey(surahNumber, ayahNumber);
      if playingKey == Some(key) {
        if t == Fails {
          playingKey := None;
        } else {
          playing := !playing;
        }
      } else if t == Fails {
        playingKey := None;
      } else {
        source := Some(GetAudioUrl(surahNumber, ayahNumber));
        playing := true;
        playingKey := Some(key);
      }
      assert State() == next;
    }

    /** A status report from the player, with the `didJustFinish` effect. */
    method OnStatusUpdate(nowPlaying: bool, didJustFinish: bool)
      requires Valid()
      modifies this
      ensures Valid()
      ensures State() == StatusUpdate(old(State()), nowPlaying, didJustFinish)
      ensures requested == old(requested)
    {
      StatusUpdateKeepsInvariants(State(), requested, nowPlaying, didJustFinish);
      playing := nowPlaying;
      if didJustFinish {
        playingKey := None;
      }
    }
  }
}
