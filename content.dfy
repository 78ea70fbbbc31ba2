/** The read-only content tables and their lookups (src/utils/dataLoader.ts, with the
    record shapes of src/types/index.ts). The bundled ayah.json is an object keyed by ayah
    id and surah.json one keyed by surah number; both are given here as maps. */
module Content {
  import opened Wrappers

  /** An entry of ayah.json, with the JSON field names. */
  datatype RawAyah = RawAyah(id: int, text: string, ayah_number: nat, surah_number: nat, verse_key: string)

  /** An entry of surah.json. */
  datatype RawSurah = RawSurah(id: int, name: string, name_arabic: string, name_simple: string)

  /** `Ayah` as the loader builds it; the optional `tafseer`/`meanings` fields of the type are
      never filled in by the loader and are not modelled. */
  datatype Ayah = Ayah(id: int, text: string, ayahNumber: nat, surahNumber: nat, verseKey: string)

  datatype Surah = Surah(id: int, name: string, nameArabic: string, nameSimple: string)

  datatype AyahWithSurah = AyahWithSurah(ayah: Ayah, surah: Surah)

  /** A hadith record. The loader that produces these is not part of this model; a hadith is
      received as an input wherever the feed needs one. */
  datatype Hadith = Hadith(id: int, arabicText: string, englishNarrator: string, englishText: string)

  /** The two bundled tables. */
  datatype Tables = Tables(ayahData: map<nat, RawAyah>, surahMap: map<nat, RawSurah>)

  // ----- Object.values: values in ascending order of their integer keys -----

  /** `m` is the least element of `ks`. */
  predicate IsLeast(m: nat, ks: set<nat>) {
    m in ks && forall k :: k in ks ==> m <= k
  }

  /** Every non-empty finite set of naturals has a least element. */
  lemma {:induction false} LeastExists(ks: set<nat>)
    requires ks != {}
    ensures exists m :: IsLeast(m, ks)
    decreases ks
  {
    var x :| x in ks;
    var rest := ks - {x};
    if rest == {} {
      assert ks == {x};
      assert IsLeast(x, ks);
    } else {
      LeastExists(rest);
      var m :| IsLeast(m, rest);
      var least := if x < m then x else m;
      forall k | k in ks
        ensures least <= k
      {
        if k != x {
          assert k in rest;
        }
      }
      assert IsLeast(least, ks);
    }
  }

  function Least(ks: set<nat>): (m: nat)
    requires ks != {}
    ensures IsLeast(m, ks)
  {
    LeastExists(ks);
    var m :| IsLeast(m, ks);
    m
  }

  /** The keys of a JSON object with integer keys, in the order `Object.values` visits them. */
  function SortedKeys(ks: set<nat>): (r: seq<nat>)
    ensures |r| == |ks|
    ensures forall i :: 0 <= i < |r| ==> r[i] in ks
    ensures forall k :: k in ks ==> k in r
    ensures forall i, j :: 0 <= i < j < |r| ==> r[i] < r[j]
    decreases ks
  {
    if ks == {} then []
    else
      var m := Least(ks);
      [m] + SortedKeys(ks - {m})
  }

  /** `Object.values(m)`. */
  function ObjectValues<V>(m: map<nat, V>): (r: seq<V>)
    ensures |r| == |m|
    ensures forall i :: 0 <= i < |r| ==> r[i] == m[SortedKeys(m.Keys)[i]]
  {
    var keys := SortedKeys(m.Keys);
    assert |m.Keys| == |m|;
    seq(|keys|, i requires 0 <= i < |keys| => assert keys[i] in m.Keys; m[keys[i]])
  }

  // ----- field-for-field conversions -----

  function ToAyah(raw: RawAyah): Ayah {
    Ayah(raw.id, raw.text, raw.ayah_number, raw.surah_number, raw.verse_key)
  }

  function ToSurah(raw: RawSurah): Surah {
    Surah(raw.id, raw.name, raw.name_arabic, raw.name_simple)
  }

  /** The inverse conversions, used to state that no field is lost or altered. */
  function FromAyah(a: Ayah): RawAyah {
    RawAyah(a.id, a.text, a.ayahNumber, a.surahNumber, a.verseKey)
  }

  function FromSurah(s: Surah): RawSurah {
    RawSurah(s.id, s.name, s.nameArabic, s.nameSimple)
  }

  /** Builds the result of a lookup from a raw ayah: its surah is `surahMap[surah_number]`,
      and reading a field of a missing surah throws. */
  function Join(t: Tables, raw: RawAyah): (r: Result<AyahWithSurah>)
    ensures r.Ok? <==> raw.surah_number in t.surahMap
    ensures r.Ok? ==> FromAyah(r.value.ayah) == raw
    ensures r.Ok? ==> FromSurah(r.value.surah) == t.surahMap[raw.surah_number]
  {
    if raw.surah_number in t.surahMap then
      Ok(AyahWithSurah(ToAyah(raw), ToSurah(t.surahMap[raw.surah_number])))
    else
      Fail("surah of the ayah is undefined")
  }

  // ----- the loader's exports -----

  /** `getAyahById`: `null` exactly when the table has no entry under `id`; otherwise the
      entry converted and joined with its surah (which throws when that surah is missing). */
  function GetAyahById(t: Tables, id: int): (r: Result<Option<AyahWithSurah>>)
    ensures r == Ok(None) <==> !(id >= 0 && id in t.ayahData)
    ensures r.Fail? <==> id >= 0 && id in t.ayahData && t.ayahData[id].surah_number !in t.surahMap
    ensures r.Ok? && r.value.Some? ==>
      id >= 0 && id in t.ayahData &&
      FromAyah(r.value.value.ayah) == t.ayahData[id] &&
      FromSurah(r.value.value.surah) == t.surahMap[t.ayahData[id].surah_number]
  {
    if id >= 0 && id in t.ayahData then
      match Join(t, t.ayahData[id])
      case Ok(found) => Ok(Some(found))
      case Fail(why) => Fail(why)
    else
      Ok(None)
  }

  /** The index `Math.floor(Math.random() * n)` can take: below `n`, and 0 when `n` is 0. */
  predicate ValidDraw(draw: nat, n: nat) {
    draw < n || (n == 0 && draw == 0)
  }

  /** `getRandomAyah` with its random index given as `draw`: the same conversion applied to the
      entry at that position of `Object.values(ayahData)`. With no ayahs at all the entry is
      `undefined` and reading its surah number throws. */
  function GetRandomAyah(t: Tables, draw: nat): (r: Result<AyahWithSurah>)
    requires ValidDraw(draw, |t.ayahData|)
    ensures |t.ayahData| == 0 ==> r.Fail?
    ensures |t.ayahData| > 0 ==>
      var key := SortedKeys(t.ayahData.Keys)[draw];
      key in t.ayahData && (r.Ok? <==> t.ayahData[key].surah_number in t.surahMap)
    ensures r.Ok? ==>
      var key := SortedKeys(t.ayahData.Keys)[draw];
      key in t.ayahData &&
      FromAyah(r.value.ayah) == t.ayahData[key] &&
      GetAyahById(t, key) == Ok(Some(r.value))
  {
    var ayahArray := ObjectValues(t.ayahData);
    if draw < |ayahArray| then Join(t, ayahArray[draw])
    else Fail("ayah is undefined")
  }

  /** `getTotalAyahCount`. */
  function GetTotalAyahCount(t: Tables): (n: nat)
    ensures n == |t.ayahData.Keys|
  {
    assert |t.ayahData.Keys| == |t.ayahData|;
    |ObjectValues(t.ayahData)|
  }

  /** `getAllSurahs`: one converted surah per entry of the surah table, in key order. */
  function GetAllSurahs(t: Tables): (r: seq<Surah>)
    ensures |r| == |t.surahMap.Keys|
    ensures forall i :: 0 <= i < |r| ==> FromSurah(r[i]) == t.surahMap[SortedKeys(t.surahMap.Keys)[i]]
  {
    var values := ObjectValues(t.surahMap);
    assert |t.surahMap.Keys| == |t.surahMap|;
    seq(|values|, i requires 0 <= i < |values| => ToSurah(values[i]))
  }

  /** No surah is left out of `getAllSurahs`. */
  lemma AllSurahsComplete(t: Tables, k: nat)
    requires k in t.surahMap
    ensures ToSurah(t.surahMap[k]) in GetAllSurahs(t)
  {
    var keys := SortedKeys(t.surahMap.Keys);
    var i :| 0 <= i < |keys| && keys[i] == k;
    var all := GetAllSurahs(t);
    assert FromSurah(all[i]) == t.surahMap[k];
    assert all[i] == ToSurah(t.surahMap[k]);
  }

  /** The conversions lose nothing. */
  lemma ConversionsRoundTrip(raw: RawAyah, s: RawSurah)
    ensures FromAyah(ToAyah(raw)) == raw && FromSurah(ToSurah(s)) == s
  {
  }
}
