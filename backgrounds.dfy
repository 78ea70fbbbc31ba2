/** The fixed list of card backgrounds (src/constants/images.ts). Each entry is the file
    name of a bundled image; the image itself is an opaque asset. */
module Backgrounds {
  import opened Wrappers

  const BackgroundCount: nat := 55

  /** BACKGROUND_IMAGES, in the order of the manifest. */
  const BackgroundImages: seq<string> := [
    "ahmet-kagan-hancer-FFhJCVaFuO0-unsplash.jpg",
    "alexandr-hovhannisyan-x690jpFNMHE-unsplash.jpg",
    "andrew-lancaster-9lWLanbynH0-unsplash.jpg",
    "annie-spratt-Ufa495Wz0x8-unsplash.jpg",
    "annie-spratt-wuc-KEIBrdE-unsplash.jpg",
    "ashkan-forouzani-sWui4HlGXiI-unsplash.jpg",
    "ashkan-forouzani-xiHAseekqqw-unsplash.jpg",
    "ayse-bek-YLdYVzHopto-unsplash.jpg",
    "birmingham-museums-trust-BPWZ01FtySg-unsplash.jpg",
    "boim-H_6zuSsHMNo-unsplash.jpg",
    "daniel-burka-oR9ZisoF_NE-unsplash.jpg",
    "daniel-olah-2lMK4dgqwFM-unsplash.jpg",
    "ekrem-osmanoglu-FLFjAn3gQI8-unsplash.jpg",
    "fahrul-azmi-5K549TS6F08-unsplash.jpg",
    "fahrul-azmi-gyKmF0vnfBs-unsplash.jpg",
    "fatih-yurur-kNSREmtaGOE-unsplash.jpg",
    "girl-with-red-hat-YQXLO2cvjYg-unsplash.jpg",
    "haidan-Qec3HPaHWTI-unsplash.jpg",
    "hasan-almasi-6M3_19hsDaw-unsplash.jpg",
    "hasan-almasi-n-BplEBjZfc-unsplash.jpg",
    "huilin-dai-yI_c35jgxYI-unsplash.jpg",
    "hushaan-fromtinyisles-EWtprB5HAL0-unsplash.jpg",
    "imad-alassiry-QyE_fgU2Ofs-unsplash.jpg",
    "imad-alassiry-kbqiX4da1fA-unsplash.jpg",
    "isak-gundrosen-dVCivGs0bj0-unsplash.jpg",
    "ishan-seefromthesky-66Tu10CxYY0-unsplash.jpg",
    "izuddin-helmi-adnan-JFirQekVo3U-unsplash.jpg",
    "izuddin-helmi-adnan-onh-FdFUyeM-unsplash.jpg",
    "jonathan-takle-6-LA_PIySJ4-unsplash.jpg",
    "juan-camilo-guarin-p-QWByC_hnf64-unsplash.jpg",
    "kareem-saleh-SpW9xtgGokM-unsplash.jpg",
    "levi-meir-clancy-11pYd78qMwY-unsplash.jpg",
    "masjid-pogung-dalangan-QOkrWM-WtOg-unsplash.jpg",
    "mayur-k8oak9BhX7M-unsplash.jpg",
    "mosquegrapher-uouvblwaQs4-unsplash.jpg",
    "muhammad-irfan-baloch-QEcvxkXWp0c-unsplash.jpg",
    "muhammed-a-mustapha-aaIsU06zWrg-unsplash.jpg",
    "muhsin-ck-8BcNsqDJy2I-unsplash.jpg",
    "nick-fewings-F_RkoI39JX4-unsplash.jpg",
    "nick-fewings-ZcBY_mxVBCE-unsplash.jpg",
    "nouman-younas-6Ppkk8rIhvk-unsplash.jpg",
    "raimond-klavins-SyPG3HSSayY-unsplash.jpg",
    "rawan-yasser-Y-joaXX7XCQ-unsplash.jpg",
    "rizky-andar-7FldJVOe2DM-unsplash.jpg",
    "rumman-amin-i1bfxi1cFBY-unsplash.jpg",
    "ryan-miglinczy-fQtFfvedV-8-unsplash.jpg",
    "sebastian-yepes-3NTpsPyFZlQ-unsplash.jpg",
    "sheraz-nazar-KfpTd2B5vV4-unsplash.jpg",
    "sheraz-nazar-XTx8EaDgrXw-unsplash.jpg",
    "sidik-kurniawan-hiFpJqA4FcE-unsplash.jpg",
    "sinan-toy-s8xjo4yjnHc-unsplash.jpg",
    "untung-bekti-nugroho-6Aa4EeZTdqw-unsplash.jpg",
    "vincent-marcini-c1QVYdg5_io-unsplash.jpg",
    "yasmine-arfaoui-R6rh5ttDO-4-unsplash.jpg",
    "zosia-szopka-j5HQf4MpXZQ-unsplash.jpg"
  ]

  /** The manifest holds 55 images. */
  lemma BackgroundListSize()
    ensures |BackgroundImages| == BackgroundCount == 55
  {
  }

  /** What `getRandomBackground` returns: an image and its position in the list. */
  datatype Picked = Picked(source: string, index: nat)

  /** `getRandomBackground`: `draw` is `Math.floor(Math.random() * 55)`, so it is below 55. */
  function GetRandomBackground(draw: nat): (r: Picked)
    requires draw < |BackgroundImages|
    ensures r.index == draw && r.index < BackgroundCount
    ensures GetBackgroundByIndex(r.index) == Some(r.source)
  {
    Picked(BackgroundImages[draw], draw)
  }

  /** JavaScript's `%`: the remainder takes the sign of the dividend. */
  function TruncatedRem(a: int, n: nat): (r: int)
    requires n > 0
    ensures a >= 0 ==> 0 <= r < n
    ensures a < 0 ==> -(n as int) < r <= 0
  {
    if a >= 0 then a % n else -((-a) % n)
  }

  /** `getBackgroundByIndex`: `BACKGROUND_IMAGES[index % 55]`. A negative index gives a
      negative remainder and so `undefined`, except for multiples of 55, whose remainder
      `-0` reads element "0". */
  function GetBackgroundByIndex(index: int): (r: Option<string>)
    ensures index >= 0 ==> r == Some(BackgroundImages[index % BackgroundCount])
    ensures r.None? <==> index < 0 && index % BackgroundCount != 0
    ensures index < 0 && index % BackgroundCount == 0 ==> r == Some(BackgroundImages[0])
    ensures r.Some? ==> r.value in BackgroundImages
  {
    var k := TruncatedRem(index, |BackgroundImages|);
    if k >= 0 then Some(BackgroundImages[k]) else None
  }

  /** For a position of the list, the lookup is that entry. */
  lemma ByIndexInRange(i: int)
    requires 0 <= i < BackgroundCount
    ensures GetBackgroundByIndex(i) == Some(BackgroundImages[i])
  {
  }

  /** Wrap-around: for non-negative indices the lookup has period 55. */
  lemma ByIndexPeriodic(i: int)
    requires i >= 0
    ensures GetBackgroundByIndex(i + BackgroundCount) == GetBackgroundByIndex(i)
  {
    assert (i + BackgroundCount) % BackgroundCount == i % BackgroundCount;
  }

  /** The period stops at zero: index -1 is `undefined` although 54 is an image. */
  lemma ByIndexNotPeriodicBelowZero()
    ensures GetBackgroundByIndex(-1).None?
    ensures GetBackgroundByIndex(-1 + BackgroundCount).Some?
  {
  }
}
