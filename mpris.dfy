/**
 * `Metadata` of the vendored mpris-player crate (metadata.rs): the track
 * description sent over D-Bus, and `to_hashmap`, which turns its optional
 * fields into the key/value map of the MPRIS `Metadata` property.
 */
module Mpris {
  import opened Wrappers
  import Text

  newtype I64 = x: int | -0x8000_0000_0000_0000 <= x < 0x8000_0000_0000_0000
  newtype I32 = x: int | -0x8000_0000 <= x < 0x8000_0000

  /** The `Variant` values the map holds: a string, a list of strings, or a 32-bit integer. */
  datatype Variant = Text(s: string) | Texts(ss: seq<string>) | Int32(n: I32)

  /** `Metadata` */
  datatype Metadata = Metadata(
    length: Option<I64>,
    artUrl: Option<string>,
    album: Option<string>,
    albumArtist: Option<seq<string>>,
    artist: Option<seq<string>>,
    composer: Option<seq<string>>,
    discNumber: Option<I32>,
    genre: Option<seq<string>>,
    title: Option<string>,
    trackNumber: Option<I32>,
    url: Option<string>)

  /** `Metadata::new()`, which is `Metadata::default()`. */
  function New(): Metadata {
    Metadata(None, None, None, None, None, None, None, None, None, None, None)
  }

  const LENGTH := "mpris:length"
  const ART_URL := "mpris:artUrl"
  const ALBUM := "xesam:album"
  const ALBUM_ARTIST := "xesam:albumArtist"
  const ARTIST := "xesam:artist"
  const COMPOSER := "xesam:composer"
  const DISC_NUMBER := "xesam:discNumber"
  const GENRE := "xesam:genre"
  const TITLE := "xesam:title"
  const TRACK_NUMBER := "xesam:trackNumber"
  const URL := "xesam:url"

  /** How many keys `to_hashmap` can write. */
  const KEY_COUNT: nat := 11

  /** The key `to_hashmap` writes in its `i`-th guarded insert. */
  function Key(i: nat): string
    requires i < KEY_COUNT
  {
    match i
    case 0 => LENGTH
    case 1 => ART_URL
    case 2 => ALBUM
    case 3 => ALBUM_ARTIST
    case 4 => ARTIST
    case 5 => COMPOSER
    case 6 => DISC_NUMBER
    case 7 => GENRE
    case 8 => TITLE
    case 9 => TRACK_NUMBER
    case 10 => URL
  }

  /** The keys `to_hashmap` can write, in the order it writes them. */
  function Keys(): (r: seq<string>)
    ensures |r| == KEY_COUNT
  {
    seq(KEY_COUNT, i requires 0 <= i < KEY_COUNT => Key(i))
  }

  ghost predicate Distinct<K>(keys: seq<K>) {
    forall i, j :: 0 <= i < j < |keys| ==> keys[i] != keys[j]
  }

  /** No key is written twice. */
  lemma KeysDistinct()
    ensures Distinct(Keys())
  {
    forall i, j | 0 <= i < j < |Keys()|
      ensures Keys()[i] != Keys()[j]
    {
      assert |Key(i)| != |Key(j)| || Key(i)[0] != Key(j)[0] || Key(i)[6] != Key(j)[6];
    }
  }

  function TextOf(v: Option<string>): Option<Variant> {
    if v.Some? then Some(Text(v.value)) else None
  }

  function TextsOf(v: Option<seq<string>>): Option<Variant> {
    if v.Some? then Some(Texts(v.value)) else None
  }

  function Int32Of(v: Option<I32>): Option<Variant> {
    if v.Some? then Some(Int32(v.value)) else None
  }

  /** What the field behind `Key(i)` contributes, if it is set; the length goes as its decimal text. */
  function EntryAt(m: Metadata, i: nat): Option<Variant>
    requires i < KEY_COUNT
  {
    match i
    case 0 => if m.length.Some? then Some(Text(Text.IntToString(m.length.value as int))) else None
    case 1 => TextOf(m.artUrl)
    case 2 => TextOf(m.album)
    case 3 => TextsOf(m.albumArtist)
    case 4 => TextsOf(m.artist)
    case 5 => TextsOf(m.composer)
    case 6 => Int32Of(m.discNumber)
    case 7 => TextsOf(m.genre)
    case 8 => TextOf(m.title)
    case 9 => Int32Of(m.trackNumber)
    case 10 => TextOf(m.url)
  }

  /** What each field contributes under its key, in the order of `Keys()`. */
  function Entries(m: Metadata): (r: seq<Option<Variant>>)
    ensures |r| == |Keys()|
  {
    seq(KEY_COUNT, i requires 0 <= i < KEY_COUNT => EntryAt(m, i))
  }

  /** The map after the guarded inserts of the first `n` keys: key `keys[i]` gets `values[i]` when there is one. */
  function Inserted<K(==), V>(keys: seq<K>, values: seq<Option<V>>, n: nat): map<K, V>
    requires n <= |keys| == |values|
  {
    if n == 0 then map[]
    else
      var before := Inserted(keys, values, n - 1);
      if values[n - 1].Some? then before[keys[n - 1] := values[n - 1].value] else before
  }

  /** The map `to_hashmap` returns. */
  function MetadataMap(m: Metadata): map<string, Variant> {
    Inserted(Keys(), Entries(m), |Keys()|)
  }

  /** `Metadata::to_hashmap` */
  method ToHashmap(m: Metadata) returns (metadata: map<string, Variant>)
    ensures metadata == MetadataMap(m)
  {
    metadata := map[];
    assert metadata == Inserted(Keys(), Entries(m), 0);
    metadata := if m.length.Some? then metadata[LENGTH := Text(Text.IntToString(m.length.value as int))] else metadata;
    assert metadata == Inserted(Keys(), Entries(m), 1);
    metadata := if m.artUrl.Some? then metadata[ART_URL := Text(m.artUrl.value)] else metadata;
    assert metadata == Inserted(Keys(), Entries(m), 2);
    metadata := if m.album.Some? then metadata[ALBUM := Text(m.album.value)] else metadata;
    assert metadata == Inserted(Keys(), Entries(m), 3);
    metadata := if m.albumArtist.Some? then metadata[ALBUM_ARTIST := Texts(m.albumArtist.value)] else metadata;
    assert metadata == Inserted(Keys(), Entries(m), 4);
    metadata := if m.artist.Some? then metadata[ARTIST := Texts(m.artist.value)] else metadata;
    assert metadata == Inserted(Keys(), Entries(m), 5);
    metadata := if m.composer.Some? then metadata[COMPOSER := Texts(m.composer.value)] else metadata;
    assert metadata == Inserted(Keys(), Entries(m), 6);
    metadata := if m.discNumber.Some? then metadata[DISC_NUMBER := Int32(m.discNumber.value)] else metadata;
    assert metadata == Inserted(Keys(), Entries(m), 7);
    metadata := if m.genre.Some? then metadata[GENRE := Texts(m.genre.value)] else metadata;
    assert metadata == Inserted(Keys(), Entries(m), 8);
    metadata := if m.title.Some? then metadata[TITLE := Text(m.title.value)] else metadata;
    assert metadata == Inserted(Keys(), Entries(m), 9);
    metadata := if m.trackNumber.Some? then metadata[TRACK_NUMBER := Int32(m.trackNumber.value)] else metadata;
    assert metadata == Inserted(Keys(), Entries(m), 10);
    metadata := if m.url.Some? then metadata[URL := Text(m.url.value)] else metadata;
  }

  /** How many of the first `n` values are present. */
  function Count<V>(values: seq<Option<V>>, n: nat): nat
    requires n <= |values|
  {
    if n == 0 then 0 else Count(values, n - 1) + Present(values[n - 1])
  }

  /**
   * With distinct keys, the first `n` inserts hold exactly the keys that
   * have a value, each with its value, and nothing else.
   */
  lemma {:induction false} InsertedHolds<K, V>(keys: seq<K>, values: seq<Option<V>>, n: nat)
    requires n <= |keys| == |values| && Distinct(keys)
    ensures forall i :: 0 <= i < n ==> (keys[i] in Inserted(keys, values, n) <==> values[i].Some?)
    ensures forall i :: 0 <= i < n && values[i].Some? ==> Inserted(keys, values, n)[keys[i]] == values[i].value
    ensures forall k :: k in Inserted(keys, values, n) ==> k in keys[..n]
    ensures |Inserted(keys, values, n)| == Count(values, n)
  {
    if n > 0 {
      InsertedHolds(keys, values, n - 1);
      assert keys[n - 1] !in keys[..n - 1];
      assert forall k :: k in keys[..n - 1] ==> k in keys[..n];
    }
  }

  /** The size part of `InsertedHolds` on its own. */
  lemma InsertedSize<K, V>(keys: seq<K>, values: seq<Option<V>>, n: nat)
    requires n <= |keys| == |values| && Distinct(keys)
    ensures |Inserted(keys, values, n)| == Count(values, n)
  {
    InsertedHolds(keys, values, n);
  }

  /** Whether a field is set, as a count. */
  function Present<T>(o: Option<T>): nat {
    if o.Some? then 1 else 0
  }

  /** The number of fields of `m` that are set. */
  function SetFields(m: Metadata): nat {
    Present(m.length) + Present(m.artUrl) + Present(m.album) + Present(m.albumArtist) + Present(m.artist)
    + Present(m.composer) + Present(m.discNumber) + Present(m.genre) + Present(m.title)
    + Present(m.trackNumber) + Present(m.url)
  }

  /** The `i`-th key is in the map exactly when its entry is present, with the entry's value. */
  lemma KeyAt(m: Metadata, i: nat)
    requires i < KEY_COUNT
    ensures Key(i) in MetadataMap(m) <==> EntryAt(m, i).Some?
    ensures EntryAt(m, i).Some? ==> MetadataMap(m)[Key(i)] == EntryAt(m, i).value
  {
    KeysDistinct();
    InsertedHolds(Keys(), Entries(m), |Keys()|);
    assert Keys()[i] == Key(i) && Entries(m)[i] == EntryAt(m, i);
  }

  /** Each key is in the map exactly when its field is set. */
  lemma MetadataMapKeys(m: Metadata)
    ensures LENGTH in MetadataMap(m) <==> m.length.Some?
    ensures ART_URL in MetadataMap(m) <==> m.artUrl.Some?
    ensures ALBUM in MetadataMap(m) <==> m.album.Some?
    ensures ALBUM_ARTIST in MetadataMap(m) <==> m.albumArtist.Some?
    ensures ARTIST in MetadataMap(m) <==> m.artist.Some?
    ensures COMPOSER in MetadataMap(m) <==> m.composer.Some?
    ensures DISC_NUMBER in MetadataMap(m) <==> m.discNumber.Some?
    ensures GENRE in MetadataMap(m) <==> m.genre.Some?
    ensures TITLE in MetadataMap(m) <==> m.title.Some?
    ensures TRACK_NUMBER in MetadataMap(m) <==> m.trackNumber.Some?
    ensures URL in MetadataMap(m) <==> m.url.Some?
  {
    KeyAt(m, 0); KeyAt(m, 1); KeyAt(m, 2); KeyAt(m, 3); KeyAt(m, 4); KeyAt(m, 5);
    KeyAt(m, 6); KeyAt(m, 7); KeyAt(m, 8); KeyAt(m, 9); KeyAt(m, 10);
  }

  /** Nothing but the eleven keys ever goes into the map. */
  lemma MetadataMapOnlyKeys(m: Metadata)
    ensures forall k :: k in MetadataMap(m) ==> k in Keys()
  {
    KeysDistinct();
    InsertedHolds(Keys(), Entries(m), |Keys()|);
    assert Keys()[..|Keys()|] == Keys();
  }

  /** The length goes in as its decimal text and every other field as itself. */
  lemma MetadataMapValues(m: Metadata)
    ensures m.length.Some? ==> LENGTH in MetadataMap(m) && MetadataMap(m)[LENGTH] == Text(Text.IntToString(m.length.value as int))
    ensures m.artUrl.Some? ==> ART_URL in MetadataMap(m) && MetadataMap(m)[ART_URL] == Text(m.artUrl.value)
    ensures m.album.Some? ==> ALBUM in MetadataMap(m) && MetadataMap(m)[ALBUM] == Text(m.album.value)
    ensures m.albumArtist.Some? ==> ALBUM_ARTIST in MetadataMap(m) && MetadataMap(m)[ALBUM_ARTIST] == Texts(m.albumArtist.value)
    ensures m.artist.Some? ==> ARTIST in MetadataMap(m) && MetadataMap(m)[ARTIST] == Texts(m.artist.value)
    ensures m.composer.Some? ==> COMPOSER in MetadataMap(m) && MetadataMap(m)[COMPOSER] == Texts(m.composer.value)
    ensures m.discNumber.Some? ==> DISC_NUMBER in MetadataMap(m) && MetadataMap(m)[DISC_NUMBER] == Int32(m.discNumber.value)
    ensures m.genre.Some? ==> GENRE in MetadataMap(m) && MetadataMap(m)[GENRE] == Texts(m.genre.value)
    ensures m.title.Some? ==> TITLE in MetadataMap(m) && MetadataMap(m)[TITLE] == Text(m.title.value)
    ensures m.trackNumber.Some? ==> TRACK_NUMBER in MetadataMap(m) && MetadataMap(m)[TRACK_NUMBER] == Int32(m.trackNumber.value)
    ensures m.url.Some? ==> URL in MetadataMap(m) && MetadataMap(m)[URL] == Text(m.url.value)
  {
    KeyAt(m, 0); KeyAt(m, 1); KeyAt(m, 2); KeyAt(m, 3); KeyAt(m, 4); KeyAt(m, 5);
    KeyAt(m, 6); KeyAt(m, 7); KeyAt(m, 8); KeyAt(m, 9); KeyAt(m, 10);
  }

  /** Proof step for MetadataMapSize: counts the present values among eleven, one at a time. */
  lemma CountEleven<V>(values: seq<Option<V>>)
    requires |values| == 11
    ensures Count(values, 11) == Present(values[0]) + Present(values[1]) + Present(values[2]) + Present(values[3])
      + Present(values[4]) + Present(values[5]) + Present(values[6]) + Present(values[7]) + Present(values[8])
      + Present(values[9]) + Present(values[10])
  {
    assert Count(values, 1) == Present(values[0]);
    assert Count(values, 2) == Count(values, 1) + Present(values[1]);
    assert Count(values, 3) == Count(values, 2) + Present(values[2]);
    assert Count(values, 4) == Count(values, 3) + Present(values[3]);
    assert Count(values, 5) == Count(values, 4) + Present(values[4]);
    assert Count(values, 6) == Count(values, 5) + Present(values[5]);
    assert Count(values, 7) == Count(values, 6) + Present(values[6]);
    assert Count(values, 8) == Count(values, 7) + Present(values[7]);
    assert Count(values, 9) == Count(values, 8) + Present(values[8]);
    assert Count(values, 10) == Count(values, 9) + Present(values[9]);
  }

  /** The map has one entry per set field. */
  lemma MetadataMapSize(m: Metadata)
    ensures |MetadataMap(m)| == SetFields(m)
  {
    var values := Entries(m);
    KeysDistinct();
    InsertedSize(Keys(), values, |Keys()|);
    CountEleven(values);
    assert Present(values[0]) == Present(m.length) && Present(values[1]) == Present(m.artUrl);
    assert Present(values[2]) == Present(m.album) && Present(values[3]) == Present(m.albumArtist);
    assert Present(values[4]) == Present(m.artist) && Present(values[5]) == Present(m.composer);
    assert Present(values[6]) == Present(m.discNumber) && Present(values[7]) == Present(m.genre);
    assert Present(values[8]) == Present(m.title) && Present(values[9]) == Present(m.trackNumber);
    assert Present(values[10]) == Present(m.url);
  }

  /** `to_hashmap` of `Metadata::new()` is empty. */
  lemma NewMapIsEmpty()
    ensures MetadataMap(New()) == map[]
  {
    MetadataMapSize(New());
  }
}
