/** `getTrackInfo`: turns the raw now-playing payload of the scrobbling service into
    a track record, or rejects it. */
module TrackInfo {
  import opened Wrappers

  /** An object of the payload that may carry a `'#text'` property. */
  datatype TextEntry = TextEntry(text: Option<string>)

  /** The raw now-playing payload: `name`, the `artist` and `album` objects and the
      `image` list (one entry per size variant), each possibly absent. */
  datatype Payload = Payload(
    name: Option<string>,
    artist: Option<TextEntry>,
    album: Option<TextEntry>,
    image: Option<seq<TextEntry>>)

  /** The track record. The display fields are copied as found, so they may be
      `undefined`; the image URL is a string whenever a record is built. */
  datatype Track = Track(name: Option<string>, imageUrl: string, artist: Option<string>, album: Option<string>)

  /** Why a cycle's promise chain rejects: the validator's "No album art", a
      TypeError from reading a property of `undefined`, or the image writer's error. */
  datatype Failure = NoAlbumArt | PropertyOfUndefined | WriteFailed(cause: string)

  /** Which of the image variants is used: the fourth, `image[3]`. */
  const ArtworkIndex: nat := 3

  /** `getTrackInfo(data)`. A payload that is absent, has no image list or has an
      empty one is rejected with NoAlbumArt before anything is read. Building the
      record then reads `image[3]['#text']`, `artist['#text']` and `album['#text']`:
      each read through `undefined` throws, and so does `.length` of an undefined
      URL. A record whose URL is empty is rejected with NoAlbumArt. */
  function GetTrackInfo(data: Option<Payload>): (r: Result<Track, Failure>)
    ensures data.None? || data.value.image.None? || data.value.image.value == [] ==>
              r == Err(NoAlbumArt)
    ensures r == Err(NoAlbumArt) <==>
              data.None? || data.value.image.None? || data.value.image.value == [] ||
              (|data.value.image.value| > ArtworkIndex && data.value.artist.Some? &&
               data.value.album.Some? && data.value.image.value[ArtworkIndex].text == Some(""))
    ensures r.Ok? <==>
              data.Some? && data.value.image.Some? && |data.value.image.value| > ArtworkIndex &&
              data.value.artist.Some? && data.value.album.Some? &&
              data.value.image.value[ArtworkIndex].text.Some? &&
              data.value.image.value[ArtworkIndex].text.value != ""
    ensures r == Err(PropertyOfUndefined) <==>
              data.Some? && data.value.image.Some? && data.value.image.value != [] &&
              (|data.value.image.value| <= ArtworkIndex || data.value.artist.None? ||
               data.value.album.None? || data.value.image.value[ArtworkIndex].text.None?)
    ensures r.Ok? ==>
              r.value.imageUrl != "" &&
              r.value.name == data.value.name &&
              Some(r.value.imageUrl) == data.value.image.value[ArtworkIndex].text &&
              r.value.artist == data.value.artist.value.text &&
              r.value.album == data.value.album.value.text
  {
    if data.None? || data.value.image.None? || |data.value.image.value| <= 0 then
      Err(NoAlbumArt)
    else
      var p := data.value;
      var images := p.image.value;
      if |images| <= ArtworkIndex || p.artist.None? || p.album.None? then
        Err(PropertyOfUndefined)
      else if images[ArtworkIndex].text.None? then
        Err(PropertyOfUndefined)
      else
        var track := Track(p.name, images[ArtworkIndex].text.value, p.artist.value.text, p.album.value.text);
        if |track.imageUrl| <= 0 then Err(NoAlbumArt) else Ok(track)
  }

  /** A payload with four image variants, the fourth holding the artwork URL,
      yields the record with that URL and the metadata as given. */
  lemma FourthImageIsArtwork()
    ensures GetTrackInfo(Some(Payload(
              Some("Song"), Some(TextEntry(Some("Band"))), Some(TextEntry(Some("Album"))),
              Some([TextEntry(Some("a")), TextEntry(Some("b")), TextEntry(Some("c")),
                    TextEntry(Some("http://x/art.jpg"))]))))
            == Ok(Track(Some("Song"), "http://x/art.jpg", Some("Band"), Some("Album")))
  {
  }

  /** An image list with fewer than four variants throws on `image[3]['#text']`, even
      when the variants it has are usable. */
  lemma ShortImageListThrows(url: string)
    requires url != ""
    ensures GetTrackInfo(Some(Payload(
              Some("Song"), Some(TextEntry(Some("Band"))), Some(TextEntry(Some("Album"))),
              Some([TextEntry(Some(url))])))) == Err(PropertyOfUndefined)
  {
  }
}
