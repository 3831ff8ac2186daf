/** `getAndDitherImage`: where the processed artwork is written and which overlay
    lines are drawn on it. The image transforms and the download are done by
    foreign libraries; here they are one step whose error, if any, is a parameter. */
module Render {
  import opened Wrappers
  import opened JsString
  import opened Overlay
  import opened TrackInfo

  /** What the script puts between its own directory and the artwork filename. */
  const ImagesSegment: string := "/images/"

  /** `imageUrl.substr(imageUrl.lastIndexOf('/'))`. The result is always a suffix of
      the URL. When the URL holds a '/', it is the suffix that starts at the last
      '/', keeping that '/'. When it holds none, lastIndexOf gives -1 and substr(-1)
      gives the last character alone. */
  function ImageFilename(url: string): (r: string)
    ensures |r| <= |url| && r == url[|url| - |r|..]
    ensures (exists i :: 0 <= i < |url| && url[i] == '/') ==>
              r != [] && r[0] == '/' && forall j :: 0 < j < |r| ==> r[j] != '/'
    ensures (forall i :: 0 <= i < |url| ==> url[i] != '/') ==> |r| == if url == [] then 0 else 1
  {
    SubstrFrom(url, LastIndexOf(url, '/'))
  }

  /** The filename of a URL that holds a '/' is the slice from its last '/' on. */
  lemma ImageFilenameAtLastSlash(url: string, k: nat)
    requires k < |url| && url[k] == '/'
    requires forall j :: k < j < |url| ==> url[j] != '/'
    ensures ImageFilename(url) == url[k..]
  {
    var f := ImageFilename(url);
    assert f != [] && f[0] == '/';
    var start := |url| - |f|;
    assert url[start] == '/';
    assert start == k;
  }

  /** The artwork URL of `TrackInfo.FourthImageIsArtwork`'s payload gives "/art.jpg". */
  lemma ArtworkFilenameExample()
    ensures ImageFilename("http://x/art.jpg") == "/art.jpg"
  {
    var url := "http://x/art.jpg";
    ImageFilenameAtLastSlash(url, 8);
  }

  /** `${__dirname}/images/${imageFilename}`. */
  function ImagePath(dir: string, url: string): (r: string)
    ensures |r| == |dir| + |ImagesSegment| + |ImageFilename(url)|
    ensures r[..|dir|] == dir && r[|dir|..|dir| + |ImagesSegment|] == ImagesSegment
    ensures r[|dir| + |ImagesSegment|..] == url[|url| - (|r| - |dir| - |ImagesSegment|)..]
  {
    dir + ImagesSegment + ImageFilename(url)
  }

  /** For a URL with a '/', the path is the directory, "/images/", then the URL from
      its last '/' on: the filename's own '/' follows the one of "/images/". */
  lemma ImagePathOfSlashedUrl(dir: string, url: string, k: nat)
    requires k < |url| && url[k] == '/'
    requires forall j :: k < j < |url| ==> url[j] != '/'
    ensures ImagePath(dir, url) == dir + ImagesSegment + url[k..]
    ensures ImagePath(dir, url)[|dir| + |ImagesSegment| - 1..|dir| + |ImagesSegment| + 1] == "//"
  {
    ImageFilenameAtLastSlash(url, k);
  }

  /** The drawing directives of one render whose inputs are known: the download
      source, the filename hint, the output path and the four overlay lines. */
  datatype RenderJob = RenderJob(
    sourceUrl: string,
    filename: string,
    path: string,
    titleLine: string,
    artistLine: string,
    albumLine: string,
    dateLine: string)

  /** Building the GraphicsMagick chain for `track`: `processText` of an undefined
      name, artist or album throws, which rejects; otherwise each metadata line is
      upper-cased and cut to TextMaxLength, and the date line is `niceDate` of the
      clock reading `nowIso`. */
  function PlanRender(track: Track, dir: string, nowIso: string): (r: Result<RenderJob, Failure>)
    ensures r.Err? <==> track.name.None? || track.artist.None? || track.album.None?
    ensures r.Err? ==> r.error == PropertyOfUndefined
    ensures r.Ok? ==>
              r.value.sourceUrl == track.imageUrl &&
              r.value.filename == ImageFilename(track.imageUrl) &&
              r.value.path == ImagePath(dir, track.imageUrl) &&
              r.value.titleLine == ProcessText(track.name.value) &&
              r.value.artistLine == ProcessText(track.artist.value) &&
              r.value.albumLine == ProcessText(track.album.value) &&
              r.value.dateLine == NiceDate(nowIso)
    ensures r.Ok? ==>
              |r.value.titleLine| <= TextMaxLength && |r.value.artistLine| <= TextMaxLength &&
              |r.value.albumLine| <= TextMaxLength
  {
    var filename := ImageFilename(track.imageUrl);
    var path := dir + ImagesSegment + filename;
    if track.name.None? || track.artist.None? || track.album.None? then
      Err(PropertyOfUndefined)
    else
      Ok(RenderJob(track.imageUrl, filename, path,
                   ProcessText(track.name.value), ProcessText(track.artist.value),
                   ProcessText(track.album.value), NiceDate(nowIso)))
  }

  /** `getAndDitherImage(track)`: resolves with the image path once the writer
      reports no error; rejects when the chain cannot be built or the writer fails. */
  function GetAndDitherImage(track: Track, dir: string, nowIso: string, writeError: Option<string>)
    : (r: Result<string, Failure>)
    ensures r.Ok? <==> PlanRender(track, dir, nowIso).Ok? && writeError.None?
    ensures r.Ok? ==> r.value == ImagePath(dir, track.imageUrl)
    ensures PlanRender(track, dir, nowIso).Ok? && writeError.Some? ==>
              r == Err(WriteFailed(writeError.value))
    ensures PlanRender(track, dir, nowIso).Err? ==> r == Err(PropertyOfUndefined)
  {
    match PlanRender(track, dir, nowIso)
    case Err(e) => Err(e)
    case Ok(job) =>
      if writeError.Some? then Err(WriteFailed(writeError.value)) else Ok(job.path)
  }
}
