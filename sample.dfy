/**
 * The sample application's `extractPersonalPhotoUrl`: the URL of the first
 * thumbnail smaller than 300 x 300 pixels in a profile's JSON, or null.
 *
 * The JSON is abstracted to what the search reads. A field that is absent (or
 * that `getJSONObject` / `getJSONArray` / `getInt` / `getString` cannot
 * convert) is `None`, and reading it throws a JSONException, which the
 * method's catch-all turns into a null result.
 */
module Sample {
  import opened Wrappers

  const MaxThumbnailSide: int := 300

  datatype Thumbnail = Thumbnail(width: Option<int>, height: Option<int>, url: Option<string>)

  /** `json.picture.data.thumbnails`; an element that is not a JSON object is `None`. */
  datatype Profile = Profile(picture: Option<Picture>)
  datatype Picture = Picture(data: Option<PictureData>)
  datatype PictureData = PictureData(thumbnails: Option<seq<Option<Thumbnail>>>)

  /** Both sides are known and both are strictly below the bound. */
  predicate Small(t: Thumbnail) {
    t.width.Some? && t.height.Some? && t.width.value < MaxThumbnailSide && t.height.value < MaxThumbnailSide
  }

  /** A thumbnail the loop reads and passes over: an object with both sides,
      not both small. */
  predicate Skipped(e: Option<Thumbnail>) {
    e.Some? && e.value.width.Some? && e.value.height.Some? && !Small(e.value)
  }

  /** The thumbnail list, or None when reading `picture`, `data` or
      `thumbnails` throws. */
  function Thumbnails(json: Profile): (r: Option<seq<Option<Thumbnail>>>) {
    if json.picture.Some? && json.picture.value.data.Some? then json.picture.value.data.value.thumbnails
    else None
  }

  /** The search over a thumbnail list, element by element. */
  function FirstSmallUrl(ts: seq<Option<Thumbnail>>): (r: Option<string>) {
    if |ts| == 0 then None
    else if Skipped(ts[0]) then FirstSmallUrl(ts[1..])
    else if ts[0].Some? && Small(ts[0].value) then ts[0].value.url
    else None
  }

  function PhotoUrl(json: Profile): (r: Option<string>) {
    match Thumbnails(json)
    case None => None
    case Some(ts) => FirstSmallUrl(ts)
  }

  /** Index i is where the loop stops on a match: every earlier thumbnail was
      read and passed over, and this one is small. */
  predicate FirstMatchAt(ts: seq<Option<Thumbnail>>, i: int) {
    0 <= i < |ts| && ts[i].Some? && Small(ts[i].value) && forall j :: 0 <= j < i ==> Skipped(ts[j])
  }

  /** `extractPersonalPhotoUrl(json)`. */
  method ExtractPersonalPhotoUrl(json: Profile) returns (url: Option<string>)
    ensures url == PhotoUrl(json)
  {
    url := None;
    var thumbnails := Thumbnails(json);
    if thumbnails.None? {
      return None;
    }
    var ts := thumbnails.value;
    var i := 0;
    while i < |ts|
      invariant 0 <= i <= |ts|
      invariant forall j :: 0 <= j < i ==> Skipped(ts[j])
      invariant FirstSmallUrl(ts) == FirstSmallUrl(ts[i..])
    {
      if ts[i].None? {
        return None;
      }
      var t := ts[i].value;
      if t.width.None? || t.height.None? {
        return None;
      }
      if t.width.value < MaxThumbnailSide && t.height.value < MaxThumbnailSide {
        url := t.url;
        return;
      }
      i := i + 1;
    }
  }

  /** Passing over a prefix of skipped thumbnails does not change the result. */
  lemma {:induction false} SkipPrefix(ts: seq<Option<Thumbnail>>, i: int)
    requires 0 <= i <= |ts|
    requires forall j :: 0 <= j < i ==> Skipped(ts[j])
    ensures FirstSmallUrl(ts) == FirstSmallUrl(ts[i..])
  {
    if i > 0 {
      assert ts[1..][i - 1..] == ts[i..];
      SkipPrefix(ts[1..], i - 1);
    }
  }

  /** The result is the url of the first small thumbnail in array order. */
  lemma FirstMatchWins(ts: seq<Option<Thumbnail>>, i: int)
    requires FirstMatchAt(ts, i)
    ensures FirstSmallUrl(ts) == ts[i].value.url
  {
    SkipPrefix(ts, i);
  }

  /** Thumbnails after the first match are never examined: replacing them
      changes nothing. */
  lemma LaterThumbnailsIgnored(ts: seq<Option<Thumbnail>>, i: int, rest: seq<Option<Thumbnail>>)
    requires FirstMatchAt(ts, i)
    ensures FirstSmallUrl(ts[..i + 1] + rest) == FirstSmallUrl(ts)
  {
    var ts' := ts[..i + 1] + rest;
    assert FirstMatchAt(ts', i);
    FirstMatchWins(ts, i);
    FirstMatchWins(ts', i);
  }

  /** A non-null result always comes from a first match. */
  lemma {:induction false} ResultIsFirstMatch(ts: seq<Option<Thumbnail>>)
    requires FirstSmallUrl(ts).Some?
    ensures exists i :: FirstMatchAt(ts, i) && ts[i].value.url == FirstSmallUrl(ts)
  {
    if Skipped(ts[0]) {
      ResultIsFirstMatch(ts[1..]);
      var k :| FirstMatchAt(ts[1..], k) && ts[1..][k].value.url == FirstSmallUrl(ts[1..]);
      assert FirstMatchAt(ts, k + 1);
    } else {
      assert FirstMatchAt(ts, 0);
    }
  }

  /** When every thumbnail is read and passed over the result is null. */
  lemma NoSmallThumbnailNull(ts: seq<Option<Thumbnail>>)
    requires forall j :: 0 <= j < |ts| ==> Skipped(ts[j])
    ensures FirstSmallUrl(ts) == None
  {
    SkipPrefix(ts, |ts|);
  }

  /** A thumbnail that cannot be read (not an object, or missing a side) before
      any match ends the search with null, the exception being swallowed. */
  lemma UnreadableThumbnailNull(ts: seq<Option<Thumbnail>>, i: int)
    requires 0 <= i < |ts| && forall j :: 0 <= j < i ==> Skipped(ts[j])
    requires ts[i].None? || ts[i].value.width.None? || ts[i].value.height.None?
    ensures FirstSmallUrl(ts) == None
  {
    SkipPrefix(ts, i);
  }

  /** The bounds are strict: a side of exactly 300 disqualifies a thumbnail. */
  lemma BoundIsStrict(t: Thumbnail)
    requires t.width == Some(MaxThumbnailSide) || t.height == Some(MaxThumbnailSide)
    ensures !Small(t)
  {
  }

  /** No `picture`, `data` or `thumbnails`: null. */
  lemma MissingStructureNull(json: Profile)
    requires json.picture.None? || json.picture.value.data.None? || json.picture.value.data.value.thumbnails.None?
    ensures PhotoUrl(json) == None
  {
  }
}
