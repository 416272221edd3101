/** Artwork resolution (`processArtwork`) and the choice of the image for
    each slot of the activity (`setArtwork`). */
module Artwork {
  import opened Interfaces
  import opened JsText

  /** The avatar URL SoundCloud serves for users without one. */
  const DEFAULT_AVATAR := "http://a1.sndcdn.com/images/default_avatar_large.png"

  /** The number of bundled placeholder images. */
  const PLACEHOLDERS := 11

  /** The asset name an artwork is cached under. */
  function ArtworkKey(c: ArtworkConstants, kind: int, id: int): (key: string) {
    (if kind == c.track then "track_" else "artist_") + IntToString(id)
  }

  /** The key is `track_` for the track kind, else `artist_`, followed by
      the decimal rendering of the id. */
  lemma ArtworkKeyShape(c: ArtworkConstants, kind: int, id: int)
    ensures var key := ArtworkKey(c, kind, id);
      var prefix := if kind == c.track then "track_" else "artist_";
      StartsWith(key, prefix) && key[|prefix|..] == IntToString(id)
  {
    var prefix := if kind == c.track then "track_" else "artist_";
    StartsWithIsPrefix(ArtworkKey(c, kind, id), prefix);
  }

  /** The key names its subject: equal keys mean the same kind (track or
      not) and the same id, so two subjects never share a cache entry. */
  lemma ArtworkKeyIdentifiesSubject(c: ArtworkConstants, kind1: int, id1: int, kind2: int, id2: int)
    requires ArtworkKey(c, kind1, id1) == ArtworkKey(c, kind2, id2)
    ensures (kind1 == c.track) == (kind2 == c.track)
    ensures id1 == id2
  {
    var key := ArtworkKey(c, kind1, id1);
    assert key[0] == (if kind1 == c.track then 't' else 'a');
    assert key[0] == (if kind2 == c.track then 't' else 'a');
    var n := if kind1 == c.track then 6 else 7;
    assert key[n..] == IntToString(id1);
    assert key[n..] == IntToString(id2);
    IntToStringInjective(id1, id2);
  }

  /** `id % 11` with JavaScript's remainder, which truncates toward zero:
      it has the sign of `id`, is smaller than 11 in magnitude and differs
      from `id` by a multiple of 11. */
  function PlaceholderIndex(id: int): (n: int)
    ensures -PLACEHOLDERS < n < PLACEHOLDERS
    ensures (id - n) % PLACEHOLDERS == 0
    ensures id >= 0 ==> n >= 0
    ensures id <= 0 ==> n <= 0
  {
    if id >= 0 then id % PLACEHOLDERS else -((-id) % PLACEHOLDERS)
  }

  /** Where the image to upload is read from: a placeholder when the
      subject has no image or the default avatar, else its URL. */
  function ImageSourceFor(id: int, url: Option<string>): (src: ImageSource)
    ensures src.PlaceholderFile? <==> url.None? || StartsWith(url.value, DEFAULT_AVATAR)
    ensures src.PlaceholderFile? ==> src.index == PlaceholderIndex(id)
    ensures src.ArtworkUrl? ==> url == Some(src.url)
  {
    if url.None? || StartsWith(url.value, DEFAULT_AVATAR) then PlaceholderFile(PlaceholderIndex(id))
    else ArtworkUrl(url.value)
  }

  /** Some listed asset bears the name `key`. */
  predicate Listed(assets: seq<Asset>, key: string) {
    exists j | 0 <= j < |assets| :: assets[j].name == key
  }

  /** Uploading is on and the listed assets hold the key. */
  predicate CacheHit(config: Config, c: ArtworkConstants, kind: int, id: int, o: ArtworkOutcomes) {
    config.uploadArtwork && o.listing.Ok? && Listed(o.listing.value, ArtworkKey(c, kind, id))
  }

  /** Uploading is on, the listing succeeded and the key is not listed. */
  predicate Misses(config: Config, c: ArtworkConstants, kind: int, id: int, o: ArtworkOutcomes) {
    config.uploadArtwork && o.listing.Ok? && !Listed(o.listing.value, ArtworkKey(c, kind, id))
  }

  /** A miss with the list at capacity, so the first listed asset is to be
      deleted. */
  predicate Evicts(config: Config, c: ArtworkConstants, kind: int, id: int, o: ArtworkOutcomes) {
    && Misses(config, c, kind, id, o)
    && |o.listing.value| >= c.maxArtwork && |o.listing.value| > 0
  }

  /** A miss whose delete (if any) succeeds, so the image is loaded. */
  predicate ReachesLoad(config: Config, c: ArtworkConstants, kind: int, id: int, o: ArtworkOutcomes) {
    && Misses(config, c, kind, id, o)
    && (|o.listing.value| < c.maxArtwork || (o.listing.value != [] && o.deletion.Acked?))
  }

  /** A miss whose delete (if any) and image load succeed, so the upload
      is attempted. */
  predicate ReachesUpload(config: Config, c: ArtworkConstants, kind: int, id: int, o: ArtworkOutcomes) {
    ReachesLoad(config, c, kind, id, o) && o.image.Ok?
  }

  /** The calls of a miss up to the image load: the listing, the eviction
      when full and the load from the chosen source. */
  function LoadCalls(config: Config, c: ArtworkConstants, kind: int, id: int, url: Option<string>, o: ArtworkOutcomes)
    : (calls: seq<Call>)
    requires ReachesLoad(config, c, kind, id, o)
    ensures |calls| >= 2 && calls[0] == GetAssetList && calls[|calls| - 1] == ImageData(ImageSourceFor(id, url))
  {
    var assets := o.listing.value;
    [GetAssetList]
    + (if |assets| >= c.maxArtwork then [DeleteAsset(assets[0].id)] else [])
    + [ImageData(ImageSourceFor(id, url))]
  }

  /** The calls of a miss that reaches the upload: those up to the image
      load, then the upload of that image. */
  function UploadCalls(config: Config, c: ArtworkConstants, kind: int, id: int, url: Option<string>, o: ArtworkOutcomes)
    : (calls: seq<Call>)
    requires ReachesUpload(config, c, kind, id, o)
    ensures |calls| >= 3 && calls[0] == GetAssetList
  {
    LoadCalls(config, c, kind, id, url, o) + [UploadAsset(kind, ArtworkKey(c, kind, id), o.image.value)]
  }

  /** What `processArtwork(kind, id, url)` settles with and the calls it
      makes on the way, given the outcomes of those calls. */
  function Resolve(config: Config, c: ArtworkConstants, kind: int, id: int, url: Option<string>, o: ArtworkOutcomes)
    : (res: (Result<ImageRef>, seq<Call>))
    // upload disabled: no remote call, the URL as given (or "default" for a falsy kind)
    ensures !config.uploadArtwork ==> res == (Ok(if kind != 0 then url else Some("default")), [])
    // upload enabled: the asset list is fetched first, and only the key is ever resolved
    ensures config.uploadArtwork ==> res.1 != [] && res.1[0] == GetAssetList
    ensures config.uploadArtwork && res.0.Ok? ==> res.0.value == Some(ArtworkKey(c, kind, id))
    // a failed listing rejects with its own error
    ensures config.uploadArtwork && o.listing.Err? ==> res == (Err(o.listing.error), [GetAssetList])
    // cache hit: the key, and no delete or upload
    ensures CacheHit(config, c, kind, id, o) ==> res == (Ok(Some(ArtworkKey(c, kind, id))), [GetAssetList])
    // a full but empty list: reading `assets[0].id` throws
    ensures Misses(config, c, kind, id, o) && |o.listing.value| >= c.maxArtwork && o.listing.value == [] ==>
      res == (Err(TypeError), [GetAssetList])
    // a delete happens when the full list is evicted from, second, of the first asset
    ensures Evicts(config, c, kind, id, o) ==> |res.1| >= 2 && res.1[1] == DeleteAsset(o.listing.value[0].id)
    // a refused eviction rejects with the delete's error
    ensures Evicts(config, c, kind, id, o) && o.deletion.Refused? ==>
      res == (Err(o.deletion.error), [GetAssetList, DeleteAsset(o.listing.value[0].id)])
    // a miss resolves only once the upload succeeded
    ensures config.uploadArtwork && res.0.Ok? && !CacheHit(config, c, kind, id, o) ==>
      res.1[|res.1| - 1].UploadAsset? && o.upload.Acked?
    // a failed image load rejects with the loader's error, after the load
    ensures ReachesLoad(config, c, kind, id, o) && o.image.Err? ==>
      res == (Err(o.image.error), LoadCalls(config, c, kind, id, url, o))
    // a miss that reaches the upload resolves to the key exactly when the upload succeeds
    ensures ReachesUpload(config, c, kind, id, o) ==>
      res == (if o.upload.Acked? then Ok(Some(ArtworkKey(c, kind, id))) else Err(o.upload.error),
              UploadCalls(config, c, kind, id, url, o))
    // a failure is the failing step's own error; TypeError only for a full, empty list
    ensures res.0.Err? ==>
      || (res.0 == Err(TypeError) && Misses(config, c, kind, id, o) && o.listing.value == [] && c.maxArtwork <= 0)
      || (o.listing.Err? && res.0.error == o.listing.error)
      || (Evicts(config, c, kind, id, o) && o.deletion.Refused? && res.0.error == o.deletion.error)
      || (o.image.Err? && res.0.error == o.image.error)
      || (o.upload.Refused? && res.0.error == o.upload.error)
  {
    var key := ArtworkKey(c, kind, id);
    if !config.uploadArtwork then
      (Ok(if kind != 0 then url else Some("default")), [])
    else match o.listing
      case Err(e) => (Err(e), [GetAssetList])
      case Ok(assets) =>
        if Listed(assets, key) then (Ok(Some(key)), [GetAssetList])
        else if |assets| >= c.maxArtwork && assets == [] then (Err(TypeError), [GetAssetList])
        else
          var evict := if |assets| >= c.maxArtwork then [DeleteAsset(assets[0].id)] else [];
          if evict != [] && o.deletion.Refused? then (Err(o.deletion.error), [GetAssetList, DeleteAsset(assets[0].id)])
          else
            var load := LoadCalls(config, c, kind, id, url, o);
            match o.image
            case Err(e) => (Err(e), load)
            case Ok(data) =>
              var calls := UploadCalls(config, c, kind, id, url, o);
              assert calls == load + [UploadAsset(kind, key, data)];
              if o.upload.Refused? then (Err(o.upload.error), calls) else (Ok(Some(key)), calls)
  }

  /** A delete happens only when evicting, and then as the second call. */
  lemma DeleteOnlyWhenEvicting(config: Config, c: ArtworkConstants, kind: int, id: int, url: Option<string>, o: ArtworkOutcomes)
    ensures var calls := Resolve(config, c, kind, id, url, o).1;
      forall k | 0 <= k < |calls| && calls[k].DeleteAsset? :: k == 1 && Evicts(config, c, kind, id, o)
  {
  }

  /** The image is loaded from the placeholder or the URL as chosen by
      `ImageSourceFor`. */
  lemma ImageFromChosenSource(config: Config, c: ArtworkConstants, kind: int, id: int, url: Option<string>, o: ArtworkOutcomes)
    ensures var calls := Resolve(config, c, kind, id, url, o).1;
      forall k | 0 <= k < |calls| && calls[k].ImageData? :: calls[k].source == ImageSourceFor(id, url)
  {
  }

  /** At most one upload: the last call, right after the image was loaded,
      of that image under the key. */
  lemma UploadLastUnderKey(config: Config, c: ArtworkConstants, kind: int, id: int, url: Option<string>, o: ArtworkOutcomes)
    ensures var calls := Resolve(config, c, kind, id, url, o).1;
      forall k | 0 <= k < |calls| && calls[k].UploadAsset? ::
        && k == |calls| - 1 && k >= 2 && calls[k - 1].ImageData? && o.image.Ok?
        && calls[k] == UploadAsset(kind, ArtworkKey(c, kind, id), o.image.value)
  {
  }

  /** `processArtwork`: scans the asset list for the key, and on a miss
      evicts when full, loads the image and uploads it. */
  method ProcessArtwork(config: Config, c: ArtworkConstants, kind: int, id: int, url: Option<string>, o: ArtworkOutcomes)
    returns (r: Result<ImageRef>, calls: seq<Call>)
    ensures (r, calls) == Resolve(config, c, kind, id, url, o)
  {
    var key := ArtworkKey(c, kind, id);
    if !config.uploadArtwork {
      if kind != 0 {
        return Ok(url), [];
      }
      return Ok(Some("default")), [];
    }
    calls := [GetAssetList];
    if o.listing.Err? {
      return Err(o.listing.error), calls;
    }
    var assets := o.listing.value;
    for i := 0 to |assets|
      invariant forall j | 0 <= j < i :: assets[j].name != key
    {
      if assets[i].name == key {
        return Ok(Some(key)), calls;
      }
    }
    assert !Listed(assets, key);
    if |assets| >= c.maxArtwork {
      if assets == [] {
        return Err(TypeError), calls;
      }
      calls := calls + [DeleteAsset(assets[0].id)];
      assert calls == [GetAssetList, DeleteAsset(assets[0].id)];
      if o.deletion.Refused? {
        return Err(o.deletion.error), calls;
      }
    }
    assert calls == [GetAssetList] + (if |assets| >= c.maxArtwork then [DeleteAsset(assets[0].id)] else []);
    calls := calls + [ImageData(ImageSourceFor(id, url))];
    assert calls == LoadCalls(config, c, kind, id, url, o);
    if o.image.Err? {
      return Err(o.image.error), calls;
    }
    calls := calls + [UploadAsset(kind, key, o.image.value)];
    assert calls == UploadCalls(config, c, kind, id, url, o);
    if o.upload.Refused? {
      return Err(o.upload.error), calls;
    }
    r := Ok(Some(key));
  }

  /** `keys[i]` of a JavaScript array: None outside the array. */
  function Lookup(keys: seq<ImageRef>, i: int): (r: ImageRef)
    ensures 0 <= i < |keys| ==> r == keys[i]
    ensures !(0 <= i < |keys|) ==> r == None
    ensures r.Some? ==> r in keys
  {
    if 0 <= i < |keys| then keys[i] else None
  }

  /** The configured static image: the big one if enabled, else the small
      one if enabled, else none. */
  function Fallback(config: Config): (r: ImageRef)
    ensures r == None <==> !config.bigKey.enabled && !config.smallKey.enabled
    ensures config.bigKey.enabled ==> r == Some(config.bigKey.url)
    ensures !config.bigKey.enabled && config.smallKey.enabled ==> r == Some(config.smallKey.url)
  {
    if config.bigKey.enabled then Some(config.bigKey.url)
    else if config.smallKey.enabled then Some(config.smallKey.url)
    else None
  }

  /** `setArtwork(kind, keys)` at cursor `pageCounter` of `pageCount` pages. */
  function SetArtwork(kind: int, keys: seq<ImageRef>, pageCounter: int, pageCount: int, config: Config, c: ArtworkConstants)
    : (r: ImageRef)
    // a slot other than the one before ARTWORK_TRACK shows its own key, whatever the page
    ensures kind + 1 != c.track ==> r == Lookup(keys, kind)
    // the image is always one of the resolved keys or the configured fallback
    ensures r.Some? ==> r in keys || r == Fallback(config)
    // the large slot: the track's key, then the artist's, then the fallback
    ensures kind + 1 == c.track ==>
      r == (if pageCounter == pageCount - 3 then Lookup(keys, c.track - 1)
            else if pageCounter == pageCount - 2 then Lookup(keys, c.artist - 1)
            else Fallback(config))
  {
    if kind + 1 != c.track then Lookup(keys, kind)
    else if pageCounter == pageCount - 3 then Lookup(keys, c.track - 1)
    else if pageCounter == pageCount - 2 then Lookup(keys, c.artist - 1)
    else Fallback(config)
  }
}
