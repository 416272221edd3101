/** The values the activity procedure exchanges with the outside world:
    its configuration, the request and track records, the outcomes of the
    remote calls it makes, and the record of those calls. */
module Interfaces {

  datatype Option<+T> = None | Some(value: T)

  /** Why an update, or one remote step of it, failed. */
  datatype Error =
    | MissingArgument        // the request has no `url` or no `pos`
    | RpcNotConnected        // the presence connection reports no status
    | AlreadyProcessing      // an update is in flight (LOCKED)
    | TypeError              // `assets[0].id` read on an empty asset list
    | Remote(code: int)      // a collaborator's rejection, passed on unchanged

  datatype Result<+T> = Ok(value: T) | Err(error: Error)

  /** The outcome of a remote call whose resolved value is not used. */
  datatype Ack = Acked | Refused(error: Error)

  /** An image reference (an asset key or a URL); None stands for the
      JavaScript values `null` and `undefined`. */
  type ImageRef = Option<string>

  datatype ImageSetting = ImageSetting(enabled: bool, url: string)

  /** The parts of the configuration the procedure reads. */
  datatype Config = Config(
    uploadArtwork: bool,
    bigKey: ImageSetting,
    smallKey: ImageSetting,
    customMessages: string,
    listenButtonText: string)

  /** ARTWORK_TRACK, ARTWORK_ARTIST and MAX_ARTWORK of helpers/artwork. */
  datatype ArtworkConstants = ArtworkConstants(track: int, artist: int, maxArtwork: int)

  /** One entry of the presence application's asset list. */
  datatype Asset = Asset(id: string, name: string)

  datatype User = User(id: int, username: string, avatarUrl: Option<string>)

  /** Track metadata; `duration` is in milliseconds. */
  datatype TrackData = TrackData(
    id: int,
    title: string,
    duration: int,
    artworkUrl: Option<string>,
    user: User)

  /** An update request; None marks a key absent from the request object. */
  datatype Request = Request(url: Option<string>, pos: Option<int>)

  datatype Button = Button(caption: string, url: string)

  /** The activity object composed by a full update. */
  datatype Payload = Payload(
    details: string,
    state: string,
    startTimestamp: int,
    endTimestamp: int,
    largeImageKey: ImageRef,
    largeImageText: string,
    smallImageKey: ImageRef,
    smallImageText: string,
    buttons: seq<Button>)

  /** What `setActivity` is given: the stored activity with new timestamps,
      or a freshly composed payload. */
  datatype Sent =
    | Refreshed(trackURL: string, startTimestamp: int, endTimestamp: int)
    | Composed(payload: Payload)

  /** Where the image to upload comes from: a bundled placeholder file
      `assets/placeholder-<index>.png` or the artwork URL. */
  datatype ImageSource = PlaceholderFile(index: int) | ArtworkUrl(url: string)

  /** One call to a collaborator, in the order made. */
  datatype Call =
    | GetTrackData(url: string)
    | GetAssetList
    | DeleteAsset(id: string)
    | ImageData(source: ImageSource)
    | UploadAsset(kind: int, name: string, image: string)
    | SetActivity(sent: Sent)
    | SetActivityTimeout(at: int)

  /** The outcomes the asset store and the image loader give one artwork
      resolution, each consulted at most once. */
  datatype ArtworkOutcomes = ArtworkOutcomes(
    listing: Result<seq<Asset>>,
    deletion: Ack,
    image: Result<string>,
    upload: Ack)

  /** The outcomes the collaborators give one update. */
  datatype World = World(
    metadata: Result<TrackData>,
    trackArtwork: ArtworkOutcomes,
    artistArtwork: ArtworkOutcomes,
    push: Ack)
}
