/** `GET /image/{uuid}` (`image_handler.rs`): validates the name, looks the file up and
    maps the store's answer to an HTTP response. */
module ImageHandler {
  import opened Common
  import opened ImageService

  /** Status, content type (when the response has one) and body. */
  datatype ImageResponse = ImageResponse(status: int, contentType: Option<string>, body: seq<byte>)

  const PlaceholderAvatar: string := "placeholder_avatar"
  const PlaceholderImage: string := "placeholder_image"

  predicate IsPlaceholder(name: string)
  {
    name == PlaceholderAvatar || name == PlaceholderImage
  }

  /** The file name to look up: a placeholder verbatim, otherwise the canonical form
      `parseUuid` returns (`Uuid::try_parse` then `to_string`), or `None` when it fails. */
  function FileName(name: string, parseUuid: string -> Option<string>): Option<string>
  {
    if IsPlaceholder(name) then Some(name) else parseUuid(name)
  }

  function BadRequest(): ImageResponse { ImageResponse(400, None, []) }

  /** The handler on a store holding `files`, on a disk whose failing calls are `faults`. */
  function ServeImage(files: map<string, seq<byte>>, faults: set<IoStep>, name: string,
                      parseUuid: string -> Option<string>): ImageResponse
  {
    match FileName(name, parseUuid)
    case None => BadRequest()
    case Some(file) => ServeWithName(files, faults, file)
  }

  /** The placeholders are served without consulting the UUID parser. */
  lemma PlaceholdersIgnoreParser(files: map<string, seq<byte>>, faults: set<IoStep>, name: string,
                                 parseA: string -> Option<string>, parseB: string -> Option<string>)
    requires IsPlaceholder(name)
    ensures ServeImage(files, faults, name, parseA) == ServeImage(files, faults, name, parseB)
    ensures ServeImage(files, faults, name, parseA) == ServeWithName(files, faults, name)
  {
  }

  /** The outcome of looking up `file`: 500 on an error, 400 when absent, 200 with the
      file's bytes as an octet stream when present. */
  function ServeWithName(files: map<string, seq<byte>>, faults: set<IoStep>, file: string): (r: ImageResponse)
    ensures r.status == 500 <==> OpenFile in faults
    ensures r.status == 400 <==> OpenFile !in faults && file !in files
    ensures r.status == 200 <==> OpenFile !in faults && file in files
    ensures r.status == 200 ==> r.contentType == Some("application/octet-stream") && r.body == files[file]
    ensures r.status != 200 ==> r.contentType.None? && r.body == []
  {
    match Open(files, faults, file)
    case Err(_) => ImageResponse(500, None, [])
    case Ok(None) => BadRequest()
    case Ok(Some(bytes)) => ImageResponse(200, Some("application/octet-stream"), bytes)
  }

  /** A name that is neither a placeholder nor a UUID is refused with 400 whatever the
      store holds and whether or not the disk works: the store is not consulted. */
  lemma InvalidNameIsBadRequest(files: map<string, seq<byte>>, faults: set<IoStep>, name: string,
                                parseUuid: string -> Option<string>)
    requires !IsPlaceholder(name) && parseUuid(name).None?
    ensures ServeImage(files, faults, name, parseUuid) == BadRequest()
  {
  }

  /** A valid UUID is served from the file named by its canonical form, so two spellings
      with the same canonical form get the same answer. */
  lemma CanonicalLookup(files: map<string, seq<byte>>, faults: set<IoStep>, name: string,
                        parseUuid: string -> Option<string>)
    requires !IsPlaceholder(name) && parseUuid(name).Some?
    ensures ServeImage(files, faults, name, parseUuid) == ServeWithName(files, faults, parseUuid(name).value)
  {
  }

  /** Every response is one of 200, 400, 500, and 200 carries exactly the stored file
      under the looked-up name. */
  lemma ServeOutcomes(files: map<string, seq<byte>>, faults: set<IoStep>, name: string,
                      parseUuid: string -> Option<string>)
    ensures var r := ServeImage(files, faults, name, parseUuid);
      && (r.status == 200 || r.status == 400 || r.status == 500)
      && (r.status == 200 <==> FileName(name, parseUuid).Some? && OpenFile !in faults
                               && FileName(name, parseUuid).value in files)
      && (r.status == 200 ==> r.body == files[FileName(name, parseUuid).value]
                              && r.contentType == Some("application/octet-stream"))
      && (r.status == 500 <==> FileName(name, parseUuid).Some? && OpenFile in faults)
  {
  }

  /** With the placeholder avatar in the store and a working disk, it is served (200). */
  lemma PlaceholderAvatarServed(files: map<string, seq<byte>>, faults: set<IoStep>, parseUuid: string -> Option<string>)
    requires PlaceholderAvatar in files && OpenFile !in faults
    ensures ServeImage(files, faults, PlaceholderAvatar, parseUuid)
         == ImageResponse(200, Some("application/octet-stream"), files[PlaceholderAvatar])
  {
  }

  /** An image saved by an upload (an accepted PNG) is served back byte for byte under its
      id, once that id is the canonical form of the requested name. */
  lemma SavedImageIsServed(files: map<string, seq<byte>>, faults: set<IoStep>, id: string,
                           chunks: seq<ChunkResult>, name: string, parseUuid: string -> Option<string>)
    requires SaveSpec(chunks, faults).verdict == Finished(false, true)
    requires OpenFile !in faults && !IsPlaceholder(name) && parseUuid(name) == Some(id)
    ensures ServeImage(Placed(files, id, SaveSpec(chunks, faults).file), faults, name, parseUuid)
         == ImageResponse(200, Some("application/octet-stream"), Payload(chunks))
  {
    AcceptedIsVerbatim(chunks, faults);
  }
}
