/** The image store (`image_service.rs`): a directory of files named by upload id. */
module ImageService {
  import opened Common
  import opened Models
  import Png

  /** One result of `field.try_next()`: a chunk of bytes or a read error. */
  datatype ChunkResult = Chunk(bytes: seq<byte>) | ChunkError

  /** The filesystem calls the store makes; a disk lists the ones that fail on it. */
  datatype IoStep = CreateFile | WriteFile | RemoveFile | OpenFile

  /** The context of each `anyhow` error the service returns. */
  datatype IoError =
    | ReceivingChunk      // a chunk of the upload could not be read
    | CreatingFile        // `File::create`
    | WritingData         // `write_all`
    | DeletingOversized   // `remove_file` of an oversized upload
    | DeletingImage       // `remove_file` in `delete_image`
    | OpeningImage        // `File::open` failing other than with `NotFound`

  /** The `Ok` triple of `save_image`. */
  datatype SavedImage = SavedImage(id: string, tooLarge: bool, isPng: bool)

  /** What `save_image` reports, before the id is attached. */
  datatype SaveVerdict = Failed(error: IoError) | Finished(tooLarge: bool, isPng: bool)

  /** A save's report together with what it leaves on disk under its id (`None`: no file). */
  datatype SaveEffect = SaveEffect(verdict: SaveVerdict, file: Option<seq<byte>>)

  /** The bytes of all chunks, in order (read errors contribute nothing). */
  function Payload(chunks: seq<ChunkResult>): seq<byte>
    decreases |chunks|
  {
    if chunks == [] then []
    else (match chunks[0] case Chunk(b) => b case ChunkError => []) + Payload(chunks[1..])
  }

  /** No chunk in the list is a read error. */
  predicate AllRead(chunks: seq<ChunkResult>)
  {
    forall k :: 0 <= k < |chunks| ==> chunks[k].Chunk?
  }

  /** `chunk.iter().take(8).collect()`: the first eight bytes, or all of a shorter chunk. */
  function FirstEight(bytes: seq<byte>): seq<byte>
  {
    if |bytes| < 8 then bytes else bytes[..8]
  }

  /** The server's signature test is exactly "starts with the PNG signature". */
  lemma FirstEightMatchesSignature(bytes: seq<byte>)
    ensures FirstEight(bytes) == Png.Signature <==> Png.HasSignature(bytes)
  {
    assert |Png.Signature| == 8;
  }

  /** The chunk loop of `save_image` from some point on: `written` is the file so far,
      `size` the running total and `checked` whether the format was already checked. */
  function SaveLoop(chunks: seq<ChunkResult>, written: seq<byte>, size: nat, checked: bool, faults: set<IoStep>): SaveEffect
    decreases |chunks|
  {
    if chunks == [] then SaveEffect(Finished(false, true), Some(written))
    else match chunks[0]
      case ChunkError => SaveEffect(Failed(ReceivingChunk), Some(written))
      case Chunk(c) =>
        if size + |c| > MAX_IMAGE_SIZE then
          if RemoveFile in faults then SaveEffect(Failed(DeletingOversized), Some(written))
          else SaveEffect(Finished(true, true), None)
        else if !checked && FirstEight(c) != Png.Signature then SaveEffect(Finished(false, false), Some(written))
        else if WriteFile in faults then SaveEffect(Failed(WritingData), Some(written))
        else SaveLoop(chunks[1..], written + c, size + |c|, true, faults)
  }

  /** `save_image` on a disk whose failing calls are `faults`. */
  function SaveSpec(chunks: seq<ChunkResult>, faults: set<IoStep>): SaveEffect
  {
    if CreateFile in faults then SaveEffect(Failed(CreatingFile), None)
    else SaveLoop(chunks, [], 0, false, faults)
  }

  /** The store after a save under a fresh `id` left `file` behind. */
  function Placed(files: map<string, seq<byte>>, id: string, file: Option<seq<byte>>): map<string, seq<byte>>
  {
    if file.Some? then files[id := file.value] else files - {id}
  }

  /** The verdict with the id attached, as `save_image` returns it. */
  function Tagged(v: SaveVerdict, id: string): Result<SavedImage, IoError>
  {
    match v
    case Failed(e) => Err(e)
    case Finished(tooLarge, isPng) => Ok(SavedImage(id, tooLarge, isPng))
  }

  /** `get_image` (service): the file's bytes, `None` when it is absent, an error when opening fails. */
  function Open(files: map<string, seq<byte>>, faults: set<IoStep>, id: string): Result<Option<seq<byte>>, IoError>
  {
    if OpenFile in faults then Err(OpeningImage)
    else if id in files then Ok(Some(files[id]))
    else Ok(None)
  }

  /** The store after `delete_image(id)`. */
  function Deleted(files: map<string, seq<byte>>, id: string, faults: set<IoStep>): map<string, seq<byte>>
  {
    if id in files && RemoveFile !in faults then files - {id} else files
  }

  /** The image directory. `faults` are the filesystem calls that fail on this disk. */
  class ImageStore {
    var files: map<string, seq<byte>>
    const faults: set<IoStep>

    constructor (initial: map<string, seq<byte>>, failing: set<IoStep>)
      ensures files == initial && faults == failing
    {
      files := initial;
      faults := failing;
    }

    /** `save_image`; `id` is the value `Uuid::new_v4` returns, which is not yet in the store. */
    method Save(id: string, chunks: seq<ChunkResult>) returns (r: Result<SavedImage, IoError>)
      requires id !in files
      modifies this
      ensures r == Tagged(SaveSpec(chunks, faults).verdict, id)
      ensures files == Placed(old(files), id, SaveSpec(chunks, faults).file)
    {
      if CreateFile in faults {
        return Err(CreatingFile);
      }
      files := files[id := []];
      var size: nat := 0;
      var tooLarge := false;
      var checked := false;
      var i := 0;
      while i < |chunks|
        invariant 0 <= i <= |chunks|
        invariant id in files && files == old(files)[id := files[id]]
        invariant size == |files[id]| <= MAX_IMAGE_SIZE
        invariant !tooLarge
        invariant SaveSpec(chunks, faults) == SaveLoop(chunks[i..], files[id], size, checked, faults)
      {
        if chunks[i].ChunkError? {
          return Err(ReceivingChunk);
        }
        var chunk := chunks[i].bytes;
        if size + |chunk| > MAX_IMAGE_SIZE {
          tooLarge := true;
          break;
        }
        size := size + |chunk|;
        if !checked {
          if FirstEight(chunk) != Png.Signature {
            return Ok(SavedImage(id, false, false));
          }
          checked := true;
        }
        if WriteFile in faults {
          return Err(WritingData);
        }
        files := files[id := files[id] + chunk];
        i := i + 1;
      }
      if tooLarge {
        if RemoveFile in faults {
          return Err(DeletingOversized);
        }
        files := files - {id};
        return Ok(SavedImage(id, true, true));
      }
      return Ok(SavedImage(id, false, true));
    }

    /** `delete_image`: removes exactly the file for `id`; fails when it is absent. */
    method Delete(id: string) returns (r: Outcome<IoError>)
      modifies this
      ensures r.Pass? <==> id in old(files) && RemoveFile !in faults
      ensures files == Deleted(old(files), id, faults)
    {
      if id !in files || RemoveFile in faults {
        return Fail(DeletingImage);
      }
      files := files - {id};
      return Pass;
    }
  }

  // ---- What a save leaves behind ----

  lemma {:induction false} LoopLeavesFileUnlessOversized(chunks: seq<ChunkResult>, written: seq<byte>, size: nat, checked: bool, faults: set<IoStep>)
    ensures SaveLoop(chunks, written, size, checked, faults).file.None?
        <==> SaveLoop(chunks, written, size, checked, faults).verdict == Finished(true, true)
    ensures SaveLoop(chunks, written, size, checked, faults).verdict.Finished?
            && SaveLoop(chunks, written, size, checked, faults).verdict.tooLarge
        ==> SaveLoop(chunks, written, size, checked, faults).verdict == Finished(true, true)
    decreases |chunks|
  {
    if chunks != [] && chunks[0].Chunk? {
      var c := chunks[0].bytes;
      if size + |c| <= MAX_IMAGE_SIZE && (checked || FirstEight(c) == Png.Signature) && WriteFile !in faults {
        LoopLeavesFileUnlessOversized(chunks[1..], written + c, size + |c|, true, faults);
      }
    }
  }

  /** The file is created before any chunk is read: once `File::create` succeeded, the only
      save that leaves no file under the id is the oversized one that removed it, and it
      reports `(id, true, true)`. Every `Ok` result carries the id it saved under. */
  lemma SaveLeavesFileUnlessOversized(id: string, chunks: seq<ChunkResult>, faults: set<IoStep>)
    requires CreateFile !in faults
    ensures SaveSpec(chunks, faults).file.None? <==> SaveSpec(chunks, faults).verdict == Finished(true, true)
    ensures chunks == [] ==> SaveSpec(chunks, faults) == SaveEffect(Finished(false, true), Some([]))
    ensures Tagged(SaveSpec(chunks, faults).verdict, id).Ok? ==> Tagged(SaveSpec(chunks, faults).verdict, id).value.id == id
  {
    LoopLeavesFileUnlessOversized(chunks, [], 0, false, faults);
  }

  /** `delete_image` removes the entry for `id` and nothing else, and only when the file
      exists and removal works; no content changes. */
  lemma DeletedRemovesExactlyId(files: map<string, seq<byte>>, id: string, faults: set<IoStep>, k: string)
    ensures k in Deleted(files, id, faults) <==> k in files && !(k == id && RemoveFile !in faults)
    ensures k in Deleted(files, id, faults) ==> Deleted(files, id, faults)[k] == files[k]
  {
  }

  lemma {:induction false} LoopKeptLeavesFile(chunks: seq<ChunkResult>, written: seq<byte>, size: nat, checked: bool, faults: set<IoStep>)
    requires SaveLoop(chunks, written, size, checked, faults).verdict.Finished?
    requires !SaveLoop(chunks, written, size, checked, faults).verdict.tooLarge
    ensures SaveLoop(chunks, written, size, checked, faults).file.Some?
    decreases |chunks|
  {
    if chunks != [] && chunks[0].Chunk? {
      var c := chunks[0].bytes;
      if size + |c| <= MAX_IMAGE_SIZE && (checked || FirstEight(c) == Png.Signature) && WriteFile !in faults {
        LoopKeptLeavesFile(chunks[1..], written + c, size + |c|, true, faults);
      }
    }
  }

  /** Every `Ok` result that is not "too large" leaves a file under the id. */
  lemma KeptSaveLeavesFile(chunks: seq<ChunkResult>, faults: set<IoStep>)
    requires SaveSpec(chunks, faults).verdict.Finished? && !SaveSpec(chunks, faults).verdict.tooLarge
    ensures SaveSpec(chunks, faults).file.Some?
  {
    LoopKeptLeavesFile(chunks, [], 0, false, faults);
  }

  lemma {:induction false} LoopAccepted(chunks: seq<ChunkResult>, written: seq<byte>, checked: bool, faults: set<IoStep>)
    requires |written| <= MAX_IMAGE_SIZE
    requires SaveLoop(chunks, written, |written|, checked, faults).verdict == Finished(false, true)
    ensures AllRead(chunks)
    ensures SaveLoop(chunks, written, |written|, checked, faults).file == Some(written + Payload(chunks))
    ensures |written + Payload(chunks)| <= MAX_IMAGE_SIZE
    decreases |chunks|
  {
    if chunks == [] {
      assert written + Payload(chunks) == written;
    } else {
      var c := chunks[0].bytes;
      LoopAccepted(chunks[1..], written + c, true, faults);
      assert written + Payload(chunks) == (written + c) + Payload(chunks[1..]);
    }
  }

  /** An accepted upload (`(id, false, true)`) is stored verbatim: the file is the
      concatenation of all chunks, within `MAX_IMAGE_SIZE`, and — unless there were
      no chunks at all — it starts with the PNG signature. */
  lemma AcceptedIsVerbatim(chunks: seq<ChunkResult>, faults: set<IoStep>)
    requires SaveSpec(chunks, faults).verdict == Finished(false, true)
    ensures AllRead(chunks)
    ensures SaveSpec(chunks, faults).file == Some(Payload(chunks))
    ensures |Payload(chunks)| <= MAX_IMAGE_SIZE
    ensures chunks != [] ==> Png.HasSignature(Payload(chunks))
  {
    LoopAccepted(chunks, [], false, faults);
    assert [] + Payload(chunks) == Payload(chunks);
    if chunks != [] {
      var c := chunks[0].bytes;
      assert FirstEight(c) == Png.Signature;
      FirstEightMatchesSignature(c);
      assert Payload(chunks) == c + Payload(chunks[1..]);
      assert Payload(chunks)[..8] == c[..8];
    }
  }

  /** Once the first chunk passed the signature test, the loop never reports a wrong format. */
  lemma {:induction false} CheckedLoopNeverWrongFormat(chunks: seq<ChunkResult>, written: seq<byte>, size: nat, faults: set<IoStep>)
    ensures SaveLoop(chunks, written, size, true, faults).verdict != Finished(false, false)
    decreases |chunks|
  {
    if chunks != [] && chunks[0].Chunk? {
      var c := chunks[0].bytes;
      if size + |c| <= MAX_IMAGE_SIZE && WriteFile !in faults {
        CheckedLoopNeverWrongFormat(chunks[1..], written + c, size + |c|, faults);
      }
    }
  }

  /** What the store holds for an upload whose save ended `Ok` and not too large: the
      chunks verbatim when the signature test passed, an empty file when it failed. */
  function StoredUpload(chunks: seq<ChunkResult>, faults: set<IoStep>): seq<byte>
  {
    if SaveSpec(chunks, faults).verdict == Finished(false, true) then Payload(chunks) else []
  }

  /** Every save that ends `Ok` and not too large leaves exactly `StoredUpload` under its id. */
  lemma KeptSaveStoresUpload(chunks: seq<ChunkResult>, faults: set<IoStep>)
    requires SaveSpec(chunks, faults).verdict.Finished? && !SaveSpec(chunks, faults).verdict.tooLarge
    ensures SaveSpec(chunks, faults).file == Some(StoredUpload(chunks, faults))
  {
    if SaveSpec(chunks, faults).verdict == Finished(false, true) {
      AcceptedIsVerbatim(chunks, faults);
    } else if chunks != [] && chunks[0].Chunk? {
      var c := chunks[0].bytes;
      CheckedLoopNeverWrongFormat(chunks[1..], c, |c|, faults);
      assert [] + c == c;
    }
  }

  /** A first chunk that fits but lacks the signature stops the save with `(id, false, false)`
      and leaves an empty file behind (nothing was written). */
  lemma WrongFormatLeavesEmptyFile(chunks: seq<ChunkResult>, faults: set<IoStep>)
    requires CreateFile !in faults
    requires chunks != [] && chunks[0].Chunk? && |chunks[0].bytes| <= MAX_IMAGE_SIZE
    requires !Png.HasSignature(chunks[0].bytes)
    ensures SaveSpec(chunks, faults) == SaveEffect(Finished(false, false), Some([]))
  {
    FirstEightMatchesSignature(chunks[0].bytes);
  }

  lemma {:induction false} LoopOversized(chunks: seq<ChunkResult>, written: seq<byte>, faults: set<IoStep>)
    requires AllRead(chunks) && faults == {}
    requires |written| <= MAX_IMAGE_SIZE
    ensures SaveLoop(chunks, written, |written|, true, faults)
         == if |written + Payload(chunks)| > MAX_IMAGE_SIZE then SaveEffect(Finished(true, true), None)
            else SaveEffect(Finished(false, true), Some(written + Payload(chunks)))
    decreases |chunks|
  {
    if chunks == [] {
      assert written + Payload(chunks) == written;
    } else {
      var c := chunks[0].bytes;
      assert written + Payload(chunks) == (written + c) + Payload(chunks[1..]);
      if |written| + |c| <= MAX_IMAGE_SIZE {
        LoopOversized(chunks[1..], written + c, faults);
      }
    }
  }

  /** On a healthy disk and a stream without read errors, the three outcomes of `save_image`
      are decided as follows: the size check runs before the format check, so a first chunk
      over the limit reports "too large" (and `isPng == true`) unchecked; a first chunk that
      fits decides the format; after that only the running total matters. An oversized
      upload leaves no file. */
  lemma SaveOutcomes(chunks: seq<ChunkResult>)
    requires AllRead(chunks) && chunks != []
    ensures var c := chunks[0].bytes;
      SaveSpec(chunks, {}) ==
        if |c| > MAX_IMAGE_SIZE then SaveEffect(Finished(true, true), None)
        else if !Png.HasSignature(c) then SaveEffect(Finished(false, false), Some([]))
        else if |Payload(chunks)| > MAX_IMAGE_SIZE then SaveEffect(Finished(true, true), None)
        else SaveEffect(Finished(false, true), Some(Payload(chunks)))
  {
    var c := chunks[0].bytes;
    FirstEightMatchesSignature(c);
    if |c| <= MAX_IMAGE_SIZE && Png.HasSignature(c) {
      AllReadTail(chunks, |chunks|);
      assert chunks[..|chunks|] == chunks;
      assert [] + c == c;
      LoopOversized(chunks[1..], c, {});
      assert Payload(chunks) == c + Payload(chunks[1..]);
    }
  }

  lemma {:induction false} LoopReadError(chunks: seq<ChunkResult>, written: seq<byte>, k: nat)
    requires k < |chunks| && chunks[k] == ChunkError && AllRead(chunks[..k])
    requires |written + Payload(chunks[..k])| <= MAX_IMAGE_SIZE
    ensures SaveLoop(chunks, written, |written|, true, {})
         == SaveEffect(Failed(ReceivingChunk), Some(written + Payload(chunks[..k])))
    decreases k
  {
    if k == 0 {
      assert chunks[..0] == [];
      assert written + Payload(chunks[..0]) == written;
    } else {
      var c := chunks[0].bytes;
      PayloadOfPrefix(chunks, k);
      assert written + Payload(chunks[..k]) == (written + c) + Payload(chunks[1..][..k - 1]);
      AllReadTail(chunks, k);
      LoopReadError(chunks[1..], written + c, k - 1);
    }
  }

  lemma AllReadTail(chunks: seq<ChunkResult>, k: nat)
    requires 0 < k <= |chunks| && AllRead(chunks[..k])
    ensures AllRead(chunks[1..][..k - 1])
  {
    var t := chunks[1..][..k - 1];
    forall j | 0 <= j < |t| ensures t[j].Chunk? {
      assert t[j] == chunks[..k][j + 1];
    }
  }

  lemma PayloadOfPrefix(chunks: seq<ChunkResult>, k: nat)
    requires 0 < k <= |chunks| && chunks[0].Chunk?
    ensures Payload(chunks[..k]) == chunks[0].bytes + Payload(chunks[1..][..k - 1])
  {
    assert chunks[..k][0] == chunks[0];
    assert chunks[..k][1..] == chunks[1..][..k - 1];
  }

  /** A read error after the first `k` chunks makes `save_image` fail, and the file written
      so far — every chunk before the error — stays in the store. */
  lemma ReadErrorKeepsPartialFile(chunks: seq<ChunkResult>, k: nat)
    requires k < |chunks| && chunks[k] == ChunkError && AllRead(chunks[..k])
    requires |Payload(chunks[..k])| <= MAX_IMAGE_SIZE
    requires k > 0 ==> Png.HasSignature(chunks[0].bytes)
    ensures SaveSpec(chunks, {}) == SaveEffect(Failed(ReceivingChunk), Some(Payload(chunks[..k])))
  {
    if k == 0 {
      assert chunks[..0] == [];
    } else {
      var c := chunks[0].bytes;
      FirstEightMatchesSignature(c);
      PayloadOfPrefix(chunks, k);
      AllReadTail(chunks, k);
      assert [] + c == c;
      LoopReadError(chunks[1..], c, k - 1);
    }
  }
}
