# simple-blog: the upload path, in Dafny

This project models the core of *simple-blog*, a small blog. Its server is written in Rust on actix-web with a Postgres table of posts and a directory of images. Its client is written in Angular. The model covers:

- **`POST /blogpost`**, the multipart ingestion handler, with its `clear_files` helper. The handler walks the parts of one request: a JSON `data` part and optional `avatar` and `image` parts. It saves images as they arrive and keeps the handles it saved. At every exit it chooses a status and whether to force-close the connection. On most failures it deletes the images it still holds. Then it inserts one post.
- **The image store**: `save_image`, `delete_image` and `get_image`. They work over a directory modelled as a `map<string, seq<byte>>` held by a class.
- **`GET /image/{uuid}`**: the name's validation and the mapping from store outcome to HTTP status.
- **The post table**: `create_blogpost` as an append, and `get_blogposts` as the newest-first page query.
- **`ImageType`** and its integer encoding.
- **`unroll_anyhow_result`**, the error-chain formatter.
- **The `data` part as a JSON object**: the keys the client writes and the keys the server's derived decoder requires.
- **The client's "new post" form**: the `onSubmit` validation chain and the image classifier run when the file finishes loading.

Where a part of the source works by changing state, the model keeps that form:

- `ImageStore`, `PostTable` and `NewPostComponent` are classes whose methods change their fields.
- The handler, `save_image` and the error formatter are methods with loops.

Each such method is proved against a pure function of its inputs and old state, such as `SaveSpec`, `Handle` or `Unrolled`. The properties are then lemmas about those functions.

Abstractions:

- **JSON decoding** is a function parameter `parse: seq<byte> -> Option<BlogPostDto>`.
- **`Uuid::try_parse` followed by `to_string`** is a parameter `parseUuid: string -> Option<string>`.
- **The ids `Uuid::new_v4` hands out** are a parameter sequence. It is assumed fresh: no repeats, and no id already in the store.
- **The failing filesystem calls** are a set `faults` of `IoStep`s: create, write, remove and open.
- **The database stage** is one `DbOutcome`: pool error, blocking error, insert error, or inserted.
- **The multipart stream** is a sequence of events. Each event is a part or a stream error. A part has an optional name and the results of reading its chunks.

Decisions taken where the sources disagree or are silent:

- **`save_image` returns a triple** `Result<(String, bool, bool)>` (`server/src/service/image_service.rs:17`), but the handler binds it to a pair, `let (avatar_result, too_large) = avatar_result.unwrap();` at `server/src/handlers/blogpost_handler.rs:83` and the same for `image` at `:99`. As written this does not type-check, so there is no build whose behaviour to follow. The model chooses to read the first two components, the id and `too_large`, and ignores `is_png`. The consequences of that reading are listed under Findings.
- **`MAX_DATA_SIZE` has no definition in the sources.** It is taken as 2138 bytes. `MAX_IMAGE_SIZE` is 2 MiB, the value the client also uses.
- **The date of a post comes from the payload.** The server's `CreateBlogPostDTO` carries `date_of_publication`, so the persisted record takes its date from the payload. The server does not assign it. The record is built from the payload and the two held handles, following the handler's call at `blogpost_handler.rs:131`, not the service's two-argument signature.
- **The client's DTO has a different shape.** It sends text, username and an optional avatar URL; it sends no date. It is modelled separately, as `CreatePostDto`. Since the server's date field is required, no post the form sends can decode; this is listed under Findings and modelled in `PayloadWire`, whose corrected decoder assigns the date on the server.
- **`get_blogposts` requires `page >= 1`.** The query's order among posts of equal date is left open. The feed properties are proved for every admissible order (`FeedOrder`). `SortByDate` is one such order.

## Model

| member | source | states |
|---|---|---|
| BlogpostHandler.Handle | server/src/handlers/blogpost_handler.rs:22-145 | reference definition, with no contract of its own; the field loop, then the missing-data check and the database stage, each exit answered by `Finish`; `CreateBlogpost` is proved equal to it and the `BlogpostHandlerProperties` rows below are about it |
| BlogpostHandler.Run | server/src/handlers/blogpost_handler.rs:35-110 | reference definition, with no contract of its own; the `while let` loop: a stream error ends it like the end of the stream, a stopping part ends it with that exit; `RunSound`, `RunUploads`, `RunAppend` and `StoppedInsideLoop` are about it |
| BlogpostHandler.FieldStep | server/src/handlers/blogpost_handler.rs:36-109 | reference definition, with no contract of its own; the dispatch on the part's name: no name, `data`, `avatar`, `image`, anything else; `FieldArm` is proved against it |
| BlogpostHandler.DataStep | server/src/handlers/blogpost_handler.rs:51-74 | reference definition, with no contract of its own; the `data` arm; `DataArm` is proved against it and `DataPartRules` and `OnlyFirstDataChunkMatters` are about it |
| BlogpostHandler.ImageStep | server/src/handlers/blogpost_handler.rs:76-106 | reference definition, with no contract of its own; the `avatar` and `image` arms; `ImageArm` is proved against it and `ImagePartRules` and `OversizedImageRejected` are about it |
| BlogpostHandler.Cleared | server/src/handlers/blogpost_handler.rs:11-20 | reference definition, with no contract of its own; `clear_files`, the avatar first and then the image, failures dropped; `ClearFiles` is proved against it and `ClearedRemovesExactlyHandles` states it |
| BlogpostHandler.Finish | server/src/handlers/blogpost_handler.rs:36-141 | reference definition, with no contract of its own; an exit's response, with `clear_files` run first at every return that calls it; `HandleStopped`, `FinishClears` and `SkippedCleanupKeepsFiles` are about it |
| BlogpostHandler.Respond | server/src/handlers/blogpost_handler.rs:35-144 | returns inside the field loop force-close and the later ones do not; 201 only for success, 413 only for oversized data or image, 500 exactly for read, save, pool, blocking and insert failures |
| BlogpostHandler.ClearFiles | server/src/handlers/blogpost_handler.rs:11-20 | deletes the avatar's file if held, then the image's; the new store is `Cleared` of the old one, and deletion failures are swallowed |
| BlogpostHandler.CreateBlogpost | server/src/handlers/blogpost_handler.rs:22-145 | the handler's response, exit, store and table are exactly those of the `Handle` specification, given fresh ids |
| BlogpostHandler.DataArm | server/src/handlers/blogpost_handler.rs:51-74 | the `data` arm performs `DataStep`, clearing files on every stop except the oversized chunk |
| BlogpostHandler.ImageArm | server/src/handlers/blogpost_handler.rs:76-106 | the `avatar`/`image` arm performs `ImageStep`: save under the next id, clear and stop on error or too large, otherwise hold the id |
| BlogpostHandler.FieldArm | server/src/handlers/blogpost_handler.rs:36-109 | the loop body performs `FieldStep`, adds at most one store key (the drawn id) and none when no id was drawn |
| BlogpostHandler.RunStep | server/src/handlers/blogpost_handler.rs:35 | one turn of the `while let` loop: a part's step either stops the loop or continues with the rest |
| BlogpostHandler.HandleStopped | server/src/handlers/blogpost_handler.rs:35-110 | a loop that stopped at an exit answers that exit from the state it stopped in |
| BlogpostHandlerProperties.StreamErrorEndsLoop | server/src/handlers/blogpost_handler.rs:35 | a stream-level error ends the loop exactly as end-of-stream does, ignoring everything after it |
| BlogpostHandlerProperties.StreamErrorActsAsEnd | server/src/handlers/blogpost_handler.rs:35-117 | a request with a stream error is answered as the request cut off before the error, down to the missing-data check |
| BlogpostHandlerProperties.StoppedInsideLoop | server/src/handlers/blogpost_handler.rs:35-110 | every exit taken inside the loop is one of the in-loop exits |
| BlogpostHandlerProperties.ForceCloseExactlyInLoop | server/src/handlers/blogpost_handler.rs:35-144 | the response force-closes if and only if the loop stopped early |
| BlogpostHandlerProperties.OnlyFirstDataChunkMatters | server/src/handlers/blogpost_handler.rs:52 | only the first chunk of a `data` part is read |
| BlogpostHandlerProperties.DataPartRules | server/src/handlers/blogpost_handler.rs:51-74 | `data` is accepted iff its first chunk was read, is at most `MAX_DATA_SIZE` and decodes, and then exactly the payload is held; no chunk stops with `DataEmpty` (400), a failed first read with `DataReadError` (500), a chunk over the limit (strict `>`) with `DataTooLarge` (413) and one that does not decode with `DataMalformed` (400); a stop changes no state |
| BlogpostHandlerProperties.ImagePartRules | server/src/handlers/blogpost_handler.rs:76-106 | each image part draws one id and saves under it; an error stops with `SaveError` (500), too large stops with `ImageTooLarge` (413) and the drawn id absent from the store, both with the handles unchanged; otherwise the new id replaces the held avatar or image handle, whatever the format check said |
| BlogpostHandlerProperties.FieldStepSound | server/src/handlers/blogpost_handler.rs:36-109 | one loop step keeps the bookkeeping: old files untouched, undrawn ids absent, held handles name files this request created |
| BlogpostHandlerProperties.RunSound | server/src/handlers/blogpost_handler.rs:35-110 | the bookkeeping holds wherever the loop ends |
| BlogpostHandlerProperties.HandleSound | server/src/handlers/blogpost_handler.rs:22-145 | the handler reports the handles and store held when the loop ended, and the bookkeeping holds there |
| BlogpostHandlerProperties.ClearedRemovesExactlyHandles | server/src/handlers/blogpost_handler.rs:11-20 | `clear_files` removes a key iff it is a held handle and removal works; every other entry and its content is unchanged |
| BlogpostHandlerProperties.PreexistingFilesUntouched | server/src/handlers/blogpost_handler.rs:22-145 | no request changes or removes a file that was in the store before it |
| BlogpostHandlerProperties.FailureClearsHeldHandles | server/src/handlers/blogpost_handler.rs:28-141 | on every exit that calls `clear_files` (a healthy disk), both held handles' files are gone and nothing else was removed |
| BlogpostHandlerProperties.FinishClears | server/src/handlers/blogpost_handler.rs:11-20 | one cleaning exit leaves the store minus the held handles |
| BlogpostHandlerProperties.SkippedCleanupKeepsFiles | server/src/handlers/blogpost_handler.rs:65 | the oversized-data and unknown-field exits leave every saved file in place |
| BlogpostHandlerProperties.CreatedExactlyWhenComplete | server/src/handlers/blogpost_handler.rs:113-144 | 201 iff the stream ended with a payload held and the insert succeeded; the row is the payload with exactly the held handles, whose files exist and hold the bytes of an `avatar` (respectively `image`) part of the request (all its chunks, or nothing when its first chunk failed the signature test); otherwise the table is unchanged |
| BlogpostHandlerProperties.RunAppend | server/src/handlers/blogpost_handler.rs:35-110 | parts the loop ran through without stopping can be cut off: the loop continues from the state they left |
| BlogpostHandlerProperties.OversizedImageRejected | server/src/handlers/blogpost_handler.rs:76-106 | an image part over 2 MiB, after parts that did not stop the loop, is answered 413 with force-close on a healthy disk; the drawn id and both held handles are gone from the store, only those files are removed, and no row is added |
| BlogpostHandlerProperties.HeldFileSurvivesStep | server/src/handlers/blogpost_handler.rs:76-106 | a step writes or removes only the id it draws, so a held handle's file keeps its bytes |
| BlogpostHandlerProperties.FieldStepUploads | server/src/handlers/blogpost_handler.rs:76-106 | after each step, every held handle's file holds the stored bytes of a part of that name seen so far |
| BlogpostHandlerProperties.RunUploads | server/src/handlers/blogpost_handler.rs:35-110 | wherever the loop ends, every held handle's file holds the stored bytes of a part of that name in the request |
| BlogpostHandlerProperties.MissingDataIsRejected | server/src/handlers/blogpost_handler.rs:113-117 | no `data` part: 400 without force-close, after clearing the held images |
| BlogpostHandlerScenarios.ValidPostWithImage | server/src/handlers/blogpost_handler_tests.rs:188-190 | a valid payload and PNG image give 201, one row holding the image's handle, the image stored verbatim, and page 1 of the feed is that post |
| BlogpostHandlerScenarios.MalformedDataCreatesNothing | server/src/handlers/blogpost_handler_tests.rs:217-245 | undecodable data is refused (400, force-close) with no row and no file left |
| BlogpostHandlerScenarios.ImageWithoutDataIsRemoved | server/src/handlers/blogpost_handler.rs:113-117 | an image with no `data` part: 400, and the saved image is deleted |
| BlogpostHandlerScenarios.RepeatedAvatarOrphansFirst | server/src/handlers/blogpost_handler.rs:84 | a second avatar replaces the first handle; a later failure deletes only the second file |
| BlogpostHandlerScenarios.UnknownFieldKeepsSavedImage | server/src/handlers/blogpost_handler.rs:108 | an unknown part after a saved image: 400 with force-close, and the image file stays |
| BlogpostHandlerScenarios.OversizedDataKeepsSavedImage | server/src/handlers/blogpost_handler.rs:65 | an oversized `data` chunk after a saved avatar: 413 with force-close, and the avatar file stays |
| BlogpostHandlerScenarios.WrongFormatImageIsRecorded | server/src/handlers/blogpost_handler.rs:99-100 | a non-PNG image is not refused: the post is created with the handle of an empty file |
| BlogpostHandlerScenarios.IntendedImageStepKeepsOnlyPng | server/src/service/image_service.rs:45-49 | under the corrected image arm a kept handle names the verbatim upload, within the limit and signed as PNG, and a wrong-format upload's file is removed |
| BlogpostHandlerScenarios.IntendedRefusesWrongFormat | server/src/service/image_service.rs:45-49 | the corrected arm refuses a GIF upload and leaves no file |
| BlogpostHandlerScenarios.IntendedCleanupOnEveryFailure | server/src/handlers/blogpost_handler.rs:28-31 | under the cleanup the comment asks for, no failure exit leaves a held handle's file behind |
| BlogpostHandlerScenarios.ReadErrorOrphansPartialFile | server/src/service/image_service.rs:31-33 | an image part whose second chunk cannot be read: 500 with force-close, and the file holding the first chunk stays, since its id was never held |
| BlogpostHandlerScenarios.IntendedImageStepTidy | server/src/handlers/blogpost_handler.rs:76-106 | the corrected image arm keeps the store equal to the original plus exactly the held handles' files, with distinct handles |
| BlogpostHandlerScenarios.IntendedStepTidy | server/src/handlers/blogpost_handler.rs:35-110 | every corrected loop step keeps that bookkeeping and draws at most one id |
| BlogpostHandlerScenarios.IntendedRunTidy | server/src/handlers/blogpost_handler.rs:35-110 | the corrected loop keeps that bookkeeping wherever it ends |
| BlogpostHandlerScenarios.IntendedStopsInsideLoop | server/src/handlers/blogpost_handler.rs:35-110 | the corrected loop stops only with an in-loop exit |
| BlogpostHandlerScenarios.IntendedHandleLeavesNoStrayFile | server/src/handlers/blogpost_handler.rs:28-31 | with the corrections, on a disk where removal works, every failed request leaves the store exactly as before and the table unchanged; a created post adds exactly the files its record points to |
| ImageService.CheckedLoopNeverWrongFormat | server/src/service/image_service.rs:45-51 | once the first chunk passed the signature test, `save_image` never reports a wrong format |
| ImageService.KeptSaveStoresUpload | server/src/service/image_service.rs:17-66 | every save ending `Ok` and not too large leaves exactly the stored form under its id: all chunks when the signature test passed, an empty file when it failed |
| ImageService.SaveLoop | server/src/service/image_service.rs:31-63 | reference definition, with no contract of its own; the chunk loop of `save_image`: read error, running size over the limit (delete, too large), first-chunk signature test, write; `LoopAccepted`, `LoopOversized`, `LoopReadError`, `LoopKeptLeavesFile` and `CheckedLoopNeverWrongFormat` are about it |
| ImageService.SaveSpec | server/src/service/image_service.rs:17-66 | reference definition, with no contract of its own; `save_image`: a failing create, then `SaveLoop` from an empty file; `ImageStore.Save` is proved equal to it and `SaveOutcomes`, `AcceptedIsVerbatim` and `KeptSaveStoresUpload` are about it |
| ImageService.Deleted | server/src/service/image_service.rs:68-75 | reference definition, with no contract of its own; `delete_image` removes the id when it exists and removal works; `ImageStore.Delete` is proved against it and `DeletedRemovesExactlyId` states it |
| ImageService.ImageStore.Save | server/src/service/image_service.rs:17-66 | `save_image`'s result is `SaveSpec`'s verdict tagged with the id, and the store gains exactly `SaveSpec`'s file under the id |
| ImageService.ImageStore.Delete | server/src/service/image_service.rs:68-75 | succeeds iff the file exists and removal works; the store becomes `Deleted` of the old one |
| ImageService.Open | server/src/service/image_service.rs:131-152 | reference definition, with no contract of its own; `get_image`: an error when opening fails, `None` when the file is absent, else its contents; `ServeOutcomes` and `SavedImageIsServed` are about it |
| ImageService.FirstEightMatchesSignature | server/src/service/image_service.rs:45-47 | comparing `take(8)` of a chunk with the signature is exactly "starts with the PNG signature" |
| ImageService.LoopLeavesFileUnlessOversized | server/src/service/image_service.rs:31-63 | in the chunk loop, no file is left iff the result is the removed oversized one |
| ImageService.SaveLeavesFileUnlessOversized | server/src/service/image_service.rs:18-25 | the file is created before reading; once created it is missing only after the oversized removal; every `Ok` carries the id |
| ImageService.DeletedRemovesExactlyId | server/src/service/image_service.rs:68-75 | deletion removes only `id`, only when present and removal works, and changes no content |
| ImageService.KeptSaveLeavesFile | server/src/service/image_service.rs:53-65 | every `Ok` that is not too large leaves a file under the id |
| ImageService.AcceptedIsVerbatim | server/src/service/image_service.rs:53-55 | on `(id, false, true)` every chunk was read, the file is their concatenation, at most `MAX_IMAGE_SIZE`, and starts with the signature |
| ImageService.WrongFormatLeavesEmptyFile | server/src/service/image_service.rs:45-49 | a fitting first chunk without the signature gives `(id, false, false)` and an empty file |
| ImageService.SaveOutcomes | server/src/service/image_service.rs:39-65 | on a healthy disk: an oversized first chunk reports too large and `is_png` unchecked; otherwise the first chunk decides the format, then the running total decides the size; oversized leaves no file |
| ImageService.ReadErrorKeepsPartialFile | server/src/service/image_service.rs:32-33 | a read error fails the save and leaves the chunks written before it in the file |
| ImageService.LoopAccepted | server/src/service/image_service.rs:31-56 | the chunk loop accepts only if every chunk was read, and then appends them all |
| ImageService.LoopOversized | server/src/service/image_service.rs:39-43 | after the format check the loop is decided by the running total alone |
| ImageService.LoopReadError | server/src/service/image_service.rs:32-33 | a read error at position `k` stops the loop with the first `k` chunks written |
| Png.ShortInputHasNoSignature | server/src/service/image_service.rs:12 | fewer than eight bytes never carry the signature |
| ImageHandler.ServeImage | server/src/handlers/image_handler.rs:9-37 | reference definition, with no contract of its own; the placeholder names pass, any other name must parse as a UUID (else 400) and is served by its canonical form; `ServeOutcomes`, `InvalidNameIsBadRequest`, `CanonicalLookup` and `SavedImageIsServed` are about it |
| ImageHandler.FileName | server/src/handlers/image_handler.rs:13-20 | reference definition, with no contract of its own; placeholders verbatim, any other name parsed as a UUID; `PlaceholdersIgnoreParser`, `InvalidNameIsBadRequest` and `CanonicalLookup` are about it |
| ImageHandler.ServeWithName | server/src/handlers/image_handler.rs:22-36 | 500 iff opening fails, 400 iff the file is absent, 200 with `application/octet-stream` and the file's bytes iff it is present |
| ImageHandler.PlaceholdersIgnoreParser | server/src/handlers/image_handler.rs:14 | a placeholder's answer does not depend on the UUID parser |
| ImageHandler.InvalidNameIsBadRequest | server/src/handlers/image_handler.rs:16-17 | a name that is neither a placeholder nor a UUID gets 400 whatever the store and disk |
| ImageHandler.CanonicalLookup | server/src/handlers/image_handler.rs:19 | a UUID is looked up under its canonical form |
| ImageHandler.ServeOutcomes | server/src/handlers/image_handler.rs:9-37 | only 200, 400 or 500; 200 iff the named file exists and opening works, with its bytes as body; 500 iff opening fails on a valid name |
| ImageHandler.PlaceholderAvatarServed | server/src/handlers/image_handler_tests.rs:23-28 | with the placeholder avatar on a working disk, it is served with 200 |
| ImageHandler.SavedImageIsServed | server/src/handlers/image_handler.rs:22-36 | an upload `save_image` accepted is served back byte for byte under its id (the test at `image_handler_tests.rs:65-75` checks only this serving half, with the file copied into place) |
| BlogpostService.Page | server/src/service/blogpost_service.rs:28-29 | reference definition, with no contract of its own; `LIMIT 5 OFFSET (page-1)*5` over an ordered table; `PagesTile`, `OnePagePerPost` and `PageOfFeed` are about it |
| BlogpostService.SortByDate | server/src/service/blogpost_service.rs:27 | a newest-first permutation of the table |
| BlogpostService.InsertByDateSorted | server/src/service/blogpost_service.rs:27 | inserting into a newest-first list keeps it newest-first and adds exactly the post |
| BlogpostService.InsertByDateAdds | server/src/service/blogpost_service.rs:27 | insertion adds exactly the post to the multiset |
| BlogpostService.PostTable.CreateBlogpost | server/src/service/blogpost_service.rs:13-20 | appends exactly the post and returns it as the single inserted row |
| BlogpostService.PostTable.GetBlogposts | server/src/service/blogpost_service.rs:22-33 | the result is exactly `Page(ordered, page)`, the `LIMIT 5 OFFSET (page-1)*5` slice, of some admissible newest-first order of the table; so at most 5 posts, newest first, drawn from the table, which is only read |
| BlogpostService.PagesTile | server/src/service/blogpost_service.rs:29 | pages 1..n together are exactly the first `n*5` posts, so pages are contiguous and disjoint |
| BlogpostService.OnePagePerPost | server/src/service/blogpost_service.rs:28-29 | the post at position `i` is on page `i/5+1` at index `i%5` |
| BlogpostService.PageOfFeed | server/src/service/blogpost_service.rs:26-29 | in any admissible order among equal dates, a page is newest-first and drawn from the table |
| BlogpostService.EmptyFeed | server/src/handlers/blogpost_handler_tests.rs:91 | an empty table gives an empty first page |
| BlogpostService.SinglePostFeed | server/src/handlers/blogpost_handler_tests.rs:188-190 | a table holding one post gives exactly that post on page 1 |
| ImageKind.FromI32 | server/src/models/image.rs:33-40 | reference definition, with no contract of its own; 0 decodes to `Avatar`, every other value to `BlogPost`; `ToI32` (decoding its result gives the variant back) and `IntegerRoundTrip` are about it |
| ImageKind.ToI32 | server/src/models/image.rs:25-31 | `Avatar` encodes as 0 and `BlogPost` as 1, and decoding gives the value back |
| ImageKind.IntegerRoundTrip | server/src/models/image.rs:33-46 | re-encoding a decoded integer gives it back iff it is 0 or 1 |
| ErrorReport.Tabs | server/src/main.rs:20 | reference definition, with no contract of its own; `"\t".repeat(n)`; `LineAt` and `FirstLine` are about it |
| ErrorReport.Unrolled | server/src/main.rs:17-23 | reference definition, with no contract of its own; one line per error of the chain, indented by its depth; `Unroll` is proved equal to it and `LineAt`, `UnrolledLength`, `PrefixReport` are about it |
| ErrorReport.Unroll | server/src/main.rs:17-23 | the loop builds exactly `Unrolled` of the chain |
| ErrorReport.UnrolledLength | server/src/main.rs:18-22 | the output length is the sum over the causes `i` of `i` plus the message's length plus one |
| ErrorReport.OffsetOfPrefix | server/src/main.rs:19-21 | a line's start offset depends only on the causes before it |
| ErrorReport.PrefixReport | server/src/main.rs:19-21 | the report of a prefix of the chain is a prefix of the report |
| ErrorReport.LineAt | server/src/main.rs:19-21 | line `i` of the report is exactly `i` tabs, the `i`-th message and a newline, in chain order |
| ErrorReport.EmptyChain | server/src/main.rs:18-22 | an empty chain yields the empty string |
| ErrorReport.FirstLine | server/src/main.rs:20 | the first line has no leading tab |
| NewPost.ValidationError | frontend/src/app/new-post/new-post.component.ts:43-65 | reference definition, with no contract of its own; the first failing check of the form, username before text and emptiness before length; `ValidationIsDocumentedLimits` and `UsernameCheckedFirst` are about it |
| NewPost.ImageRejection | frontend/src/app/new-post/new-post.component.ts:104-117 | reference definition, with no contract of its own; the signature test before the size test; `OnImageLoaded` is proved against it and `ClientAndServerAgreeOnImages` is about it |
| NewPost.ValidationIsDocumentedLimits | frontend/src/app/new-post/new-post.component.ts:43-65 | the form passes iff username and text are non-empty and within 128 and 2000 characters |
| NewPost.UsernameCheckedFirst | frontend/src/app/new-post/new-post.component.ts:43-53 | a bad username is reported whatever the text: the first failure wins |
| NewPost.Submission | frontend/src/app/new-post/new-post.component.ts:67-78 | reference definition, with no contract of its own; what `onSubmit` sends, if anything; `OnSubmit` is proved against it and `SentPostMeetsLimits`, `RefusedImageBlocksSubmission` and `ValidationIsDocumentedLimits` are about it |
| NewPost.SentPostMeetsLimits | frontend/src/app/new-post/new-post.component.ts:43-78 | every post the form sends has a username of 1 to 128 and a text of 1 to 2000 characters (the documented column limits), carries the form's text and username, and, when a file was chosen, the image the reader accepted |
| NewPost.EveryByteMatchesIsSignature | frontend/src/app/new-post/new-post.component.ts:106-107 | the client's byte-wise `every` is exactly "starts with the PNG signature", so short inputs are refused |
| NewPost.ClientAndServerAgreeOnImages | frontend/src/app/new-post/new-post.component.ts:104-117 | the client accepts exactly the images the server stores verbatim when they arrive as one chunk on a working disk |
| NewPost.RefusedImageBlocksSubmission | frontend/src/app/new-post/new-post.component.ts:67-70 | a chosen but refused image makes the submission silent: nothing is sent |
| NewPost.NewPostComponent.OnSubmit | frontend/src/app/new-post/new-post.component.ts:38-78 | the first failing check's message is shown, or none; the sent request is `Submission` of the form; the button stays disabled iff a request was sent |
| NewPost.NewPostComponent.OnImageLoaded | frontend/src/app/new-post/new-post.component.ts:104-118 | not-PNG is checked before the 2 MiB limit; both refusals show their message and drop the image; an accepted image becomes `postImage` |
| NewPost.NewPostComponent.OnImageLoadFailed | frontend/src/app/new-post/new-post.component.ts:120-124 | a load error shows its message and drops the image |
| PayloadWire.ClientObject | frontend/src/app/services/blogpost.service.ts:18 | the `data` part the client writes holds exactly the keys `text`, `username` and `avatar` |
| PayloadWire.ClientPayloadNeverDecodes | server/src/models/dto.rs:5-14 | the server's decoder, which requires `date_of_publication`, refuses every object the client writes |
| PayloadWire.FormPostIsRefused | server/src/handlers/blogpost_handler.rs:51-74 | a post from the form is answered 400 (413 when its `data` part is too large) with force-close, no row and no file |
| PayloadWire.IntendedServerDecode | server/src/models/dto.rs:5-14 | reference definition, with no contract of its own; the corrected decoder requires only `text` and `username` and dates the post by the server's clock; the three lemmas below are about it |
| PayloadWire.IntendedServerDecodesClient | server/src/models/dto.rs:5-14 | with the server assigning the date, every object the client writes decodes, to its text and username dated `today` |
| PayloadWire.IntendedServerAcceptsFormPost | server/src/handlers/blogpost_handler.rs:51-74 | with the server assigning the date, the form's `data` part, when it fits, is accepted and the post dated `today` held |
| PayloadWire.IntendedServerCreatesFormPost | server/src/handlers/blogpost_handler.rs:113-144 | with the server assigning the date, a form post without an image whose `data` part fits is answered 201 and adds exactly one row, dated `today`, with no handles |
| PayloadWire.IntendedClientObject | server/src/models/dto.rs:5-14 | the alternative, client-side fix: the client object carries the three keys plus `date_of_publication` |
| PayloadWire.IntendedClientPayloadDecodes | server/src/models/dto.rs:5-14 | the corrected object decodes iff its date text parses, to the post's text, username and that date |
| PayloadWire.IntendedFormPostIsAccepted | server/src/handlers/blogpost_handler.rs:51-74 | with the date included, a `data` part that fits is accepted and its payload held |

## Left out

- `download_avatar` (`image_service.rs:80-128`) is left out. It is a network client, and the modelled handler never calls it.
- The multipart wire format (RFC 7578) is left out: boundaries, headers, and how `actix_multipart` splits bodies into chunks. Parts arrive already split.
- A missing content disposition and a missing name are the same event here (`name: None`). Both exits are identical.
- actix routing, CORS, logging, the server bootstrap and the `web::block` thread pool are left out. The database stage is one outcome; the Diesel pool and SQL are not modelled.
- serde JSON, UUID generation and UUID parsing are abstract parameters. The JSON text encoding and the date format are parameters of `PayloadWire` (`encode`, `parseDate`), and its decoder records only which keys `CreateBlogPostDTO` requires. The model does not check that generated ids are well-formed UUIDs, only that they are fresh.
- `write_all` is modelled as all-or-nothing. A partial write before an I/O error is not modelled.
- ImageService.ImageStore.Save: a write error is reported by the failing `write_all` itself. `tokio::fs::File` hands the bytes to a background task and reports an OS write error only on the next write or flush. `save_image` never flushes, so a failing last write would be lost and the upload answered as saved. The model does not capture that one-call delay.
- ImageService.AcceptedIsVerbatim: the verbatim file it proves for an accepted upload rests on the same reading, namely that every write error surfaces in the call that failed. With tokio's deferred reporting, a failed last write would leave a truncated file behind an `Ok((id, false, true))`.
- The model handles one request at a time against a store nothing else changes. Concurrent requests share the image directory in the server; the store-level lemmas (`PreexistingFilesUntouched`, `IntendedHandleLeavesNoStrayFile`) hold only under that assumption.
- Filesystem faults are per call kind, fixed for the whole request. A call that fails once and then succeeds is not modelled.
- The database-assigned `id` of a post is not modelled, and neither are the 512-character limits on image paths.
- Page 0 is excluded by `requires page >= 1`: its offset would be −5 and the database would reject the query.
- The query's order among posts of equal date is not fixed; every such order is admitted.
- Client string lengths are counted in characters. JavaScript counts UTF-16 code units, so the two differ on characters outside the Basic Multilingual Plane.
- The client's `subscribe` callbacks are left out: reloading the page on success, and the error messages shown on failure. So are `onFileSelected`, `FileReader` plumbing, `FormData` and the other components.
- The `avatar`-by-URL tests are left out: the request carrying an avatar URL in its payload (`blogpost_handler_tests.rs:150-191`, of which only the row count, text and username at :188-190 are modelled, and not the avatar check at :191), and the one at `blogpost_handler_tests.rs:249-307`. They exercise a variant the modelled handler does not implement.
- ImageHandler.ServeWithName: the served body is a lazy stream of the file (`ReaderStream`), and the model gives the whole file at once. A read error after the 200 header has gone out is not modelled.
- Logging is left out. What the server logs on each failure, including the text `unroll_anyhow_result` produces for it, is not connected to the handler model.

## Findings

| source | as written | input that shows it | evidently intended | confidence | as-written member | corrected member |
|---|---|---|---|---|---|---|
| server/src/handlers/blogpost_handler.rs:83-84 | the pair pattern at `:83` and `:99` does not type-check against the triple of `image_service.rs:17`; under the model's reading of it (the first two components), `is_png` is never looked at, so an `is_png == false` result is kept as a handle | under that reading (no build exists to run): a `data` part, then an `image` part whose one chunk is a GIF header gives 201, and the post's image is an empty file | refuse a wrong-format upload with 400 and delete its file | not executed | BlogpostHandlerScenarios.WrongFormatImageIsRecorded | BlogpostHandlerScenarios.IntendedImageStepKeepsOnlyPng |
| server/src/handlers/blogpost_handler.rs:65 | an oversized `data` chunk and an unknown part name return without `clear_files`, against the comment at :28-31 | an `avatar` PNG, then a `data` chunk of 2139 bytes (or a part named `title`): 413 (or 400), and the avatar's file stays | every error exit deletes the images saved so far | not executed | BlogpostHandlerScenarios.OversizedDataKeepsSavedImage | BlogpostHandlerScenarios.IntendedHandleLeavesNoStrayFile |
| server/src/service/image_service.rs:31-33 | a read (or write) error inside `save_image` returns `Err` with the new file already created and partly written, and the handler never held that id, so `clear_files` cannot delete it | an `image` part whose chunks are the PNG signature and then a read error: 500, and a file holding those 8 bytes stays under the drawn id | a failed save leaves no file behind | not executed | BlogpostHandlerScenarios.ReadErrorOrphansPartialFile | BlogpostHandlerScenarios.IntendedHandleLeavesNoStrayFile |
| server/src/handlers/blogpost_handler.rs:84 | a second `avatar` (or `image`) part overwrites the held handle, and the first file is then held by nothing | two `avatar` parts holding a PNG, then a part without a name: 400, and the first avatar's file stays | a replaced upload is deleted like any other saved image | not executed | BlogpostHandlerScenarios.RepeatedAvatarOrphansFirst | BlogpostHandlerScenarios.IntendedHandleLeavesNoStrayFile |
| frontend/src/app/new-post/new-post.component.ts:72-76 | the client's payload has no `date_of_publication`, which the server's `CreateBlogPostDTO` (`server/src/models/dto.rs:13`) requires, since it is not an `Option` | any post the form sends: the `data` part fails to decode, and the server answers 400 with force-close (413 if the part is over `MAX_DATA_SIZE`) | the server assigns the publication date, as the create-post test's DTO without a date (`server/src/handlers/blogpost_handler_tests.rs:150-154`) expects; alternatively the client sends it (`PayloadWire.IntendedClientPayloadDecodes`) | not executed | PayloadWire.FormPostIsRefused | PayloadWire.IntendedServerCreatesFormPost |
