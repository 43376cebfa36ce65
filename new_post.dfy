/** The "new post" form of the client (`new-post.component.ts`): the checks it runs before
    sending a post, and the classifier that accepts or refuses the chosen image. */
module NewPost {
  import opened Common
  import opened Models
  import Png
  import ImageService

  /** The JSON the client sends in the `data` part (`CreateBlogPostDTO` of the client). */
  datatype CreatePostDto = CreatePostDto(text: string, username: string, avatar: Option<string>)

  /** One call of `blogpostService.create(dto, postImage)`. */
  datatype CreateRequest = CreateRequest(dto: CreatePostDto, image: Option<seq<byte>>)

  /** The client's own image limit, `2*1024*1024`. */
  const MAX_POST_IMAGE_SIZE: nat := 2 * 1024 * 1024

  /** The first check of the form that fails, as the message it shows: the username is
      checked before the text, emptiness before length. */
  function ValidationError(username: string, text: string): Option<string>
  {
    if |username| == 0 then Some("Username is required!")
    else if |username| > MAX_USERNAME_LENGTH then Some("Username cannot be longer than 128 characters!")
    else if |text| == 0 then Some("Text of the post is required!")
    else if |text| > MAX_TEXT_LENGTH then Some("Text of the post cannot be longer than 2000 characters!")
    else None
  }

  /** The form passes exactly when both fields are non-empty and within the limits
      documented for the post's columns. */
  lemma ValidationIsDocumentedLimits(username: string, text: string)
    ensures ValidationError(username, text).None?
        <==> 1 <= |username| <= MAX_USERNAME_LENGTH && 1 <= |text| <= MAX_TEXT_LENGTH
  {
  }

  /** A bad username is reported whatever the text is: the first failing check wins. */
  lemma UsernameCheckedFirst(username: string, text: string, otherText: string)
    requires |username| == 0 || |username| > MAX_USERNAME_LENGTH
    ensures ValidationError(username, text) == ValidationError(username, otherText)
    ensures ValidationError(username, text).Some?
  {
  }

  /** What `onSubmit` sends, if anything: nothing when a check fails or when a file was
      chosen but its bytes were refused (or not loaded yet). */
  function Submission(username: string, text: string, avatarURL: string,
                      postImageFile: Option<seq<byte>>, postImage: Option<seq<byte>>): Option<CreateRequest>
  {
    if ValidationError(username, text).Some? || (postImageFile.Some? && postImage.None?) then None
    else Some(CreateRequest(CreatePostDto(text, username, if |avatarURL| != 0 then Some(avatarURL) else None), postImage))
  }
  /** A post the form sends always meets the documented column limits, and carries the
      form's text and username and the image the reader accepted. */
  lemma SentPostMeetsLimits(username: string, text: string, avatarURL: string,
                            postImageFile: Option<seq<byte>>, postImage: Option<seq<byte>>)
    requires Submission(username, text, avatarURL, postImageFile, postImage).Some?
    ensures var req := Submission(username, text, avatarURL, postImageFile, postImage).value;
      && 1 <= |req.dto.username| <= MAX_USERNAME_LENGTH && 1 <= |req.dto.text| <= MAX_TEXT_LENGTH
      && req.dto.text == text && req.dto.username == username
      && (postImageFile.Some? ==> req.image == postImage && postImage.Some?)
  {
    ValidationIsDocumentedLimits(username, text);
  }


  /** `pngSignature.every((byte, index) => byteArray[index] === byte)`: past the end of the
      array the element is `undefined`, which equals no byte. */
  predicate EveryByteMatches(bytes: seq<byte>)
  {
    forall index :: 0 <= index < |Png.Signature| ==> index < |bytes| && bytes[index] == Png.Signature[index]
  }

  /** The client's byte-wise test is the same "starts with the signature" test as the
      server's, so a file shorter than eight bytes is never a PNG to it either. */
  lemma EveryByteMatchesIsSignature(bytes: seq<byte>)
    ensures EveryByteMatches(bytes) <==> Png.HasSignature(bytes)
  {
    if EveryByteMatches(bytes) {
      assert Png.Signature[7] == 0x0A;
      assert 7 < |bytes|;
      forall index | 0 <= index < 8
        ensures bytes[..8][index] == Png.Signature[index]
      {
      }
      assert bytes[..8] == Png.Signature;
    }
    if Png.HasSignature(bytes) {
      forall index | 0 <= index < |Png.Signature|
        ensures index < |bytes| && bytes[index] == Png.Signature[index]
      {
        assert bytes[..8][index] == bytes[index];
      }
    }
  }

  /** The onload classifier: the message of a refused image, the format test first. */
  function ImageRejection(bytes: seq<byte>): Option<string>
  {
    if !EveryByteMatches(bytes) then Some("Post image is not a PNG!")
    else if |bytes| > MAX_POST_IMAGE_SIZE then Some("Post image cannot be larger than 2MB!")
    else None
  }

  /** The client accepts exactly the images the server stores verbatim when they arrive as
      one chunk on a working disk. */
  lemma ClientAndServerAgreeOnImages(bytes: seq<byte>)
    ensures ImageRejection(bytes).None? <==> ImageService.SaveSpec([ImageService.Chunk(bytes)], {}).verdict == ImageService.Finished(false, true)
    ensures ImageRejection(bytes).None? ==> ImageService.SaveSpec([ImageService.Chunk(bytes)], {}).file == Some(bytes)
  {
    var chunks := [ImageService.Chunk(bytes)];
    EveryByteMatchesIsSignature(bytes);
    assert chunks[1..] == [];
    assert ImageService.Payload(chunks) == bytes + [];
    assert bytes + [] == bytes;
    ImageService.SaveOutcomes(chunks);
  }

  /** The component's state. The file and the loaded image are kept as their bytes. */
  class NewPostComponent {
    var errorMessage: string
    var showErrorMessage: bool
    var username: string
    var avatarURL: string
    var text: string
    var postImageFile: Option<seq<byte>>
    var postImage: Option<seq<byte>>
    var isPostDisabled: bool

    constructor ()
      ensures errorMessage == "" && !showErrorMessage
      ensures username == "" && avatarURL == "" && text == ""
      ensures postImageFile.None? && postImage.None? && !isPostDisabled
    {
      errorMessage := "";
      showErrorMessage := false;
      username := "";
      avatarURL := "";
      text := "";
      postImageFile := None;
      postImage := None;
      isPostDisabled := false;
    }

    /** `onSubmit`: clears the message, disables the button, then runs the checks; on the
        first failure it shows that check's message and re-enables the button. A chosen
        but refused image re-enables it silently. Otherwise the request is sent and the
        button stays disabled until the answer arrives. */
    method OnSubmit() returns (sent: Option<CreateRequest>)
      modifies this`errorMessage, this`showErrorMessage, this`isPostDisabled
      ensures sent == Submission(username, text, avatarURL, postImageFile, postImage)
      ensures var err := ValidationError(username, text);
        && (err.Some? ==> errorMessage == err.value && showErrorMessage)
        && (err.None? ==> errorMessage == "" && !showErrorMessage)
      ensures isPostDisabled <==> sent.Some?
    {
      errorMessage := "";
      showErrorMessage := false;
      isPostDisabled := true;

      if |username| == 0 {
        errorMessage := "Username is required!";
        showErrorMessage := true;
        isPostDisabled := false;
        return None;
      } else if |username| > MAX_USERNAME_LENGTH {
        errorMessage := "Username cannot be longer than 128 characters!";
        showErrorMessage := true;
        isPostDisabled := false;
        return None;
      }

      if |text| == 0 {
        errorMessage := "Text of the post is required!";
        showErrorMessage := true;
        isPostDisabled := false;
        return None;
      } else if |text| > MAX_TEXT_LENGTH {
        errorMessage := "Text of the post cannot be longer than 2000 characters!";
        showErrorMessage := true;
        isPostDisabled := false;
        return None;
      }

      if postImageFile.Some? && postImage.None? {
        isPostDisabled := false;
        return None;
      }

      var dto := CreatePostDto(text, username, if |avatarURL| != 0 then Some(avatarURL) else None);
      sent := Some(CreateRequest(dto, postImage));
    }

    /** `reader.onload` with the file's bytes: a refused image shows its message and drops
        `postImage`; an accepted one becomes `postImage`, leaving the message as it was. */
    method OnImageLoaded(bytes: seq<byte>)
      modifies this`errorMessage, this`showErrorMessage, this`postImage
      ensures var rejection := ImageRejection(bytes);
        && (rejection.Some? ==> errorMessage == rejection.value && showErrorMessage && postImage.None?)
        && (rejection.None? ==> postImage == Some(bytes) && errorMessage == old(errorMessage)
                                && showErrorMessage == old(showErrorMessage))
    {
      var isPng := EveryByteMatches(bytes);
      if !isPng {
        errorMessage := "Post image is not a PNG!";
        showErrorMessage := true;
        postImage := None;
      } else if |bytes| > MAX_POST_IMAGE_SIZE {
        errorMessage := "Post image cannot be larger than 2MB!";
        showErrorMessage := true;
        postImage := None;
      } else {
        postImage := Some(bytes);
      }
    }

    /** `reader.onerror`. */
    method OnImageLoadFailed()
      modifies this`errorMessage, this`showErrorMessage, this`postImage
      ensures errorMessage == "Unable to load post image!" && showErrorMessage && postImage.None?
    {
      errorMessage := "Unable to load post image!";
      showErrorMessage := true;
      postImage := None;
    }
  }

  /** A refused image blocks the next submission even once the message is cleared: the
      form is re-enabled and nothing is sent. */
  lemma RefusedImageBlocksSubmission(username: string, text: string, avatarURL: string, file: seq<byte>)
    requires ValidationError(username, text).None?
    ensures Submission(username, text, avatarURL, Some(file), None).None?
  {
  }
}
