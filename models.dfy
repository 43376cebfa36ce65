/** The records exchanged between the handlers and the services. */
module Models {
  import opened Common

  /** Largest accepted `data` part, in bytes: taken as 2138; no source file defines
      `MAX_DATA_SIZE`. */
  const MAX_DATA_SIZE: nat := 2138

  /** Largest accepted image, in bytes (2 MiB, the value the client also uses). */
  const MAX_IMAGE_SIZE: nat := 2 * 1024 * 1024

  /** Documented column limits of a post: text at most 2000 characters, username at most 128. */
  const MAX_TEXT_LENGTH: nat := 2000
  const MAX_USERNAME_LENGTH: nat := 128

  /** A calendar date (`NaiveDate`), as a day number: later dates are larger. */
  type Date = int

  /** The JSON payload of the `data` part (`CreateBlogPostDTO`). */
  datatype BlogPostDto = BlogPostDto(text: string, username: string, dateOfPublication: Date)

  /** A row of the blog post table; `image` and `avatar` are image-store ids. */
  datatype BlogPost = BlogPost(
    text: string,
    username: string,
    dateOfPublication: Date,
    image: Option<string>,
    avatar: Option<string>)

  /** The record the handler persists: the payload together with the two held handles. */
  function Record(dto: BlogPostDto, avatar: Option<string>, image: Option<string>): BlogPost
  {
    BlogPost(dto.text, dto.username, dto.dateOfPublication, image, avatar)
  }
}
