/** The integer encoding of `ImageType`, the kind column of the image table. */
module ImageKind {

  /** Rust's `i32`. */
  newtype i32 = x: int | -0x8000_0000 <= x < 0x8000_0000

  /** `ImageType`: `Avatar = 0`, `BlogPost = 1`. */
  datatype ImageType = Avatar | BlogPost

  /** `From<i32>`: zero decodes to `Avatar`, every other value to `BlogPost`. */
  function FromI32(value: i32): ImageType
  {
    match value
    case 0 => Avatar
    case _ => BlogPost
  }

  /** `Into<i32>`: the enum's discriminant. */
  function ToI32(t: ImageType): (value: i32)
    ensures value == 0 <==> t == Avatar
    ensures value == 1 <==> t == BlogPost
    ensures FromI32(value) == t
  {
    match t
    case Avatar => 0
    case BlogPost => 1
  }

  /** Decoding and re-encoding an integer gives it back exactly for the two discriminants. */
  lemma IntegerRoundTrip(value: i32)
    ensures ToI32(FromI32(value)) == value <==> value == 0 || value == 1
  {
  }
}
