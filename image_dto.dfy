/**
 * `SaveImageDto.IsValid` (domains/image/image-dto.go:15-34): four checks in
 * order, each returning its own message at once; "" means the upload passed.
 * Opening the multipart file and decoding it are outside the model: a file
 * that cannot be opened has no content, and the decoder is a parameter that
 * answers the registered format name or nothing.
 */
module ImageDto {
  import opened Wrappers
  import Imaging

  type Bytes = Imaging.Bytes

  /** `*multipart.FileHeader`: the declared size, and the content `Open` yields. */
  datatype FileHeader = FileHeader(filename: string, size: int, content: Option<Bytes>)

  datatype SaveImageDto = SaveImageDto(file: FileHeader, altText: string)

  /** `image.Decode`: the registered format name, or nothing when no decoder accepts the data. */
  type FormatDecoder = Bytes -> Option<string>

  const MaxUploadSize: int := 5 * 1024 * 1024

  const FileTooLarge := "file size exceeds 5MB limit"
  const UnsupportedFile := "unsupported file"
  const UnsupportedImageFormat := "unsupported image format"
  const OnlyJpegAndPng := "only JPEG and PNG formats are supported"

  predicate SizeOk(d: SaveImageDto) { d.file.size <= MaxUploadSize }
  predicate Opens(d: SaveImageDto) { d.file.content.Some? }
  predicate Decodes(d: SaveImageDto, decode: FormatDecoder) { Opens(d) && decode(d.file.content.value).Some? }
  predicate JpegOrPng(d: SaveImageDto, decode: FormatDecoder)
    requires Decodes(d, decode)
  {
    decode(d.file.content.value).value in {"jpeg", "png"}
  }

  /** The message of the first check the upload fails, or "" when it passes all four. */
  function IsValid(d: SaveImageDto, decode: FormatDecoder): (msg: string)
    ensures msg == "" <==> SizeOk(d) && Decodes(d, decode) && JpegOrPng(d, decode)
    ensures !SizeOk(d) ==> msg == FileTooLarge
    ensures SizeOk(d) && !Opens(d) ==> msg == UnsupportedFile
    ensures SizeOk(d) && Opens(d) && !Decodes(d, decode) ==> msg == UnsupportedImageFormat
    ensures SizeOk(d) && Decodes(d, decode) && !JpegOrPng(d, decode) ==> msg == OnlyJpegAndPng
  {
    if d.file.size > MaxUploadSize then FileTooLarge
    else match d.file.content
      case None => UnsupportedFile
      case Some(data) =>
        match decode(data)
        case None => UnsupportedImageFormat
        case Some(format) =>
          if format != "jpeg" && format != "png" then OnlyJpegAndPng
          else ""
  }

  /** An oversize file is refused before it is opened or decoded: content and decoder do not matter. */
  lemma OversizeNeverDecoded(d: SaveImageDto, content: Option<Bytes>, decode1: FormatDecoder, decode2: FormatDecoder)
    requires d.file.size > MaxUploadSize
    ensures IsValid(d, decode1) == IsValid(d.(file := d.file.(content := content)), decode2) == FileTooLarge
  {
  }

  /** The limit is inclusive: exactly 5 MiB passes the size check. */
  lemma FiveMiBPassesSizeCheck(d: SaveImageDto, decode: FormatDecoder)
    requires d.file.size == 5 * 1024 * 1024
    ensures IsValid(d, decode) != FileTooLarge
    ensures d.file.content.Some? && decode(d.file.content.value) == Some("png") ==> IsValid(d, decode) == ""
  {
  }
}
