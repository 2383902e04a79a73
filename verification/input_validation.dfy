/** The checks `processVideo` makes on its two files before it touches the
    engine: presence, MIME allow-lists and a size limit, in a fixed order. */
module InputValidation {
  import opened Js

  /** What the code reads of a browser `File`: its name, declared MIME type
      and size in bytes. */
  datatype FileInfo = FileInfo(name: string, mimeType: string, size: int)

  /** 30 MiB; a file of exactly this size is accepted. */
  const MaxSize: int := 30 * 1024 * 1024

  const ImageTypes: seq<string> := ["image/gif", "image/jpeg", "image/jpg", "image/png", "image/webp"]
  const AudioTypes: seq<string> := ["audio/mpeg", "audio/mp3", "audio/mp4", "audio/wav", "audio/ogg", "audio/m4a"]

  /** The six checks, in the order the code makes them. */
  datatype Violation = MissingImage | MissingAudio | BadImageType | BadAudioType | ImageTooLarge | AudioTooLarge

  function Order(v: Violation): nat
  {
    match v
    case MissingImage => 0
    case MissingAudio => 1
    case BadImageType => 2
    case BadAudioType => 3
    case ImageTooLarge => 4
    case AudioTooLarge => 5
  }

  /** The message thrown for each failed check; it reaches the caller as is,
      since the checks run before the `try`. */
  function Message(v: Violation): (m: string)
    ensures |m| > 0
  {
    match v
    case MissingImage => "Image file is required"
    case MissingAudio => "Audio file is required"
    case BadImageType => "Invalid image file type. Please upload a GIF, JPG, PNG, or WebP image."
    case BadAudioType => "Invalid audio file type. Please upload an MP3, M4A, WAV, or OGG audio file."
    case ImageTooLarge => "Image file is too large. Maximum size is 30MB for client-side processing."
    case AudioTooLarge => "Audio file is too large. Maximum size is 30MB for client-side processing."
  }

  /** Whether one check, taken on its own, rejects the inputs. */
  predicate Violates(image: Option<FileInfo>, audio: Option<FileInfo>, v: Violation)
  {
    match v
    case MissingImage => image.None?
    case MissingAudio => audio.None?
    case BadImageType => image.Some? && image.value.mimeType !in ImageTypes
    case BadAudioType => audio.Some? && audio.value.mimeType !in AudioTypes
    case ImageTooLarge => image.Some? && image.value.size > MaxSize
    case AudioTooLarge => audio.Some? && audio.value.size > MaxSize
  }

  /** The inputs every check accepts. */
  predicate Acceptable(image: Option<FileInfo>, audio: Option<FileInfo>)
  {
    && image.Some? && audio.Some?
    && image.value.mimeType in ImageTypes && audio.value.mimeType in AudioTypes
    && image.value.size <= MaxSize && audio.value.size <= MaxSize
  }

  /** The first failing check, or None when the inputs pass. */
  function Validate(image: Option<FileInfo>, audio: Option<FileInfo>): (r: Option<Violation>)
    ensures r.None? <==> Acceptable(image, audio)
    ensures r.Some? ==> Violates(image, audio, r.value)
    ensures r.None? ==> forall v :: !Violates(image, audio, v)
    ensures r.Some? ==> forall v :: Order(v) < Order(r.value) ==> !Violates(image, audio, v)
  {
    if image.None? then Some(MissingImage)
    else if audio.None? then Some(MissingAudio)
    else if image.value.mimeType !in ImageTypes then Some(BadImageType)
    else if audio.value.mimeType !in AudioTypes then Some(BadAudioType)
    else if image.value.size > MaxSize then Some(ImageTooLarge)
    else if audio.value.size > MaxSize then Some(AudioTooLarge)
    else None
  }

  /** The size limit is inclusive for both files: exactly 31457280 bytes
      passes, one more byte fails. The image is checked first, so an
      oversized image is reported whatever the audio's size. */
  lemma SizeBoundary(image: FileInfo, audio: FileInfo)
    requires image.mimeType in ImageTypes && audio.mimeType in AudioTypes
    ensures image.size == 31457280 && audio.size <= MaxSize ==> Validate(Some(image), Some(audio)).None?
    ensures image.size == 31457281 ==> Validate(Some(image), Some(audio)) == Some(ImageTooLarge)
    ensures image.size <= MaxSize && audio.size == 31457280 ==> Validate(Some(image), Some(audio)).None?
    ensures image.size <= MaxSize && audio.size == 31457281 ==> Validate(Some(image), Some(audio)) == Some(AudioTooLarge)
  {
  }

  /** A MIME type outside the allow-lists is rejected whatever the file name
      says; the file name's extension is not consulted at all. */
  lemma TypeDecidesNotName(image: FileInfo, audio: FileInfo, otherName: string)
    ensures Validate(Some(image), Some(audio)) == Validate(Some(image.(name := otherName)), Some(audio))
    ensures Validate(Some(image), Some(audio)) == Validate(Some(image), Some(audio.(name := otherName)))
  {
  }
}
