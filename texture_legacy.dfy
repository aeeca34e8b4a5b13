/** The legacy texture loader of texture_legacy.cpp: wrap and filter
    parameters, then, when the image decoded, an upload whose pixel format
    is chosen from the channel count. The image decoder and every GL call
    are not modelled; their outcome is an input and the calls made are the
    result. */
module TextureLegacy {
  import opened Options
  import opened Gl

  /** What the image decoder returned when it produced data. */
  datatype Image = Image(width: int, height: int, channels: int)

  /** A glTexImage2D call: internal and external format may be undefined
      (None) when they come from a variable that was never assigned. */
  datatype Upload = Upload(internalFormat: Option<int>, width: int, height: int, format: Option<int>)

  /** The calls the constructor makes: the wrap and filter parameters, the
      upload with its mipmaps if any, and whether the load error was reported. */
  datatype TextureSetup = TextureSetup(wrapS: int, wrapT: int, minFilter: int, magFilter: int,
                                       upload: Option<Upload>, mipmapsGenerated: bool,
                                       errorLogged: bool)

  /** The channel-count switch: one channel is red only, three RGB, four
      RGBA; there is no case for any other count. */
  function SelectFormat(nrChannels: int): (f: Option<int>)
    ensures f == Some(GL_RED) <==> nrChannels == 1
    ensures f == Some(GL_RGB) <==> nrChannels == 3
    ensures f == Some(GL_RGBA) <==> nrChannels == 4
    ensures f.None? <==> nrChannels != 1 && nrChannels != 3 && nrChannels != 4
  {
    if nrChannels == 1 then Some(GL_RED)
    else if nrChannels == 3 then Some(GL_RGB)
    else if nrChannels == 4 then Some(GL_RGBA)
    else None
  }

  /** The constructor as written: when the image decoded, the upload goes
      ahead with whatever `format` holds, assigned or not. */
  function ConstructAsWritten(wrapMode: int, decoded: Option<Image>): (t: TextureSetup)
    ensures t.wrapS == wrapMode && t.wrapT == wrapMode
    ensures t.upload.Some? <==> decoded.Some?
    ensures t.upload.Some? ==>
      t.upload.value.internalFormat == t.upload.value.format == SelectFormat(decoded.value.channels)
    ensures t.errorLogged <==> decoded.None?
  {
    match decoded
    case Some(image) =>
      var format := SelectFormat(image.channels);
      TextureSetup(wrapMode, wrapMode, GL_LINEAR_MIPMAP_LINEAR, GL_LINEAR,
                   Some(Upload(format, image.width, image.height, format)), true, false)
    case None =>
      TextureSetup(wrapMode, wrapMode, GL_LINEAR_MIPMAP_LINEAR, GL_LINEAR, None, false, true)
  }

  /** A two-channel image (grey and alpha, which the decoder can return)
      reaches the upload with no format assigned. */
  lemma AsWrittenUploadsUnassignedFormat(wrapMode: int)
    ensures var t := ConstructAsWritten(wrapMode, Some(Image(16, 16, 2)));
      t.upload.Some? && t.upload.value.format.None? && t.upload.value.internalFormat.None?
  {
  }

  /** The constructor as evidently intended: an image whose channel count
      has no format is reported like a failed load instead of uploaded. */
  function Construct(wrapMode: int, decoded: Option<Image>): (t: TextureSetup)
    ensures t.wrapS == wrapMode && t.wrapT == wrapMode
    ensures t.minFilter == GL_LINEAR_MIPMAP_LINEAR && t.magFilter == GL_LINEAR
    ensures t.upload.Some? <==> decoded.Some? && SelectFormat(decoded.value.channels).Some?
    ensures t.mipmapsGenerated <==> t.upload.Some?
    ensures t.errorLogged <==> t.upload.None?
  {
    match decoded
    case Some(image) =>
      (match SelectFormat(image.channels)
       case Some(format) =>
         TextureSetup(wrapMode, wrapMode, GL_LINEAR_MIPMAP_LINEAR, GL_LINEAR,
                      Some(Upload(Some(format), image.width, image.height, Some(format))), true, false)
       case None =>
         TextureSetup(wrapMode, wrapMode, GL_LINEAR_MIPMAP_LINEAR, GL_LINEAR, None, false, true))
    case None =>
      TextureSetup(wrapMode, wrapMode, GL_LINEAR_MIPMAP_LINEAR, GL_LINEAR, None, false, true)
  }

  /** Every upload of the corrected constructor uses one assigned format,
      the one its channel count selects, for both format arguments, and the
      image's own size; it agrees with the constructor as written whenever
      the channel count has a format. */
  lemma UploadsUseAssignedFormat(wrapMode: int, decoded: Option<Image>)
    ensures var t := Construct(wrapMode, decoded);
      t.upload.Some? ==>
        && decoded.Some?
        && t.upload.value.format.Some?
        && t.upload.value.format.value in {GL_RED, GL_RGB, GL_RGBA}
        && t.upload.value.internalFormat == t.upload.value.format == SelectFormat(decoded.value.channels)
        && t.upload.value.width == decoded.value.width && t.upload.value.height == decoded.value.height
    ensures decoded.None? || SelectFormat(decoded.value.channels).Some? ==>
      Construct(wrapMode, decoded) == ConstructAsWritten(wrapMode, decoded)
  {
  }
}
