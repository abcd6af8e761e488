/**
  `NetworkImageSerialization.image(with:)`: decodes a payload in two steps
  through an image-source capability (ImageIO's `CGImageSourceCreateWithData`
  and `CGImageSourceCreateImageAtIndex`): make a source from the bytes, then
  the image at index 0 of that source. Neither step throws; each reports
  failure by returning nothing, so this stage's errors never carry an
  underlying error.
 */
module NetworkImageSerialization {
  import opened Foundation
  import opened Errors

  /** A `CFDictionary` of decoding options. */
  type ImageOptions = map<string, string>

  /** The image-source calls the stage makes; `S` is the source type. */
  datatype Call<+S> =
    | CreateImageSourceCall(data: Data, options: Option<ImageOptions>)
    | CreateImageCall(source: S, index: int, options: Option<ImageOptions>)

  /** The index of the only frame ever decoded. */
  const FirstFrame: int := 0

  function Image<S, I>(
    data: Data,
    createImageSource: (Data, Option<ImageOptions>) -> Option<S>,
    createImage: (S, int, Option<ImageOptions>) -> Option<I>
  ): (run: Traced<I, Call<S>>)
    // The source is always made first, from the payload, with no options.
    ensures |run.calls| > 0 && run.calls[0] == CreateImageSourceCall(data, None)
    // No source: `imageSourceError`, and no image is attempted.
    ensures createImageSource(data, None).None?
        ==> run == Traced(Failure(ImageSerializationFailure(ImageSourceError, None)), [CreateImageSourceCall(data, None)])
    // A source: frame 0 of exactly that source, with no options; no image gives `imageError`.
    ensures createImageSource(data, None).Some?
        ==> var source := createImageSource(data, None).value;
            && run.calls == [CreateImageSourceCall(data, None), CreateImageCall(source, FirstFrame, None)]
            && (createImage(source, FirstFrame, None).Some?
                ==> run.result == Success(createImage(source, FirstFrame, None).value))
            && (createImage(source, FirstFrame, None).None?
                ==> run.result == Failure(ImageSerializationFailure(ImageError, None)))
    // This stage never attaches an underlying error.
    ensures run.result.Failure?
        ==> run.result.error.ImageSerializationFailure? && run.result.error.underlying.None?
  {
    var first := CreateImageSourceCall(data, None);
    match createImageSource(data, None)
    case None => Traced(Failure(ImageSerializationFailure(ImageSourceError, None)), [first])
    case Some(source) =>
      var second := CreateImageCall(source, FirstFrame, None);
      match createImage(source, FirstFrame, None)
      case None => Traced(Failure(ImageSerializationFailure(ImageError, None)), [first, second])
      case Some(image) => Traced(Success(image), [first, second])
  }

  /**
    An error of this stage is its own root: the original cause of an image
    that cannot be decoded is always one of the two codes.
   */
  lemma ErrorsAreRoots<S, I>(
    data: Data,
    createImageSource: (Data, Option<ImageOptions>) -> Option<S>,
    createImage: (S, int, Option<ImageOptions>) -> Option<I>
  )
    requires Image(data, createImageSource, createImage).result.Failure?
    ensures var e := Image(data, createImageSource, createImage).result.error;
            Depth(e) == 0 && Root(e) == e
  {
  }
}
