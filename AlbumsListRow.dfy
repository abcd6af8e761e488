/**
  `AlbumsListRowModel`: one row of the list. It holds an album that never
  changes and the album's artwork, absent until `requestImage()` fetches it
  through an image operation.
 */
module AlbumsListRow {
  import opened Foundation
  import opened Errors
  import opened AlbumsList

  /** `I` is the image operation's `Image` type. */
  class AlbumsListRowModel<I> {
    var image: Option<I>
    const album: Album

    constructor (album: Album)
      ensures this.album == album
      ensures image == None
    {
      this.album := album;
      image := None;
    }

    /** The row's artist: the album's, for the whole life of the row. */
    function Artist(): (artist: string)
      ensures artist == album.artist
    {
      album.artist
    }

    /** The row's title: the album's name, for the whole life of the row. */
    function Name(): (name: string)
      ensures name == album.name
    {
      album.name
    }

    /**
      `requestImage()`: when `URL(string:)` accepts the album's image URL,
      fetches exactly that URL through `imageOperation` and stores the image.
      A failed fetch throws the operation's own error and keeps `image`; an
      unparsable URL does nothing at all.
     */
    method RequestImage(imageOperation: Request -> Result<I>, urlWithString: string -> Option<Url>)
      returns (sent: Option<Request>, completion: Completion)
      modifies this
      ensures sent == (if urlWithString(album.image).Some? then Some(Request(urlWithString(album.image).value)) else None)
      ensures sent.None? ==> completion == Returned && image == old(image)
      ensures sent.Some?
          ==> match imageOperation(sent.value)
              case Success(fetched) => completion == Returned && image == Some(fetched)
              case Failure(e) => completion == Threw(e) && image == old(image)
    {
      sent := None;
      completion := Returned;
      match urlWithString(album.image)
      case None =>
      case Some(url) =>
        var request := Request(url);
        sent := Some(request);
        match imageOperation(request)
        case Failure(e) =>
          completion := Threw(e);
        case Success(fetched) =>
          image := Some(fetched);
    }
  }

  /**
    The accessors report the album the row was built with for the whole life
    of the row: requesting the artwork, however that ends, leaves them alone.
   */
  method AccessorsOutliveRequests<I>(
    album: Album,
    imageOperation: Request -> Result<I>,
    urlWithString: string -> Option<Url>
  ) returns (artist: string, name: string)
    ensures artist == album.artist && name == album.name
  {
    var row := new AlbumsListRowModel<I>(album);
    var _, _ := row.RequestImage(imageOperation, urlWithString);
    artist := row.Artist();
    name := row.Name();
  }
}
