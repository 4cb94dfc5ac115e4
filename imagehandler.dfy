/** The part of the image handler the rest of the front end depends on:
    whether a decoded image is loaded in single mode. */
module ImageHandler {

  class Handler {
    /** An image element is set and has finished decoding. */
    var hasImage: bool

    constructor ()
      ensures !hasImage
    {
      hasImage := false;
    }

    function HasImage(): (r: bool)
      reads this
      ensures r == hasImage
    {
      hasImage
    }

    /** Drops the current image. */
    method ClearCurrentImage()
      modifies this
      ensures !hasImage
    {
      hasImage := false;
    }
  }
}
