/**
 * `CropBlock` (src/ImageProcessor.Web.Episerver.UI.Blocks/Models/Blocks/CropBlock.cs):
 * a method block that crops by pixels from `X`, `Y`, `Width`, `Height`, or
 * by percentages from `Left`, `Top`, `Right`, `Bottom`.
 */
module CropBlocks {
  import opened Wrappers
  import opened Text
  import opened Urls
  import opened ExtensionCalls
  import I = Imaging
  import Current = UrlBuilderExtensions

  /** The call `GetMethod` makes: Pixels forwards the pixel fields, any other mode the percentages with `Percentage`. */
  function CropMethod(mode: I.CropMode, x: int, y: int, width: int, height: int,
                      left: int, top: int, right: int, bottom: int): Call
  {
    if mode == I.Pixels then Current.Crop(x, y, width, height, mode)
    else Current.Crop(left, top, right, bottom, I.Percentage)
  }

  class CropBlock {
    var mode: I.CropMode
    var x: int
    var y: int
    var width: int
    var height: int
    var left: int
    var top: int
    var right: int
    var bottom: int

    /** A block as loaded from the content repository, with the stored values. */
    constructor (mode: I.CropMode, x: int, y: int, width: int, height: int, left: int, top: int, right: int, bottom: int)
      ensures this.mode == mode && this.x == x && this.y == y && this.width == width && this.height == height
      ensures this.left == left && this.top == top && this.right == right && this.bottom == bottom
    {
      this.mode := mode;
      this.x := x;
      this.y := y;
      this.width := width;
      this.height := height;
      this.left := left;
      this.top := top;
      this.right := right;
      this.bottom := bottom;
    }

    function Method(): Call
      reads this
    {
      CropMethod(mode, x, y, width, height, left, top, right, bottom)
    }

    /** `GetMethod(url)`: the crop is added to the same builder, which is returned. */
    method GetMethod(url: UrlBuilder?) returns (r: Result<UrlBuilder, Error>)
      modifies url
      ensures url == null ==> r == Err(ArgumentNull)
      ensures url != null ==> url.path == old(url.path)
      ensures url != null ==> r.Ok? && r.value == url && url.query == old(url.query) + Effect(Method(), url.isEmpty).value
    {
      if mode == I.Pixels {
        r := Apply(url, Current.Crop(x, y, width, height, mode));
      } else {
        r := Apply(url, Current.Crop(left, top, right, bottom, I.Percentage));
      }
    }

    /** `SetDefaultValues`: the mode becomes Pixels and nothing else changes. */
    method SetDefaultValues()
      modifies this
      ensures mode == I.Pixels
      ensures x == old(x) && y == old(y) && width == old(width) && height == old(height)
      ensures left == old(left) && top == old(top) && right == old(right) && bottom == old(bottom)
    {
      mode := I.Pixels;
    }
  }

  /** The one `crop` pair: four comma-separated integers. */
  function CropPair(a: int, b: int, c: int, d: int): Pair
  {
    ("crop", Current.Csv([IntToString(a), IntToString(b), IntToString(c), IntToString(d)]))
  }

  /**
   * Pixels mode adds `crop=x,y,width,height` and nothing else (nothing at all
   * to an empty builder); Percentage mode adds `crop=left,top,right,bottom`
   * and then `cropmode=percentage`, even to an empty builder.  The block never
   * throws, whatever the percentages: their 0..100 range is not checked.
   */
  lemma CropModes(mode: I.CropMode, x: int, y: int, width: int, height: int,
                  left: int, top: int, right: int, bottom: int, isEmpty: bool)
    ensures mode == I.Pixels ==>
      Effect(CropMethod(mode, x, y, width, height, left, top, right, bottom), isEmpty)
      == Ok(if isEmpty then [] else [CropPair(x, y, width, height)])
    ensures mode == I.Percentage ==>
      Effect(CropMethod(mode, x, y, width, height, left, top, right, bottom), isEmpty)
      == Ok((if isEmpty then [] else [CropPair(left, top, right, bottom)]) + [("cropmode", "percentage")])
  {
    if mode == I.Pixels {
      assert [CropPair(x, y, width, height)] + [] == [CropPair(x, y, width, height)];
    } else {
      assert ToLower("Percentage") == "percentage";
      assert ToLower(mode.Name()) == "percentage";
      var c := CropMethod(mode, x, y, width, height, left, top, right, bottom);
      assert c == Appends([CropPair(left, top, right, bottom)], [("cropmode", "percentage")]);
      assert [] + [("cropmode", "percentage")] == [("cropmode", "percentage")];
    }
  }

  /** A default block crops by pixels, so its percentages are ignored. */
  lemma DefaultCropsByPixels(x: int, y: int, width: int, height: int, left: int, top: int, right: int, bottom: int)
    ensures CropMethod(I.Pixels, x, y, width, height, left, top, right, bottom)
      == CropMethod(I.Pixels, x, y, width, height, 0, 0, 0, 0)
    ensures Effect(CropMethod(I.Pixels, x, y, width, height, left, top, right, bottom), false)
      == Ok([CropPair(x, y, width, height)])
  {
    CropModes(I.Pixels, x, y, width, height, left, top, right, bottom, false);
  }
}
