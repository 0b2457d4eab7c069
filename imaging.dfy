/**
 * The argument types of the ImageProcessor query language: the library's
 * enums (ImageProcessor.Imaging), the repository's own enums
 * (src/ImageProcessor.Web.Episerver/Business/Enums.cs) and the
 * System.Drawing values the extension methods render.
 */
module Imaging {
  /** A `float`/`double` argument: its value, for range checks, and the text `ToString()` gives. */
  datatype Float = Float(value: real, text: string)

  /**
   * `Convert.ToInt32(double)`: the nearest integer, halves going to the even
   * neighbour.
   */
  function ConvertToInt32(x: real): (r: int)
    ensures -0.5 <= x - r as real <= 0.5
    ensures (x - r as real == 0.5 || x - r as real == -0.5) ==> r % 2 == 0
  {
    var f := x.Floor;
    var d := x - f as real;
    if d < 0.5 then f else if d > 0.5 then f + 1 else if f % 2 == 0 then f else f + 1
  }

  type Byte = x: int | 0 <= x < 256

  datatype AnimationProcessMode = All | First
  {
    function Name(): string
    {
      match this
      case All => "All"
      case First => "First"
    }
  }

  datatype DetectEdgesFilter =
    Kayyali | Kirsch | Aplacian3X3 | Laplacian5X5 | Laplacianffgaussian | Prewitt | Robertscross | Scharr | Sobel
  {
    function Name(): string
    {
      match this
      case Kayyali => "Kayyali"
      case Kirsch => "Kirsch"
      case Aplacian3X3 => "Aplacian3X3"
      case Laplacian5X5 => "Laplacian5X5"
      case Laplacianffgaussian => "Laplacianffgaussian"
      case Prewitt => "Prewitt"
      case Robertscross => "Robertscross"
      case Scharr => "Scharr"
      case Sobel => "Sobel"
    }
  }

  datatype Filter =
    Blackwhite | Comic | Gotham | Greyscale | Hisatch | Invert | Lomograph | Losatch | Polaroid | Sepia
  {
    function Name(): string
    {
      match this
      case Blackwhite => "Blackwhite"
      case Comic => "Comic"
      case Gotham => "Gotham"
      case Greyscale => "Greyscale"
      case Hisatch => "Hisatch"
      case Invert => "Invert"
      case Lomograph => "Lomograph"
      case Losatch => "Losatch"
      case Polaroid => "Polaroid"
      case Sepia => "Sepia"
    }
  }

  datatype FlipDirection = Horizontal | Vertical | Both
  {
    function Name(): string
    {
      match this
      case Horizontal => "Horizontal"
      case Vertical => "Vertical"
      case Both => "Both"
    }
  }

  datatype ImageFormat = Jpg | Jpeg | Bmp | Gif | Png | Png8 | Tif | Tiff
  {
    function Name(): string
    {
      match this
      case Jpg => "Jpg"
      case Jpeg => "Jpeg"
      case Bmp => "Bmp"
      case Gif => "Gif"
      case Png => "Png"
      case Png8 => "Png8"
      case Tif => "Tif"
      case Tiff => "Tiff"
    }
  }

  datatype CropMode = Pixels | Percentage
  {
    function Name(): string
    {
      match this
      case Pixels => "Pixels"
      case Percentage => "Percentage"
    }
  }

  datatype ResizeMode = Pad | BoxPad | Crop | Min | Max | Stretch
  {
    function Name(): string
    {
      match this
      case Pad => "Pad"
      case BoxPad => "BoxPad"
      case Crop => "Crop"
      case Min => "Min"
      case Max => "Max"
      case Stretch => "Stretch"
    }
  }

  datatype AnchorPosition = Center | Top | Bottom | Left | Right | TopLeft | TopRight | BottomLeft | BottomRight
  {
    function Name(): string
    {
      match this
      case Center => "Center"
      case Top => "Top"
      case Bottom => "Bottom"
      case Left => "Left"
      case Right => "Right"
      case TopLeft => "TopLeft"
      case TopRight => "TopRight"
      case BottomLeft => "BottomLeft"
      case BottomRight => "BottomRight"
    }
  }

  /** `System.Drawing.KnownColor`, by the name `ToString()` gives. */
  datatype KnownColor = KnownColor(name: string)

  /** `System.Drawing.Color`: its channels and the name of `ToKnownColor()`. */
  datatype Color = Color(r: Byte, g: Byte, b: Byte, a: Byte, knownName: string)

  /** `System.Drawing.FontStyle`, by the text `ToString()` gives. */
  datatype FontStyle = FontStyle(text: string)

  const Bold := FontStyle("Bold")

  datatype Point = Point(x: int, y: int)
}
