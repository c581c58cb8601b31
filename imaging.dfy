/**
 * An abstract model of the image libraries the pipeline calls: Go's `image`
 * package (points and rectangles), github.com/disintegration/imaging (decode,
 * encode, resize, crop, rotate, flip, colour adjustments, overlay) and
 * github.com/fogleman/gg (the text canvas of the watermark).
 *
 * No pixel value is ever computed. A Raster carries its bounds, the concrete
 * Go type behind it and a symbolic term that records which operation produced
 * its pixels from which inputs; only the bounds are computed exactly.
 * Decoding, encoding, the canvas size of an arbitrary-angle rotation and the
 * concrete type of a gg canvas are not visible here and are fields of a
 * `Library` value, so every property proved holds for any choice of them.
 */
module Imaging {
  import opened Wrappers

  newtype byte = x: int | 0 <= x < 256
  type Bytes = seq<byte>

  /** `imaging.Format`: the container formats the library can encode. */
  datatype Format = JPEG | PNG | GIF | TIFF | BMP

  /** The concrete Go type behind an `image.Image` value. */
  datatype ColorModel = NRGBA | RGBA | YCbCr | Paletted | Gray

  /** The Go type name of each concrete image type, as the runtime prints it. */
  function TypeName(m: ColorModel): string {
    match m
    case NRGBA => "*image.NRGBA"
    case RGBA => "*image.RGBA"
    case YCbCr => "*image.YCbCr"
    case Paletted => "*image.Paletted"
    case Gray => "*image.Gray"
  }

  /** `image.Point` */
  datatype Point = Point(x: int, y: int)

  /** `image.Rectangle`: `min` inclusive, `max` exclusive. */
  datatype Rectangle = Rectangle(min: Point, max: Point) {
    function Dx(): int { max.x - min.x }
    function Dy(): int { max.y - min.y }
    predicate Empty() { min.x >= max.x || min.y >= max.y }
  }

  /** `image.ZR` */
  const ZR := Rectangle(Point(0, 0), Point(0, 0))

  function Min(a: int, b: int): int { if a <= b then a else b }
  function Max(a: int, b: int): int { if a <= b then b else a }

  /** The pixel `p` lies inside `r`. */
  predicate Contains(r: Rectangle, p: Point) {
    r.min.x <= p.x < r.max.x && r.min.y <= p.y < r.max.y
  }

  /** `image.Rect(x0, y0, x1, y1)`: the two arguments pairs are corners, swapped so that min <= max. */
  function Rect(x0: int, y0: int, x1: int, y1: int): (r: Rectangle)
    ensures r.Dx() >= 0 && r.Dy() >= 0
    ensures forall p :: Contains(r, p) <==>
                          (x0 <= p.x < x1 || x1 <= p.x < x0) && (y0 <= p.y < y1 || y1 <= p.y < y0)
  {
    Rectangle(Point(Min(x0, x1), Min(y0, y1)), Point(Max(x0, x1), Max(y0, y1)))
  }

  /** `Rectangle.Intersect`: the largest rectangle inside both, or `ZR` when they do not overlap. */
  function Intersect(r: Rectangle, s: Rectangle): (t: Rectangle)
    ensures t.Empty() ==> t == ZR
    ensures forall p :: Contains(t, p) <==> Contains(r, p) && Contains(s, p)
  {
    var c := Rectangle(Point(Max(r.min.x, s.min.x), Max(r.min.y, s.min.y)),
                       Point(Min(r.max.x, s.max.x), Min(r.max.y, s.max.y)));
    if c.Empty() then ZR else c
  }

  /** The RGBA colour gg draws with, each channel in [0, 1]. */
  datatype Colour = Colour(r: real, g: real, b: real, a: real)

  /** Symbolic provenance of pixel data. */
  datatype Pixels =
    | Opaque(id: nat)                                       // whatever a decoder produced
    | NoPixels                                              // `&image.NRGBA{}`
    | Blank                                                 // a fresh, fully transparent canvas
    | Resampled(base: Pixels, width: nat, height: nat)      // Lanczos resampling
    | Clipped(base: Pixels, region: Rectangle)
    | Turned(base: Pixels, degrees: real)                   // counter-clockwise, transparent fill
    | MirroredH(base: Pixels)
    | MirroredV(base: Pixels)
    | Saturated(base: Pixels, percent: real)
    | Brightened(base: Pixels, percent: real)
    | Contrasted(base: Pixels, percent: real)
    | Lettered(base: Pixels, text: string, colour: Colour, x: real, y: real, ax: real, ay: real)
    | Overlaid(background: Pixels, foreground: Pixels, at: Point, opacity: real)

  /** An image with bounds [0, width) x [0, height). */
  datatype Raster = Raster(width: nat, height: nat, model: ColorModel, pixels: Pixels) {
    function Bounds(): Rectangle { Rectangle(Point(0, 0), Point(width, height)) }
  }

  /** The parts of the libraries whose behaviour is not modelled. */
  datatype Library = Library(
    decode: Bytes -> Result<Raster, string>,          // imaging.Decode
    encode: (Raster, Format) -> Result<Bytes, string>, // imaging.Encode
    rotatedSize: (real, nat, nat) -> (nat, nat),      // floating-point rotated canvas, non-right angles
    contextModel: ColorModel                          // the type gg.Context.Image() returns
  )

  const EmptyImage := Raster(0, 0, NRGBA, NoPixels)

  function Clone(img: Raster): Raster {
    Raster(img.width, img.height, NRGBA, img.pixels)
  }

  /** math.Floor(x + 0.5) for the side computed to preserve the aspect ratio, at least 1. */
  function AspectSide(given: nat, num: nat, den: nat): nat
    requires den > 0
  {
    var t := (given as real) * (num as real) / (den as real);
    Max(1, (t + 0.5).Floor)
  }

  /**
   * `imaging.Resize(img, width, height, imaging.Lanczos)`. A zero side
   * preserves the aspect ratio; a negative side or two zero sides give an
   * empty image.
   */
  function Resize(img: Raster, width: int, height: int): (r: Raster)
    ensures r.model == NRGBA
    ensures width < 0 || height < 0 || (width == 0 && height == 0) || img.width == 0 || img.height == 0 ==>
              r == EmptyImage
    ensures width > 0 && height > 0 && img.width > 0 && img.height > 0 ==> r.width == width && r.height == height
    ensures width == 0 && height > 0 && img.width > 0 && img.height > 0 ==>
              r.height == height && r.width == AspectSide(height, img.width, img.height) >= 1
    ensures height == 0 && width > 0 && img.width > 0 && img.height > 0 ==>
              r.width == width && r.height == AspectSide(width, img.height, img.width) >= 1
    ensures r != EmptyImage && r.width == img.width && r.height == img.height ==> r.pixels == img.pixels
    ensures r.width != img.width || r.height != img.height ==>
              r == EmptyImage || r.pixels == Resampled(img.pixels, r.width, r.height)
  {
    if width < 0 || height < 0 || (width == 0 && height == 0) then EmptyImage
    else if img.width == 0 || img.height == 0 then EmptyImage
    else
      var w: nat := if width == 0 then AspectSide(height, img.width, img.height) else width;
      var h: nat := if height == 0 then AspectSide(width, img.height, img.width) else height;
      if w == img.width && h == img.height then Clone(img)
      else Raster(w, h, NRGBA, Resampled(img.pixels, w, h))
  }

  /** `imaging.Crop(img, rect)`: the part of `rect` inside the image, or an empty image. */
  function Crop(img: Raster, rect: Rectangle): (r: Raster)
    ensures r.model == NRGBA
    ensures Intersect(rect, img.Bounds()).Empty() ==> r == EmptyImage
    ensures !Intersect(rect, img.Bounds()).Empty() ==>
              r.width == Intersect(rect, img.Bounds()).Dx() && r.height == Intersect(rect, img.Bounds()).Dy()
    ensures !img.Bounds().Empty() && Intersect(rect, img.Bounds()) == img.Bounds() ==> r == Clone(img)
    ensures r.width <= img.width && r.height <= img.height
  {
    var r := Intersect(rect, img.Bounds());
    if r.Empty() then EmptyImage
    else if r == img.Bounds() then Clone(img)
    else Raster(r.Dx(), r.Dy(), NRGBA, Clipped(img.pixels, r))
  }

  /** `angle - math.Floor(angle/360)*360`: the angle brought into [0, 360). */
  function NormalizedAngle(angle: real): (a: real)
    ensures 0.0 <= a < 360.0
    ensures angle == a + ((angle / 360.0).Floor as real) * 360.0
  {
    var k := (angle / 360.0).Floor as real;
    assert k <= angle / 360.0 < k + 1.0;
    assert k * 360.0 <= angle < k * 360.0 + 360.0;
    angle - k * 360.0
  }

  /**
   * `imaging.Rotate(img, angle, color.Transparent)`: right angles are exact
   * (90 and 270 swap the sides), any other angle grows the canvas to the
   * library's floating-point bounding box.
   */
  function Rotate(lib: Library, img: Raster, angle: real): (r: Raster)
    ensures r.model == NRGBA
    ensures NormalizedAngle(angle) == 0.0 ==> r == Clone(img)
    ensures NormalizedAngle(angle) == 90.0 || NormalizedAngle(angle) == 270.0 ==>
              r.width == img.height && r.height == img.width
    ensures NormalizedAngle(angle) == 180.0 ==> r.width == img.width && r.height == img.height
    ensures NormalizedAngle(angle) !in {0.0, 90.0, 180.0, 270.0} ==>
              (r.width, r.height) == lib.rotatedSize(NormalizedAngle(angle), img.width, img.height)
    ensures NormalizedAngle(angle) != 0.0 ==> r.pixels == Turned(img.pixels, NormalizedAngle(angle))
  {
    var a := NormalizedAngle(angle);
    if a == 0.0 then Clone(img)
    else if a == 90.0 || a == 270.0 then Raster(img.height, img.width, NRGBA, Turned(img.pixels, a))
    else if a == 180.0 then Raster(img.width, img.height, NRGBA, Turned(img.pixels, a))
    else
      var size := lib.rotatedSize(a, img.width, img.height);
      Raster(size.0, size.1, NRGBA, Turned(img.pixels, a))
  }

  function FlipH(img: Raster): Raster {
    Raster(img.width, img.height, NRGBA, MirroredH(img.pixels))
  }

  function FlipV(img: Raster): Raster {
    Raster(img.width, img.height, NRGBA, MirroredV(img.pixels))
  }

  function AdjustSaturation(img: Raster, percent: real): Raster {
    Raster(img.width, img.height, NRGBA, Saturated(img.pixels, percent))
  }

  function AdjustBrightness(img: Raster, percent: real): Raster {
    Raster(img.width, img.height, NRGBA, Brightened(img.pixels, percent))
  }

  function AdjustContrast(img: Raster, percent: real): Raster {
    Raster(img.width, img.height, NRGBA, Contrasted(img.pixels, percent))
  }

  /** `imaging.Overlay(background, img, pos, opacity)`: a copy of the background with `img` drawn at `pos`. */
  function Overlay(background: Raster, img: Raster, pos: Point, opacity: real): Raster {
    Raster(background.width, background.height, NRGBA,
           Overlaid(background.pixels, img.pixels, pos, opacity))
  }

  /** `gg.NewContext(width, height)` followed by `Image()`: a blank canvas of the library's type. */
  function NewCanvas(lib: Library, width: nat, height: nat): Raster {
    Raster(width, height, lib.contextModel, Blank)
  }

  /** `DrawStringAnchored(text, x, y, ax, ay)` in the current colour. */
  function DrawStringAnchored(canvas: Raster, colour: Colour, text: string,
                              x: real, y: real, ax: real, ay: real): Raster {
    canvas.(pixels := Lettered(canvas.pixels, text, colour, x, y, ax, ay))
  }
}
