/**
 * `applyTransformations` (domains/processing/processing-service.go:56-159).
 *
 * The source is decoded once into `src`. Every enabled operation, in the
 * fixed order resize, crop, rotate, flip, format conversion, filter,
 * watermark, is applied to that same `src` and its encoding overwrites the
 * result buffer; the first failure aborts the call. `Transformed` is the
 * reference definition of that behaviour over the ordered list of enabled
 * stages, and the method `ApplyTransformations`, which follows the code's
 * if-chain (one method per `if dto.X != nil` block), is proved equal to it.
 */
module ProcessingPipeline {
  import opened Wrappers
  import opened ProcessingDto
  import Imaging

  type Bytes = Imaging.Bytes

  /** A Go error value, or a run-time panic. */
  datatype Error = Err(message: string) | Panic(message: string)

  const UnsupportedFormat := "unsupported format"

  /** The Go runtime's message when the watermark canvas, of concrete type `model`, is asserted to be NRGBA. */
  function CanvasAssertionPanic(model: Imaging.ColorModel): string {
    "interface conversion: image.Image is " + Imaging.TypeName(model) + ", not *image.NRGBA"
  }

  /** The names the conversion stage has an encoder for. */
  const EncodableFormats: set<string> := {"jpeg", "png", "tiff", "bmp", "gif"}

  /** The format table of the conversion stage: a name it knows selects its encoder, any other has none. */
  function EncoderFor(name: string): (r: Option<Imaging.Format>)
    ensures r.Some? <==> name in EncodableFormats
    ensures r.Some? ==> FormatName(r.value) == name
  {
    if name == "jpeg" then Some(Imaging.JPEG)
    else if name == "png" then Some(Imaging.PNG)
    else if name == "tiff" then Some(Imaging.TIFF)
    else if name == "bmp" then Some(Imaging.BMP)
    else if name == "gif" then Some(Imaging.GIF)
    else None
  }

  /** The name the table uses for each encoder. */
  function FormatName(f: Imaging.Format): string {
    match f
    case JPEG => "jpeg"
    case PNG => "png"
    case TIFF => "tiff"
    case BMP => "bmp"
    case GIF => "gif"
  }

  /** One enabled operation. */
  datatype Stage =
    | ResizeStage(resize: ResizeDto)
    | CropStage(crop: CropDto)
    | RotateStage(rotate: RotateDto)
    | FlipStage(flip: FlipDto)
    | ConversionStage(conversion: FormatConversionDto)
    | FilterStage(filter: FilterDto)
    | WatermarkStage(watermark: WatermarkDto)

  const StageCount: nat := 7

  /** Position of a stage in the canonical order. */
  function Rank(s: Stage): (k: nat)
    ensures k < StageCount
  {
    match s
    case ResizeStage(_) => 0
    case CropStage(_) => 1
    case RotateStage(_) => 2
    case FlipStage(_) => 3
    case ConversionStage(_) => 4
    case FilterStage(_) => 5
    case WatermarkStage(_) => 6
  }

  /** The stage of rank `k`, when the request enables it. */
  function StageAt(dto: TransformationDto, k: nat): Option<Stage> {
    if k == 0 then (if dto.resize.Some? then Some(ResizeStage(dto.resize.value)) else None)
    else if k == 1 then (if dto.crop.Some? then Some(CropStage(dto.crop.value)) else None)
    else if k == 2 then (if dto.rotate.Some? then Some(RotateStage(dto.rotate.value)) else None)
    else if k == 3 then (if dto.flip.Some? then Some(FlipStage(dto.flip.value)) else None)
    else if k == 4 then (if dto.formatConversion.Some? then Some(ConversionStage(dto.formatConversion.value)) else None)
    else if k == 5 then (if dto.filter.Some? then Some(FilterStage(dto.filter.value)) else None)
    else if k == 6 then (if dto.watermark.Some? then Some(WatermarkStage(dto.watermark.value)) else None)
    else None
  }

  /** The request enables exactly this stage. */
  predicate Enabled(dto: TransformationDto, s: Stage) {
    StageAt(dto, Rank(s)) == Some(s)
  }

  /** The enabled stages of rank `k` and above, in rank order. */
  function StagesFrom(dto: TransformationDto, k: nat): seq<Stage>
    decreases StageCount - k
  {
    if k >= StageCount then []
    else (match StageAt(dto, k) case Some(s) => [s] case None => []) + StagesFrom(dto, k + 1)
  }

  /** Every enabled stage, in canonical order. */
  function Stages(dto: TransformationDto): seq<Stage> {
    StagesFrom(dto, 0)
  }

  const WatermarkColour := Imaging.Colour(1.0, 1.0, 1.0, 0.5)
  const WatermarkAlpha: real := 0.5
  const CanvasWidth: nat := 200
  const CanvasHeight: nat := 50

  /** The fixed 200x50 canvas with the text drawn at its centre in half-transparent white. */
  function WatermarkCanvas(lib: Imaging.Library, text: string): Imaging.Raster {
    var canvas := Imaging.NewCanvas(lib, CanvasWidth, CanvasHeight);
    Imaging.DrawStringAnchored(canvas, WatermarkColour, text, 100.0, 25.0, 0.5, 0.5)
  }

  /** The image a stage makes from `src` and the format it is encoded in, or the error that stops it first. */
  function StageImage(lib: Imaging.Library, src: Imaging.Raster, stage: Stage)
    : (r: Result<(Imaging.Raster, Imaging.Format), Error>)
    ensures r.Failure? <==>
              || (stage.ConversionStage? && stage.conversion.format !in EncodableFormats)
              || (stage.WatermarkStage? && lib.contextModel != Imaging.NRGBA)
    ensures r.Failure? && stage.ConversionStage? ==> r.error == Err(UnsupportedFormat)
    ensures r.Failure? && stage.WatermarkStage? ==> r.error == Panic(CanvasAssertionPanic(lib.contextModel))
    ensures r.Success? && !stage.ConversionStage? ==> r.value.1 == Imaging.JPEG
    ensures r.Success? && stage.ConversionStage? ==>
              r.value.0 == src && FormatName(r.value.1) == stage.conversion.format
    ensures r.Success? && (stage.FlipStage? || stage.FilterStage? || stage.WatermarkStage?) ==>
              r.value.0.width == src.width && r.value.0.height == src.height
  {
    match stage
    case ResizeStage(r) =>
      Success((Imaging.Resize(src, r.width, r.height), Imaging.JPEG))
    case CropStage(c) =>
      Success((Imaging.Crop(src, Imaging.Rect(c.x, c.y, c.width, c.height)), Imaging.JPEG))
    case RotateStage(r) =>
      Success((Imaging.Rotate(lib, src, r.angle), Imaging.JPEG))
    case FlipStage(f) =>
      Success((if f.direction == "horizontal" then Imaging.FlipH(src) else Imaging.FlipV(src), Imaging.JPEG))
    case ConversionStage(f) =>
      (match EncoderFor(f.format)
       case Some(format) => Success((src, format))
       case None => Failure(Err(UnsupportedFormat)))
    case FilterStage(f) =>
      var saturated := Imaging.AdjustSaturation(src, f.saturation as real);
      var brightened := Imaging.AdjustBrightness(saturated, f.brightness as real);
      Success((Imaging.AdjustContrast(brightened, f.contrast as real), Imaging.JPEG))
    case WatermarkStage(w) =>
      var mark := WatermarkCanvas(lib, w.text);
      if mark.model != Imaging.NRGBA then Failure(Panic(CanvasAssertionPanic(mark.model)))
      else
        var position := Imaging.Point(w.position.x, w.position.y);
        Success((Imaging.Overlay(src, mark, position, WatermarkAlpha), Imaging.JPEG))
  }

  function Lift(r: Result<Bytes, string>): Result<Bytes, Error> {
    match r
    case Success(b) => Success(b)
    case Failure(e) => Failure(Err(e))
  }

  /** The bytes one stage writes into the result buffer, or its error. */
  function RunStage(lib: Imaging.Library, src: Imaging.Raster, stage: Stage): (r: Result<Bytes, Error>)
    ensures r.Success? <==>
              StageImage(lib, src, stage).Success? &&
              lib.encode(StageImage(lib, src, stage).value.0, StageImage(lib, src, stage).value.1).Success?
    ensures r.Success? ==>
              r.value == lib.encode(StageImage(lib, src, stage).value.0, StageImage(lib, src, stage).value.1).value
    ensures r.Failure? && r.error.Panic? <==> stage.WatermarkStage? && lib.contextModel != Imaging.NRGBA
  {
    match StageImage(lib, src, stage)
    case Failure(e) => Failure(e)
    case Success(job) => Lift(lib.encode(job.0, job.1))
  }

  /** Every stage run on the same decoded source. */
  function Runner(lib: Imaging.Library, src: Imaging.Raster): Stage -> Result<Bytes, Error> {
    s => RunStage(lib, src, s)
  }

  /** The stages taken in order: a failure aborts, a success overwrites the current bytes. */
  function Settle(run: Stage -> Result<Bytes, Error>, stages: seq<Stage>, current: Bytes): Result<Bytes, Error> {
    if stages == [] then Success(current)
    else match run(stages[0])
      case Failure(e) => Failure(e)
      case Success(b) => Settle(run, stages[1..], b)
  }

  /** The reference behaviour of `applyTransformations`. */
  function Transformed(lib: Imaging.Library, img: Bytes, dto: TransformationDto): (r: Result<Bytes, Error>)
    ensures lib.decode(img).Failure? ==> r == Failure(Err(lib.decode(img).error))
    ensures r.Success? ==> lib.decode(img).Success?
  {
    match lib.decode(img)
    case Failure(e) => Failure(Err(e))
    case Success(src) => Settle(Runner(lib, src), Stages(dto), img)
  }

  /** One `if dto.X != nil` block: skipped, aborting, or overwriting the current bytes. */
  lemma SettleStep(run: Stage -> Result<Bytes, Error>, dto: TransformationDto, k: nat, current: Bytes)
    requires k < StageCount
    ensures Settle(run, StagesFrom(dto, k), current) ==
      match StageAt(dto, k)
      case None => Settle(run, StagesFrom(dto, k + 1), current)
      case Some(s) =>
        match run(s)
        case Failure(e) => Failure(e)
        case Success(b) => Settle(run, StagesFrom(dto, k + 1), b)
  {
    var rest := StagesFrom(dto, k + 1);
    match StageAt(dto, k)
    case None =>
      assert StagesFrom(dto, k) == rest;
    case Some(s) =>
      assert StagesFrom(dto, k) == [s] + rest;
      assert ([s] + rest)[1..] == rest;
  }

  /** What the stages of rank `k` and above make of the current bytes. */
  function Remaining(run: Stage -> Result<Bytes, Error>, dto: TransformationDto, k: nat, current: Bytes)
    : Result<Bytes, Error>
    decreases StageCount - k
  {
    if k >= StageCount then Success(current)
    else match StageAt(dto, k)
      case None => Remaining(run, dto, k + 1, current)
      case Some(s) =>
        match run(s)
        case Failure(e) => Failure(e)
        case Success(b) => Remaining(run, dto, k + 1, b)
  }

  lemma {:induction false} SettleIsRemaining(run: Stage -> Result<Bytes, Error>, dto: TransformationDto,
                                             k: nat, current: Bytes)
    ensures Settle(run, StagesFrom(dto, k), current) == Remaining(run, dto, k, current)
    decreases StageCount - k
  {
    if k < StageCount {
      SettleStep(run, dto, k, current);
      match StageAt(dto, k)
      case None => SettleIsRemaining(run, dto, k + 1, current);
      case Some(s) =>
        match run(s)
        case Failure(e) =>
        case Success(b) => SettleIsRemaining(run, dto, k + 1, b);
    }
  }

  method ResizeImage(lib: Imaging.Library, src: Imaging.Raster, resize: ResizeDto) returns (r: Result<Bytes, Error>)
    ensures r == RunStage(lib, src, ResizeStage(resize))
  {
    var resized := Imaging.Resize(src, resize.width, resize.height);
    var buf := lib.encode(resized, Imaging.JPEG);
    if buf.Failure? {
      return Failure(Err(buf.error));
    }
    return Success(buf.value);
  }

  method CropImage(lib: Imaging.Library, src: Imaging.Raster, crop: CropDto) returns (r: Result<Bytes, Error>)
    ensures r == RunStage(lib, src, CropStage(crop))
  {
    var rect := Imaging.Rect(crop.x, crop.y, crop.width, crop.height);
    var cropped := Imaging.Crop(src, rect);
    var buf := lib.encode(cropped, Imaging.JPEG);
    if buf.Failure? {
      return Failure(Err(buf.error));
    }
    return Success(buf.value);
  }

  method RotateImage(lib: Imaging.Library, src: Imaging.Raster, rotate: RotateDto) returns (r: Result<Bytes, Error>)
    ensures r == RunStage(lib, src, RotateStage(rotate))
  {
    var rotated := Imaging.Rotate(lib, src, rotate.angle);
    var buf := lib.encode(rotated, Imaging.JPEG);
    if buf.Failure? {
      return Failure(Err(buf.error));
    }
    return Success(buf.value);
  }

  method FlipImage(lib: Imaging.Library, src: Imaging.Raster, flip: FlipDto) returns (r: Result<Bytes, Error>)
    ensures r == RunStage(lib, src, FlipStage(flip))
  {
    var flipped: Imaging.Raster;
    if flip.direction == "horizontal" {
      flipped := Imaging.FlipH(src);
    } else {
      flipped := Imaging.FlipV(src);
    }
    var buf := lib.encode(flipped, Imaging.JPEG);
    if buf.Failure? {
      return Failure(Err(buf.error));
    }
    return Success(buf.value);
  }

  method ConvertImage(lib: Imaging.Library, src: Imaging.Raster, conversion: FormatConversionDto)
    returns (r: Result<Bytes, Error>)
    ensures r == RunStage(lib, src, ConversionStage(conversion))
  {
    var format := EncoderFor(conversion.format);
    if format.None? {
      return Failure(Err(UnsupportedFormat));
    }
    var buf := lib.encode(src, format.value);
    if buf.Failure? {
      return Failure(Err(buf.error));
    }
    return Success(buf.value);
  }

  method FilterImage(lib: Imaging.Library, src: Imaging.Raster, filter: FilterDto) returns (r: Result<Bytes, Error>)
    ensures r == RunStage(lib, src, FilterStage(filter))
  {
    var filtered := Imaging.AdjustSaturation(src, filter.saturation as real);
    filtered := Imaging.AdjustBrightness(filtered, filter.brightness as real);
    filtered := Imaging.AdjustContrast(filtered, filter.contrast as real);
    var buf := lib.encode(filtered, Imaging.JPEG);
    if buf.Failure? {
      return Failure(Err(buf.error));
    }
    return Success(buf.value);
  }

  method WatermarkImage(lib: Imaging.Library, src: Imaging.Raster, watermark: WatermarkDto)
    returns (r: Result<Bytes, Error>)
    ensures r == RunStage(lib, src, WatermarkStage(watermark))
  {
    var position := Imaging.Point(watermark.position.x, watermark.position.y);
    var canvas := Imaging.NewCanvas(lib, CanvasWidth, CanvasHeight);
    var mark := Imaging.DrawStringAnchored(canvas, WatermarkColour, watermark.text, 100.0, 25.0, 0.5, 0.5);
    if mark.model != Imaging.NRGBA {
      return Failure(Panic(CanvasAssertionPanic(mark.model)));
    }
    var buf := lib.encode(Imaging.Overlay(src, mark, position, WatermarkAlpha), Imaging.JPEG);
    if buf.Failure? {
      return Failure(Err(buf.error));
    }
    return Success(buf.value);
  }

  method ApplyTransformations(lib: Imaging.Library, img: Bytes, dto: TransformationDto)
    returns (r: Result<Bytes, Error>)
    ensures r == Transformed(lib, img, dto)
  {
    var decoded := lib.decode(img);
    if decoded.Failure? {
      return Failure(Err(decoded.error));
    }
    var src := decoded.value;
    var result := img;
    // What the stages not yet run make of `result` is what the call returns.
    ghost var run := Runner(lib, src);
    ghost var goal := Remaining(run, dto, 0, img);
    SettleIsRemaining(run, dto, 0, img);

    if dto.resize.Some? {
      var out := ResizeImage(lib, src, dto.resize.value);
      if out.Failure? { return out; }
      result := out.value;
    }
    assert goal == Remaining(run, dto, 1, result);

    if dto.crop.Some? {
      var out := CropImage(lib, src, dto.crop.value);
      if out.Failure? { return out; }
      result := out.value;
    }
    assert goal == Remaining(run, dto, 2, result);

    if dto.rotate.Some? {
      var out := RotateImage(lib, src, dto.rotate.value);
      if out.Failure? { return out; }
      result := out.value;
    }
    assert goal == Remaining(run, dto, 3, result);

    if dto.flip.Some? {
      var out := FlipImage(lib, src, dto.flip.value);
      if out.Failure? { return out; }
      result := out.value;
    }
    assert goal == Remaining(run, dto, 4, result);

    if dto.formatConversion.Some? {
      var out := ConvertImage(lib, src, dto.formatConversion.value);
      if out.Failure? { return out; }
      result := out.value;
    }
    assert goal == Remaining(run, dto, 5, result);

    if dto.filter.Some? {
      var out := FilterImage(lib, src, dto.filter.value);
      if out.Failure? { return out; }
      result := out.value;
    }
    assert goal == Remaining(run, dto, 6, result);

    if dto.watermark.Some? {
      var out := WatermarkImage(lib, src, dto.watermark.value);
      if out.Failure? { return out; }
      result := out.value;
    }
    assert goal == Remaining(run, dto, 7, result);
    return Success(result);
  }
}
