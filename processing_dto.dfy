/**
 * The request body of a transform call (domains/processing/transformation-dto.go):
 * seven independently optional operations, each checked by the binding tags
 * of its fields. The tags follow the go-playground validator used by gin:
 * `required` rejects the field's zero value (0, 0.0 or ""), `min`/`max` bound
 * an integer inclusively and `oneof` lists the accepted strings. An absent
 * (`nil`) operation has no tags to check.
 */
module ProcessingDto {
  import opened Wrappers

  datatype ResizeDto = ResizeDto(width: int, height: int)
  datatype CropDto = CropDto(x: int, y: int, width: int, height: int)
  datatype RotateDto = RotateDto(angle: real)
  datatype FlipDto = FlipDto(direction: string)
  datatype Point = Point(x: int, y: int)
  datatype WatermarkDto = WatermarkDto(text: string, position: Point, opacity: int)
  datatype FormatConversionDto = FormatConversionDto(format: string)
  datatype FilterDto = FilterDto(saturation: int, brightness: int, contrast: int)

  /** Fields in declaration order; `None` is `nil` (the operation is absent). */
  datatype TransformationDto = TransformationDto(
    resize: Option<ResizeDto>,
    crop: Option<CropDto>,
    rotate: Option<RotateDto>,
    flip: Option<FlipDto>,
    watermark: Option<WatermarkDto>,
    formatConversion: Option<FormatConversionDto>,
    filter: Option<FilterDto>)

  const NoOperations := TransformationDto(None, None, None, None, None, None, None)

  const FlipDirections: set<string> := {"horizontal", "vertical"}
  const AcceptedFormats: set<string> := {"jpeg", "png", "webp", "tiff", "bmp", "gif"}

  // The validator's tags, one predicate per tag.

  predicate RequiredInt(v: int) { v != 0 }
  predicate RequiredReal(v: real) { v != 0.0 }
  predicate RequiredString(v: string) { v != "" }
  predicate MinInt(v: int, bound: int) { v >= bound }
  predicate MaxInt(v: int, bound: int) { v <= bound }
  predicate OneOf(v: string, options: set<string>) { v in options }

  /** `required,min=1` on both sides. */
  function ValidResize(r: ResizeDto): (ok: bool)
    ensures ok <==> r.width >= 1 && r.height >= 1
  {
    && RequiredInt(r.width) && MinInt(r.width, 1)
    && RequiredInt(r.height) && MinInt(r.height, 1)
  }

  /** `required,min=0` on the corner, `required,min=1` on the size: `required` makes the corner at least 1. */
  function ValidCrop(c: CropDto): (ok: bool)
    ensures ok <==> c.x >= 1 && c.y >= 1 && c.width >= 1 && c.height >= 1
  {
    && RequiredInt(c.x) && MinInt(c.x, 0)
    && RequiredInt(c.y) && MinInt(c.y, 0)
    && RequiredInt(c.width) && MinInt(c.width, 1)
    && RequiredInt(c.height) && MinInt(c.height, 1)
  }

  /** `required` on a float: any angle except 0. */
  function ValidRotate(r: RotateDto): (ok: bool)
    ensures ok <==> r.angle != 0.0
  {
    RequiredReal(r.angle)
  }

  /** `required,oneof=horizontal vertical` */
  function ValidFlip(f: FlipDto): (ok: bool)
    ensures ok <==> f.direction == "horizontal" || f.direction == "vertical"
  {
    RequiredString(f.direction) && OneOf(f.direction, FlipDirections)
  }

  /** `required` on both coordinates: a coordinate 0 is refused. */
  function ValidPoint(p: Point): (ok: bool)
    ensures ok <==> p.x != 0 && p.y != 0
  {
    RequiredInt(p.x) && RequiredInt(p.y)
  }

  /** Text `required`, the position's own fields, opacity `required,min=0,max=100`. */
  function ValidWatermark(w: WatermarkDto): (ok: bool)
    ensures ok <==> w.text != "" && w.position.x != 0 && w.position.y != 0 && 1 <= w.opacity <= 100
  {
    && RequiredString(w.text)
    && ValidPoint(w.position)
    && RequiredInt(w.opacity) && MinInt(w.opacity, 0) && MaxInt(w.opacity, 100)
  }

  /** `required,oneof=jpeg png webp tiff bmp gif` */
  function ValidFormatConversion(f: FormatConversionDto): (ok: bool)
    ensures ok <==> f.format in AcceptedFormats
  {
    RequiredString(f.format) && OneOf(f.format, AcceptedFormats)
  }

  /** Each of the three `required,min=-100,max=100`: a value in [-100, 100] other than 0. */
  function ValidFilter(f: FilterDto): (ok: bool)
    ensures ok <==> && -100 <= f.saturation <= 100 && f.saturation != 0
                    && -100 <= f.brightness <= 100 && f.brightness != 0
                    && -100 <= f.contrast <= 100 && f.contrast != 0
  {
    && RequiredInt(f.saturation) && MinInt(f.saturation, -100) && MaxInt(f.saturation, 100)
    && RequiredInt(f.brightness) && MinInt(f.brightness, -100) && MaxInt(f.brightness, 100)
    && RequiredInt(f.contrast) && MinInt(f.contrast, -100) && MaxInt(f.contrast, 100)
  }

  /** The whole body binds when every operation that is present passes its tags. */
  function Valid(dto: TransformationDto): (ok: bool)
    ensures dto == NoOperations ==> ok
  {
    && (dto.resize.Some? ==> ValidResize(dto.resize.value))
    && (dto.crop.Some? ==> ValidCrop(dto.crop.value))
    && (dto.rotate.Some? ==> ValidRotate(dto.rotate.value))
    && (dto.flip.Some? ==> ValidFlip(dto.flip.value))
    && (dto.watermark.Some? ==> ValidWatermark(dto.watermark.value))
    && (dto.formatConversion.Some? ==> ValidFormatConversion(dto.formatConversion.value))
    && (dto.filter.Some? ==> ValidFilter(dto.filter.value))
  }

  /** Either the operation is dropped or kept as it is. */
  predicate DropsOrKeeps<T(==)>(sub: Option<T>, full: Option<T>) {
    sub.None? || sub == full
  }

  /** Dropping any operations of a valid body leaves a valid body: the operations are independent. */
  lemma DroppingOperationsKeepsValidity(full: TransformationDto, sub: TransformationDto)
    requires Valid(full)
    requires DropsOrKeeps(sub.resize, full.resize) && DropsOrKeeps(sub.crop, full.crop)
    requires DropsOrKeeps(sub.rotate, full.rotate) && DropsOrKeeps(sub.flip, full.flip)
    requires DropsOrKeeps(sub.watermark, full.watermark)
    requires DropsOrKeeps(sub.formatConversion, full.formatConversion)
    requires DropsOrKeeps(sub.filter, full.filter)
    ensures Valid(sub)
  {
  }

  /** The zero values that `required` refuses although their `min` bound admits them. */
  lemma ZeroValuesRefused(x: int, y: int, w: int, h: int)
    ensures !ValidCrop(CropDto(0, y, w, h)) && !ValidCrop(CropDto(x, 0, w, h))
    ensures !ValidRotate(RotateDto(0.0))
    ensures !ValidFilter(FilterDto(0, y, w)) && !ValidFilter(FilterDto(x, 0, w))
    ensures !ValidFilter(FilterDto(x, y, 0))
    ensures forall t, p :: !ValidWatermark(WatermarkDto(t, p, 0))
  {
  }
}
