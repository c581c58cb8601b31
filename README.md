# vixel-api image core, modelled in Dafny

vixel-api is a Go HTTP service that stores users' images and transforms them
on request. This project models four parts of it and proves properties of
the model:

- **The transformation pipeline** (`applyTransformations`). It models decode once, then up to seven
  optional stages in a fixed order: resize, crop, rotate, flip, format
  conversion, filter, watermark. Each stage reads the decoded source and
  overwrites the result buffer. The first failure aborts the call.
- **The transform orchestrator** (`ProcessingService.TransformImage`). It looks the record up,
  fetches its bytes, transforms them, uploads the result as a JPEG object,
  and deletes the old object. The catalog and the object store are
  classes holding maps. Every store call is written to a ghost log, so the
  order of side effects can be stated.
- **The validators.** The binding tags of `TransformationDTO` become
  predicates. The ordered early-return checks of `SaveImageDto.IsValid`
  become a function.
- **The image endpoints** (`UploadImage`, `GetImage`, `ListUserImages`,
  `DeleteImage`). Each is a chain: parse the id, look the record up, check
  that the caller owns it, then act. The catalog follows the in-memory test
  service: a map from id to record, and a counter that hands out ids from
  1. The catalog and the store can also be told to fail an operation, so
  every error path of the handlers is reachable.

Images are abstract. A `Raster` carries its width, its height, the concrete
Go type behind it, and a symbolic term that records how its pixels were
produced. Decoding, encoding, the canvas size of a rotation by an arbitrary
angle, and the Go type a gg canvas returns are fields of a `Library` value.
Every property is proved for all choices of them.

Modules, one per file:

| file | module |
|---|---|
| wrappers.dfy | `Wrappers` (`Option`, `Result`) |
| strconv.dfy | `Strconv` (`strconv.ParseUint` with base 10 and 32 bits) |
| imaging.dfy | `Imaging` (the image libraries) |
| processing_dto.dfy | `ProcessingDto` |
| processing_pipeline.dfy | `ProcessingPipeline` |
| processing_properties.dfy | `ProcessingProperties` |
| storage.dfy | `Storage` |
| catalog.dfy | `ImageCatalog` |
| processing_service.dfy | `Processing` |
| image_dto.dfy | `ImageDto` |
| image_handlers.dfy | `ImageHandlers` |

Code and test disagree on crop. The crop stage passes
`image.Rect(X, Y, Width, Height)` (processing-service.go:73), so Width and
Height act as the far corner. On a 100×100 source, X = Y = 10 and
Width = Height = 50 give a 40×40 image. The crop test
(processing-service_test.go:90-119) expects 50×50. The model follows the
code: `CropInsideSource` and `CropOfTestCase` state the code's result.

Two other behaviours follow from the code as written:

- A format conversion to `"webp"` passes the request validation
  (transformation-dto.go:45), but the encoder table has no entry for it
  (processing-service.go:110-123), so the call always fails.
- The watermark's `Opacity` is validated and then never read: the overlay
  alpha is the constant 0.5.

## Model

| member | source | states |
|---|---|---|
| Strconv.FormatDecimal | domains/image/image-handler.go:79 | The decimal spelling of a number is a non-empty string of digits. |
| Strconv.ParseDecimal | domains/image/image-handler.go:79 | A string parses exactly when it is non-empty and made of ASCII digits only. |
| Strconv.ParseUint32 | domains/image/image-handler.go:79 | A string parses as a 32-bit unsigned id exactly when it is a digit string whose value is at most 4294967295, and the value is the decimal one. |
| Strconv.DecimalValueOfFormat | domains/image/image-handler.go:79 | Parsing the digits of the decimal spelling of n gives back n. |
| Strconv.ParseFormatRoundTrip | domains/image/image-handler.go:79 | Every id below 2^32 round-trips through its decimal spelling; every larger one is refused. |
| Strconv.ParseUint32Rejects | domains/image/image-handler.go:79-83 | The empty string, signs, letters and blanks are refused; leading zeros are accepted. |
| Imaging.Rect | domains/processing/processing-service.go:73 | `image.Rect` takes its arguments as two corners, swapped so that the sides are non-negative: a point is inside exactly when it lies between the two corners on both axes. |
| Imaging.Intersect | domains/processing/processing-service.go:73 | The crop region holds exactly the points inside both rectangles, and it is the zero rectangle when that set is empty. |
| Imaging.NormalizedAngle | domains/processing/processing-service.go:83 | The rotation angle is brought into [0, 360) by subtracting a whole number of turns. |
| Imaging.Resize | domains/processing/processing-service.go:63 | `imaging.Resize` gives exactly Width×Height for two positive sides of a non-empty source. A zero side is computed from the aspect ratio and is at least 1. A negative side, two zero sides or an empty source give the empty image. The same size keeps the pixels; any other size resamples them. |
| Imaging.Crop | domains/processing/processing-service.go:73 | `imaging.Crop` gives the part of the rectangle inside the source, sized like that intersection, or the empty image when they do not overlap; the whole source gives a clone. The result never exceeds the source. |
| Imaging.Rotate | domains/processing/processing-service.go:83 | `imaging.Rotate` returns a clone for a whole number of turns. Quarter and three-quarter turns swap the sides, and a half turn keeps them. Any other angle takes the library's rotated canvas size. |
| ProcessingDto.ValidResize | domains/processing/transformation-dto.go:13-16 | A resize binds exactly when Width ≥ 1 and Height ≥ 1. |
| ProcessingDto.ValidCrop | domains/processing/transformation-dto.go:18-23 | A crop binds exactly when X ≥ 1, Y ≥ 1, Width ≥ 1 and Height ≥ 1. The corner cannot be zero, because `required` refuses the zero value though `min=0` admits it. |
| ProcessingDto.ValidRotate | domains/processing/transformation-dto.go:25-27 | A rotation binds exactly when its angle is not 0. |
| ProcessingDto.ValidFlip | domains/processing/transformation-dto.go:29-31 | A flip binds exactly when its direction is "horizontal" or "vertical". |
| ProcessingDto.ValidPoint | domains/processing/transformation-dto.go:39-42 | A position binds exactly when neither coordinate is 0. |
| ProcessingDto.ValidWatermark | domains/processing/transformation-dto.go:33-37 | A watermark binds exactly when its text is non-empty, its position binds and its opacity is in [1, 100]. |
| ProcessingDto.ValidFormatConversion | domains/processing/transformation-dto.go:44-46 | A conversion binds exactly when its format is one of jpeg, png, webp, tiff, bmp, gif. |
| ProcessingDto.ValidFilter | domains/processing/transformation-dto.go:48-52 | A filter binds exactly when each of saturation, brightness and contrast is in [-100, 100] and not 0. |
| ProcessingDto.Valid | domains/processing/transformation-dto.go:3-11 | A body with no operation at all is valid. |
| ProcessingDto.DroppingOperationsKeepsValidity | domains/processing/transformation-dto.go:3-11 | The operations are independently optional: dropping any of them from a valid body leaves a valid body. |
| ProcessingDto.ZeroValuesRefused | domains/processing/transformation-dto.go:19-20 | Crop X = 0 or Y = 0, angle 0, a zero filter value and opacity 0 are all refused. |
| ProcessingPipeline.EncoderFor | domains/processing/processing-service.go:109-123 | The format table has an encoder exactly for jpeg, png, tiff, bmp and gif, and the encoder chosen carries the name asked for. |
| ProcessingPipeline.StageImage | domains/processing/processing-service.go:62-156 | The stage of each `if dto.X != nil` block fails only when a conversion names no encoder ("unsupported format") or when the watermark canvas is not NRGBA (a panic with Go's type-assertion message). Every stage except the conversion encodes as JPEG. The conversion encodes the source itself in the named format. Flip, filter and watermark keep the source's size. |
| ProcessingPipeline.RunStage | domains/processing/processing-service.go:62-156 | A stage writes the encoder's bytes for its image exactly when it produces an image and that image encodes. A panic comes only from the watermark's canvas assertion. |
| ProcessingPipeline.Transformed | domains/processing/processing-service.go:56-159 | The reference behaviour of `applyTransformations`. A decode failure is the result, and no bytes come out of undecodable input. Otherwise the enabled stages are taken in order on the decoded source, starting from the input bytes; the properties are the `ProcessingProperties` lemmas. |
| ProcessingPipeline.SettleStep | domains/processing/processing-service.go:62-156 | One `if dto.X != nil` block: an absent operation is skipped, a failing one aborts, and a succeeding one replaces the current bytes. |
| ProcessingPipeline.SettleIsRemaining | domains/processing/processing-service.go:62-158 | Running the list of enabled stages equals taking the seven blocks one by one in code order. |
| ProcessingPipeline.ResizeImage | domains/processing/processing-service.go:62-70 | The resize block writes the JPEG encoding of the resized source, or fails with the encoder's error. |
| ProcessingPipeline.CropImage | domains/processing/processing-service.go:72-80 | The crop block writes the JPEG encoding of the source cropped to `Rect(X, Y, Width, Height)`, or fails with the encoder's error. |
| ProcessingPipeline.RotateImage | domains/processing/processing-service.go:82-90 | The rotate block writes the JPEG encoding of the rotated source, or fails with the encoder's error. |
| ProcessingPipeline.FlipImage | domains/processing/processing-service.go:92-105 | The flip block mirrors the source horizontally for "horizontal" and vertically otherwise, then encodes it as JPEG. |
| ProcessingPipeline.ConvertImage | domains/processing/processing-service.go:107-129 | The conversion block fails with "unsupported format" for a name the table lacks; otherwise it writes the source encoded in that format. |
| ProcessingPipeline.FilterImage | domains/processing/processing-service.go:131-142 | The filter block applies saturation, then brightness, then contrast to the source, then encodes it as JPEG. |
| ProcessingPipeline.WatermarkImage | domains/processing/processing-service.go:144-156 | The watermark block draws the text on a 200×50 canvas and overlays it on the source with alpha 0.5. It panics when the canvas is not an NRGBA image, with Go's message for a failed type assertion. |
| ProcessingPipeline.ApplyTransformations | domains/processing/processing-service.go:56-159 | The method with its mutable result buffer returns exactly the reference behaviour: a decode failure, else the first stage error, else the last stage's bytes, else the input. |
| ProcessingProperties.SettleAllSucceed | domains/processing/processing-service.go:62-158 | When every stage succeeds, the result is the last stage's bytes; with no stage, the result is the input. |
| ProcessingProperties.SettleFirstFailure | domains/processing/processing-service.go:62-156 | The first failing stage's error is the result, whatever later stages would do. |
| ProcessingProperties.SettleSucceedsIff | domains/processing/processing-service.go:62-158 | The stages succeed together exactly when each one succeeds. |
| ProcessingProperties.SettleIgnoresCurrent | domains/processing/processing-service.go:62-156 | Once a stage runs, the bytes it was handed do not matter: every stage reads `src`. |
| ProcessingProperties.StagesFromMembers | domains/processing/processing-service.go:62-156 | The stages from rank k on are exactly the enabled ones of rank at least k. |
| ProcessingProperties.StagesExactlyEnabled | domains/processing/processing-service.go:62-156 | A stage runs exactly when the request carries that operation. |
| ProcessingProperties.StagesFromOrdered | domains/processing/processing-service.go:62-156 | The stages from rank k on are in strictly increasing rank order. |
| ProcessingProperties.StagesCanonicalOrder | domains/processing/processing-service.go:62-156 | Stages run in the order resize, crop, rotate, flip, conversion, filter, watermark. |
| ProcessingProperties.ConversionRunsBeforeWatermark | domains/processing/transformation-dto.go:8-9 | The watermark field is declared before the conversion field, but the conversion still runs first. |
| ProcessingProperties.NoStagesIffNoOperations | domains/processing/transformation-dto.go:3-11 | No stage runs exactly when the request carries no operation. |
| ProcessingProperties.TransformedIsRemaining | domains/processing/processing-service.go:56-159 | For decodable input, the reference behaviour equals the block-by-block account. |
| ProcessingProperties.DecodeFailureAborts | domains/processing/processing-service.go:57-60 | Undecodable input fails with the decoder's error before any stage runs. |
| ProcessingProperties.NoOperationsReturnsInput | domains/processing/processing-service.go:158 | A request with no operation returns the input bytes unchanged. |
| ProcessingProperties.LastEnabledStageWins | domains/processing/processing-service.go:62-158 | When every enabled stage succeeds, the result is the last enabled stage's encoding of the source. |
| ProcessingProperties.FirstFailingStageAborts | domains/processing/processing-service.go:62-156 | The first enabled stage that fails decides the result. |
| ProcessingProperties.TransformedSucceedsIff | domains/processing/processing-service.go:56-159 | Decodable input yields bytes exactly when every enabled stage succeeds on the source. |
| ProcessingProperties.Without | domains/processing/transformation-dto.go:3-11 | Clearing the operation of rank k disables that stage and keeps every other one. |
| ProcessingProperties.RemainingIgnoresCurrent | domains/processing/processing-service.go:62-156 | With some stage still to run, the current bytes do not affect the result. |
| ProcessingProperties.RemainingWithout | domains/processing/processing-service.go:62-156 | A succeeding stage followed later by an enabled stage can be dropped without changing the result. |
| ProcessingProperties.RemainingCongruent | domains/processing/processing-service.go:62-156 | Two requests whose stages have equal outcomes rank by rank give the same result. |
| ProcessingProperties.EarlierStageDiscarded | domains/processing/processing-service.go:62-156 | A succeeding stage's output is discarded when a later stage is enabled: removing it changes nothing. |
| ProcessingProperties.ResizeThenCropIgnoresResize | domains/processing/processing-service.go:62-80 | With resize and crop both requested, the crop reads the original, so a succeeding resize has no effect. |
| ProcessingProperties.OpacityIrrelevant | domains/processing/processing-service.go:144-151 | The watermark's opacity never affects the result. |
| ProcessingProperties.OnlyHorizontalFlipsHorizontally | domains/processing/processing-service.go:92-98 | Any two directions other than "horizontal" give the same result. |
| ProcessingProperties.FormatNameRoundTrip | domains/processing/processing-service.go:110-120 | Each encoder is selected by its own name. |
| ProcessingProperties.UnsupportedFormatFails | domains/processing/processing-service.go:121-122 | A format name outside the table fails the stage with "unsupported format". |
| ProcessingProperties.WebpValidatedButUnencodable | domains/processing/transformation-dto.go:45 | "webp" is the only format that passes validation but has no encoder. |
| ProcessingProperties.UnknownConversionFailsCall | domains/processing/processing-service_test.go:72-88 | A conversion to an unknown format fails the whole call with "unsupported format". |
| ProcessingProperties.ResizeExactSize | domains/processing/processing-service.go:63 | Resizing a non-empty source to a valid size gives exactly Width×Height, whatever the aspect ratio, encoded as JPEG. |
| ProcessingProperties.CropInsideSource | domains/processing/processing-service.go:73 | Inside the source, the crop is (Width − X)×(Height − Y). |
| ProcessingProperties.CropOfTestCase | domains/processing/processing-service_test.go:90-119 | The test's crop of 100×100 at (10, 10) with Width = Height = 50 is 40×40. |
| ProcessingProperties.CropDegenerate | domains/processing/processing-service.go:73 | A corner equal to the far corner on one axis gives the empty image. |
| ProcessingProperties.CropWithinSource | domains/processing/processing-service.go:73 | A crop never exceeds its source in either side. |
| ProcessingProperties.RotateRightAngles | domains/processing/processing-service.go:83 | A quarter or three-quarter turn swaps the sides; a half turn or none keeps them. |
| ProcessingProperties.RotateOfTestCase | domains/processing/processing-service_test.go:121-147 | Turning 100×50 by 90 or by −90 degrees gives 50×100. |
| ProcessingProperties.FlipKeepsSize | domains/processing/processing-service.go:92-98 | A flip keeps the size. It mirrors left to right exactly for "horizontal" and top to bottom otherwise. |
| ProcessingProperties.ConversionEncodesSource | domains/processing/processing-service.go:107-124 | A conversion encodes the unchanged source in the named format. |
| ProcessingProperties.FilterKeepsSize | domains/processing/processing-service.go:131-135 | The filter keeps the size and applies saturation, brightness and contrast in that order. |
| ProcessingProperties.WatermarkOutcome | domains/processing/processing-service.go:144-151 | The watermark keeps the source's size and overlays the text canvas at the position with alpha 0.5. The canvas is 200×50. It panics, with Go's type-assertion message, exactly when the canvas is not NRGBA. |
| Storage.ObjectStore.GetImageByUrl | domains/processing/processing-service.go:34-37 | The fetch answers the stored bytes when the URL holds an object, and an error otherwise. The call is logged. |
| Storage.ObjectStore.UploadImageFromBytes | domains/processing/processing-service.go:44-47 | The upload adds the object under its URL and answers that URL, or fails and leaves the objects as they were. |
| Storage.ObjectStore.DeleteImage | domains/processing/processing-service.go:49-51 | The delete removes the URL, or fails and leaves the objects as they were. |
| Storage.ObjectStore.constructor | domains/processing/processing-service.go:34-51 | A store holds the given objects, fails the given operations and has logged no call. |
| ImageCatalog.ImagesBelowMembers | domains/image/image-handler_test.go:57-65 | A record is listed for a user below id n exactly when it is stored under an id below n and belongs to that user. |
| ImageCatalog.ImagesBelowAscending | domains/image/image-handler_test.go:57-65 | The listed records have strictly ascending ids. |
| ImageCatalog.ImageService.constructor | domains/image/image-handler_test.go:36-41 | A new catalog is empty and hands out id 1 first. |
| ImageCatalog.ImageService.SaveImage | domains/image/image-handler_test.go:43-48 | A save assigns the next id, stores the record under it and advances the counter. |
| ImageCatalog.ImageService.GetImageByID | domains/image/image-handler_test.go:50-55 | The lookup answers the stored record, or record-not-found when the id is absent. |
| ImageCatalog.ImageService.FindByKey | domains/processing/processing-service.go:27-32 | The raw path key finds a record only when it is a decimal id within the `bigint` range that is stored; an in-range miss is record-not-found. A non-decimal key or one above 2^63 − 1 makes the query itself fail. |
| ImageCatalog.ImageService.ListImagesByUser | domains/image/image-handler_test.go:57-65 | The loop returns the user's records in ascending id order. |
| ImageCatalog.ImageService.ImagesOfCharacterised | domains/image/image-handler_test.go:57-65 | A user's list holds exactly that user's stored records, each once, in ascending id order. |
| ImageCatalog.ImageService.DeleteImage | domains/image/image-handler_test.go:67-73 | The delete removes a stored id; an absent id is record-not-found, and the map is left unchanged. |
| Processing.ProcessingService.TransformImage | domains/processing/processing-service.go:25-54 | A lookup miss gives "image not found" and other lookup errors pass through, with no store call in either case. A failing fetch, transform or upload returns before the delete, so the old object survives. The upload, always as "image/jpeg", happens before the delete. A failing delete leaves the new object orphaned. Success answers exactly the uploaded URL. The catalog is never written. |
| Processing.ProcessingService.constructor | domains/processing/processing-service.go:21-23 | `NewProcessingService` keeps the given database, modelled as the catalog, and the upload service, modelled as the store. The image library is a further parameter. |
| ImageDto.IsValid | domains/image/image-dto.go:15-34 | The result is "" exactly when all four checks pass; otherwise it is the message of the first failing check (size, open, decode, JPEG or PNG). |
| ImageDto.OversizeNeverDecoded | domains/image/image-dto.go:16-25 | An oversize file is refused with the size message, whatever its content and whatever the decoder. |
| ImageDto.FiveMiBPassesSizeCheck | domains/image/image-dto.go:16-18 | A file of exactly 5 MiB passes the size check, and is accepted if it decodes as PNG. |
| ImageHandlers.ToResponse | domains/image/image-handler.go:97-102 | A response mirrors the record's id, URL, alt text and owner. |
| ImageHandlers.Responses | domains/image/image-handler.go:123-131 | There is one response entry per record, in the same order, each mirroring its record. |
| ImageHandlers.Uploader.UploadImage | domains/image/image-handler_test.go:85-89 | The uploader records the file under its name and answers its URL, or fails and records nothing. |
| ImageHandlers.Uploader.constructor | domains/image/image-handler_test.go:79-83 | `newMockUploadService` starts with no uploaded file. |
| ImageHandlers.ImageHandler.constructor | domains/image/image-handler.go:24-26 | `NewImageHandler` keeps the given catalog service and upload service. |
| ImageHandlers.ImageHandler.UploadImage | domains/image/image-handler.go:35-74 | A bind or validation failure answers 400 before any upload. An upload failure answers 500 before any save. A save failure answers 500. Otherwise the record is saved with the caller as owner and the uploaded URL, and the answer is 201 with the id the catalog assigned. |
| ImageHandlers.ImageHandler.GetImage | domains/image/image-handler.go:76-106 | A malformed id gives 400 and a failing lookup gives 404. Another owner's record gives 401. Otherwise the answer is 200 with the stored record, and 200 happens exactly in that case. |
| ImageHandlers.ImageHandler.ListUserImages | domains/image/image-handler.go:108-135 | A malformed user id gives 400 and a failing listing gives 500. Otherwise the answer is 200 with one entry per listed record in the same order, or null when there are none. The caller is never checked. |
| ImageHandlers.ImageHandler.DeleteImage | domains/image/image-handler.go:137-166 | A malformed id gives 400, a lookup miss 404, another owner 401 and a failing delete 500; the catalog is unchanged in each of these. Otherwise the record is removed and the answer is 200 "image deleted". The catalog changes only when the caller owns the record. |

## Left out

- Pixel arithmetic is not modelled: Lanczos resampling, rotation by an arbitrary angle, colour adjustments, text rendering, and encoding and decoding. These are calls into foreign libraries with floating-point maths. Pixels are symbolic terms, and only image sizes are computed.
- The canvas size of a rotation by an angle that is not a right angle is a parameter (`Library.rotatedSize`), because it comes from floating-point geometry in the imaging library.
- The Go type behind a gg canvas is a parameter (`Library.contextModel`). The gg source is not part of this model. The watermark stage panics unless that type is `*image.NRGBA`.
- The `oneof=top-left …` tag on the struct-typed `Position` is not modelled; its meaning for a struct value is unclear. Only the `required` tags of its fields are checked.
- The database and gorm are not modelled. `ImageCatalog` is the in-memory test service, extended with a set of failing operations. Error texts of the real database are placeholder constants.
- `ImageCatalog.ImageService.FindByKey`: Postgres parses the raw `id` key itself. The model accepts exactly the digit strings up to 2^63 − 1. A larger one, or a non-digit key, is a failing query. Whitespace, signs and other literal syntax that Postgres would accept are not modelled, and the query error texts are placeholder constants.
- `Imaging.NormalizedAngle`, `Imaging.Rotate` and `Imaging.Resize` use exact real arithmetic where the library uses float64, and float64 rounding is not modelled. Where rounding changes which branch the library takes, the model can differ. For example, Go normalises the angle 92492303172158528 to 0 and returns an unrotated clone, while the model normalises it to 8 and takes the general rotation. The aspect-preserving side of `Resize` can likewise differ by rounding.
- `ImageCatalog.ImageService.ListImagesByUser` returns records in ascending id order. The in-memory test service ranges over a Go map, whose order is unspecified, so this order is one the test service may produce, not the only one.
- The object store is not modelled as MinIO or S3. It is a map from URL to object; its error texts are placeholder constants. How the store names an uploaded object is not part of the model: `TransformImage` takes the new URL as a parameter. The uploader's URL scheme is a function parameter too.
- The HTTP layer is not modelled: gin binding, JSON rendering, the `status` text and wall-clock `timestamp` of each body, and routing. A handler's binding outcome is a parameter. `responses.NotFound` is not defined in the shown helpers; it is taken to answer 404 like its siblings.
- Authentication is not modelled: the `user_id` the JWT middleware stores is a parameter of each handler.
- Users, JWT signing and password hashing are not modelled: they are library calls outside this core.
- Concurrent requests (for example two transforms of the same image) are not modelled: each call is one synchronous chain.
- Ids are unbounded `nat`s. Go's `uint` counter of the test service would wrap after 2^64 saves; that is not modelled.
