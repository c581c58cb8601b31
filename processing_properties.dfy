/**
 * What `applyTransformations` (domains/processing/processing-service.go:56-159)
 * promises, proved about the reference definition `Transformed`:
 * which stages run and in what order, that only the last enabled stage's
 * output survives, that the first failure aborts, which request fields are
 * irrelevant, and the dimensions each stage produces.
 */
module ProcessingProperties {
  import opened Wrappers
  import opened ProcessingDto
  import Imaging
  import opened ProcessingPipeline

  type Run = Stage -> Result<Bytes, Error>

  function Last<T>(s: seq<T>): T
    requires s != []
  {
    s[|s| - 1]
  }

  /** Every stage of the list succeeds. */
  predicate AllSucceed(run: Run, stages: seq<Stage>) {
    forall i :: 0 <= i < |stages| ==> run(stages[i]).Success?
  }

  // ---------------------------------------------------------------------------
  // Settling a list of stages.

  /** When every stage succeeds, the bytes of the last one are the result; with no stage, the input. */
  lemma {:induction false} SettleAllSucceed(run: Run, stages: seq<Stage>, current: Bytes)
    requires AllSucceed(run, stages)
    ensures Settle(run, stages, current) == if stages == [] then Success(current) else run(Last(stages))
    decreases |stages|
  {
    if stages != [] {
      var rest := stages[1..];
      assert AllSucceed(run, rest) by {
        forall i | 0 <= i < |rest| ensures run(rest[i]).Success? {
          assert rest[i] == stages[i + 1];
        }
      }
      SettleAllSucceed(run, rest, run(stages[0]).value);
      if rest != [] {
        assert Last(rest) == Last(stages);
      }
    }
  }

  /** The first failing stage's error is the result, whatever the later stages would do. */
  lemma {:induction false} SettleFirstFailure(run: Run, stages: seq<Stage>, current: Bytes, i: nat)
    requires i < |stages| && run(stages[i]).Failure?
    requires forall j :: 0 <= j < i ==> run(stages[j]).Success?
    ensures Settle(run, stages, current) == run(stages[i])
    decreases i
  {
    if i > 0 {
      var rest := stages[1..];
      assert run(stages[0]).Success?;
      forall j | 0 <= j < i - 1 ensures run(rest[j]).Success? {
        assert rest[j] == stages[j + 1];
      }
      assert rest[i - 1] == stages[i];
      SettleFirstFailure(run, rest, run(stages[0]).value, i - 1);
    }
  }

  /** The call succeeds exactly when every stage does. */
  lemma {:induction false} SettleSucceedsIff(run: Run, stages: seq<Stage>, current: Bytes)
    ensures Settle(run, stages, current).Success? <==> AllSucceed(run, stages)
    decreases |stages|
  {
    if stages != [] {
      var rest := stages[1..];
      SettleSucceedsIff(run, rest, if run(stages[0]).Success? then run(stages[0]).value else current);
      if AllSucceed(run, stages) {
        assert AllSucceed(run, rest) by {
          forall i | 0 <= i < |rest| ensures run(rest[i]).Success? {
            assert rest[i] == stages[i + 1];
          }
        }
      } else if run(stages[0]).Success? {
        var i :| 0 <= i < |stages| && run(stages[i]).Failure?;
        assert rest[i - 1] == stages[i];
      }
    }
  }

  /** The bytes a stage is handed are never read: only the stage's own result goes on. */
  lemma SettleIgnoresCurrent(run: Run, stages: seq<Stage>, b: Bytes, c: Bytes)
    requires stages != []
    ensures Settle(run, stages, b) == Settle(run, stages, c)
  {
  }

  // ---------------------------------------------------------------------------
  // The stage list.

  lemma {:induction false} StagesFromMembers(dto: TransformationDto, k: nat, s: Stage)
    ensures s in StagesFrom(dto, k) <==> k <= Rank(s) && Enabled(dto, s)
    decreases StageCount - k
  {
    if k < StageCount {
      StagesFromMembers(dto, k + 1, s);
      var head := match StageAt(dto, k) case Some(t) => [t] case None => [];
      assert StagesFrom(dto, k) == head + StagesFrom(dto, k + 1);
      match StageAt(dto, k)
      case None =>
      case Some(t) =>
        assert Rank(t) == k;
    }
  }

  /** Exactly the operations the request carries run. */
  lemma StagesExactlyEnabled(dto: TransformationDto, s: Stage)
    ensures s in Stages(dto) <==> Enabled(dto, s)
  {
    StagesFromMembers(dto, 0, s);
  }

  lemma {:induction false} StagesFromOrdered(dto: TransformationDto, k: nat)
    ensures forall i :: 0 <= i < |StagesFrom(dto, k)| ==> k <= Rank(StagesFrom(dto, k)[i])
    ensures forall i, j :: 0 <= i < j < |StagesFrom(dto, k)| ==>
              Rank(StagesFrom(dto, k)[i]) < Rank(StagesFrom(dto, k)[j])
    decreases StageCount - k
  {
    if k < StageCount {
      StagesFromOrdered(dto, k + 1);
      var rest := StagesFrom(dto, k + 1);
      match StageAt(dto, k)
      case None =>
        assert StagesFrom(dto, k) == rest;
      case Some(t) =>
        assert Rank(t) == k;
        assert StagesFrom(dto, k) == [t] + rest;
    }
  }

  /** The stages run in the fixed order resize, crop, rotate, flip, conversion, filter, watermark. */
  lemma StagesCanonicalOrder(dto: TransformationDto)
    ensures forall i, j :: 0 <= i < j < |Stages(dto)| ==> Rank(Stages(dto)[i]) < Rank(Stages(dto)[j])
  {
    StagesFromOrdered(dto, 0);
  }

  /** The field order of the request (watermark declared before conversion) does not decide the run order. */
  lemma ConversionRunsBeforeWatermark(dto: TransformationDto)
    requires dto.formatConversion.Some? && dto.watermark.Some?
    ensures exists i, j :: 0 <= i < j < |Stages(dto)| &&
              Stages(dto)[i] == ConversionStage(dto.formatConversion.value) &&
              Stages(dto)[j] == WatermarkStage(dto.watermark.value)
  {
    var conv := ConversionStage(dto.formatConversion.value);
    var mark := WatermarkStage(dto.watermark.value);
    StagesExactlyEnabled(dto, conv);
    StagesExactlyEnabled(dto, mark);
    StagesCanonicalOrder(dto);
    var i :| 0 <= i < |Stages(dto)| && Stages(dto)[i] == conv;
    var j :| 0 <= j < |Stages(dto)| && Stages(dto)[j] == mark;
    assert i != j;
    assert !(j < i);
  }

  /** No stage runs exactly when the request carries no operation. */
  lemma NoStagesIffNoOperations(dto: TransformationDto)
    ensures Stages(dto) == [] <==> dto == NoOperations
  {
    if dto != NoOperations {
      var k: nat :=
        if dto.resize.Some? then 0 else if dto.crop.Some? then 1 else if dto.rotate.Some? then 2
        else if dto.flip.Some? then 3 else if dto.formatConversion.Some? then 4
        else if dto.filter.Some? then 5 else 6;
      StagesExactlyEnabled(dto, StageAt(dto, k).value);
    }
  }

  // ---------------------------------------------------------------------------
  // Whole calls.

  /** Rank-by-rank form of the reference behaviour. */
  lemma TransformedIsRemaining(lib: Imaging.Library, img: Bytes, dto: TransformationDto)
    requires lib.decode(img).Success?
    ensures Transformed(lib, img, dto) == Remaining(Runner(lib, lib.decode(img).value), dto, 0, img)
  {
    SettleIsRemaining(Runner(lib, lib.decode(img).value), dto, 0, img);
  }

  /** Undecodable input fails before any stage runs, with the decoder's error. */
  lemma DecodeFailureAborts(lib: Imaging.Library, img: Bytes, dto: TransformationDto)
    requires lib.decode(img).Failure?
    ensures Transformed(lib, img, dto) == Failure(Err(lib.decode(img).error))
  {
  }

  /** A request with no operation gives back the input bytes unchanged. */
  lemma NoOperationsReturnsInput(lib: Imaging.Library, img: Bytes)
    requires lib.decode(img).Success?
    ensures Transformed(lib, img, NoOperations) == Success(img)
  {
    NoStagesIffNoOperations(NoOperations);
  }

  /** When every enabled stage succeeds, the result is the last enabled stage's encoding of the source. */
  lemma LastEnabledStageWins(lib: Imaging.Library, img: Bytes, dto: TransformationDto)
    requires lib.decode(img).Success? && Stages(dto) != []
    requires AllSucceed(Runner(lib, lib.decode(img).value), Stages(dto))
    ensures Transformed(lib, img, dto) == RunStage(lib, lib.decode(img).value, Last(Stages(dto)))
  {
    SettleAllSucceed(Runner(lib, lib.decode(img).value), Stages(dto), img);
  }

  /** The first enabled stage that fails decides the result; no later stage is consulted. */
  lemma FirstFailingStageAborts(lib: Imaging.Library, img: Bytes, dto: TransformationDto, i: nat)
    requires lib.decode(img).Success? && i < |Stages(dto)|
    requires RunStage(lib, lib.decode(img).value, Stages(dto)[i]).Failure?
    requires forall j :: 0 <= j < i ==> RunStage(lib, lib.decode(img).value, Stages(dto)[j]).Success?
    ensures Transformed(lib, img, dto) == RunStage(lib, lib.decode(img).value, Stages(dto)[i])
  {
    SettleFirstFailure(Runner(lib, lib.decode(img).value), Stages(dto), img, i);
  }

  /** A decodable input is transformed exactly when every enabled stage succeeds. */
  lemma TransformedSucceedsIff(lib: Imaging.Library, img: Bytes, dto: TransformationDto)
    requires lib.decode(img).Success?
    ensures Transformed(lib, img, dto).Success? <==>
              forall s :: s in Stages(dto) ==> RunStage(lib, lib.decode(img).value, s).Success?
  {
    var run := Runner(lib, lib.decode(img).value);
    SettleSucceedsIff(run, Stages(dto), img);
  }

  // ---------------------------------------------------------------------------
  // Rank-level reasoning: dropping a stage, irrelevant fields.

  /** The request with the operation of rank `k` removed. */
  function Without(dto: TransformationDto, k: nat): (d: TransformationDto)
    ensures forall j :: StageAt(d, j) == if j == k then None else StageAt(dto, j)
  {
    if k == 0 then dto.(resize := None)
    else if k == 1 then dto.(crop := None)
    else if k == 2 then dto.(rotate := None)
    else if k == 3 then dto.(flip := None)
    else if k == 4 then dto.(formatConversion := None)
    else if k == 5 then dto.(filter := None)
    else if k == 6 then dto.(watermark := None)
    else dto
  }

  /** Some operation of rank at least `k` is enabled. */
  predicate EnabledFrom(dto: TransformationDto, k: nat) {
    exists j :: k <= j < StageCount && StageAt(dto, j).Some?
  }

  lemma {:induction false} RemainingIgnoresCurrent(run: Run, dto: TransformationDto, k: nat, b: Bytes, c: Bytes)
    requires EnabledFrom(dto, k)
    ensures Remaining(run, dto, k, b) == Remaining(run, dto, k, c)
    decreases StageCount - k
  {
    if StageAt(dto, k).None? {
      var j :| k <= j < StageCount && StageAt(dto, j).Some?;
      assert j != k;
      assert EnabledFrom(dto, k + 1);
      RemainingIgnoresCurrent(run, dto, k + 1, b, c);
    }
  }

  lemma {:induction false} RemainingWithout(run: Run, dto: TransformationDto, k: nat, j: nat, c: Bytes)
    requires j <= k < StageCount
    requires StageAt(dto, k).Some? ==> run(StageAt(dto, k).value).Success?
    requires EnabledFrom(dto, k + 1)
    ensures Remaining(run, dto, j, c) == Remaining(run, Without(dto, k), j, c)
    decreases k - j
  {
    var d := Without(dto, k);
    if j == k {
      RemainingCongruent(run, dto, d, k + 1, c);
      if StageAt(dto, k).Some? {
        RemainingIgnoresCurrent(run, dto, k + 1, run(StageAt(dto, k).value).value, c);
      }
    } else {
      assert StageAt(d, j) == StageAt(dto, j);
      match StageAt(dto, j)
      case None => RemainingWithout(run, dto, k, j + 1, c);
      case Some(s) =>
        match run(s)
        case Failure(_) =>
        case Success(b) => RemainingWithout(run, dto, k, j + 1, b);
    }
  }

  /** The two operations have the same effect: both absent, or both present with equal outcomes. */
  predicate SameOutcome(run: Run, a: Option<Stage>, b: Option<Stage>) {
    (a.None? && b.None?) || (a.Some? && b.Some? && run(a.value) == run(b.value))
  }

  lemma {:induction false} RemainingCongruent(run: Run, d1: TransformationDto, d2: TransformationDto, k: nat, c: Bytes)
    requires forall j :: k <= j < StageCount ==> SameOutcome(run, StageAt(d1, j), StageAt(d2, j))
    ensures Remaining(run, d1, k, c) == Remaining(run, d2, k, c)
    decreases StageCount - k
  {
    if k < StageCount {
      assert SameOutcome(run, StageAt(d1, k), StageAt(d2, k));
      match StageAt(d1, k)
      case None => RemainingCongruent(run, d1, d2, k + 1, c);
      case Some(s) =>
        match run(s)
        case Failure(_) =>
        case Success(b) => RemainingCongruent(run, d1, d2, k + 1, b);
    }
  }

  /**
   * An enabled stage that succeeds, followed by some later enabled stage,
   * can be removed from the request without changing the result: its output
   * is overwritten.
   */
  lemma EarlierStageDiscarded(lib: Imaging.Library, img: Bytes, dto: TransformationDto, k: nat)
    requires lib.decode(img).Success? && k < StageCount
    requires StageAt(dto, k).Some? ==> RunStage(lib, lib.decode(img).value, StageAt(dto, k).value).Success?
    requires EnabledFrom(dto, k + 1)
    ensures Transformed(lib, img, dto) == Transformed(lib, img, Without(dto, k))
  {
    var run := Runner(lib, lib.decode(img).value);
    TransformedIsRemaining(lib, img, dto);
    TransformedIsRemaining(lib, img, Without(dto, k));
    RemainingWithout(run, dto, k, 0, img);
  }

  /** A resize followed by a crop: the crop reads the original, so the resize changes nothing. */
  lemma ResizeThenCropIgnoresResize(lib: Imaging.Library, img: Bytes, dto: TransformationDto)
    requires lib.decode(img).Success? && dto.resize.Some? && dto.crop.Some?
    requires RunStage(lib, lib.decode(img).value, ResizeStage(dto.resize.value)).Success?
    ensures Transformed(lib, img, dto) == Transformed(lib, img, dto.(resize := None))
  {
    assert EnabledFrom(dto, 1) by { assert StageAt(dto, 1).Some?; }
    EarlierStageDiscarded(lib, img, dto, 0);
  }

  /** The watermark's opacity is never read: the overlay alpha is fixed at 0.5. */
  lemma OpacityIrrelevant(lib: Imaging.Library, img: Bytes, dto: TransformationDto, opacity: int)
    requires dto.watermark.Some?
    ensures Transformed(lib, img, dto) ==
              Transformed(lib, img, dto.(watermark := Some(dto.watermark.value.(opacity := opacity))))
  {
    var d := dto.(watermark := Some(dto.watermark.value.(opacity := opacity)));
    if lib.decode(img).Success? {
      var run := Runner(lib, lib.decode(img).value);
      forall j | 0 <= j < StageCount ensures SameOutcome(run, StageAt(dto, j), StageAt(d, j)) {
        if j == 6 {
          assert WatermarkCanvas(lib, dto.watermark.value.text) == WatermarkCanvas(lib, d.watermark.value.text);
        }
      }
      TransformedIsRemaining(lib, img, dto);
      TransformedIsRemaining(lib, img, d);
      RemainingCongruent(run, dto, d, 0, img);
    }
  }

  /** Every direction other than "horizontal" flips vertically, the validated "vertical" included. */
  lemma OnlyHorizontalFlipsHorizontally(lib: Imaging.Library, img: Bytes, dto: TransformationDto, direction: string)
    requires dto.flip.Some? && dto.flip.value.direction != "horizontal" && direction != "horizontal"
    ensures Transformed(lib, img, dto) == Transformed(lib, img, dto.(flip := Some(FlipDto(direction))))
  {
    var d := dto.(flip := Some(FlipDto(direction)));
    if lib.decode(img).Success? {
      var run := Runner(lib, lib.decode(img).value);
      forall j | 0 <= j < StageCount ensures SameOutcome(run, StageAt(dto, j), StageAt(d, j)) {
      }
      TransformedIsRemaining(lib, img, dto);
      TransformedIsRemaining(lib, img, d);
      RemainingCongruent(run, dto, d, 0, img);
    }
  }

  // ---------------------------------------------------------------------------
  // The format table.

  /** Every encoder is reachable from its own name. */
  lemma FormatNameRoundTrip(f: Imaging.Format)
    ensures EncoderFor(FormatName(f)) == Some(f)
  {
  }

  /** A name the table does not know fails the stage with "unsupported format" and encodes nothing. */
  lemma UnsupportedFormatFails(lib: Imaging.Library, src: Imaging.Raster, conversion: FormatConversionDto)
    requires conversion.format !in EncodableFormats
    ensures RunStage(lib, src, ConversionStage(conversion)) == Failure(Err(UnsupportedFormat))
  {
  }

  /** "webp" is the one format the request validation accepts that the table cannot encode. */
  lemma WebpValidatedButUnencodable(f: FormatConversionDto)
    ensures ValidFormatConversion(f) && EncoderFor(f.format).None? <==> f.format == "webp"
  {
  }

  /** A request whose only operation is a conversion to an unknown format fails with "unsupported format". */
  lemma UnknownConversionFailsCall(lib: Imaging.Library, img: Bytes, format: string)
    requires lib.decode(img).Success? && format !in EncodableFormats
    ensures Transformed(lib, img, NoOperations.(formatConversion := Some(FormatConversionDto(format))))
              == Failure(Err(UnsupportedFormat))
  {
    var dto := NoOperations.(formatConversion := Some(FormatConversionDto(format)));
    TransformedIsRemaining(lib, img, dto);
  }

  // ---------------------------------------------------------------------------
  // What each stage makes of the source.

  /** Resize of a non-empty source to a validated size gives exactly that size, whatever the aspect ratio. */
  lemma ResizeExactSize(lib: Imaging.Library, src: Imaging.Raster, r: ResizeDto)
    requires ValidResize(r) && src.width > 0 && src.height > 0
    ensures var job := StageImage(lib, src, ResizeStage(r));
            job.Success? && job.value.0.width == r.width && job.value.0.height == r.height &&
            job.value.1 == Imaging.JPEG
  {
  }

  /**
   * Crop treats Width and Height as the far corner: inside the source the
   * result is (Width - X) x (Height - Y).
   */
  lemma CropInsideSource(lib: Imaging.Library, src: Imaging.Raster, c: CropDto)
    requires 0 <= c.x < c.width <= src.width && 0 <= c.y < c.height <= src.height
    ensures var job := StageImage(lib, src, CropStage(c));
            job.Success? && job.value.0.width == c.width - c.x && job.value.0.height == c.height - c.y
  {
  }

  /** The crop of the stage tests: 100x100 at (10, 10) with Width = Height = 50 is 40x40, not 50x50. */
  lemma CropOfTestCase(lib: Imaging.Library, src: Imaging.Raster)
    requires src.width == 100 && src.height == 100
    ensures var job := StageImage(lib, src, CropStage(CropDto(10, 10, 50, 50)));
            job.Success? && job.value.0.width == 40 && job.value.0.height == 40
  {
    CropInsideSource(lib, src, CropDto(10, 10, 50, 50));
  }

  /** A corner equal to the far corner selects nothing: the result is the empty image. */
  lemma CropDegenerate(lib: Imaging.Library, src: Imaging.Raster, c: CropDto)
    requires c.x == c.width || c.y == c.height
    ensures StageImage(lib, src, CropStage(c)) == Success((Imaging.EmptyImage, Imaging.JPEG))
  {
  }

  /** A crop never exceeds its source. */
  lemma CropWithinSource(lib: Imaging.Library, src: Imaging.Raster, c: CropDto)
    ensures var job := StageImage(lib, src, CropStage(c));
            job.Success? && job.value.0.width <= src.width && job.value.0.height <= src.height
  {
    var rect := Imaging.Rect(c.x, c.y, c.width, c.height);
    var r := Imaging.Intersect(rect, src.Bounds());
    if !r.Empty() {
      assert Imaging.Contains(r, r.min);
      assert Imaging.Contains(r, Imaging.Point(r.max.x - 1, r.max.y - 1));
    }
  }

  /** A quarter or three-quarter turn swaps the sides; a half turn or none keeps them. */
  lemma RotateRightAngles(lib: Imaging.Library, src: Imaging.Raster, r: RotateDto)
    requires Imaging.NormalizedAngle(r.angle) in {0.0, 90.0, 180.0, 270.0}
    ensures var job := StageImage(lib, src, RotateStage(r));
            var a := Imaging.NormalizedAngle(r.angle);
            job.Success? &&
            (a == 90.0 || a == 270.0 ==> job.value.0.width == src.height && job.value.0.height == src.width) &&
            (a == 0.0 || a == 180.0 ==> job.value.0.width == src.width && job.value.0.height == src.height)
  {
  }

  /** The rotation of the stage tests: 100x50 turned by 90 degrees is 50x100; so is a turn by -90. */
  lemma RotateOfTestCase(lib: Imaging.Library, src: Imaging.Raster, angle: real)
    requires src.width == 100 && src.height == 50 && (angle == 90.0 || angle == -90.0)
    ensures var job := StageImage(lib, src, RotateStage(RotateDto(angle)));
            job.Success? && job.value.0.width == 50 && job.value.0.height == 100
  {
    assert (angle / 360.0).Floor == if angle == 90.0 then 0 else -1;
  }

  /** Flip keeps the size; it mirrors left-right exactly for "horizontal", top-bottom otherwise. */
  lemma FlipKeepsSize(lib: Imaging.Library, src: Imaging.Raster, f: FlipDto)
    ensures var job := StageImage(lib, src, FlipStage(f));
            && job.Success? && job.value.0.width == src.width && job.value.0.height == src.height
            && (job.value.0.pixels == Imaging.MirroredH(src.pixels) <==> f.direction == "horizontal")
            && (job.value.0.pixels == Imaging.MirroredV(src.pixels) <==> f.direction != "horizontal")
  {
  }

  /** Conversion re-encodes the unchanged source in the named format. */
  lemma ConversionEncodesSource(lib: Imaging.Library, src: Imaging.Raster, conversion: FormatConversionDto)
    requires conversion.format in EncodableFormats
    ensures var job := StageImage(lib, src, ConversionStage(conversion));
            job.Success? && job.value.0 == src && FormatName(job.value.1) == conversion.format
  {
  }

  /** The filter keeps the size and applies saturation, then brightness, then contrast. */
  lemma FilterKeepsSize(lib: Imaging.Library, src: Imaging.Raster, f: FilterDto)
    ensures var job := StageImage(lib, src, FilterStage(f));
            && job.Success? && job.value.0.width == src.width && job.value.0.height == src.height
            && job.value.0.pixels == Imaging.Contrasted(Imaging.Brightened(Imaging.Saturated(
                 src.pixels, f.saturation as real), f.brightness as real), f.contrast as real)
  {
  }

  /**
   * The watermark keeps the size of the source and overlays, at the given
   * position and with alpha 0.5, the text drawn on a fixed 200x50 canvas; it
   * panics when the canvas is not an NRGBA image.
   */
  lemma WatermarkOutcome(lib: Imaging.Library, src: Imaging.Raster, w: WatermarkDto)
    ensures var job := StageImage(lib, src, WatermarkStage(w));
            && (job.Failure? <==> lib.contextModel != Imaging.NRGBA)
            && (job.Failure? ==> job.error == Panic(CanvasAssertionPanic(lib.contextModel)))
            && (job.Success? ==>
                  && job.value.0.width == src.width && job.value.0.height == src.height
                  && job.value.0.pixels == Imaging.Overlaid(src.pixels,
                       Imaging.Lettered(Imaging.Blank, w.text, WatermarkColour, 100.0, 25.0, 0.5, 0.5),
                       Imaging.Point(w.position.x, w.position.y), 0.5))
    ensures WatermarkCanvas(lib, w.text).width == 200 && WatermarkCanvas(lib, w.text).height == 50
  {
  }
}
