/**
 * The decision chains of `ImageHandler` (domains/image/image-handler.go:35-166):
 * parse the path id, look the record up, check that the caller owns it, then
 * act. A response is a status code and the body's payload; the body's
 * status text and timestamp are not modelled. The caller is the `user_id`
 * the JWT middleware stored in the request context.
 */
module ImageHandlers {
  import opened Wrappers
  import Strconv
  import ImageCatalog
  import ImageDto

  const StatusOK := 200
  const StatusCreated := 201
  const StatusBadRequest := 400
  const StatusUnauthorized := 401
  const StatusNotFound := 404
  const StatusInternalServerError := 500

  const InvalidImageId := "invalid image id"
  const InvalidUserId := "invalid user id"
  const ImageNotFound := "image not found"
  const AccessDenied := "access denied"
  const ImageDeleted := "image deleted"
  const UploadFailed := "upload failed"

  /** `ImageResponse` (domains/image/image-dto.go:36-41). */
  datatype ImageResponse = ImageResponse(id: nat, url: string, altText: string, userId: nat)

  /** The payload: `data` holding one record, a list or JSON null; `message`; or `error`. */
  datatype Body =
    | Data(image: ImageResponse)
    | DataList(images: seq<ImageResponse>)
    | DataNull
    | Message(text: string)
    | ErrorMessage(error: string)

  datatype Response = Response(status: int, body: Body)

  function ToResponse(img: ImageCatalog.Image): (r: ImageResponse)
    ensures r.id == img.id && r.url == img.url && r.altText == img.altText && r.userId == img.userId
  {
    ImageResponse(img.id, img.url, img.altText, img.userId)
  }

  /** One response entry per record, in the same order. */
  function Responses(images: seq<ImageCatalog.Image>): (r: seq<ImageResponse>)
    ensures |r| == |images|
    ensures forall i :: 0 <= i < |images| ==> r[i] == ToResponse(images[i])
  {
    if images == [] then [] else Responses(images[..|images| - 1]) + [ToResponse(images[|images| - 1])]
  }

  /** The upload service the handler is given; which URL it answers is not visible, so it is a parameter. */
  class Uploader {
    var uploadedFiles: map<string, string>
    var failing: bool
    const urlFor: string -> string

    constructor(urlFor: string -> string, failing: bool)
      ensures uploadedFiles == map[] && this.failing == failing && this.urlFor == urlFor
    {
      uploadedFiles := map[];
      this.failing := failing;
      this.urlFor := urlFor;
    }

    /** `UploadImage`: records the file under its name and answers its URL. */
    method UploadImage(file: ImageDto.FileHeader) returns (r: Result<string, string>)
      modifies this`uploadedFiles
      ensures r.Success? <==> !failing
      ensures r.Success? ==>
                r.value == urlFor(file.filename) && uploadedFiles == old(uploadedFiles)[file.filename := r.value]
      ensures r.Failure? ==> r.error == UploadFailed && uploadedFiles == old(uploadedFiles)
    {
      if failing {
        return Failure(UploadFailed);
      }
      var url := urlFor(file.filename);
      uploadedFiles := uploadedFiles[file.filename := url];
      return Success(url);
    }
  }

  class ImageHandler {
    const service: ImageCatalog.ImageService
    const uploader: Uploader

    constructor(service: ImageCatalog.ImageService, uploader: Uploader)
      ensures this.service == service && this.uploader == uploader
    {
      this.service := service;
      this.uploader := uploader;
    }

    /**
     * `UploadImage`: `bound` is the outcome of binding the multipart form
     * (a missing file is a bind error). Bad input is refused before anything
     * is uploaded, and nothing is saved unless the upload succeeded.
     */
    method UploadImage(bound: Result<ImageDto.SaveImageDto, string>, caller: nat, decode: ImageDto.FormatDecoder)
      returns (resp: Response)
      requires service.Valid()
      modifies service, uploader
      ensures service.Valid() && service.failing == old(service.failing) && uploader.failing == old(uploader.failing)
      ensures bound.Failure? ==>
                resp == Response(StatusBadRequest, ErrorMessage(bound.error)) && unchanged(service, uploader)
      ensures bound.Success? && ImageDto.IsValid(bound.value, decode) != "" ==>
                && resp == Response(StatusBadRequest, ErrorMessage(ImageDto.IsValid(bound.value, decode)))
                && unchanged(service, uploader)
      ensures bound.Success? && ImageDto.IsValid(bound.value, decode) == "" && uploader.failing ==>
                resp == Response(StatusInternalServerError, ErrorMessage(UploadFailed)) && unchanged(service, uploader)
      ensures bound.Success? && ImageDto.IsValid(bound.value, decode) == "" && !uploader.failing ==>
                var file := bound.value.file;
                var url := uploader.urlFor(file.filename);
                && uploader.uploadedFiles == old(uploader.uploadedFiles)[file.filename := url]
                && (ImageCatalog.SaveOp in service.failing ==>
                      && resp == Response(StatusInternalServerError, ErrorMessage(ImageCatalog.DatabaseUnavailable))
                      && unchanged(service))
                && (ImageCatalog.SaveOp !in service.failing ==>
                      var saved := ImageCatalog.Image(old(service.nextId), url, bound.value.altText, caller);
                      && service.images == old(service.images)[saved.id := saved]
                      && service.nextId == old(service.nextId) + 1
                      && resp == Response(StatusCreated, Data(ToResponse(saved))))
    {
      if bound.Failure? {
        return Response(StatusBadRequest, ErrorMessage(bound.error));
      }
      var dto := bound.value;
      var errMsg := ImageDto.IsValid(dto, decode);
      if errMsg != "" {
        return Response(StatusBadRequest, ErrorMessage(errMsg));
      }
      var imageUrl := uploader.UploadImage(dto.file);
      if imageUrl.Failure? {
        return Response(StatusInternalServerError, ErrorMessage(imageUrl.error));
      }
      var image := ImageCatalog.Image(0, imageUrl.value, dto.altText, caller);
      var savedImage := service.SaveImage(image);
      if savedImage.Failure? {
        return Response(StatusInternalServerError, ErrorMessage(savedImage.error.message));
      }
      var saved := savedImage.value;
      return Response(StatusCreated, Data(ImageResponse(saved.id, saved.url, saved.altText, saved.userId)));
    }

    /** `GetImage`: a record is shown only to its owner, as stored. */
    method GetImage(idParam: string, caller: nat) returns (resp: Response)
      ensures Strconv.ParseUint32(idParam).None? ==> resp == Response(StatusBadRequest, ErrorMessage(InvalidImageId))
      ensures Strconv.ParseUint32(idParam).Some? ==>
                var found := service.GetImageByID(Strconv.ParseUint32(idParam).value);
                && (found.Failure? ==> resp == Response(StatusNotFound, ErrorMessage(ImageNotFound)))
                && (found.Success? && found.value.userId != caller ==>
                      resp == Response(StatusUnauthorized, ErrorMessage(AccessDenied)))
                && (found.Success? && found.value.userId == caller ==>
                      resp == Response(StatusOK, Data(ToResponse(found.value))))
      ensures resp.status == StatusOK <==>
                && Strconv.ParseUint32(idParam).Some?
                && service.GetImageByID(Strconv.ParseUint32(idParam).value).Success?
                && service.GetImageByID(Strconv.ParseUint32(idParam).value).value.userId == caller
    {
      var id := Strconv.ParseUint32(idParam);
      if id.None? {
        return Response(StatusBadRequest, ErrorMessage(InvalidImageId));
      }
      var image := service.GetImageByID(id.value);
      if image.Failure? {
        return Response(StatusNotFound, ErrorMessage(ImageNotFound));
      }
      if image.value.userId != caller {
        return Response(StatusUnauthorized, ErrorMessage(AccessDenied));
      }
      var img := image.value;
      return Response(StatusOK, Data(ImageResponse(img.id, img.url, img.altText, img.userId)));
    }

    /**
     * `ListUserImages`: one entry per record the service lists, in its order;
     * no slice is appended to when it lists nothing, which renders as null.
     * The caller is never consulted.
     */
    method ListUserImages(userIdParam: string, caller: nat) returns (resp: Response)
      requires service.Valid()
      ensures Strconv.ParseUint32(userIdParam).None? ==>
                resp == Response(StatusBadRequest, ErrorMessage(InvalidUserId))
      ensures Strconv.ParseUint32(userIdParam).Some? && ImageCatalog.ListOp in service.failing ==>
                resp == Response(StatusInternalServerError, ErrorMessage(ImageCatalog.DatabaseUnavailable))
      ensures Strconv.ParseUint32(userIdParam).Some? && ImageCatalog.ListOp !in service.failing ==>
                var images := service.ImagesOf(Strconv.ParseUint32(userIdParam).value);
                resp == Response(StatusOK, if images == [] then DataNull else DataList(Responses(images)))
    {
      var userId := Strconv.ParseUint32(userIdParam);
      if userId.None? {
        return Response(StatusBadRequest, ErrorMessage(InvalidUserId));
      }
      var images := service.ListImagesByUser(userId.value);
      if images.Failure? {
        return Response(StatusInternalServerError, ErrorMessage(images.error.message));
      }
      var list := images.value;
      var imageResponses: Option<seq<ImageResponse>> := None;
      for i := 0 to |list|
        invariant imageResponses == if i == 0 then None else Some(Responses(list[..i]))
      {
        var img := list[i];
        var entry := ImageResponse(img.id, img.url, img.altText, img.userId);
        var sofar := if imageResponses.None? then [] else imageResponses.value;
        assert list[..i + 1][..i] == list[..i];
        imageResponses := Some(sofar + [entry]);
      }
      assert list[..|list|] == list;
      return Response(StatusOK, if imageResponses.None? then DataNull else DataList(imageResponses.value));
    }

    /** `DeleteImage`: the record goes only when the id parses, the record exists and the caller owns it. */
    method DeleteImage(idParam: string, caller: nat) returns (resp: Response)
      requires service.Valid()
      modifies service
      ensures service.Valid() && service.failing == old(service.failing) && service.nextId == old(service.nextId)
      ensures Strconv.ParseUint32(idParam).None? ==>
                resp == Response(StatusBadRequest, ErrorMessage(InvalidImageId)) && unchanged(service)
      ensures Strconv.ParseUint32(idParam).Some? ==>
                var id := Strconv.ParseUint32(idParam).value;
                var found := old(service.GetImageByID(id));
                && (found.Failure? ==> resp == Response(StatusNotFound, ErrorMessage(ImageNotFound)) && unchanged(service))
                && (found.Success? && found.value.userId != caller ==>
                      resp == Response(StatusUnauthorized, ErrorMessage(AccessDenied)) && unchanged(service))
                && (found.Success? && found.value.userId == caller && ImageCatalog.DeleteOp in service.failing ==>
                      && resp == Response(StatusInternalServerError, ErrorMessage(ImageCatalog.DatabaseUnavailable))
                      && unchanged(service))
                && (found.Success? && found.value.userId == caller && ImageCatalog.DeleteOp !in service.failing ==>
                      resp == Response(StatusOK, Message(ImageDeleted)) && service.images == old(service.images) - {id})
      ensures service.images != old(service.images) ==>
                && Strconv.ParseUint32(idParam).Some?
                && Strconv.ParseUint32(idParam).value in old(service.images)
                && old(service.images)[Strconv.ParseUint32(idParam).value].userId == caller
    {
      var id := Strconv.ParseUint32(idParam);
      if id.None? {
        return Response(StatusBadRequest, ErrorMessage(InvalidImageId));
      }
      var image := service.GetImageByID(id.value);
      if image.Failure? {
        return Response(StatusNotFound, ErrorMessage(ImageNotFound));
      }
      if image.value.userId != caller {
        return Response(StatusUnauthorized, ErrorMessage(AccessDenied));
      }
      var err := service.DeleteImage(id.value);
      if err.Some? {
        return Response(StatusInternalServerError, ErrorMessage(err.value.message));
      }
      return Response(StatusOK, Message(ImageDeleted));
    }
  }
}
