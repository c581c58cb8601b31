/**
 * `ProcessingService.TransformImage` (domains/processing/processing-service.go:25-54):
 * look the record up, fetch its bytes, transform them, upload the result as
 * a JPEG object, delete the old object, and answer the new URL. Each failure
 * returns at once, so every later step is skipped.
 */
module Processing {
  import opened Wrappers
  import opened ProcessingDto
  import opened ProcessingPipeline
  import Imaging
  import ImageCatalog
  import Storage

  const ImageNotFound := "image not found"
  const JpegContentType := "image/jpeg"

  class ProcessingService {
    const catalog: ImageCatalog.ImageService
    const store: Storage.ObjectStore
    const lib: Imaging.Library

    constructor(catalog: ImageCatalog.ImageService, store: Storage.ObjectStore, lib: Imaging.Library)
      ensures this.catalog == catalog && this.store == store && this.lib == lib
    {
      this.catalog := catalog;
      this.store := store;
      this.lib := lib;
    }

    /**
     * `newUrl` is the name the store gives the uploaded object. Only the
     * store changes; the catalog record keeps pointing at the old URL.
     */
    method TransformImage(imageId: string, dto: TransformationDto, newUrl: string) returns (r: Result<string, Error>)
      modifies store
      ensures unchanged(catalog) && store.failing == old(store.failing)
      // The lookup fails: "image not found" for a missing record, any other error as it is,
      // and the store is never called.
      ensures catalog.FindByKey(imageId).Failure? ==>
                && store.calls == old(store.calls) && store.objects == old(store.objects)
                && r == Failure(Err(match catalog.FindByKey(imageId).error
                                    case RecordNotFound => ImageNotFound
                                    case QueryFailed(m) => m))
      ensures catalog.FindByKey(imageId).Success? ==>
                var oldUrl := catalog.FindByKey(imageId).value.url;
                var fetchable := Storage.FetchOp !in store.failing && oldUrl in old(store.objects);
                // The fetch fails: nothing else is called.
                && (!fetchable ==>
                      && store.calls == old(store.calls) + [Storage.Fetched(oldUrl)]
                      && store.objects == old(store.objects)
                      && r == Failure(Err(if Storage.FetchOp in store.failing then Storage.StoreUnavailable
                                          else Storage.NoSuchObject)))
                && (fetchable ==>
                      var result := Transformed(lib, old(store.objects)[oldUrl].data, dto);
                      // The transformation fails: no upload, no delete.
                      && (result.Failure? ==>
                            && store.calls == old(store.calls) + [Storage.Fetched(oldUrl)]
                            && store.objects == old(store.objects)
                            && r == Failure(result.error))
                      && (result.Success? ==>
                            var stored := old(store.objects)[newUrl := Storage.StoredObject(result.value, JpegContentType)];
                            // The upload fails: the old object survives and nothing is deleted.
                            && (Storage.UploadOp in store.failing ==>
                                  && store.calls == old(store.calls) +
                                       [Storage.Fetched(oldUrl), Storage.Uploaded(newUrl, JpegContentType)]
                                  && store.objects == old(store.objects)
                                  && r == Failure(Err(Storage.StoreUnavailable)))
                            && (Storage.UploadOp !in store.failing ==>
                                  // The new object is stored strictly before the old one is deleted.
                                  && store.calls == old(store.calls) +
                                       [Storage.Fetched(oldUrl), Storage.Uploaded(newUrl, JpegContentType),
                                        Storage.Deleted(oldUrl)]
                                  // The delete fails: an error, and the new object stays behind.
                                  && (Storage.DeleteOp in store.failing ==>
                                        store.objects == stored && r == Failure(Err(Storage.StoreUnavailable)))
                                  && (Storage.DeleteOp !in store.failing ==>
                                        store.objects == stored - {oldUrl} && r == Success(newUrl)))))
    {
      var found := catalog.FindByKey(imageId);
      if found.Failure? {
        if found.error == ImageCatalog.RecordNotFound {
          return Failure(Err(ImageNotFound));
        }
        return Failure(Err(found.error.message));
      }
      var res := found.value;

      var img := store.GetImageByUrl(res.url);
      if img.Failure? {
        return Failure(Err(img.error));
      }

      var transformed := ApplyTransformations(lib, img.value, dto);
      if transformed.Failure? {
        return Failure(transformed.error);
      }

      var uploaded := store.UploadImageFromBytes(transformed.value, JpegContentType, newUrl);
      if uploaded.Failure? {
        return Failure(Err(uploaded.error));
      }

      var deleteErr := store.DeleteImage(res.url);
      if deleteErr.Some? {
        return Failure(Err(deleteErr.value));
      }

      return Success(uploaded.value);
    }
  }
}
