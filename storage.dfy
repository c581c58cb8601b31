/**
 * The object store behind `UploadService` as `TransformImage`
 * (domains/processing/processing-service.go:34, 44, 49) uses it: fetch the
 * bytes at a URL, upload bytes with a content type, delete a URL. The store
 * is a map from URL to stored object; which operations currently fail is
 * part of its state, and every call is recorded in a ghost log so that the
 * order of side effects can be stated.
 */
module Storage {
  import opened Wrappers
  import Imaging

  type Bytes = Imaging.Bytes

  datatype StoredObject = StoredObject(data: Bytes, contentType: string)

  datatype Operation = FetchOp | UploadOp | DeleteOp

  /** One call made on the store, in the order made. */
  datatype Call = Fetched(url: string) | Uploaded(url: string, contentType: string) | Deleted(url: string)

  const NoSuchObject := "object not found"
  const StoreUnavailable := "object store unavailable"

  class ObjectStore {
    var objects: map<string, StoredObject>
    var failing: set<Operation>
    ghost var calls: seq<Call>

    constructor(objects: map<string, StoredObject>, failing: set<Operation>)
      ensures this.objects == objects && this.failing == failing && calls == []
    {
      this.objects := objects;
      this.failing := failing;
      calls := [];
    }

    /** `GetImageByUrl`: the stored bytes, or an error when the URL holds nothing or the store fails. */
    method GetImageByUrl(url: string) returns (r: Result<Bytes, string>)
      modifies this`calls
      ensures calls == old(calls) + [Fetched(url)]
      ensures r.Success? <==> FetchOp !in failing && url in objects
      ensures r.Success? ==> r.value == objects[url].data
      ensures r.Failure? ==> r.error == if FetchOp in failing then StoreUnavailable else NoSuchObject
    {
      calls := calls + [Fetched(url)];
      if FetchOp in failing {
        return Failure(StoreUnavailable);
      }
      if url !in objects {
        return Failure(NoSuchObject);
      }
      return Success(objects[url].data);
    }

    /**
     * `UploadImageFromBytes`: stores the bytes under `url` and returns it.
     * How the store names a new object is not visible, so the caller passes
     * the name the store would choose.
     */
    method UploadImageFromBytes(data: Bytes, contentType: string, url: string) returns (r: Result<string, string>)
      modifies this`objects, this`calls
      ensures calls == old(calls) + [Uploaded(url, contentType)]
      ensures r.Success? <==> UploadOp !in old(failing)
      ensures r.Success? ==> r.value == url && objects == old(objects)[url := StoredObject(data, contentType)]
      ensures r.Failure? ==> r.error == StoreUnavailable && objects == old(objects)
    {
      calls := calls + [Uploaded(url, contentType)];
      if UploadOp in failing {
        return Failure(StoreUnavailable);
      }
      objects := objects[url := StoredObject(data, contentType)];
      return Success(url);
    }

    /** `DeleteImage`: removes the object at `url`; deleting a URL that holds nothing succeeds. */
    method DeleteImage(url: string) returns (err: Option<string>)
      modifies this`objects, this`calls
      ensures calls == old(calls) + [Deleted(url)]
      ensures err.None? <==> DeleteOp !in old(failing)
      ensures err.None? ==> objects == old(objects) - {url}
      ensures err.Some? ==> err.value == StoreUnavailable && objects == old(objects)
    {
      calls := calls + [Deleted(url)];
      if DeleteOp in failing {
        return Some(StoreUnavailable);
      }
      objects := objects - {url};
      return None;
    }
  }
}
