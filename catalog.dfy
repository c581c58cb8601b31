/**
 * The image catalog behind `ImageServiceInterface`
 * (domains/image/image-handler.go:12-17), modelled on the in-memory service
 * of the handler tests (domains/image/image-handler_test.go:31-73): a map
 * from id to record and a counter that hands out ids from 1. The database
 * the production service talks to can also fail; which operations currently
 * fail is part of the state.
 */
module ImageCatalog {
  import opened Wrappers
  import Strconv

  /** The fields of the `Image` record the handlers read and write. */
  datatype Image = Image(id: nat, url: string, altText: string, userId: nat)

  datatype DbError = RecordNotFound | QueryFailed(message: string)

  datatype Operation = SaveOp | GetOp | ListOp | DeleteOp

  const DatabaseUnavailable := "database unavailable"
  const InvalidIdSyntax := "invalid input syntax for the id column"
  const IdOutOfRange := "value out of range for the id column"

  /** The largest value of the `bigint` id column. */
  const MaxBigint: nat := 0x7FFF_FFFF_FFFF_FFFF

  /** The records of `user` whose id is below `n`, in ascending id order. */
  ghost function ImagesBelow(images: map<nat, Image>, user: nat, n: nat): seq<Image>
  {
    if n == 0 then []
    else ImagesBelow(images, user, n - 1) +
         (if n - 1 in images && images[n - 1].userId == user then [images[n - 1]] else [])
  }

  lemma {:induction false} ImagesBelowMembers(images: map<nat, Image>, user: nat, n: nat, img: Image)
    ensures img in ImagesBelow(images, user, n) <==>
              exists k :: k < n && k in images && images[k] == img && img.userId == user
  {
    if n > 0 {
      ImagesBelowMembers(images, user, n - 1, img);
      if n - 1 in images && images[n - 1] == img && img.userId == user {
        assert img in ImagesBelow(images, user, n);
      }
    }
  }

  lemma {:induction false} ImagesBelowAscending(images: map<nat, Image>, user: nat, n: nat)
    requires forall k :: k in images ==> images[k].id == k
    ensures forall i :: 0 <= i < |ImagesBelow(images, user, n)| ==> ImagesBelow(images, user, n)[i].id < n
    ensures forall i, j :: 0 <= i < j < |ImagesBelow(images, user, n)| ==>
              ImagesBelow(images, user, n)[i].id < ImagesBelow(images, user, n)[j].id
  {
    if n > 0 {
      ImagesBelowAscending(images, user, n - 1);
    }
  }

  class ImageService {
    var images: map<nat, Image>
    var nextId: nat
    var failing: set<Operation>

    /** Every record sits under its own id, and every id handed out is below the counter. */
    ghost predicate Valid()
      reads this
    {
      nextId >= 1 && forall k :: k in images ==> 1 <= k < nextId && images[k].id == k
    }

    /** `newMockImageService`: no record, the first id is 1. */
    constructor(failing: set<Operation>)
      ensures Valid() && images == map[] && nextId == 1 && this.failing == failing
    {
      images := map[];
      nextId := 1;
      this.failing := failing;
    }

    /** `SaveImage`: the record gets the next id, which is then used up. */
    method SaveImage(image: Image) returns (r: Result<Image, DbError>)
      requires Valid()
      modifies this`images, this`nextId
      ensures Valid()
      ensures r.Success? <==> SaveOp !in failing
      ensures r.Success? ==>
                && r.value == image.(id := old(nextId))
                && images == old(images)[old(nextId) := r.value]
                && nextId == old(nextId) + 1
      ensures r.Failure? ==> r == Failure(QueryFailed(DatabaseUnavailable)) && unchanged(this)
    {
      if SaveOp in failing {
        return Failure(QueryFailed(DatabaseUnavailable));
      }
      var saved := image.(id := nextId);
      images := images[nextId := saved];
      nextId := nextId + 1;
      return Success(saved);
    }

    /** `GetImageByID`: the record under `id`, or `RecordNotFound`. */
    function GetImageByID(id: nat): (r: Result<Image, DbError>)
      reads this
      ensures r.Success? <==> GetOp !in failing && id in images
      ensures r.Success? ==> r.value == images[id]
      ensures r.Failure? ==> r.error == if GetOp in failing then QueryFailed(DatabaseUnavailable) else RecordNotFound
    {
      if GetOp in failing then Failure(QueryFailed(DatabaseUnavailable))
      else if id in images then Success(images[id])
      else Failure(RecordNotFound)
    }

    /**
     * The lookup `First(&res, "id = ?", key)` of `TransformImage`, whose key
     * is the raw path string bound as a `bigint` parameter: a decimal key in
     * the column's range is compared with the id column; a key that is not
     * decimal, or too large for the column, makes the query itself fail.
     */
    function FindByKey(key: string): (r: Result<Image, DbError>)
      reads this
      ensures r.Success? <==>
                && GetOp !in failing && Strconv.ParseDecimal(key).Some?
                && Strconv.ParseDecimal(key).value <= MaxBigint && Strconv.ParseDecimal(key).value in images
      ensures r.Success? ==> r.value == images[Strconv.ParseDecimal(key).value]
      ensures r == Failure(RecordNotFound) <==>
                && GetOp !in failing && Strconv.ParseDecimal(key).Some?
                && Strconv.ParseDecimal(key).value <= MaxBigint && Strconv.ParseDecimal(key).value !in images
      ensures GetOp !in failing && Strconv.ParseDecimal(key).None? ==> r == Failure(QueryFailed(InvalidIdSyntax))
      ensures GetOp !in failing && Strconv.ParseDecimal(key).Some? && Strconv.ParseDecimal(key).value > MaxBigint ==>
                r == Failure(QueryFailed(IdOutOfRange))
    {
      if GetOp in failing then Failure(QueryFailed(DatabaseUnavailable))
      else match Strconv.ParseDecimal(key)
        case None => Failure(QueryFailed(InvalidIdSyntax))
        case Some(id) => if id > MaxBigint then Failure(QueryFailed(IdOutOfRange)) else GetImageByID(id)
    }

    /** The records of `user`, in ascending id order. */
    ghost function ImagesOf(user: nat): seq<Image>
      reads this
    {
      ImagesBelow(images, user, nextId)
    }

    /** `ListImagesByUser`: the records of `user`, visited in ascending id order. */
    method ListImagesByUser(user: nat) returns (r: Result<seq<Image>, DbError>)
      requires Valid()
      ensures r.Success? <==> ListOp !in failing
      ensures r.Success? ==> r.value == ImagesOf(user)
      ensures r.Failure? ==> r.error == QueryFailed(DatabaseUnavailable)
    {
      if ListOp in failing {
        return Failure(QueryFailed(DatabaseUnavailable));
      }
      var found: seq<Image> := [];
      var id := 0;
      while id < nextId
        invariant id <= nextId
        invariant found == ImagesBelow(images, user, id)
      {
        if id in images && images[id].userId == user {
          found := found + [images[id]];
        }
        id := id + 1;
      }
      return Success(found);
    }

    /** Exactly the records of `user` are listed, each once, in ascending id order. */
    lemma ImagesOfCharacterised(user: nat)
      requires Valid()
      ensures forall img :: img in ImagesOf(user) <==> img in images.Values && img.userId == user
      ensures forall i, j :: 0 <= i < j < |ImagesOf(user)| ==> ImagesOf(user)[i].id < ImagesOf(user)[j].id
    {
      ImagesBelowAscending(images, user, nextId);
      forall img ensures img in ImagesOf(user) <==> img in images.Values && img.userId == user {
        ImagesBelowMembers(images, user, nextId, img);
        if img in images.Values {
          var k :| k in images && images[k] == img;
          assert k < nextId;
        }
      }
    }

    /** `DeleteImage`: removes the record under `id`; an absent id is `RecordNotFound`. */
    method DeleteImage(id: nat) returns (err: Option<DbError>)
      requires Valid()
      modifies this`images
      ensures Valid()
      ensures err.None? <==> DeleteOp !in failing && id in old(images)
      ensures err.None? ==> images == old(images) - {id}
      ensures err.Some? ==> images == old(images)
      ensures err.Some? ==> err.value == if DeleteOp in failing then QueryFailed(DatabaseUnavailable) else RecordNotFound
    {
      if DeleteOp in failing {
        return Some(QueryFailed(DatabaseUnavailable));
      }
      if id !in images {
        return Some(RecordNotFound);
      }
      images := images - {id};
      return None;
    }
  }
}
