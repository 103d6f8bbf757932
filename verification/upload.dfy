/**
 * The prepare / confirm / list protocol of the upload server (main.go).
 *
 * `prepareUpload` mints an object key and asks S3 for a presigned PUT on it;
 * the client then writes the object directly to S3; `uploadConfirm` asks S3
 * whether the key is present and only then records it in the ledger;
 * `getUploadedImages` lists the ledger as CDN addresses.
 *
 * Each handler's response is the sequence of `c.JSON` calls it makes: two of
 * the handlers can make two calls, because an error branch writes a body
 * without returning.
 */
module Upload {
  import opened Wrappers
  import Ledger

  /** The CDN whose origin is the upload bucket. */
  const CDN := "https://harshit-s3.b-cdn.net"

  /** The storage area every minted key lives under. */
  const UploadPrefix := "uploads/"

  /** The one extension the handler accepts without complaint. */
  const SupportedExtension := ".jpeg"

  /** The content type every presigned PUT is bound to. */
  const PresignContentType := "image/jpeg"

  /** Go's `time.Minute`, in nanoseconds (a `time.Duration`). */
  const Minute: nat := 60_000_000_000

  /** How long a presigned PUT stays valid: `5 * time.Minute`. */
  const PresignExpiry: nat := 5 * Minute

  const StatusOK := 200
  const StatusBadRequest := 400
  const StatusNotFound := 404
  const StatusInternalServerError := 500

  const BadFormatMessage := "Invalid request format.  Please provide {\"file_extension\": \"<extension>\"}"
  const UnsupportedMessage := "file extension is not supported for upload"
  const PresignFailedMessage := "Failed to generate pre-signed URL"
  const InvalidRequestMessage := "Invalid request"
  const NotInS3Message := "File not found in S3"
  const NotSavedMessage := "image not saved in DB"
  const UploadedStatus := "file uploaded successfully"
  const ListFailedMessage := "failed to get images"

  /** An error from the S3 SDK: the object is absent, or any other failure. */
  datatype S3Error = NotFound | S3Failure(message: string)

  /** A JSON body written by a handler (one `gin.H`). */
  datatype Body =
    | Error(error: string)                          // {"error"}
    | Presigned(presignedUrl: string, key: string)  // {"presigned_url", "key"}
    | Failed(error: string)                         // {"success": false, "error"}
    | Confirmed(url: string, status: string)        // {"success": true, "url", "status"}
    | Images(images: seq<string>)                   // {"success": true, "images"}

  /** One `c.JSON(status, body)` call. */
  datatype Write = Write(status: int, body: Body)

  /** The PUT the server asks S3 to presign. */
  datatype PresignRequest = PresignRequest(bucket: string, key: string, contentType: string, expiry: nat)

  /**
   * The object key for a fresh UUID string and the client's extension:
   * the upload prefix, the UUID, then the extension verbatim.
   */
  function ObjectKey(uuid: string, ext: string): (key: string)
    ensures |key| == |UploadPrefix| + |uuid| + |ext|
    ensures key[..|UploadPrefix|] == UploadPrefix
    ensures key[|UploadPrefix|..|UploadPrefix| + |uuid|] == uuid
    ensures key[|UploadPrefix| + |uuid|..] == ext
  {
    UploadPrefix + uuid + ext
  }

  /**
   * For UUID strings of one length (canonical UUID strings all have 36
   * characters), the key determines both the UUID and the extension:
   * distinct UUIDs never share a key, whatever the extensions.
   */
  lemma ObjectKeyInjective(u1: string, u2: string, e1: string, e2: string)
    requires |u1| == |u2|
    requires ObjectKey(u1, e1) == ObjectKey(u2, e2)
    ensures u1 == u2 && e1 == e2
  {
  }

  /** Without equal UUID lengths the key is ambiguous: the extension is not delimited. */
  lemma ObjectKeyAmbiguous()
    ensures ObjectKey("a", ".jpeg") == ObjectKey("a.", "jpeg")
  {
  }

  /**
   * Gin's binding of a `binding:"required"` string field. `field` is the
   * field as the JSON body carries it (`None` when the body is not JSON or
   * lacks the field); the empty string, the field's zero value, is refused
   * like a missing field.
   */
  function BindRequired(field: Option<string>): (bound: Option<string>)
    ensures bound.Some? <==> field.Some? && field.value != ""
    ensures bound.Some? ==> bound == field
  {
    if field.Some? && field.value != "" then field else None
  }

  /**
   * S3's answer to HeadObject for `key`, given the keys present in the
   * bucket: `fault` is any failure of the call itself (network, credentials,
   * a not-yet-visible write); otherwise an absent key is `NotFound`.
   */
  function HeadObject(objects: set<string>, key: string, fault: Option<S3Error>): (err: Option<S3Error>)
    ensures err.None? ==> key in objects
    ensures key !in objects ==> err.Some?
    ensures fault.None? ==> (err.None? <==> key in objects)
  {
    if fault.Some? then fault
    else if key in objects then None
    else Some(NotFound)
  }

  /**
   * `S3Bucket.Exists`: `(true, nil)` exactly when HeadObject succeeds,
   * `(false, err)` with HeadObject's error otherwise. True only for a key
   * that is in the bucket.
   */
  function Exists(objects: set<string>, key: string, fault: Option<S3Error>): (r: (bool, Option<S3Error>))
    ensures r.0 <==> r.1.None?
    ensures r.0 <==> HeadObject(objects, key, fault).None?
    ensures !r.0 ==> r.1 == HeadObject(objects, key, fault)
    ensures r.0 ==> key in objects
  {
    var err := HeadObject(objects, key, fault);
    if err.Some? then (false, err) else (true, None)
  }

  /**
   * `S3Bucket.GeneratePresignedURL` for the PUT `req`: the URL `presigner`
   * signs for `req` and `nil`, or `""` and the presigner's error.
   */
  function GeneratePresignedUrl(req: PresignRequest, presigner: PresignRequest -> Result<string, S3Error>)
    : (r: (string, Option<S3Error>))
    ensures r.1.None? <==> presigner(req).Success?
    ensures presigner(req).Success? ==> r.0 == presigner(req).value
    ensures presigner(req).Failure? ==> r.0 == "" && r.1 == Some(presigner(req).error)
  {
    match presigner(req)
    case Success(url) => (url, None)
    case Failure(e) => ("", Some(e))
  }

  /**
   * The server: the bucket it presigns for, the keys that bucket holds, and
   * the ledger table. `verified` records every key `Exists` has reported
   * present to `uploadConfirm`.
   */
  class Server {
    const bucketName: string
    var objects: set<string>
    const db: Ledger.Table
    ghost var verified: set<string>

    /** Every ledger row is a key that storage reported present. */
    ghost predicate Valid()
      reads this, db
    {
      && verified <= objects
      && forall i :: 0 <= i < |db.rows| ==> db.rows[i] in verified
    }

    /** A server over `bucketName`, whose bucket holds `objects`, with an empty ledger. */
    constructor (bucketName: string, objects: set<string>)
      ensures Valid() && fresh(db)
      ensures this.bucketName == bucketName && this.objects == objects
      ensures db.rows == [] && verified == {}
    {
      this.bucketName := bucketName;
      this.objects := objects;
      db := new Ledger.Table();
      verified := {};
    }

    /**
     * `prepareUpload`. `body` is the `file_extension` field of the request
     * body, `uuid` the fresh UUID string, `presigner` what S3's presigner
     * answers for a PUT. A missing or empty field is a bind failure. An
     * unsupported extension writes a 400 but does not return, so the key is
     * still minted and presigned and a second body is written.
     */
    method PrepareUpload(body: Option<string>, uuid: string, presigner: PresignRequest -> Result<string, S3Error>)
      returns (writes: seq<Write>, issued: Option<PresignRequest>)
      ensures BindRequired(body).None? ==>
        writes == [Write(StatusBadRequest, Error(BadFormatMessage))] && issued.None?
      ensures BindRequired(body).Some? ==>
        issued == Some(PresignRequest(bucketName, ObjectKey(uuid, body.value), PresignContentType, PresignExpiry))
      ensures BindRequired(body).Some? && body.value == SupportedExtension ==> |writes| == 1
      ensures BindRequired(body).Some? && body.value != SupportedExtension ==>
        |writes| == 2 && writes[0] == Write(StatusBadRequest, Error(UnsupportedMessage))
      ensures BindRequired(body).Some? ==>
        var signed := presigner(issued.value);
        writes[|writes| - 1] == (if signed.Success? then Write(StatusOK, Presigned(signed.value, issued.value.key))
                                 else Write(StatusInternalServerError, Error(PresignFailedMessage)))
    {
      var request := BindRequired(body);
      if request.None? {
        return [Write(StatusBadRequest, Error(BadFormatMessage))], None;
      }
      var fileExtension := request.value;
      writes := [];
      if fileExtension != SupportedExtension {
        writes := writes + [Write(StatusBadRequest, Error(UnsupportedMessage))];
      }
      var objectKey := ObjectKey(uuid, fileExtension);
      var req := PresignRequest(bucketName, objectKey, PresignContentType, PresignExpiry);
      issued := Some(req);
      var presigned := GeneratePresignedUrl(req, presigner);
      var url, err := presigned.0, presigned.1;
      if err.Some? {
        writes := writes + [Write(StatusInternalServerError, Error(PresignFailedMessage))];
        return;
      }
      writes := writes + [Write(StatusOK, Presigned(url, objectKey))];
    }

    /**
     * `uploadConfirm`. `body` is the `key` field of the request body (a
     * missing or empty field is a bind failure), `headFault` the failure
     * (if any) of S3's HeadObject call, `exec` the ledger insert's error.
     * Storage is asked first; the ledger grows only after `Exists` said
     * `(true, nil)`, and then by that key alone. A ledger failure writes a
     * `success: false` body but does not return, so the success body follows.
     */
    method UploadConfirm(body: Option<string>, headFault: Option<S3Error>, exec: Option<Ledger.DbError>)
      returns (writes: seq<Write>)
      requires Valid()
      modifies db, this`verified
      ensures Valid()
      ensures BindRequired(body).None? ==>
        writes == [Write(StatusBadRequest, Error(InvalidRequestMessage))] && db.rows == old(db.rows)
      ensures BindRequired(body).Some? && !Exists(objects, body.value, headFault).0 ==>
        writes == [Write(StatusNotFound, Failed(NotInS3Message))] && db.rows == old(db.rows)
      ensures BindRequired(body).Some? && Exists(objects, body.value, headFault).0 ==>
        && db.rows == old(db.rows) + (if exec.None? then [body.value] else [])
        && writes == (if exec.Some? then [Write(StatusOK, Failed(NotSavedMessage))] else [])
                     + [Write(StatusOK, Confirmed(Ledger.ImageUrl(CDN, body.value), UploadedStatus))]
      ensures db.rows != old(db.rows) ==>
        && BindRequired(body).Some? && Exists(objects, body.value, headFault) == (true, None)
        && body.value in objects
        && db.rows == old(db.rows) + [body.value]
      ensures verified == old(verified) +
        if BindRequired(body).Some? && Exists(objects, body.value, headFault).0 then {body.value} else {}
    {
      var request := BindRequired(body);
      if request.None? {
        return [Write(StatusBadRequest, Error(InvalidRequestMessage))];
      }
      var key := request.value;
      var found := Exists(objects, key, headFault);
      var ok, err := found.0, found.1;
      if err.Some? || !ok {
        return [Write(StatusNotFound, Failed(NotInS3Message))];
      }
      verified := verified + {key};
      writes := [];
      var saveErr := db.SaveImage(key, exec);
      if saveErr.Some? {
        writes := writes + [Write(StatusOK, Failed(NotSavedMessage))];
      }
      var cdnUrl := Ledger.ImageUrl(CDN, key);
      writes := writes + [Write(StatusOK, Confirmed(cdnUrl, UploadedStatus))];
    }

    /**
     * The client's PUT with the presigned URL, made directly against S3 and
     * not through this server: the bucket gains `key`; the ledger is untouched.
     */
    method ClientPut(key: string)
      requires Valid()
      modifies this`objects
      ensures Valid()
      ensures objects == old(objects) + {key}
    {
      objects := objects + {key};
    }

    /**
     * `getUploadedImages`: the ledger listed under the CDN, or a 500 when
     * the listing fails. Changes nothing.
     */
    method GetUploadedImages(query: Option<Ledger.DbError>, scanErrors: map<nat, Ledger.DbError>,
                             cursorBreak: Option<nat>)
      returns (writes: seq<Write>)
      ensures writes ==
        match Ledger.Listing(CDN, db.rows, query, scanErrors, cursorBreak)
        case Success(images) => [Write(StatusOK, Images(images))]
        case Failure(_) => [Write(StatusInternalServerError, Failed(ListFailedMessage))]
    {
      var images := db.GetAllImages(CDN, query, scanErrors, cursorBreak);
      if images.Failure? {
        return [Write(StatusInternalServerError, Failed(ListFailedMessage))];
      }
      return [Write(StatusOK, Images(images.value))];
    }
  }

  /**
   * The whole protocol on a fresh server with no failures: prepare a `.jpeg`
   * upload, confirm it before the client has written it (rejected, nothing
   * recorded), let the client write it, confirm it again, and list. The
   * listing holds the key's CDN address exactly once.
   */
  method PrepareConfirmList(bucketName: string, uuid: string, presignedUrl: string)
    returns (prepared: seq<Write>, early: seq<Write>, confirmed: seq<Write>, listed: seq<Write>)
    ensures var key := UploadPrefix + uuid + SupportedExtension;
      && prepared == [Write(StatusOK, Presigned(presignedUrl, key))]
      && early == [Write(StatusNotFound, Failed(NotInS3Message))]
      && confirmed == [Write(StatusOK, Confirmed(CDN + "/" + key, UploadedStatus))]
      && listed == [Write(StatusOK, Images([CDN + "/" + key]))]
  {
    var s := new Server(bucketName, {});
    var issued;
    prepared, issued := s.PrepareUpload(Some(SupportedExtension), uuid, _ => Success(presignedUrl));
    var key := ObjectKey(uuid, SupportedExtension);
    early := s.UploadConfirm(Some(key), None, None);
    s.ClientPut(key);
    confirmed := s.UploadConfirm(Some(key), None, None);
    assert s.db.rows == [key];
    Ledger.ListingAfterSave(CDN, [], key);
    assert [] + [key] == [key] && Ledger.Urls(CDN, []) == [];
    assert [] + [Ledger.ImageUrl(CDN, key)] == [CDN + "/" + key];
    listed := s.GetUploadedImages(None, map[], None);
  }
}
