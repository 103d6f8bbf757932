# Presigned-upload server: a Dafny model

This project models the direct-upload protocol of a small Go web server.

- `POST /prepare-upload` mints an S3 object key `uploads/<uuid><extension>`. It asks S3 to presign a PUT on that key with content type `image/jpeg` and a 5-minute expiry.
- The client then writes the object straight to S3.
- `POST /upload-confirm` asks S3 (HeadObject) whether the key is there. Only after S3 says yes does it insert the key into the `uploaded_images` table (the ledger). It answers with the key's CDN address.
- `GET /get-uploaded-images` lists every ledger row as `<CDN>/<key>`.

Three modules:

- `Wrappers` (wrappers.dfy): `Option` and `Result`, the model's form of Go's `(value, error)` pairs.
- `Ledger` (ledger.dfy) covers `db/queries.go`:
  - the table is a class `Table` whose `rows` field is the `image_key` column in row order;
  - `SaveImage` appends to it;
  - `GetAllImages` is a loop proved equal to the specification function `Listing`, whose properties are lemmas.
- `Upload` (upload.dfy) covers `main.go`:
  - key minting, `Exists` and presigning are functions;
  - a class `Server` holds the bucket's key set and the ledger, and its three handlers are methods;
  - the object invariant `Valid()` states the protocol's safety property: every ledger row is a key that `Exists` reported present, and every such key is in the bucket.

Each handler returns the `c.JSON` calls it makes, in order, as a sequence. This is needed because two branches write a body without returning. For an extension other than `.jpeg`, `prepareUpload` writes a 400 but still mints a key, still requests a presigned URL and then writes a second body. When the ledger insert fails, `uploadConfirm` writes a `success: false` body and then the `success: true` body. The model keeps both behaviours as written.

What the libraries report is passed in as a parameter rather than computed:

- the request field as the JSON body carries it (`None` when the body is not JSON or lacks the field); gin's `binding:"required"` is modelled by `Upload.BindRequired`, which refuses the empty string too;
- the UUID string;
- the presigner's answer (a URL or an error) for each presign request;
- any failure of HeadObject itself;
- the error of the INSERT's `Exec`;
- the error of the SELECT's `Query`;
- the rows whose `Scan` fails;
- the row at which the cursor's `Next` stops because of an error.

Further behaviours of the code that the model keeps:

- An unsupported extension is answered with a 400, but a key is still minted and presigned.
- `SaveImage` does no existence check, so saving a key twice gives two rows and the key is listed twice (`Ledger.ListingAfterSave`).
- A HeadObject call that fails and an object that is absent both give 404.
- The presigned content type is always `image/jpeg`, whatever the extension.
- `GetAllImages` never consults the cursor's `Err()`. A cursor that stops early on an error therefore yields a shortened listing that still counts as a success (the `cursorBreak` parameter).

## Model

| member | source | states |
|---|---|---|
| `Ledger.ImageUrl` | db/queries.go:54-55 | the address is the base, a `/`, then the key verbatim, with the matching length |
| `Ledger.ImageUrlInjective` | db/queries.go:54-55 | under one CDN base, two keys give the same address only if they are the same key |
| `Ledger.UrlsAt` | db/queries.go:43-58 | the listing loop produces one address per row, and entry `i` is `base + "/" + rows[i]` |
| `Ledger.UrlsSnoc` | db/queries.go:55-57 | each iteration appends exactly the current row's address to the list built so far |
| `Ledger.UrlsCount` | db/queries.go:43-58 | an address occurs in the listing exactly as often as its key occurs among the rows |
| `Ledger.FirstScanError` | db/queries.go:45-52 | finds the first row in range whose `Scan` fails; no earlier row fails, and none fails when it finds nothing |
| `Ledger.ListingSuccess` | db/queries.go:43-60 | a successful listing has one address per row the cursor handed out, in row order; with no cursor error that is every row of the table |
| `Ledger.ListingFailure` | db/queries.go:34-52 | the listing fails exactly when the query fails or a handed-out row fails to scan; the error returned is the query's, else the first failing row's, and the partial list is discarded |
| `Ledger.ListingAfterSave` | db/queries.go:22-60 | with no errors, a saved key is listed last after the unchanged earlier listing, and its address occurs once more than before (no idempotence) |
| `Ledger.Table.SaveImage` | db/queries.go:22-31 | returns exactly the `Exec` error; on success the table grows by that one key at the end, and on failure it is unchanged |
| `Ledger.Table.GetAllImages` | db/queries.go:34-61 | returns `Listing` of the current rows and changes nothing (no `modifies`) |
| `Upload.ObjectKey` | main.go:106-108 | the key is `uploads/`, then the UUID, then the client's extension verbatim, so it starts with `uploads/` and ends with the extension |
| `Upload.ObjectKeyInjective` | main.go:107-108 | for UUID strings of equal length, the key determines both the UUID and the extension, so distinct UUIDs give distinct keys whatever the extensions |
| `Upload.ObjectKeyAmbiguous` | main.go:108 | without equal UUID lengths the key is ambiguous: `"a"` with `".jpeg"` and `"a."` with `"jpeg"` give the same key |
| `Upload.BindRequired` | main.go:92-99 | a `binding:"required"` field binds exactly when it is present and not the empty string, and then binds to its own value |
| `Upload.HeadObject` | main.go:79-82 | HeadObject succeeds only for a key in the bucket; with no transport fault it succeeds exactly for such keys |
| `Upload.Exists` | main.go:77-89 | `(true, nil)` exactly when HeadObject succeeds and `(false, err)` with HeadObject's error otherwise; true implies the key is in the bucket |
| `Upload.GeneratePresignedUrl` | main.go:63-75 | for the given PUT request, the error is nil exactly when the presigner signs it, and the URL is then the presigner's; on failure the URL is `""` |
| `Upload.Server.PrepareUpload` | main.go:91-122 | a bind failure (missing or empty field) writes one 400 and presigns nothing. Otherwise it always presigns the key `ObjectKey(uuid, ext)` for this bucket with `image/jpeg` and `5 * time.Minute`. A non-`.jpeg` extension writes a 400 first and a second body after it. The last body is the URL the presigner gives for that request, with the key, or a 500 when presigning fails |
| `Upload.Server.UploadConfirm` | main.go:124-162 | a bind failure (missing or empty key) gives 400, and `Exists` false or erroring gives one 404 `success:false`; both leave the ledger unchanged. Otherwise the ledger grows by the key iff the insert succeeded, and the last body is `success:true` with `CDN + "/" + key`. An insert failure only adds a 200 `success:false` body before it. The ledger changes only for a key that `Exists` reported `(true, nil)` and that is in the bucket. `Valid()` is preserved |
| `Upload.Server.ClientPut` | main.go:111-121 | the client's PUT with the presigned URL handed out here adds the key to the bucket and nothing else; `Valid()` is preserved |
| `Upload.Server.GetUploadedImages` | main.go:164-173 | a 200 with the ledger's listing under the CDN when the listing succeeds, otherwise a 500 `success:false` |
| `Upload.PrepareConfirmList` | main.go:91-173 | on a fresh server without failures: prepare `.jpeg` returns the key `uploads/<uuid>.jpeg`; confirming before the client's write gives 404; confirming after it gives `<CDN>/<key>`; the listing is exactly that one address |

## Left out

- AWS configuration, credentials and the SDK clients (`NewS3Bucket`): the presigner and HeadObject are foreign calls. Their outcomes are parameters, and the presigned URL is an opaque string.
- Enforcement of the 5-minute expiry and of the content type: S3 enforces both. The model only records the values the server asks for.
- UUID generation and its uniqueness: the UUID string is an input. `Upload.ObjectKeyInjective` shows that keys are as unique as the UUIDs when the UUID strings have one length, as canonical ones do.
- Gin's JSON parsing, rendering and routing, and what gin sends when a handler calls `c.JSON` twice. A request is its one field as the body carries it, or `None`, and a response is the list of `c.JSON` calls. Of binding, only the `required` check is modelled (`Upload.BindRequired`).
- `.env` loading, `main`, `db.Init` and all of `db/db.go` (DSN, pooling, Ping): process startup and I/O.
- Logging (`log.Println`, `log.Printf`).
- The `id` column: `GetAllImages` scans it and discards it, so it is not modelled. Rows are listed in insertion order, although a SELECT without ORDER BY does not promise that.
- Whether a failed `Exec` leaves the table unchanged: the model assumes it does.
- A DB uniqueness constraint on `image_key`: the schema is not part of this model, so none is assumed.
- A listing with no rows: Go returns a nil slice (JSON `null`), and the model gives the empty sequence.
- Concurrency between requests: handlers are modelled as atomic steps on one server.
- The ledger starts empty in `Upload.Server`, so rows written before the server existed are outside the `Valid()` invariant.
- Deleting objects from the bucket: the bucket only grows, by `Upload.Server.ClientPut`, so a key verified once stays in the bucket.
