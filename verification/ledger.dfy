/**
 * The `uploaded_images` table and the two queries run against it
 * (db/queries.go): `SaveImage` inserts one key, `GetAllImages` lists every
 * stored key as a CDN address.
 *
 * What database/sql reports is not computed here but passed in: the outcome
 * of `Exec`, the outcome of `Query`, the rows whose `Scan` fails and the row
 * at which the cursor's `Next` stops because of an error.
 */
module Ledger {
  import opened Wrappers

  /** An error returned by database/sql; its text is opaque here. */
  datatype DbError = DbError(message: string)

  /** `fmt.Sprintf("%s/%s", base, key)`: the public address of a stored key. */
  function ImageUrl(base: string, key: string): (url: string)
    ensures |url| == |base| + 1 + |key|
    ensures url[..|base|] == base && url[|base|] == '/'
    ensures url[|base| + 1..] == key
  {
    base + "/" + key
  }

  /** Under one base, two keys share an address only if they are the same key. */
  lemma ImageUrlInjective(base: string, k1: string, k2: string)
    requires ImageUrl(base, k1) == ImageUrl(base, k2)
    ensures k1 == k2
  {
  }

  /** The addresses of `keys`, in order; built from the end, as the listing loop appends. */
  function Urls(base: string, keys: seq<string>): (urls: seq<string>)
  {
    if keys == [] then [] else Urls(base, keys[..|keys| - 1]) + [ImageUrl(base, keys[|keys| - 1])]
  }

  /** One address per key, in key order. */
  lemma {:induction false} UrlsAt(base: string, keys: seq<string>)
    ensures |Urls(base, keys)| == |keys|
    ensures forall i :: 0 <= i < |keys| ==> Urls(base, keys)[i] == ImageUrl(base, keys[i])
  {
    if keys != [] {
      var init := keys[..|keys| - 1];
      UrlsAt(base, init);
      forall i | 0 <= i < |keys|
        ensures Urls(base, keys)[i] == ImageUrl(base, keys[i])
      {
        if i < |init| {
          assert keys[i] == init[i];
        }
      }
    }
  }

  /** Appending a key appends its address. */
  lemma UrlsSnoc(base: string, keys: seq<string>, key: string)
    ensures Urls(base, keys + [key]) == Urls(base, keys) + [ImageUrl(base, key)]
  {
  }

  /** An address occurs in the listing exactly as often as its key occurs among the keys. */
  lemma {:induction false} UrlsCount(base: string, keys: seq<string>, key: string)
    ensures multiset(Urls(base, keys))[ImageUrl(base, key)] == multiset(keys)[key]
  {
    if keys != [] {
      var init, last := keys[..|keys| - 1], keys[|keys| - 1];
      assert keys == init + [last];
      UrlsCount(base, init, key);
      if last != key {
        if ImageUrl(base, last) == ImageUrl(base, key) {
          ImageUrlInjective(base, last, key);
        }
      }
    }
  }

  /**
   * The rows the cursor hands out: all of them, or those before the row at
   * which `Next` reports an error and stops.
   */
  function Visible(rowCount: nat, cursorBreak: Option<nat>): (n: nat)
    ensures n <= rowCount
  {
    if cursorBreak.Some? && cursorBreak.value < rowCount then cursorBreak.value else rowCount
  }

  /** The first row in `[from, to)` whose `Scan` fails, if any. */
  function FirstScanError(scanErrors: map<nat, DbError>, from: nat, to: nat): (first: Option<nat>)
    decreases to - from
    ensures first.Some? ==> from <= first.value < to && first.value in scanErrors
    ensures first.Some? ==> forall j :: from <= j < first.value ==> j !in scanErrors
    ensures first.None? ==> forall j :: from <= j < to ==> j !in scanErrors
  {
    if to <= from then None
    else if from in scanErrors then Some(from)
    else FirstScanError(scanErrors, from + 1, to)
  }

  /**
   * What `GetAllImages(base)` returns for a table holding `rows`: the query's
   * error, else the error of the first row that fails to scan, else the
   * address of every row the cursor handed out.
   */
  function Listing(base: string, rows: seq<string>, query: Option<DbError>,
                   scanErrors: map<nat, DbError>, cursorBreak: Option<nat>): (r: Result<seq<string>, DbError>)
  {
    if query.Some? then Failure(query.value)
    else
      var n := Visible(|rows|, cursorBreak);
      match FirstScanError(scanErrors, 0, n)
      case Some(i) => Failure(scanErrors[i])
      case None => Success(Urls(base, rows[..n]))
  }

  /**
   * A successful listing has one address per row handed out, in row order;
   * when the cursor does not break, that is one address per row of the table.
   */
  lemma ListingSuccess(base: string, rows: seq<string>, query: Option<DbError>,
                       scanErrors: map<nat, DbError>, cursorBreak: Option<nat>)
    requires Listing(base, rows, query, scanErrors, cursorBreak).Success?
    ensures var images := Listing(base, rows, query, scanErrors, cursorBreak).value;
      && |images| == Visible(|rows|, cursorBreak) <= |rows|
      && (cursorBreak.None? ==> |images| == |rows|)
      && forall i :: 0 <= i < |images| ==> images[i] == ImageUrl(base, rows[i])
  {
    var n := Visible(|rows|, cursorBreak);
    UrlsAt(base, rows[..n]);
  }

  /**
   * The listing fails exactly when the query fails or some row handed out
   * fails to scan; the error is the query's, else the first failing row's,
   * and no partial list survives.
   */
  lemma ListingFailure(base: string, rows: seq<string>, query: Option<DbError>,
                       scanErrors: map<nat, DbError>, cursorBreak: Option<nat>)
    ensures var r := Listing(base, rows, query, scanErrors, cursorBreak);
      && (r.Failure? <==> query.Some? || exists i :: 0 <= i < Visible(|rows|, cursorBreak) && i in scanErrors)
      && (query.Some? ==> r == Failure(query.value))
      && (query.None? && r.Failure? ==>
            exists i :: 0 <= i < Visible(|rows|, cursorBreak) && i in scanErrors && r.error == scanErrors[i]
                        && forall j :: 0 <= j < i ==> j !in scanErrors)
  {
  }

  /**
   * With no database errors, a key saved after `rows` is listed last, after
   * the unchanged listing of `rows`, and its address occurs once more than before:
   * saving a key twice lists it twice.
   */
  lemma {:induction false} ListingAfterSave(base: string, rows: seq<string>, key: string)
    ensures Listing(base, rows, None, map[], None) == Success(Urls(base, rows))
    ensures Listing(base, rows + [key], None, map[], None) == Success(Urls(base, rows) + [ImageUrl(base, key)])
    ensures multiset(Listing(base, rows + [key], None, map[], None).value)[ImageUrl(base, key)]
         == multiset(rows)[key] + 1
  {
    assert rows[..|rows|] == rows;
    assert (rows + [key])[..|rows + [key]|] == rows + [key];
    UrlsSnoc(base, rows, key);
    UrlsCount(base, rows + [key], key);
  }

  /** The `uploaded_images` table: its `image_key` column, in row order. */
  class Table {
    var rows: seq<string>

    /** An empty table. */
    constructor ()
      ensures rows == []
    {
      rows := [];
    }

    /**
     * One INSERT of `imageKey`, with no check for an existing row. It returns
     * `exec`, the error `Exec` reported; the row is added only when there was none.
     */
    method SaveImage(imageKey: string, exec: Option<DbError>) returns (err: Option<DbError>)
      modifies this
      ensures err == exec
      ensures rows == if exec.None? then old(rows) + [imageKey] else old(rows)
    {
      if exec.Some? {
        return exec;
      }
      rows := rows + [imageKey];
      return None;
    }

    /**
     * SELECT every row and turn each `image_key` into `cdnUrl + "/" + key`,
     * stopping with the error of a failed query or of the first row that
     * fails to scan. Changes nothing.
     */
    method GetAllImages(cdnUrl: string, query: Option<DbError>,
                        scanErrors: map<nat, DbError>, cursorBreak: Option<nat>)
      returns (r: Result<seq<string>, DbError>)
      ensures r == Listing(cdnUrl, rows, query, scanErrors, cursorBreak)
    {
      if query.Some? {
        return Failure(query.value);
      }
      var n := Visible(|rows|, cursorBreak);
      var images: seq<string> := [];
      var i := 0;
      while i < n
        invariant 0 <= i <= n <= |rows|
        invariant images == Urls(cdnUrl, rows[..i])
        invariant forall j :: 0 <= j < i ==> j !in scanErrors
      {
        if i in scanErrors {
          return Failure(scanErrors[i]);
        }
        assert rows[..i + 1] == rows[..i] + [rows[i]];
        UrlsSnoc(cdnUrl, rows[..i], rows[i]);
        images := images + [ImageUrl(cdnUrl, rows[i])];
        i := i + 1;
      }
      return Success(images);
    }
  }
}
