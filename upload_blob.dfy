/**
 * /api/upload/vercel-blob: the same three checks as the image upload, then a
 * blob upload under `blog/<timestamp>-<sanitised name>`. When the blob call
 * fails the handler still answers 200, with the placeholder URL and the
 * original file name; other failures give 500, with the error message only in
 * development.
 */
module BlobUpload {
  import opened Wrappers
  import opened Json
  import opened Http
  import Text
  import Upload

  /** The character class `[a-zA-Z0-9.-]`. */
  predicate Allowed(c: char) {
    Text.IsAsciiLower(c) || Text.IsAsciiUpper(c) || Text.IsDigit(c) || c == '.' || c == '-'
  }

  /** `name.replace(/[^a-zA-Z0-9.-]/g, '')`. */
  function Sanitize(name: string): (r: string)
    ensures |r| <= |name|
    ensures forall i :: 0 <= i < |r| ==> Allowed(r[i])
    decreases |name|
  {
    if name == [] then []
    else (if Allowed(name[0]) then [name[0]] else []) + Sanitize(name[1..])
  }

  /** A name is left as it is exactly when every character is allowed. */
  lemma {:induction false} SanitizeFixedPoint(name: string)
    ensures Sanitize(name) == name <==> forall i :: 0 <= i < |name| ==> Allowed(name[i])
    decreases |name|
  {
    if name != [] {
      SanitizeFixedPoint(name[1..]);
      if !Allowed(name[0]) {
        assert |Sanitize(name)| < |name|;
      } else {
        assert Sanitize(name) == [name[0]] + Sanitize(name[1..]);
        if Sanitize(name) == name {
          assert Sanitize(name[1..]) == name[1..];
        }
        if forall i :: 0 <= i < |name| ==> Allowed(name[i]) {
          assert forall i :: 0 <= i < |name[1..]| ==> Allowed(name[1..][i]) by {
            forall i | 0 <= i < |name[1..]| ensures Allowed(name[1..][i]) {
              assert name[1..][i] == name[i + 1];
            }
          }
        }
      }
    }
  }

  /** Sanitising twice is sanitising once. */
  lemma SanitizeIdempotent(name: string)
    ensures Sanitize(Sanitize(name)) == Sanitize(name)
  {
    SanitizeFixedPoint(Sanitize(name));
  }

  /** The blob path. */
  function BlobPath(name: string, now: nat): string {
    "blog/" + Text.NatToString(now) + "-" + Sanitize(name)
  }

  /** The path sits under `blog/`, and what follows the timestamp is the sanitised name. */
  lemma BlobPathShape(name: string, now: nat)
    ensures Text.StartsWith(BlobPath(name, now), "blog/")
    ensures var p := BlobPath(name, now); var n := |Sanitize(name)|;
      n < |p| && p[|p| - n..] == Sanitize(name) && p[|p| - n - 1] == '-'
  {
  }

  /** What `put` returns: the blob's URL and path name. */
  datatype Blob = Blob(url: string, pathname: string)

  const Note := "Using placeholder image - configure Vercel Blob for actual uploads"

  /** The catch-all failure; `details` is present only in development. */
  function Failure(env: string, message: string): (r: Response)
    ensures r.status == 500
    ensures r.body.JObj? && "error" in r.body.fields && r.body.fields["error"] == JStr("Upload failed")
    ensures "details" in r.body.fields <==> env == "development"
    ensures env == "development" ==> r.body.fields["details"] == JStr(message)
  {
    var body := map["error" := JStr("Upload failed")];
    Reply(500, JObj(if env == "development" then body["details" := JStr(message)] else body))
  }

  function Uploaded(f: Upload.File, blob: Blob, now: nat): Json {
    JObj(map["url" := JStr(blob.url), "filename" := JStr(blob.pathname), "size" := JNum(f.size),
             "type" := JStr(f.kind), "uploadedAt" := JConv(IsoString, JNum(now))])
  }

  function Fallback(f: Upload.File, now: nat): Json {
    JObj(map["url" := JStr(Upload.Placeholder), "filename" := JStr(f.name), "size" := JNum(f.size),
             "type" := JStr(f.kind), "uploadedAt" := JConv(IsoString, JNum(now)), "note" := JStr(Note)])
  }

  /** The handler, with the blob store as an oracle from the path to the stored blob. */
  function BlobHandler(form: Fallible<Option<Upload.Entry>>, put: string -> Fallible<Blob>, now: nat,
                       env: string, message: string): (r: Response)
    ensures form.Threw? ==> r == Failure(env, message)
    ensures form.Ok? && Upload.Validate(form.value).Rejected? ==> r == Upload.Validate(form.value).response
    ensures form.Ok? && Upload.Validate(form.value).Failed? ==> r == Failure(env, message)
    ensures r.status == 200 <==> form.Ok? && Upload.Validate(form.value).Accepted?
    ensures r.status == 200 ==>
      var f := Upload.Validate(form.value).file;
      var blob := put(BlobPath(f.name, now));
      r.body == if blob.Ok? then Uploaded(f, blob.value, now) else Fallback(f, now)
  {
    match form
    case Threw => Failure(env, message)
    case Ok(entry) =>
      match Upload.Validate(entry)
      case Rejected(response) => response
      case Failed => Failure(env, message)
      case Accepted(f) =>
        match put(BlobPath(f.name, now))
        case Ok(blob) => Reply(200, Uploaded(f, blob, now))
        case Threw => Reply(200, Fallback(f, now))
  }

  /** A failed blob upload still answers 200 with the placeholder and the original, unsanitised name. */
  lemma BlobFailureFallsBack(f: Upload.File, put: string -> Fallible<Blob>, now: nat, env: string, message: string)
    requires Upload.Validate(Some(Upload.FileEntry(f))).Accepted?
    requires put(BlobPath(f.name, now)).Threw?
    ensures var r := BlobHandler(Ok(Some(Upload.FileEntry(f))), put, now, env, message);
      r.status == 200 && r.body.fields["url"] == JStr(Upload.Placeholder) && r.body.fields["filename"] == JStr(f.name)
      && "note" in r.body.fields
  {
  }

  /** Both upload handlers refuse exactly the same forms with exactly the same 400 responses. */
  lemma SameValidationAsImage(form: Option<Upload.Entry>, put: string -> Fallible<Blob>, now: nat,
                              env: string, message: string)
    ensures var a := Upload.ImageHandler(Ok(form), now);
      var b := BlobHandler(Ok(form), put, now, env, message);
      (a.status == 400 <==> b.status == 400) && (a.status == 400 ==> a == b)
  {
  }
}
