/**
 * /api/upload/image: validates the `file` form entry in a fixed order (present,
 * an image type, at most 5 MiB) and answers with a generated file name and a
 * constant placeholder URL; nothing is stored. The validation is shared with
 * /api/upload/vercel-blob.
 */
module Upload {
  import opened Wrappers
  import opened Json
  import opened Http
  import Text

  /** `file.name`, `file.type` and `file.size`. */
  datatype File = File(name: string, kind: string, size: nat)

  /** What `formData.get('file')` can hold: a file or a plain text value. */
  datatype Entry = FileEntry(file: File) | TextEntry(text: string)

  const MaxSize: nat := 5 * 1024 * 1024

  const NoFile := Error(400, "No file provided")
  const NotImage := Error(400, "File must be an image")
  const TooLarge := Error(400, "File size must be less than 5MB")

  /** The outcome of the three checks: the accepted file, a 400, or a throw (a non-empty text
      value has no `type`, so `file.type.startsWith` throws). */
  datatype Checked = Accepted(file: File) | Rejected(response: Response) | Failed

  /** The three refusals are told apart by their messages. */
  lemma RefusalsDiffer()
    ensures NoFile != NotImage && NoFile != TooLarge && NotImage != TooLarge
  {
    assert NoFile.body.fields["error"].s[0] == 'N';
    assert NotImage.body.fields["error"].s[0] == 'F';
    assert TooLarge.body.fields["error"].s[5] == 's';
    assert NotImage.body.fields["error"].s[5] == 'm';
  }

  function Validate(entry: Option<Entry>): (c: Checked)
    ensures c.Rejected? ==> c.response in {NoFile, NotImage, TooLarge}
    ensures c.Accepted? <==>
      entry.Some? && entry.value.FileEntry? && Text.StartsWith(entry.value.file.kind, "image/") &&
      entry.value.file.size <= MaxSize
    ensures c.Accepted? ==> c.file == entry.value.file
    ensures c == Rejected(NoFile) <==> entry.None? || entry == Some(TextEntry([]))
  {
    RefusalsDiffer();
    match entry
    case None => Rejected(NoFile)
    case Some(TextEntry(t)) => if t == [] then Rejected(NoFile) else Failed
    case Some(FileEntry(f)) =>
      if !Text.StartsWith(f.kind, "image/") then Rejected(NotImage)
      else if f.size > MaxSize then Rejected(TooLarge)
      else Accepted(f)
  }

  /** The type is checked before the size: a file that fails both is refused as not an image. */
  lemma TypeCheckedBeforeSize(f: File)
    requires !Text.StartsWith(f.kind, "image/") && f.size > MaxSize
    ensures Validate(Some(FileEntry(f))) == Rejected(NotImage)
  {
  }

  /** Exactly 5 MiB is accepted and one byte more is refused. */
  lemma SizeLimitIsInclusive(name: string, kind: string)
    requires Text.StartsWith(kind, "image/")
    ensures Validate(Some(FileEntry(File(name, kind, 5242880)))).Accepted?
    ensures Validate(Some(FileEntry(File(name, kind, 5242881)))) == Rejected(TooLarge)
  {
  }

  const Placeholder := "https://images.pexels.com/photos/270637/pexels-photo-270637.jpeg?auto=compress&cs=tinysrgb&w=800"

  const ImageFailed := Error(500, "Upload failed")

  /** `blog-image-${timestamp}.${name.split('.').pop()}`. */
  function ImageFilename(name: string, now: nat): string {
    "blog-image-" + Text.NatToString(now) + "." + Text.LastPart(name, '.')
  }

  /** The generated name keeps the original extension: the text after its last dot is the text after
      the last dot of the original name (the whole name when it has none). */
  lemma {:induction false} FilenameKeepsExtension(name: string, now: nat)
    ensures Text.StartsWith(ImageFilename(name, now), "blog-image-")
    ensures Text.LastPart(ImageFilename(name, now), '.') == Text.LastPart(name, '.')
    ensures '.' !in Text.LastPart(name, '.')
  {
    var ext := Text.LastPart(name, '.');
    var prefix := "blog-image-" + Text.NatToString(now);
    Text.SplitPartsAvoidSeparator(name, '.');
    Text.SplitAtSeparator(prefix, ext, '.');
    Text.SplitWithoutSeparator(ext, '.');
    assert ImageFilename(name, now) == prefix + ['.'] + ext;
    var parts := Text.Split(prefix, '.') + Text.Split(ext, '.');
    assert parts[|parts| - 1] == ext;
  }

  function ImageHandler(form: Fallible<Option<Entry>>, now: nat): (r: Response)
    ensures form.Threw? ==> r == ImageFailed
    ensures form.Ok? && Validate(form.value).Rejected? ==> r == Validate(form.value).response
    ensures form.Ok? && Validate(form.value).Failed? ==> r == ImageFailed
    ensures r.status == 200 <==> form.Ok? && Validate(form.value).Accepted?
    ensures r.status == 200 ==>
      var f := Validate(form.value).file;
      r.body == JObj(map["url" := JStr(Placeholder), "filename" := JStr(ImageFilename(f.name, now)),
                         "size" := JNum(f.size), "type" := JStr(f.kind)])
  {
    match form
    case Threw => ImageFailed
    case Ok(entry) =>
      match Validate(entry)
      case Rejected(response) => response
      case Failed => ImageFailed
      case Accepted(f) =>
        Reply(200, JObj(map["url" := JStr(Placeholder), "filename" := JStr(ImageFilename(f.name, now)),
                            "size" := JNum(f.size), "type" := JStr(f.kind)]))
  }

  /** Every accepted upload gets the same URL, whatever the file. */
  lemma PlaceholderForEveryFile(a: File, b: File, now: nat, later: nat)
    requires Validate(Some(FileEntry(a))).Accepted? && Validate(Some(FileEntry(b))).Accepted?
    ensures ImageHandler(Ok(Some(FileEntry(a))), now).body.fields["url"] ==
            ImageHandler(Ok(Some(FileEntry(b))), later).body.fields["url"] == JStr(Placeholder)
  {
  }
}
