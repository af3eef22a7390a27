/** The file description both upload forms build from a picked image's URI: the extension
    after the last ".", a file name with that extension and an image MIME type. */
module UploadMeta {
  import opened Text

  /** `uri.split(".")` and its last part: the text after the last ".", or the whole URI when it has none. */
  function FileType(uri: string): (ext: string)
    ensures '.' !in ext
    ensures ext == uri || EndsWith(uri, "." + ext)
    ensures '.' !in uri ==> ext == uri
  {
    LastField(uri, '.');
    Last(Split(uri, '.'))
  }

  /** `${base}.${ext}`: "post.png", "avatar.jpg". */
  function FileName(base: string, ext: string): string {
    base + "." + ext
  }

  /** `image/${ext === "jpg" ? "jpeg" : ext}`. */
  function MimeType(ext: string): (mime: string)
    ensures StartsWith(mime, "image/")
    ensures ext == "jpg" ==> mime == "image/jpeg"
    ensures ext != "jpg" ==> mime == "image/" + ext
  {
    "image/" + (if ext == "jpg" then "jpeg" else ext)
  }

  /** The name carries the extension: reading the extension back from the file name gives it again. */
  lemma FileNameKeepsType(base: string, uri: string)
    ensures FileType(FileName(base, FileType(uri))) == FileType(uri)
  {
    var ext := FileType(uri);
    assert FileName(base, ext) == base + ['.'] + ext;
    LastAfterSeparator(base, '.', ext);
  }

  /** Two extensions get the same MIME type only when they are equal or are "jpg" and "jpeg". */
  lemma MimeTypeDistinguishes(a: string, b: string)
    requires MimeType(a) == MimeType(b)
    ensures a == b || (a == "jpg" && b == "jpeg") || (a == "jpeg" && b == "jpg")
  {
    var ta := if a == "jpg" then "jpeg" else a;
    var tb := if b == "jpg" then "jpeg" else b;
    assert MimeType(a)[6..] == ta && MimeType(b)[6..] == tb;
  }
}
