/** The upload middleware: the MIME filter and the size limit. */
module Upload {

  /** The MIME types the filter lets through, in its own order. */
  const AllowedTypes: seq<string> := ["image/jpeg", "image/png", "application/pdf"]

  /** `5 * 1024 * 1024` bytes. */
  const MaxFileSize: nat := 5 * 1024 * 1024

  lemma MaxFileSizeValue()
    ensures MaxFileSize == 5242880
  {
  }

  /** One call of the filter's callback `cb`. */
  datatype Callback = Rejected(message: string) | Accepted

  const InvalidTypeMessage := "Invalid file type. Only JPEG, PNG and PDF allowed."

  /** `fileFilter` as written: the error callback for a disallowed type has no
      `return` after it, so `cb(null, true)` runs for every file. */
  function FileFilter(mimetype: string): (calls: seq<Callback>)
    ensures mimetype in AllowedTypes <==> calls == [Accepted]
    ensures mimetype !in AllowedTypes <==> calls == [Rejected(InvalidTypeMessage), Accepted]
    ensures calls[|calls| - 1] == Accepted
  {
    (if mimetype !in AllowedTypes then [Rejected(InvalidTypeMessage)] else []) + [Accepted]
  }

  /** A plain-text file is reported twice: first refused, then accepted. */
  lemma FileFilterCallsBackTwice()
    ensures FileFilter("text/plain") == [Rejected(InvalidTypeMessage), Accepted]
    ensures |FileFilter("text/plain")| == 2
  {
    assert "text/plain" != AllowedTypes[0] && "text/plain" != AllowedTypes[1] && "text/plain" != AllowedTypes[2];
  }

  /** The filter as evidently intended: exactly one callback, refusing exactly the
      disallowed types. */
  function FileFilterIntended(mimetype: string): (calls: seq<Callback>)
    ensures |calls| == 1
    ensures calls[0] == Accepted <==> mimetype in AllowedTypes
    ensures calls[0].Rejected? ==> calls[0].message == InvalidTypeMessage
  {
    if mimetype !in AllowedTypes then [Rejected(InvalidTypeMessage)] else [Accepted]
  }

  /** The two agree on every allowed type, and the intended one's only callback is
      the first callback of the one as written. */
  lemma FileFilterIntendedAgrees(mimetype: string)
    ensures FileFilterIntended(mimetype)[0] == FileFilter(mimetype)[0]
    ensures mimetype in AllowedTypes ==> FileFilterIntended(mimetype) == FileFilter(mimetype)
  {
  }
}
