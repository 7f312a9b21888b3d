/** The parts of the Express application that decide something: which uploads
    multer keeps, how a kept upload is named on disk, and how a thrown error
    becomes the HTTP response. */
module App {
  import opened Common

  /** The MIME types the upload filter lets through. */
  const ImageTypes: set<string> := {"image/png", "image/jpg", "image/jpeg"}

  /** What the filter passes to multer's callback: an error (never set here)
      and whether the file is kept. */
  datatype FilterVerdict = FilterVerdict(error: Option<AppError>, accept: bool)

  /** An uploaded multipart part as multer sees it. */
  datatype FilePart = FilePart(mimetype: string, originalName: string)

  /** The body the error handler sends. */
  datatype ErrorBody = ErrorBody(message: string, data: Option<seq<FieldError>>)
  datatype ErrorReply = ErrorReply(status: int, body: ErrorBody)

  /** Length of `Date.prototype.toISOString()` for years 0 to 9999,
      e.g. 2021-03-04T05:06:07.089Z. */
  const IsoLength := 24

  const ImageDirectory := "images"

  /** The multer file filter: the three image types by exact, case-sensitive
      comparison; anything else is dropped without an error. */
  function FileFilter(mimetype: string): (v: FilterVerdict)
    ensures v.error == None
    ensures v.accept <==> mimetype in ImageTypes
  {
    if mimetype == "image/png" || mimetype == "image/jpg" || mimetype == "image/jpeg" then
      FilterVerdict(None, true)
    else
      FilterVerdict(None, false)
  }

  /** The disk-storage file name: the upload time, a dash, the client's name. */
  function StoredFileName(timestamp: string, originalName: string): (name: string)
    ensures |name| == |timestamp| + 1 + |originalName|
    ensures name[..|timestamp|] == timestamp && name[|timestamp|] == '-'
    ensures name[|timestamp| + 1..] == originalName
  {
    timestamp + "-" + originalName
  }

  /** Reads a stored file name back into its timestamp and original name. */
  function SplitStoredName(name: string): (parts: Option<(string, string)>)
    ensures parts.Some? ==> |parts.value.0| == IsoLength
  {
    if |name| > IsoLength && name[IsoLength] == '-' then Some((name[..IsoLength], name[IsoLength + 1..]))
    else None
  }

  /** With an ISO timestamp the stored name loses nothing: both parts come back. */
  lemma StoredNameRoundTrip(timestamp: string, originalName: string)
    requires |timestamp| == IsoLength
    ensures SplitStoredName(StoredFileName(timestamp, originalName)) == Some((timestamp, originalName))
  {
  }

  /** Every name that splits is the stored name of its two parts. */
  lemma SplitStoredNameInverse(name: string)
    requires SplitStoredName(name).Some?
    ensures StoredFileName(SplitStoredName(name).value.0, SplitStoredName(name).value.1) == name
  {
    assert name == name[..IsoLength] + [name[IsoLength]] + name[IsoLength + 1..];
  }

  /** What `req.file` holds after multer: the path under `images` of a part the
      filter accepted, and nothing for a missing or rejected part. */
  function ReceivedFile(part: Option<FilePart>, timestamp: string): (path: Option<string>)
    ensures path.Some? <==> part.Some? && part.value.mimetype in ImageTypes
    ensures path.Some? ==> path.value == ImageDirectory + "/" + StoredFileName(timestamp, part.value.originalName)
  {
    match part
    case None => None
    case Some(p) =>
      if FileFilter(p.mimetype).accept then Some(ImageDirectory + "/" + StoredFileName(timestamp, p.originalName))
      else None
  }

  /** The final error middleware. JavaScript's `||` treats an unset and a zero
      status code alike, so both become 500; message and data pass unchanged. */
  function ErrorResponse(e: AppError): (r: ErrorReply)
    ensures r.body.message == e.message && r.body.data == e.data
    ensures r.status != 0
    ensures e.statusCode.Some? && e.statusCode.value != 0 ==> r.status == e.statusCode.value
    ensures r.status == 500 <==> e.statusCode.None? || e.statusCode.value in {0, 500}
  {
    var status := if e.statusCode.Some? && e.statusCode.value != 0 then e.statusCode.value else 500;
    ErrorReply(status, ErrorBody(e.message, e.data))
  }
}
