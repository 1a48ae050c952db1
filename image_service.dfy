/**
 * The image gateway (services/image.service.ts): the file name derived from the local path,
 * the multipart form, the message of a failed upload and the URL taken from a successful
 * one. The HTTP exchange and `JSON.parse` of the error body are inputs.
 */
module ImageService {
  import opened Wrappers
  import opened Js
  import opened Http

  // ---------------------------------------------------------------- paths

  /** `s.split("/")`: the pieces between slashes, at least one, possibly empty. */
  function Split(s: string): (parts: seq<string>)
    ensures |parts| >= 1
    ensures forall i :: 0 <= i < |parts| ==> '/' !in parts[i]
  {
    if s == [] then [""]
    else
      var rest := Split(s[1..]);
      if s[0] == '/' then [""] + rest
      else [[s[0]] + rest[0]] + rest[1..]
  }

  /** `parts.join("/")`, the partner of `Split`. */
  function Join(parts: seq<string>): string
    requires |parts| >= 1
  {
    if |parts| == 1 then parts[0] else parts[0] + "/" + Join(parts[1..])
  }

  /** Joining the pieces gives back the path. */
  lemma {:induction false} JoinSplit(s: string)
    ensures Join(Split(s)) == s
  {
    if s != [] {
      var rest := Split(s[1..]);
      JoinSplit(s[1..]);
      if s[0] == '/' {
        assert Split(s) == [""] + rest;
        assert Join(Split(s)) == "" + "/" + Join(rest);
        assert s == [s[0]] + s[1..];
      } else {
        var parts := Split(s);
        assert parts == [[s[0]] + rest[0]] + rest[1..];
        if |rest| == 1 {
          assert Join(parts) == [s[0]] + rest[0];
        } else {
          assert parts[1..] == rest[1..];
          assert Join(parts) == [s[0]] + rest[0] + "/" + Join(rest[1..]);
        }
        assert s == [s[0]] + s[1..];
      }
    }
  }

  /** A slash-free prefix extends the first piece. */
  lemma {:induction false} SplitSlashFreePrefix(x: string, t: string)
    requires '/' !in x
    ensures Split(x + t) == [x + Split(t)[0]] + Split(t)[1..]
  {
    if x != [] {
      var tail := Split(t);
      assert x[0] in x;
      assert (x + t)[0] == x[0] && x[0] != '/';
      assert (x + t)[1..] == x[1..] + t;
      SplitSlashFreePrefix(x[1..], t);
      var rest := Split(x[1..] + t);
      assert rest[0] == x[1..] + tail[0] && rest[1..] == tail[1..];
      assert Split(x + t) == [[x[0]] + rest[0]] + rest[1..];
      assert [x[0]] + (x[1..] + tail[0]) == x + tail[0];
      assert [x[0]] + rest[0] == x + tail[0];
      assert Split(x + t) == [x + tail[0]] + tail[1..];
    } else {
      assert x + t == t;
      assert x + Split(t)[0] == Split(t)[0];
    }
  }

  /** Splitting at a slash splits the pieces: `Split(a + "/" + b) == Split(a) + Split(b)`. */
  lemma {:induction false} SplitAtSlash(a: string, b: string)
    ensures Split(a + "/" + b) == Split(a) + Split(b)
  {
    if a == [] {
      assert a + "/" + b == "/" + b;
      assert ("/" + b)[1..] == b;
    } else {
      var s := a + "/" + b;
      assert s[0] == a[0];
      assert s[1..] == a[1..] + "/" + b;
      SplitAtSlash(a[1..], b);
    }
  }

  /** Splitting the join of slash-free pieces gives back the pieces. */
  lemma {:induction false} SplitJoin(parts: seq<string>)
    requires |parts| >= 1
    requires forall i :: 0 <= i < |parts| ==> '/' !in parts[i]
    ensures Split(Join(parts)) == parts
  {
    SplitSlashFreePrefix(parts[0], "");
    assert parts[0] + "" == parts[0];
    if |parts| > 1 {
      SplitJoin(parts[1..]);
      SplitAtSlash(parts[0], Join(parts[1..]));
      assert parts == [parts[0]] + parts[1..];
    }
  }

  /** `localUri.split("/").pop()`: the text after the last slash. */
  function LastSegment(s: string): (seg: string)
    ensures '/' !in seg
    ensures '/' !in s ==> seg == s
  {
    var parts := Split(s);
    if '/' in s then parts[|parts| - 1]
    else
      SplitSlashFreePrefix(s, "");
      assert s + "" == s;
      parts[|parts| - 1]
  }

  /** The last segment of a non-empty path: the whole path when it has no slash, else that of its tail. */
  lemma LastSegmentCons(s: string)
    requires s != []
    ensures s[0] == '/' || '/' in s[1..] ==> LastSegment(s) == LastSegment(s[1..])
    ensures s[0] != '/' && '/' !in s[1..] ==> LastSegment(s) == s
  {
    var rest := Split(s[1..]);
    if s[0] == '/' {
      assert Split(s) == [""] + rest;
    } else if '/' in s[1..] {
      JoinSplit(s[1..]);
      assert |rest| > 1;
      assert Split(s) == [[s[0]] + rest[0]] + rest[1..];
    } else {
      assert '/' !in s by {
        assert s == [s[0]] + s[1..];
      }
      SplitSlashFreePrefix(s, "");
      assert s + "" == s;
    }
  }

  /** The last segment is a slash-free suffix of the path, preceded by a slash unless it is the whole path. */
  lemma {:induction false} LastSegmentIsSuffix(s: string)
    ensures '/' !in LastSegment(s)
    ensures |LastSegment(s)| <= |s| && s[|s| - |LastSegment(s)|..] == LastSegment(s)
    ensures |LastSegment(s)| < |s| ==> s[|s| - |LastSegment(s)| - 1] == '/'
  {
    if s != [] {
      LastSegmentCons(s);
      if s[0] == '/' || '/' in s[1..] {
        var last := LastSegment(s[1..]);
        LastSegmentIsSuffix(s[1..]);
        assert s[1..][|s[1..]| - |last|..] == s[|s| - |last|..];
        if |last| < |s| - 1 {
          assert s[1..][|s[1..]| - |last| - 1] == s[|s| - |last| - 1];
        }
      }
    }
  }

  /** The name used when the path ends in a slash or is empty. */
  const FallbackFileName: string := "photo.jpg"

  /** The upload's file name: the last path segment, or `photo.jpg` when that is empty. */
  function FileName(localUri: string): (name: string)
    ensures name != "" && '/' !in name
    ensures LastSegment(localUri) != "" ==> name == LastSegment(localUri)
    ensures LastSegment(localUri) == "" ==> name == FallbackFileName
    ensures name == FallbackFileName <==> LastSegment(localUri) == "" || LastSegment(localUri) == FallbackFileName
  {
    LastSegmentIsSuffix(localUri);
    var last := LastSegment(localUri);
    if last == "" then FallbackFileName else last
  }

  /** The file name of `dir/base` is `base`, and a path ending in a slash gets the fallback. */
  lemma FileNameOfPath(dir: string, base: string)
    requires '/' !in base
    ensures base != "" ==> FileName(dir + "/" + base) == base
    ensures base == "" ==> FileName(dir + "/" + base) == FallbackFileName
  {
    SplitAtSlash(dir, base);
    SplitSlashFreePrefix(base, "");
    assert base + "" == base;
  }

  // ---------------------------------------------------------------- request

  /** The file descriptor appended to the form. */
  datatype FilePart = FilePart(uri: string, name: string, mimeType: string)

  /** The form: the same descriptor under the fields "file" and "image". */
  function FormFields(localUri: string): (fields: seq<(string, FilePart)>)
    ensures |fields| == 2 && fields[0].0 == "file" && fields[1].0 == "image"
    ensures fields[0].1 == fields[1].1
    ensures fields[0].1.uri == localUri && fields[0].1.name == FileName(localUri)
    ensures fields[0].1.mimeType == "image/jpeg"
  {
    var file := FilePart(localUri, FileName(localUri), "image/jpeg");
    [("file", file), ("image", file)]
  }

  // ---------------------------------------------------------------- failure

  /** The fields of a JSON error body that are consulted, as `parsed?.field` reads them. */
  datatype ErrorJson = ErrorJson(message: Value, error: Value, title: Value, detail: Value)

  const DefaultMessage: string := "Error al subir la imagen"

  const QuotePrefix: string := "Error al subir la imagen: "

  /** `parsed?.message || parsed?.error || parsed?.title || parsed?.detail`. */
  function BackendMessage(p: ErrorJson): (v: Value)
    ensures Truthy(v) <==> Truthy(p.message) || Truthy(p.error) || Truthy(p.title) || Truthy(p.detail)
    ensures Truthy(p.message) ==> v == p.message
    ensures !Truthy(p.message) && Truthy(p.error) ==> v == p.error
    ensures !Truthy(p.message) && !Truthy(p.error) && Truthy(p.title) ==> v == p.title
    ensures !Truthy(p.message) && !Truthy(p.error) && !Truthy(p.title) ==> v == p.detail
  {
    Or(Or(Or(p.message, p.error), p.title), p.detail)
  }

  /** Whether a value is a string that `if (v && typeof v === "string")` accepts. */
  function IsNonEmptyString(v: Value): (b: bool)
    ensures b <==> Truthy(v) && v.Str?
  {
    v.Str? && v.s != ""
  }

  /**
   * The message of a failed upload: a parsed body contributes its backend message only when
   * that is a non-empty string; an unparsable body is quoted whole unless it is empty.
   */
  function UploadFailureMessage(text: string, parsed: Option<ErrorJson>): (m: string)
    ensures parsed.Some? && IsNonEmptyString(BackendMessage(parsed.value))
            ==> m == QuotePrefix + BackendMessage(parsed.value).s
    ensures parsed.Some? && !IsNonEmptyString(BackendMessage(parsed.value)) ==> m == DefaultMessage
    ensures parsed.None? && text != "" ==> m == QuotePrefix + text
    ensures parsed.None? && text == "" ==> m == DefaultMessage
  {
    match parsed
    case Some(p) =>
      var backend := BackendMessage(p);
      if IsNonEmptyString(backend) then QuotePrefix + backend.s else DefaultMessage
    case None =>
      if text != "" then QuotePrefix + text else DefaultMessage
  }

  /** A truthy `message` that is not a string hides every later field, even a string `error`. */
  lemma NonStringMessageSuppresses(text: string, p: ErrorJson)
    requires Truthy(p.message) && !p.message.Str?
    ensures UploadFailureMessage(text, Some(p)) == DefaultMessage
  {
  }

  /** The error of a failed upload: its status and the body text are attached. */
  function UploadFailure(status: int, text: string, parsed: Option<ErrorJson>): (e: Error)
    ensures e.status == Some(status) && e.details == Some(text) && e.responseStatus.None?
    ensures e.message == UploadFailureMessage(text, parsed)
  {
    Error(UploadFailureMessage(text, parsed), Some(status), Some(text), None)
  }

  // ---------------------------------------------------------------- success

  /** `json.data` as `?.url` sees it: an object with a `url` field, or anything else. */
  datatype DataField = NoData | DataObject(url: Value)

  /** The fields of a successful upload's body that are consulted. */
  datatype UploadBody = UploadBody(data: DataField, url: Value)

  /** `json?.data?.url ?? json?.url`. */
  function ResolveUrl(body: UploadBody): (v: Value)
    ensures body.data.DataObject? && !Nullish(body.data.url) ==> v == body.data.url
    ensures (body.data.NoData? || Nullish(body.data.url)) ==> v == body.url
  {
    var nested := if body.data.DataObject? then body.data.url else Undefined;
    Coalesce(nested, body.url)
  }

  const NoUrlMessage: string := "El backend no retornó una URL de imagen válida."

  /**
   * `uploadImage`'s result for a response and the outcome of parsing its error body. On an ok
   * status `response.json()` is read, and it throws when the body is not JSON.
   */
  function UploadImage(response: Response<Reply<UploadBody>>, parsed: Option<ErrorJson>): (r: Reply<Value>)
    ensures !IsOk(response.status) ==> r == Thrown(UploadFailure(response.status, response.text, parsed))
    ensures IsOk(response.status) && response.json.Thrown? ==> r == Thrown(response.json.error)
    ensures IsOk(response.status) && response.json.Ok? && Truthy(ResolveUrl(response.json.value))
            ==> r == Ok(ResolveUrl(response.json.value))
    ensures IsOk(response.status) && response.json.Ok? && !Truthy(ResolveUrl(response.json.value))
            ==> r == Thrown(Plain(NoUrlMessage))
    ensures r.Ok? ==> Truthy(r.value)
  {
    if !IsOk(response.status) then Thrown(UploadFailure(response.status, response.text, parsed))
    else
      match response.json
      case Thrown(e) => Thrown(e)
      case Ok(body) =>
        var url := ResolveUrl(body);
        if !Truthy(url) then Thrown(Plain(NoUrlMessage)) else Ok(url)
  }

  /** An empty `data.url` is present for `??`, so the top-level `url` is not consulted and the upload fails. */
  lemma EmptyNestedUrlDoesNotFallThrough(status: int, text: string, url: Value, parsed: Option<ErrorJson>)
    requires IsOk(status)
    ensures UploadImage(Response(status, text, Ok(UploadBody(DataObject(Str("")), url))), parsed) == Thrown(Plain(NoUrlMessage))
  {
  }
}
