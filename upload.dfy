/**
 * The checks `collect_profile_image` and `handle_payment_screenshot` both
 * apply to an uploaded photo or document before forwarding it to the
 * private channel.
 */
module Upload {
  import opened Wrappers
  import opened Text

  /** 5 MiB. */
  const MaxSize: int := 5 * 1024 * 1024
  const AllowedMimeTypes: seq<string> := ["image/jpeg", "image/png", "application/pdf"]
  const AllowedExtensions: seq<string> := ["jpg", "jpeg", "png", "pdf"]

  /** What a message carries. `size` is the `file_size` Telegram reports
      (it may be missing); a document also has a MIME type and a file name,
      each possibly missing. */
  datatype Media =
    | NoMedia
    | Photo(size: Option<int>)
    | Document(size: Option<int>, mimeType: Option<string>, fileName: Option<string>)

  /** The outcome of the checks: accepted, refused as too large, refused as
      the wrong type, or failed (comparing a missing size raises). */
  datatype Verdict = Accepted | TooLarge | InvalidType | Failed

  /** `file_name.split('.')[-1].lower()`: the lower-cased text after the
      last dot, or the whole name lower-cased when it has no dot. */
  function Extension(name: string): (r: string)
    ensures '.' !in r
    ensures forall i :: 0 <= i < |r| ==> !IsUpper(r[i])
    ensures |r| <= |name| && r == Lower(name[|name| - |r|..]) && '.' !in name[|name| - |r|..]
    ensures |r| < |name| ==> name[|name| - |r| - 1] == '.'
  {
    LowerIdempotent(LastPiece(name, '.'));
    Lower(LastPiece(name, '.'))
  }

  /** The checks in the order the handlers run them. */
  function Check(m: Media): (v: Verdict)
    ensures v == Accepted <==> Acceptable(m)
    ensures v == TooLarge ==> !m.NoMedia? && m.size.Some? && m.size.value > MaxSize
    ensures v == Failed ==> !m.NoMedia? && m.size.None?
    ensures m.NoMedia? ==> v == InvalidType
  {
    match m
    case NoMedia => InvalidType
    case Photo(size) =>
      if size.None? then Failed
      else if size.value > MaxSize then TooLarge
      else Accepted
    case Document(size, mime, name) =>
      if size.None? then Failed
      else if size.value > MaxSize then TooLarge
      else if mime.None? || mime.value !in AllowedMimeTypes then InvalidType
      else if name.Some? && name.value != "" && Extension(name.value) !in AllowedExtensions then InvalidType
      else Accepted
  }

  /** When an upload is acceptable, stated without the order of the checks:
      a known size of at most 5 MiB and, for a document, an allowed MIME type
      and, when it has a non-empty name, an allowed extension. */
  predicate Acceptable(m: Media) {
    !m.NoMedia? && m.size.Some? && m.size.value <= MaxSize
    && (m.Document? ==>
          m.mimeType.Some? && m.mimeType.value in AllowedMimeTypes
          && (m.fileName.None? || m.fileName.value == ""
              || Extension(m.fileName.value) in AllowedExtensions))
  }

  /** The message filter `PHOTO | Document.IMAGE | Document.MimeType("application/pdf")`
      that routes an upload to either handler. */
  predicate IsImageOrPdf(m: Media) {
    m.Photo? || (m.Document? && m.mimeType.Some?
                 && (StartsWith(m.mimeType.value, "image/") || m.mimeType.value == "application/pdf"))
  }

  /** Every upload the checks accept also passes the routing filter, so the
      filter never hides an acceptable file. */
  lemma AcceptedPassesFilter(m: Media)
    requires Check(m) == Accepted
    ensures IsImageOrPdf(m)
  {
    if m.Document? {
      var t := m.mimeType.value;
      assert t == "image/jpeg" || t == "image/png" || t == "application/pdf";
      if t != "application/pdf" {
        assert t[..6] == "image/";
      }
    }
  }

  /** A document named with an upper-case extension is judged like its
      lower-case twin. */
  lemma ExtensionIgnoresCase(name: string)
    ensures Extension(Lower(name)) == Extension(name)
  {
    var p := LastPiece(name, '.');
    var q := LastPiece(Lower(name), '.');
    LastPieceOfLower(name);
    LowerIdempotent(p);
  }

  lemma LastPieceOfLower(s: string)
    ensures LastPiece(Lower(s), '.') == Lower(LastPiece(s, '.'))
  {
    var p := LastPiece(s, '.');
    var ls := Lower(s);
    LowerSuffix(s, |s| - |p|);
    assert ls[|ls| - |p|..] == Lower(p);
    assert '.' !in Lower(p) by {
      forall i | 0 <= i < |p| ensures Lower(p)[i] != '.' {
        assert p[i] != '.';
      }
    }
    if |p| < |s| {
      assert ls[|ls| - |p| - 1] == LowerChar(s[|s| - |p| - 1]) == '.';
    }
    LastPieceUnique(ls, '.', Lower(p));
  }

  lemma LowerSuffix(s: string, j: nat)
    requires j <= |s|
    ensures Lower(s)[j..] == Lower(s[j..])
  {
  }
}
