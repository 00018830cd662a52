/**
 * The request body as `get_input_body` (lines 639-685) hands it over, and the
 * content-type test that picks the urlencoded decoder (lines 479-481).
 */
module Body {

  /** Where nginx left the body: nowhere, in a temporary file, or in a chain of memory buffers. */
  datatype RequestBody = NoBody | InFile(fileName: string) | InMemory(buffers: seq<string>)

  /**
   * The body text: empty without a body, the temporary file's NAME when the
   * body was spooled to disk, and otherwise the first buffer followed by the
   * second, when there is one; buffers after the second are not read.
   */
  function BodyText(b: RequestBody): string
  {
    match b
    case NoBody => ""
    case InFile(name) => name
    case InMemory(bufs) =>
      if bufs == [] then "" else if |bufs| == 1 then bufs[0] else bufs[0] + bufs[1]
  }

  /** Only the first two buffers of a chain reach the body. */
  lemma LaterBuffersIgnored(bufs: seq<string>, more: seq<string>)
    requires |bufs| >= 2
    ensures BodyText(InMemory(bufs + more)) == BodyText(InMemory(bufs[..2]))
    ensures |BodyText(InMemory(bufs + more))| == |bufs[0]| + |bufs[1]|
  {
  }

  /** Copies `src` into `dst` from position `at` on. */
  method CopyInto(dst: array<char>, at: nat, src: string)
    requires at + |src| <= dst.Length
    modifies dst
    ensures dst[at..at + |src|] == src
    ensures forall k :: 0 <= k < dst.Length && !(at <= k < at + |src|) ==> dst[k] == old(dst[k])
  {
    for i := 0 to |src|
      invariant forall k :: 0 <= k < i ==> dst[at + k] == src[k]
      invariant forall k :: 0 <= k < dst.Length && !(at <= k < at + i) ==> dst[k] == old(dst[k])
    {
      dst[at + i] := src[i];
    }
  }

  /**
   * `get_input_body`: allocates `len + 1` bytes, copies one or two buffers in
   * and terminates with a NUL; the returned string is the first `len` bytes.
   */
  method GetInputBody(b: RequestBody) returns (body: string)
    ensures body == BodyText(b)
  {
    match b {
      case NoBody => body := "";
      case InFile(name) => body := name;
      case InMemory(bufs) =>
        if bufs == [] {
          body := "";
        } else if |bufs| == 1 {
          var len := |bufs[0]|;
          var p := new char[len + 1];
          CopyInto(p, 0, bufs[0]);
          p[len] := 0 as char;
          body := p[..len];
        } else {
          var len := |bufs[0]| + |bufs[1]|;
          var p := new char[len + 1];
          CopyInto(p, 0, bufs[0]);
          CopyInto(p, |bufs[0]|, bufs[1]);
          p[len] := 0 as char;
          assert p[..len] == p[0..|bufs[0]|] + p[|bufs[0]|..len];
          body := p[..len];
        }
    }
  }

  const FORM_URLENCODED: string := "application/x-www-form-urlencoded"

  /** ASCII lower-casing as `ngx_strncasecmp` applies it. */
  function LowerAscii(c: char): (l: char)
    ensures 'A' <= c <= 'Z' ==> 'a' <= l <= 'z' && l as int == c as int + 32
    ensures !('A' <= c <= 'Z') ==> l == c
  {
    if 'A' <= c <= 'Z' then (c as int + 32) as char else c
  }

  /**
   * The urlencoded decoder is chosen when the content type is at least as long
   * as `application/x-www-form-urlencoded` and starts with it, ignoring ASCII
   * case; every other body goes to the multipart parser.
   */
  predicate IsUrlEncoded(contentType: string)
  {
    |contentType| >= |FORM_URLENCODED|
    && forall i :: 0 <= i < |FORM_URLENCODED| ==> LowerAscii(contentType[i]) == FORM_URLENCODED[i]
  }

  /** The test depends only on the prefix, so parameters after the type do not matter. */
  lemma UrlEncodedByPrefix(contentType: string, rest: string)
    requires IsUrlEncoded(contentType)
    ensures IsUrlEncoded(contentType + rest)
  {
    assert forall i :: 0 <= i < |FORM_URLENCODED| ==> (contentType + rest)[i] == contentType[i];
  }

  /** A content type shorter than the urlencoded name always goes to the multipart parser. */
  lemma ShortTypeIsMultipart(contentType: string)
    requires |contentType| < |FORM_URLENCODED|
    ensures !IsUrlEncoded(contentType)
  {
  }
}
