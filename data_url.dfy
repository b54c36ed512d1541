/**
 * `data:` URLs as defined in section 3 of RFC 2397:
 *   dataurl := "data:" [ mediatype ] [ ";base64" ] "," data
 * The endpoint builds one from the uploaded file; the parser here is the
 * reading a receiver applies to it, and the round-trip lemma shows that the
 * receiver recovers the media type and the payload.
 */
module DataUrls {
  import opened Wrappers

  const Scheme := "data:"
  const Base64Marker := ";base64"

  /** The media type written into the URL: the declared one, or `image/jpeg` when none was declared. */
  function MediaTypeOf(declared: string): (m: string)
    ensures m != ""
    ensures declared != "" ==> m == declared
    ensures declared == "" ==> m == "image/jpeg"
  {
    if declared != "" then declared else "image/jpeg"
  }

  /**
   * The URL `data:<mediaType>;base64,<payload>`: the scheme, then the media
   * type, then the base64 marker and the comma, and the payload as the rest.
   */
  function DataUrl(mediaType: string, payload: string): (u: string)
    ensures |u| == |Scheme| + |mediaType| + |Base64Marker| + 1 + |payload|
    ensures u[..|Scheme|] == Scheme
    ensures u[|Scheme|..|Scheme| + |mediaType|] == mediaType
    ensures u[|Scheme| + |mediaType|..|Scheme| + |mediaType| + |Base64Marker| + 1] == Base64Marker + ","
    ensures u[|u| - |payload|..] == payload
  {
    Scheme + mediaType + Base64Marker + "," + payload
  }

  /** The three parts of a `data:` URL. */
  datatype DataUrlParts = DataUrlParts(mediaType: string, base64: bool, data: string)

  /** The position of the first `c` in `s`, if any. */
  function IndexOf(s: string, c: char): (r: Option<nat>)
    ensures r.None? <==> c !in s
    ensures r.Some? ==> r.value < |s| && s[r.value] == c && c !in s[..r.value]
    decreases |s|
  {
    if s == [] then None
    else if s[0] == c then Some(0)
    else
      var rest := IndexOf(s[1..], c);
      assert forall k :: 1 <= k < |s| ==> s[k] == s[1..][k - 1];
      if rest.None? then None
      else
        assert s[..rest.value + 1] == [s[0]] + s[1..][..rest.value];
        Some(rest.value + 1)
  }

  /** In a string whose prefix has no `c`, the first `c` is the one right after the prefix. */
  lemma IndexOfAfterPrefix(prefix: string, c: char, rest: string)
    requires c !in prefix
    ensures IndexOf(prefix + [c] + rest, c) == Some(|prefix|)
  {
    var s := prefix + [c] + rest;
    assert s[|prefix|] == c;
    assert s[..|prefix|] == prefix;
  }

  /** Splits a `data:` URL at its first comma into media type, encoding flag and data. */
  function ParseDataUrl(u: string): (parts: Option<DataUrlParts>) {
    if |u| < |Scheme| || u[..|Scheme|] != Scheme then None
    else
      var rest := u[|Scheme|..];
      match IndexOf(rest, ',')
      case None => None
      case Some(i) =>
        var header := rest[..i];
        var data := rest[i + 1..];
        if |header| >= |Base64Marker| && header[|header| - |Base64Marker|..] == Base64Marker then
          Some(DataUrlParts(header[..|header| - |Base64Marker|], true, data))
        else
          Some(DataUrlParts(header, false, data))
  }

  /** A URL built from a media type without commas parses back to that media type and payload. */
  lemma {:induction false} DataUrlRoundTrip(mediaType: string, payload: string)
    requires ',' !in mediaType
    ensures ParseDataUrl(DataUrl(mediaType, payload)) == Some(DataUrlParts(mediaType, true, payload))
  {
    var header := mediaType + Base64Marker;
    var rest := header + [','] + payload;
    var u := Scheme + rest;
    assert DataUrl(mediaType, payload) == u;
    assert u[..|Scheme|] == Scheme && u[|Scheme|..] == rest;
    assert ',' !in header;
    IndexOfAfterPrefix(header, ',', payload);
    assert rest[..|header|] == header && rest[|header| + 1..] == payload;
    assert header[|header| - |Base64Marker|..] == Base64Marker;
    assert header[..|header| - |Base64Marker|] == mediaType;
  }
}
