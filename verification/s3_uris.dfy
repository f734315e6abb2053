/** The URI-parsing prefix of `load_s3_to_json`: check the `s3://` scheme,
    then split the rest at its first `/` into bucket and key. */
module S3Uris {
  import opened Wrappers
  import opened Strings

  const Scheme := "s3://"

  datatype BucketKey = BucketKey(bucket: string, key: string)

  /** `ValueError("Invalid S3 URI")`. */
  datatype UriError = InvalidS3Uri

  /** Split `s3://bucket/key`. `split('/', 1)` cuts at the first `/`; when
      there is none the key is the empty join of no parts. */
  function ParseS3Uri(uri: string): (r: Result<BucketKey, UriError>)
    ensures r.Failure? <==> !StartsWith(uri, Scheme)
    ensures r.Success? ==> '/' !in r.value.bucket
    ensures r.Success? && '/' in uri[|Scheme|..] ==> Scheme + r.value.bucket + "/" + r.value.key == uri
    ensures r.Success? && '/' !in uri[|Scheme|..] ==> r.value.key == "" && r.value.bucket == uri[|Scheme|..]
  {
    if !StartsWith(uri, Scheme) then Failure(InvalidS3Uri)
    else
      var rest := uri[|Scheme|..];
      match IndexOf(rest, '/')
      case None => Success(BucketKey(rest, ""))
      case Some(i) =>
        RejoinAtSlash(uri, i);
        Success(BucketKey(rest[..i], rest[i + 1..]))
  }

  /** Cutting the text after the scheme at a `/` and joining the parts back
      with `/` gives the URI again. */
  lemma RejoinAtSlash(uri: string, i: nat)
    requires StartsWith(uri, Scheme)
    requires i < |uri| - |Scheme| && uri[|Scheme| + i] == '/'
    ensures var rest := uri[|Scheme|..]; Scheme + rest[..i] + "/" + rest[i + 1..] == uri
  {
    var rest := uri[|Scheme|..];
    assert rest == rest[..i] + "/" + rest[i + 1..];
    assert uri == uri[..|Scheme|] + rest;
  }

  /** The inverse direction: the URI naming a bucket and key. */
  function FormatS3Uri(loc: BucketKey): (uri: string)
    ensures StartsWith(uri, Scheme)
    ensures |uri| == |Scheme| + |loc.bucket| + 1 + |loc.key|
  {
    Scheme + loc.bucket + "/" + loc.key
  }

  /** Parsing recovers any bucket without `/` and any key, even one that
      itself contains `/`. */
  lemma ParseFormatRoundTrip(loc: BucketKey)
    requires '/' !in loc.bucket
    ensures ParseS3Uri(FormatS3Uri(loc)) == Success(loc)
  {
    var uri := FormatS3Uri(loc);
    var rest := loc.bucket + "/" + loc.key;
    assert uri[..|Scheme|] == Scheme;
    assert uri[|Scheme|..] == rest;
    assert rest[..|loc.bucket|] == loc.bucket;
    IndexOfUnique(rest, '/', |loc.bucket|);
    assert rest[|loc.bucket| + 1..] == loc.key;
  }

  /** Formatting a parsed URI gives it back when it had a `/` after the
      scheme; without one the parsed location names `<uri>/` instead. */
  lemma FormatParseRoundTrip(uri: string)
    requires ParseS3Uri(uri).Success?
    ensures '/' in uri[|Scheme|..] ==> FormatS3Uri(ParseS3Uri(uri).value) == uri
    ensures '/' !in uri[|Scheme|..] ==> FormatS3Uri(ParseS3Uri(uri).value) == uri + "/"
  {
    if '/' !in uri[|Scheme|..] {
      assert uri == Scheme + uri[|Scheme|..];
    }
  }
}
