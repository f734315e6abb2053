/** `process_citations` and the loader it calls: collect the S3 locator of
    every retrieved reference of every citation, map each distinct locator to
    its side-car metadata locator, and load each side-car once, in the order
    the locators were first seen. The object-store read is a parameter. */
module Citations {
  import opened Wrappers
  import opened Strings
  import opened S3Uris

  const MetadataSuffix := ".metadata.json"

  datatype S3Location = S3Location(uri: string)

  /** A reference's `location`; `s3Location` is absent for other kinds of
      source. */
  datatype Location = Location(s3Location: Option<S3Location>)

  datatype Reference = Reference(contentText: string, location: Option<Location>)

  datatype Citation = Citation(generatedText: string, retrievedReferences: seq<Reference>)

  /** The failures of reading one object: missing or partial credentials,
      a client error from the store (no such bucket or key, access denied),
      and a body that is not UTF-8 JSON. */
  datatype FetchError = CredentialsUnavailable | ClientError | MalformedDocument

  /** What `load_s3_to_json` raises: the URI check's `ValueError`, or a
      failure of the read itself. */
  datatype LoadError = InvalidUri | FetchFailed(cause: FetchError)

  /** `s3.get_object` followed by reading, decoding and parsing the body,
      for a bucket and a key; `J` stands for the parsed JSON document. */
  type Fetcher<J> = (string, string) -> Result<J, FetchError>

  /** `load_s3_to_json`: parse the URI, then read the object it names. */
  function LoadS3ToJson<J>(fetch: Fetcher<J>, uri: string): (r: Result<J, LoadError>)
    ensures r == Failure(InvalidUri) <==> ParseS3Uri(uri).Failure?
    ensures ParseS3Uri(uri).Success? ==>
      var loc := ParseS3Uri(uri).value;
      match fetch(loc.bucket, loc.key)
      case Success(doc) => r == Success(doc)
      case Failure(e) => r == Failure(FetchFailed(e))
  {
    match ParseS3Uri(uri)
    case Failure(_) => Failure(InvalidUri)
    case Success(loc) =>
      match fetch(loc.bucket, loc.key)
      case Success(doc) => Success(doc)
      case Failure(e) => Failure(FetchFailed(e))
  }

  // ---------------------------------------------------------------------
  // Reference definitions of the locators a response cites

  /** The locator of a reference that has `location.s3Location`. */
  function LocatorOf(rf: Reference): Option<string> {
    if rf.location.Some? && rf.location.value.s3Location.Some? then Some(rf.location.value.s3Location.value.uri)
    else None
  }

  /** `u` is the locator of some reference of some citation. */
  ghost predicate Cited(cs: seq<Citation>, u: string) {
    exists i, j | 0 <= i < |cs| && 0 <= j < |cs[i].retrievedReferences| ::
      LocatorOf(cs[i].retrievedReferences[j]) == Some(u)
  }

  /** The locators of a list of references, in order, repeats included. */
  function RefLocators(refs: seq<Reference>): seq<string> {
    if |refs| == 0 then []
    else
      var last := refs[|refs| - 1];
      RefLocators(refs[..|refs| - 1]) + (if LocatorOf(last).Some? then [LocatorOf(last).value] else [])
  }

  lemma {:induction false} RefLocatorsMembers(refs: seq<Reference>, u: string)
    ensures u in RefLocators(refs) <==> exists j | 0 <= j < |refs| :: LocatorOf(refs[j]) == Some(u)
  {
    if |refs| > 0 {
      var init := refs[..|refs| - 1];
      RefLocatorsMembers(init, u);
      assert forall j | 0 <= j < |init| :: init[j] == refs[j];
    }
  }

  /** One more reference adds its locator, if it has one, at the end. */
  lemma RefLocatorsSnoc(refs: seq<Reference>, j: nat)
    requires j < |refs|
    ensures RefLocators(refs[..j + 1])
         == RefLocators(refs[..j]) + (if LocatorOf(refs[j]).Some? then [LocatorOf(refs[j]).value] else [])
  {
    assert refs[..j + 1][..j] == refs[..j];
  }

  /** The locators of all references of all citations, in scan order,
      repeats included. */
  function ScanLocators(cs: seq<Citation>): seq<string> {
    if |cs| == 0 then []
    else ScanLocators(cs[..|cs| - 1]) + RefLocators(cs[|cs| - 1].retrievedReferences)
  }

  lemma {:induction false} ScanLocatorsMembers(cs: seq<Citation>, u: string)
    ensures u in ScanLocators(cs) <==> Cited(cs, u)
  {
    if |cs| > 0 {
      var init := cs[..|cs| - 1];
      var refs := cs[|cs| - 1].retrievedReferences;
      ScanLocatorsMembers(init, u);
      assert forall i | 0 <= i < |init| :: init[i] == cs[i];
      if Cited(cs, u) {
        var i, j :| 0 <= i < |cs| && 0 <= j < |cs[i].retrievedReferences|
                    && LocatorOf(cs[i].retrievedReferences[j]) == Some(u);
        if i < |init| {
          assert Cited(init, u);
        } else {
          assert LocatorOf(refs[j]) == Some(u);
        }
      }
      RefLocatorsMembers(refs, u);
      if u in RefLocators(refs) {
        var j :| 0 <= j < |refs| && LocatorOf(refs[j]) == Some(u);
        assert LocatorOf(cs[|cs| - 1].retrievedReferences[j]) == Some(u);
      }
      if Cited(init, u) {
        var i, j :| 0 <= i < |init| && 0 <= j < |init[i].retrievedReferences|
                    && LocatorOf(init[i].retrievedReferences[j]) == Some(u);
        assert LocatorOf(cs[i].retrievedReferences[j]) == Some(u);
      }
    }
  }

  predicate NoDups(s: seq<string>) {
    forall a, b | 0 <= a < b < |s| :: s[a] != s[b]
  }

  /** Keep the first occurrence of every element: the key order of a Python
      dict filled by assigning each element in turn. */
  function Dedup(s: seq<string>): seq<string> {
    if |s| == 0 then []
    else
      var d := Dedup(s[..|s| - 1]);
      if s[|s| - 1] in d then d else d + [s[|s| - 1]]
  }

  /** `Dedup` keeps every element, adds none, and repeats none. */
  lemma {:induction false} DedupProperties(s: seq<string>)
    ensures forall u :: u in Dedup(s) <==> u in s
    ensures NoDups(Dedup(s))
  {
    if |s| > 0 {
      var init := s[..|s| - 1];
      DedupProperties(init);
      assert s == init + [s[|s| - 1]];
    }
  }

  // ---------------------------------------------------------------------
  // process_citations

  /** The locator table as far as it has been filled: keys in insertion
      order without repeats, and each key mapped to its side-car locator. */
  ghost predicate WellFormedTable(rref: map<string, string>, order: seq<string>) {
    && NoDups(order)
    && (forall u :: u in rref <==> u in order)
    && (forall u | u in rref :: rref[u] == u + MetadataSuffix)
  }

  /** Recording one more locator keeps the table well formed and in
      first-occurrence order. */
  lemma RecordStep(rref: map<string, string>, order: seq<string>, base: seq<string>, u: string)
    requires WellFormedTable(rref, order) && order == Dedup(base)
    ensures var order' := if u in rref then order else order + [u];
      && WellFormedTable(rref[u := u + MetadataSuffix], order')
      && order' == Dedup(base + [u])
  {
    assert (base + [u])[..|base|] == base;
  }

  /** Lines 199-202 for one citation: record the locator of each of its
      references, in order. `base` is the scan so far. */
  method CollectFromReferences(refs: seq<Reference>, rref0: map<string, string>, order0: seq<string>, ghost base: seq<string>)
    returns (rref: map<string, string>, order: seq<string>)
    requires WellFormedTable(rref0, order0) && order0 == Dedup(base)
    ensures WellFormedTable(rref, order)
    ensures order == Dedup(base + RefLocators(refs))
  {
    rref, order := rref0, order0;
    var j := 0;
    assert base + RefLocators(refs[..0]) == base;
    while j < |refs|
      invariant 0 <= j <= |refs|
      invariant order == Dedup(base + RefLocators(refs[..j]))
      invariant WellFormedTable(rref, order)
    {
      ghost var prefix := base + RefLocators(refs[..j]);
      RefLocatorsSnoc(refs, j);
      match LocatorOf(refs[j]) {
        case Some(u) =>
          assert base + RefLocators(refs[..j + 1]) == prefix + [u];
          RecordStep(rref, order, prefix, u);
          if u !in rref {
            order := order + [u];
          }
          rref := rref[u := u + MetadataSuffix];
        case None =>
          assert base + RefLocators(refs[..j + 1]) == prefix;
      }
      j := j + 1;
    }
    assert refs[..|refs|] == refs;
  }

  /** Lines 197-202: scan every reference of every citation and record each
      S3 locator with its side-car locator. */
  method CollectLocators(cs: seq<Citation>) returns (rref: map<string, string>, order: seq<string>)
    ensures WellFormedTable(rref, order)
    ensures order == Dedup(ScanLocators(cs))
    ensures forall u :: u in rref <==> Cited(cs, u)
  {
    rref := map[];
    order := [];
    var i := 0;
    while i < |cs|
      invariant 0 <= i <= |cs|
      invariant order == Dedup(ScanLocators(cs[..i]))
      invariant WellFormedTable(rref, order)
    {
      assert cs[..i + 1][..i] == cs[..i];
      rref, order := CollectFromReferences(cs[i].retrievedReferences, rref, order, ScanLocators(cs[..i]));
      i := i + 1;
    }
    assert cs[..|cs|] == cs;
    DedupProperties(ScanLocators(cs));
    forall u ensures u in rref <==> Cited(cs, u) {
      ScanLocatorsMembers(cs, u);
    }
  }

  /** Lines 203-205: load the side-car of every recorded locator in table
      order. The first failing load ends the loop and its error propagates;
      `loaded` lists the keys whose side-car was requested. */
  method LoadMetadata<J>(rref: map<string, string>, order: seq<string>, fetch: Fetcher<J>)
    returns (metadata: Result<map<string, J>, LoadError>, loaded: seq<string>)
    requires WellFormedTable(rref, order)
    ensures |loaded| <= |order| && loaded == order[..|loaded|]
    ensures metadata.Success? ==> loaded == order
    ensures metadata.Success? ==> metadata.value.Keys == rref.Keys
    ensures metadata.Success? ==>
      forall u | u in metadata.value :: LoadS3ToJson(fetch, u + MetadataSuffix) == Success(metadata.value[u])
    ensures metadata.Failure? ==>
      && |loaded| > 0
      && LoadS3ToJson(fetch, loaded[|loaded| - 1] + MetadataSuffix) == Failure(metadata.error)
      && forall m | 0 <= m < |loaded| - 1 :: LoadS3ToJson(fetch, loaded[m] + MetadataSuffix).Success?
  {
    var acc: map<string, J> := map[];
    loaded := [];
    var k := 0;
    while k < |order|
      invariant 0 <= k <= |order|
      invariant loaded == order[..k]
      invariant forall u :: u in acc <==> u in order[..k]
      invariant forall u | u in acc :: LoadS3ToJson(fetch, u + MetadataSuffix) == Success(acc[u])
    {
      var u := order[k];
      loaded := loaded + [u];
      assert order[..k + 1] == order[..k] + [u];
      match LoadS3ToJson(fetch, rref[u])
      case Failure(e) =>
        metadata := Failure(e);
        forall m | 0 <= m < |loaded| - 1
          ensures LoadS3ToJson(fetch, loaded[m] + MetadataSuffix).Success?
        {
          assert loaded[m] in acc;
        }
        return;
      case Success(doc) =>
        acc := acc[u := doc];
      k := k + 1;
    }
    assert order[..|order|] == order;
    metadata := Success(acc);
  }

  /** `process_citations`: the locator table and the loaded side-cars. */
  method ProcessCitations<J>(cs: seq<Citation>, fetch: Fetcher<J>)
    returns (rref: map<string, string>, metadata: Result<map<string, J>, LoadError>, loaded: seq<string>)
    ensures forall u :: u in rref <==> Cited(cs, u)
    ensures forall u | u in rref :: rref[u] == u + MetadataSuffix
    ensures NoDups(loaded)
    ensures |loaded| <= |Dedup(ScanLocators(cs))| && loaded == Dedup(ScanLocators(cs))[..|loaded|]
    ensures forall u | u in loaded :: u in rref
    ensures metadata.Success? ==> (forall u :: u in loaded <==> u in rref) && metadata.value.Keys == rref.Keys
    ensures metadata.Success? ==>
      forall u | u in metadata.value :: LoadS3ToJson(fetch, rref[u]) == Success(metadata.value[u])
    ensures metadata.Failure? ==>
      && |loaded| > 0
      && LoadS3ToJson(fetch, rref[loaded[|loaded| - 1]]) == Failure(metadata.error)
      && forall m | 0 <= m < |loaded| - 1 :: LoadS3ToJson(fetch, rref[loaded[m]]).Success?
    ensures |cs| == 0 ==> rref == map[] && loaded == [] && metadata == Success(map[])
  {
    var order;
    rref, order := CollectLocators(cs);
    metadata, loaded := LoadMetadata(rref, order, fetch);
    forall u | u in loaded ensures u in rref {
      var m :| 0 <= m < |loaded| && loaded[m] == u;
      assert order[m] == u;
    }
  }

  // ---------------------------------------------------------------------
  // Where the side-car lives

  /** The side-car of `s3://bucket/key` is `key.metadata.json` in the same
      bucket. */
  lemma SideCarInSameBucket(u: string)
    requires ParseS3Uri(u).Success? && '/' in u[|Scheme|..]
    ensures var loc := ParseS3Uri(u).value;
      ParseS3Uri(u + MetadataSuffix) == Success(BucketKey(loc.bucket, loc.key + MetadataSuffix))
  {
    var loc := ParseS3Uri(u).value;
    var side := BucketKey(loc.bucket, loc.key + MetadataSuffix);
    assert FormatS3Uri(side) == u + MetadataSuffix;
    ParseFormatRoundTrip(side);
  }

  /** A locator without the `s3://` scheme cannot gain it from the suffix,
      so loading its side-car fails on the URI check before any read. */
  lemma BadSchemeFailsLoad<J>(u: string, fetch: Fetcher<J>)
    requires !StartsWith(u, Scheme)
    ensures LoadS3ToJson(fetch, u + MetadataSuffix) == Failure(InvalidUri)
  {
    var v := u + MetadataSuffix;
    if |u| < |Scheme| {
      assert v[|u|] == '.';
    }
  }
}
