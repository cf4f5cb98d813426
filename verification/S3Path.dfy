/** The path of a request to object storage: what is signed is what is sent. */
module S3Path {
  import opened Prelude
  import opened UriEncoding

  /** Where requests go: a custom endpoint, or AWS. */
  datatype Service = Endpoint | Aws

  /** The path of a URL, and the encoded form it is to be sent in. */
  datatype Url = Url(path: string, rawPath: string)

  predicate Allowed(c: char) {
    'a' <= c <= 'z' || 'A' <= c <= 'Z' || '0' <= c <= '9' || c == '.' || c == '-' || c == '_'
  }

  predicate AllowedName(bucket: string) { forall i :: 0 <= i < |bucket| ==> Allowed(bucket[i]) }

  method CheckBucket(bucket: string) returns (ok: bool)
    ensures ok <==> AllowedName(bucket)
  {
    for i := 0 to |bucket|
      invariant forall j :: 0 <= j < i ==> Allowed(bucket[j])
    {
      if bucket[i] == ':' || bucket[i] == '[' || bucket[i] == ']' { return false; }
      if !Allowed(bucket[i]) { return false; }
    }
    ok := true;
  }

  /** The bucket goes into the path, not into the host name. */
  predicate PathStyle(service: Service, bucket: string) { service.Endpoint? || '.' in bucket }

  function ObjectUrl(service: Service, bucket: string, key: string): Url
    requires Bytes(bucket) && Bytes(key)
  {
    if PathStyle(service, bucket)
    then Url(['/'] + (bucket + (['/'] + key)), ['/'] + (Encoded(bucket, true) + (['/'] + Encoded(key, false))))
    else Url(['/'] + key, ['/'] + Encoded(key, false))
  }

  // What net/url makes of it; escape is its default encoding of a path, whatever that is.

  predicate ValidRaw(s: string) {
    forall i :: 0 <= i < |s| ==> Unreserved(s[i]) || s[i] in "%/!$&'()*+,;=:@[]"
  }

  predicate IsStar(path: string) { |path| == 1 && path[0] == '*' }

  /** The path written into a request line. */
  function EscapedPath(u: Url, escape: string -> string): string {
    if |u.rawPath| > 0 && ValidRaw(u.rawPath) && Decoded(u.rawPath) == Some(u.path) then u.rawPath
    else if IsStar(u.path) then u.path
    else escape(u.path)
  }

  /** The URL a request has after its text was parsed again. */
  function Reparsed(u: Url, escape: string -> string): Option<Url> {
    var p := EscapedPath(u, escape);
    match Decoded(p)
    case None => None
    case Some(path) => Some(Url(path, if escape(path) == p then [] else p))
  }

  /** What the signature covers. */
  function CanonicalPath(path: string): string
    requires Bytes(path)
  {
    if |path| == 0 then ['/'] else Encoded(path, false)
  }

  lemma SlashItself(encodeSlash: bool)
    ensures Bytes(['/']) && Encoded(['/'], false) == ['/']
  {
    assert Encoded(['/'], false) == EncodedByte('/', false) + Encoded(['/'][1..], false);
    assert ['/'][1..] == [];
    assert ['/'] + [] == ['/'];
  }

  /** The encoded form an object's URL carries is its path with the slashes between bucket and key kept. */
  lemma RawPathIs(service: Service, bucket: string, key: string)
    requires Bytes(bucket) && Bytes(key)
    ensures var u := ObjectUrl(service, bucket, key);
      && Bytes(u.path) && |u.path| > 0
      && Encoded(u.path, false)
         == if PathStyle(service, bucket) then ['/'] + (Encoded(bucket, false) + (['/'] + Encoded(key, false))) else u.rawPath
  {
    hide Encoded;
    SlashItself(false);
    EncodedOfBoth(['/'], key, false);
    EncodedOfBoth(bucket, ['/'] + key, false);
    EncodedOfBoth(['/'], bucket + (['/'] + key), false);
  }

  lemma {:induction false} DecodedOfBoth(a: string, b: string)
    requires Bytes(a)
    ensures Decoded(b).Some? ==> Decoded(Encoded(a, true) + b) == Some(a + Decoded(b).value)
  {
    hide EncodedByte, Decoded;
    if |a| == 0 {
      assert Encoded(a, true) + b == b && Decoded(b).Some? ==> a + Decoded(b).value == Decoded(b).value;
    } else {
      DecodedOfBoth(a[1..], b);
      var e, r := EncodedByte(a[0], true), Encoded(a[1..], true);
      assert (e + r) + b == e + (r + b);
      DecodedOfByte(a[0], true, r + b);
      if Decoded(b).Some? { assert [a[0]] + (a[1..] + Decoded(b).value) == a + Decoded(b).value; }
    }
  }

  lemma DecodedOfSlash(b: string)
    ensures Decoded(b).Some? ==> Decoded(['/'] + b) == Some(['/'] + Decoded(b).value)
  {
    assert (['/'] + b)[1..] == b;
  }

  /** Whatever the bucket and the key, the encoded form is one net/url uses, and it decodes to the path. */
  lemma RawPathIsUsed(service: Service, bucket: string, key: string, escape: string -> string)
    requires Bytes(bucket) && Bytes(key)
    ensures var u := ObjectUrl(service, bucket, key);
      EscapedPath(u, escape) == u.rawPath && Decoded(u.rawPath) == Some(u.path)
  {
    hide Encoded, Decoded;
    DecodedOfEncoded(key, false);
    DecodedOfSlash(Encoded(key, false));
    DecodedOfBoth(bucket, ['/'] + Encoded(key, false));
    DecodedOfSlash(Encoded(bucket, true) + (['/'] + Encoded(key, false)));
    EncodedIsClean(key, false);
    EncodedIsClean(bucket, true);
  }

  /** Parsing the URL's text again changes neither the path nor the form it is sent in. */
  lemma ReparsedIsSame(u: Url, escape: string -> string)
    requires EscapedPath(u, escape) == u.rawPath && |u.rawPath| > 0 && ValidRaw(u.rawPath)
    requires Decoded(u.rawPath) == Some(u.path) && !IsStar(u.path)
    ensures var again := Reparsed(u, escape); again.Some? && again.value.path == u.path && EscapedPath(again.value, escape) == u.rawPath
  {
  }

  /** The path that is signed is the path that is sent, exactly when no slash stands in a bucket name of the path. */
  lemma SignedIsSent(service: Service, bucket: string, key: string, escape: string -> string)
    requires Bytes(bucket) && Bytes(key)
    ensures var sent := Reparsed(ObjectUrl(service, bucket, key), escape);
      && sent.Some? && sent.value.path == ObjectUrl(service, bucket, key).path && Bytes(sent.value.path)
      && (CanonicalPath(sent.value.path) == EscapedPath(sent.value, escape)
          <==> !PathStyle(service, bucket) || '/' !in bucket)
  {
    hide Encoded, Decoded, Bytes;
    var u := ObjectUrl(service, bucket, key);
    RawPathIs(service, bucket, key);
    RawPathIsUsed(service, bucket, key, escape);
    RawPathIsValid(service, bucket, key);
    ReparsedIsSame(u, escape);
    SlashCost(bucket);
  }

  lemma RawPathIsValid(service: Service, bucket: string, key: string)
    requires Bytes(bucket) && Bytes(key)
    ensures var u := ObjectUrl(service, bucket, key); |u.rawPath| > 0 && ValidRaw(u.rawPath) && !IsStar(u.path)
  {
    hide Encoded;
    EncodedIsClean(key, false);
    EncodedIsClean(bucket, true);
  }

  /** A bucket the target accepts never has one. */
  lemma AcceptedBucketIsSigned(service: Service, bucket: string, key: string, escape: string -> string)
    requires AllowedName(bucket) && Bytes(key)
    ensures Bytes(bucket)
    ensures var sent := Reparsed(ObjectUrl(service, bucket, key), escape);
      sent.Some? && Bytes(sent.value.path) && CanonicalPath(sent.value.path) == EscapedPath(sent.value, escape)
  {
    hide Encoded, Decoded;
    assert forall i :: 0 <= i < |bucket| ==> bucket[i] != '/';
    SignedIsSent(service, bucket, key, escape);
  }
}
