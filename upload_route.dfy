/**
 * `POST /api/upload`: stores an uploaded file in the storage bucket under a sanitised,
 * timestamped object name, makes it public and returns its public URL.
 */
module UploadRoute {
  import opened Wrappers
  import opened Http
  import opened BearerAuth
  import Numbers

  newtype byte = x: int | 0 <= x < 256

  /** The `file` part of the form data. */
  datatype Upload = Upload(name: string, contentType: string, content: seq<byte>)

  /** A stored object: its bytes and the content type saved as metadata. */
  datatype StoredObject = StoredObject(content: seq<byte>, contentType: string)

  /** A character the regex `/[^a-zA-Z0-9.]/g` leaves alone. */
  predicate Kept(c: char) {
    ('a' <= c <= 'z') || ('A' <= c <= 'Z') || ('0' <= c <= '9') || c == '.'
  }

  /** Every character outside `[a-zA-Z0-9.]` replaced by `_`. */
  function Sanitize(name: string): (r: string)
    ensures |r| == |name|
    ensures forall i :: 0 <= i < |name| ==> (Kept(name[i]) ==> r[i] == name[i]) && (!Kept(name[i]) ==> r[i] == '_')
  {
    seq(|name|, i requires 0 <= i < |name| => if Kept(name[i]) then name[i] else '_')
  }

  /** A sanitised name holds only kept characters and `_`. */
  lemma SanitizedAlphabet(name: string)
    ensures forall c :: c in Sanitize(name) ==> Kept(c) || c == '_'
  {
    var r := Sanitize(name);
    forall c | c in r ensures Kept(c) || c == '_' {
      var i :| 0 <= i < |r| && r[i] == c;
    }
  }

  /** Sanitising twice changes nothing more. */
  lemma SanitizeIdempotent(name: string)
    ensures Sanitize(Sanitize(name)) == Sanitize(name)
  {
  }

  /** A name made only of kept characters comes through unchanged. */
  lemma SanitizeKeepsClean(name: string)
    requires forall c :: c in name ==> Kept(c)
    ensures Sanitize(name) == name
  {
    assert forall i :: 0 <= i < |name| ==> name[i] in name;
  }

  const Prefix: string := "uploads/"

  /** `uploads/${Date.now()}_${sanitised name}`. */
  function ObjectName(now: nat, name: string): (o: string)
    ensures |o| == |Prefix| + |Numbers.Show(now)| + 1 + |name|
    ensures o[..|Prefix|] == Prefix
  {
    Prefix + Numbers.Show(now) + "_" + Sanitize(name)
  }

  /** The first `_` after the prefix ends the timestamp. */
  lemma ObjectNameStamp(now: nat, name: string)
    ensures var o := ObjectName(now, name);
      var k := |Prefix| + |Numbers.Show(now)|;
      && o[|Prefix|..k] == Numbers.Show(now)
      && o[k] == '_'
      && o[k + 1..] == Sanitize(name)
      && forall i :: |Prefix| <= i < k ==> o[i] != '_'
  {
    var o := ObjectName(now, name);
    var k := |Prefix| + |Numbers.Show(now)|;
    assert o == Prefix + Numbers.Show(now) + ("_" + Sanitize(name));
    forall i | |Prefix| <= i < k ensures o[i] != '_' {
      assert o[i] == Numbers.Show(now)[i - |Prefix|];
    }
  }

  /** Uploads at different milliseconds never share an object name, so none overwrites another. */
  lemma {:induction false} ObjectNamesDiffer(now1: nat, name1: string, now2: nat, name2: string)
    requires ObjectName(now1, name1) == ObjectName(now2, name2)
    ensures now1 == now2 && Sanitize(name1) == Sanitize(name2)
  {
    var o := ObjectName(now1, name1);
    var s1, s2 := Numbers.Show(now1), Numbers.Show(now2);
    ObjectNameStamp(now1, name1);
    ObjectNameStamp(now2, name2);
    assert s1 == s2;
    Numbers.ValueOfShow(now1);
    Numbers.ValueOfShow(now2);
  }

  const UrlBase: string := "https://storage.googleapis.com/"

  /** The public URL of `objectName` in bucket `bucketName`. */
  function PublicUrl(bucketName: string, objectName: string): (url: string)
    ensures |url| == |UrlBase| + |bucketName| + 1 + |objectName|
    ensures url[..|UrlBase|] == UrlBase
    ensures url[|UrlBase|..|UrlBase| + |bucketName|] == bucketName
    ensures url[|UrlBase| + |bucketName|] == '/'
    ensures url[|url| - |objectName|..] == objectName
  {
    UrlBase + bucketName + "/" + objectName
  }

  /** The storage bucket the handler writes to. */
  class Bucket {
    const name: string
    var objects: map<string, StoredObject>
    var publicObjects: set<string>

    constructor (name: string)
      ensures this.name == name && objects == map[] && publicObjects == {}
    {
      this.name := name;
      objects := map[];
      publicObjects := {};
    }
  }

  /**
   * Handles one POST. `file` is the form's `file` entry (`None` when absent) and `now` is
   * `Date.now()`. Saving overwrites an object of the same name, as the bucket does.
   */
  method Post(bucket: Bucket, authorization: Option<string>, verify: string -> Option<string>,
              file: Option<Upload>, now: nat)
    returns (response: Response<string>)
    modifies bucket
    ensures response.status in {200, 400, 401}
    ensures response.status != 200 ==> unchanged(bucket)
    ensures Authenticate(authorization, verify).NoBearer? ==>
      response == Fail(401, "Unauthorized: Missing or invalid token")
    ensures Authenticate(authorization, verify).Rejected? ==>
      response == Fail(401, "Unauthorized: Invalid token")
    ensures Authenticate(authorization, verify).Verified? && file.None? ==>
      response == Fail(400, "No file uploaded")
    ensures Authenticate(authorization, verify).Verified? && file.Some? ==>
      var objectName := ObjectName(now, file.value.name);
      && response == Ok(200, PublicUrl(bucket.name, objectName))
      && bucket.objects == old(bucket.objects)[objectName := StoredObject(file.value.content, file.value.contentType)]
      && bucket.publicObjects == old(bucket.publicObjects) + {objectName}
  {
    var caller := Authenticate(authorization, verify);
    if caller.NoBearer? {
      return Fail(401, "Unauthorized: Missing or invalid token");
    }
    if caller.Rejected? {
      return Fail(401, "Unauthorized: Invalid token");
    }
    if file.None? {
      return Fail(400, "No file uploaded");
    }
    var f := file.value;
    var objectName := ObjectName(now, f.name);
    bucket.objects := bucket.objects[objectName := StoredObject(f.content, f.contentType)];
    bucket.publicObjects := bucket.publicObjects + {objectName};
    return Ok(200, PublicUrl(bucket.name, objectName));
  }
}
