/** Object-store addressing shared by the constructs and the handlers. */
module S3 {
  import opened Json

  /** A `put_object` call: the body is the JSON document before it is serialised. */
  datatype Put = Put(bucket: string, key: string, body: Json)

  /** The `s3://bucket/key` form the workflow's Bedrock states read their input from. */
  function Uri(bucket: string, key: string): (u: string)
    ensures |u| == 6 + |bucket| + |key| && u[..5] == "s3://"
  {
    "s3://" + bucket + "/" + key
  }

  /** S3 bucket names are made of lower-case letters, digits, dots and hyphens: never a '/'. */
  predicate BucketName(b: string)
  {
    '/' !in b
  }

  /** In a URI the bucket runs from after the scheme up to the first '/', then the key follows. */
  lemma UriLayout(b: string, k: string)
    requires BucketName(b)
    ensures Uri(b, k)[5 + |b|] == '/'
    ensures forall i :: 5 <= i < 5 + |b| ==> Uri(b, k)[i] == b[i - 5] != '/'
    ensures Uri(b, k)[5..5 + |b|] == b && Uri(b, k)[6 + |b|..] == k
  {
  }

  /** Different bucket/key pairs give different URIs. */
  lemma UriInjective(b1: string, k1: string, b2: string, k2: string)
    requires BucketName(b1) && BucketName(b2)
    requires Uri(b1, k1) == Uri(b2, k2)
    ensures b1 == b2 && k1 == k2
  {
    UriLayout(b1, k1);
    UriLayout(b2, k2);
    assert |b1| == |b2|;
  }
}
