/**
 * Storage helpers (src/lib/s3.ts): object-key construction for uploads, the
 * public file URL, the MIME-type allow-list and the size limit. The signing
 * call and the clock are parameters.
 */
module ObjectStorage {
  import opened Wrappers
  import Js
  import Text

  /** Characters kept by the file-name sanitiser: `[a-zA-Z0-9.-]`. */
  predicate IsKeySafe(c: char) {
    'a' <= c <= 'z' || 'A' <= c <= 'Z' || '0' <= c <= '9' || c == '.' || c == '-'
  }

  /** `fileName.replace(/[^a-zA-Z0-9.-]/g, '_')` */
  function SanitizeFileName(name: string): (r: string)
    ensures |r| == |name|
    ensures forall i :: 0 <= i < |r| ==> IsKeySafe(r[i]) || r[i] == '_'
    ensures forall i :: 0 <= i < |r| ==> if IsKeySafe(name[i]) then r[i] == name[i] else r[i] == '_'
  {
    seq(|name|, i requires 0 <= i < |name| => if IsKeySafe(name[i]) then name[i] else '_')
  }

  /** Sanitising a sanitised name changes nothing. */
  lemma SanitizeIdempotent(name: string)
    ensures SanitizeFileName(SanitizeFileName(name)) == SanitizeFileName(name)
  {
  }

  /** `vendors/${vendorId}/products/${timestamp}-${sanitizedFileName}` */
  function ObjectKey(vendorId: string, timestamp: nat, fileName: string): (r: string) {
    "vendors/" + vendorId + "/products/" + Text.NatToString(timestamp) + "-" + SanitizeFileName(fileName)
  }

  /** The last key segment: the timestamp, '-', then the sanitised name. */
  function KeyFileSegment(timestamp: nat, fileName: string): (r: string) {
    Text.NatToString(timestamp) + "-" + SanitizeFileName(fileName)
  }

  /**
   * For a vendor id without '/', the key has exactly four path segments: "vendors",
   * the vendor id, "products" and the file segment; no file name can add a directory.
   */
  lemma ObjectKeySegments(vendorId: string, timestamp: nat, fileName: string)
    requires '/' !in vendorId
    ensures Text.Split(ObjectKey(vendorId, timestamp, fileName), '/')
      == ["vendors", vendorId, "products", KeyFileSegment(timestamp, fileName)]
  {
    var last := KeyFileSegment(timestamp, fileName);
    var tail := "products" + ['/'] + last;
    var mid := vendorId + ['/'] + tail;
    KeyLayout(vendorId, timestamp, fileName);
    FileSegmentHasNoSlash(timestamp, fileName);
    calc {
      Text.Split(ObjectKey(vendorId, timestamp, fileName), '/');
      Text.Split("vendors" + ['/'] + mid, '/');
      { assert '/' !in "vendors"; Text.SplitAfter("vendors", mid, '/'); }
      ["vendors"] + Text.Split(mid, '/');
      { Text.SplitAfter(vendorId, tail, '/'); }
      ["vendors"] + ([vendorId] + Text.Split(tail, '/'));
      { assert '/' !in "products"; Text.SplitAfter("products", last, '/'); }
      ["vendors"] + ([vendorId] + (["products"] + Text.Split(last, '/')));
      ["vendors"] + ([vendorId] + (["products"] + [last]));
    }
  }

  /** Helper: the key regrouped as "vendors" '/' vendorId '/' "products" '/' file segment. */
  lemma KeyLayout(vendorId: string, timestamp: nat, fileName: string)
    ensures ObjectKey(vendorId, timestamp, fileName)
      == "vendors" + ['/'] + (vendorId + ['/'] + ("products" + ['/'] + KeyFileSegment(timestamp, fileName)))
  {
    var d, c := Text.NatToString(timestamp), SanitizeFileName(fileName);
    var v := vendorId;
    assert "vendors/" == "vendors" + ['/'];
    assert "/products/" == ['/'] + "products" + ['/'];
    calc {
      ObjectKey(v, timestamp, fileName);
      "vendors/" + v + "/products/" + d + "-" + c;
      "vendors/" + v + "/products/" + (d + "-" + c);
      ("vendors" + ['/']) + v + (['/'] + "products" + ['/']) + (d + "-" + c);
      "vendors" + ['/'] + (v + ['/'] + ("products" + ['/'] + (d + "-" + c)));
    }
  }

  lemma FileSegmentHasNoSlash(timestamp: nat, fileName: string)
    ensures '/' !in KeyFileSegment(timestamp, fileName)
  {
    var digits := Text.NatToString(timestamp);
    var clean := SanitizeFileName(fileName);
    assert '/' !in digits && '/' !in clean;
    assert KeyFileSegment(timestamp, fileName) == digits + "-" + clean;
  }

  /** Two keys of one vendor are equal only for equal timestamps and equal sanitised names. */
  lemma ObjectKeyInjective(vendorId: string, t1: nat, n1: string, t2: nat, n2: string)
    requires ObjectKey(vendorId, t1, n1) == ObjectKey(vendorId, t2, n2)
    ensures t1 == t2 && SanitizeFileName(n1) == SanitizeFileName(n2)
  {
    var prefix := "vendors/" + vendorId + "/products/";
    var k1, k2 := KeyFileSegment(t1, n1), KeyFileSegment(t2, n2);
    assert ObjectKey(vendorId, t1, n1) == prefix + k1;
    assert ObjectKey(vendorId, t2, n2) == prefix + k2;
    assert k1 == (prefix + k1)[|prefix|..] && k2 == (prefix + k2)[|prefix|..];
    FileSegmentInjective(t1, n1, t2, n2);
  }

  /** Helper: the timestamp ends at the first '-', so the file segment determines both parts. */
  lemma FileSegmentInjective(t1: nat, n1: string, t2: nat, n2: string)
    requires KeyFileSegment(t1, n1) == KeyFileSegment(t2, n2)
    ensures t1 == t2 && SanitizeFileName(n1) == SanitizeFileName(n2)
  {
    var d1, d2 := Text.NatToString(t1), Text.NatToString(t2);
    var s1, s2 := SanitizeFileName(n1), SanitizeFileName(n2);
    var k := KeyFileSegment(t1, n1);
    assert '-' !in d1 && '-' !in d2;
    assert k == d1 + ['-'] + s1 && k == d2 + ['-'] + s2;
    Text.IndexOfAfter(d1, s1, '-');
    Text.IndexOfAfter(d2, s2, '-');
    assert |d1| == |d2|;
    assert d1 == k[..|d1|] && d2 == k[..|d2|];
    Text.NatToStringInjective(t1, t2);
    assert s1 == k[|d1| + 1..] && s2 == k[|d2| + 1..];
  }

  /** `${process.env.AWS_S3_BUCKET_URL}/${key}`: an unset variable renders as "undefined". */
  function FileUrl(bucketUrl: Option<string>, key: string): (r: string)
    ensures |r| > |key| && r[|r| - |key| - 1..] == "/" + key
    ensures bucketUrl.None? ==> r == "undefined/" + key
  {
    (if bucketUrl.Some? then bucketUrl.value else "undefined") + "/" + key
  }

  /** What generateUploadUrl returns. */
  datatype UploadTarget = UploadTarget(uploadUrl: string, key: string, fileUrl: string)

  /**
   * generateUploadUrl: the key from the clock and the sanitised name, the signed
   * upload URL for that key and type (`sign` stands for the presigner), and the public URL.
   */
  function GenerateUploadUrl(
    fileName: string, fileType: string, vendorId: string,
    now: nat, bucketUrl: Option<string>, sign: (string, string) -> string): (r: UploadTarget)
    ensures r.key == ObjectKey(vendorId, now, fileName)
    ensures r.uploadUrl == sign(r.key, fileType)
    ensures r.fileUrl == FileUrl(bucketUrl, r.key)
  {
    var key := ObjectKey(vendorId, now, fileName);
    UploadTarget(sign(key, fileType), key, FileUrl(bucketUrl, key))
  }

  /** The accepted MIME types: six image types and five video types. */
  const AllowedTypes: seq<string> := [
    "image/jpeg", "image/jpg", "image/png", "image/gif", "image/webp", "image/svg+xml",
    "video/mp4", "video/quicktime", "video/x-msvideo", "video/webm", "video/x-matroska"
  ]

  predicate IsFileTypeAllowed(fileType: string) {
    fileType in AllowedTypes
  }

  /** Only image and video types are accepted. */
  lemma AllowedTypesAreMedia(fileType: string)
    requires IsFileTypeAllowed(fileType)
    ensures Text.StartsWith(fileType, "image/") || Text.StartsWith(fileType, "video/")
  {
    var i :| 0 <= i < |AllowedTypes| && AllowedTypes[i] == fileType;
    if i < 6 {
      assert fileType[..6] == "image/" by {
        assert AllowedTypes[i][..6] == "image/" by {
          if i == 0 {} else if i == 1 {} else if i == 2 {} else if i == 3 {} else if i == 4 {} else {}
        }
      }
    } else {
      assert fileType[..6] == "video/" by {
        assert AllowedTypes[i][..6] == "video/" by {
          if i == 6 {} else if i == 7 {} else if i == 8 {} else if i == 9 {} else {}
        }
      }
    }
  }

  /** Documents and archives are rejected, e.g. application/pdf and application/zip. */
  lemma DocumentsRejected()
    ensures !IsFileTypeAllowed("application/pdf") && !IsFileTypeAllowed("application/zip")
  {
    forall t | |t| > 0 && t[0] == 'a' ensures !IsFileTypeAllowed(t) {
      if IsFileTypeAllowed(t) {
        AllowedTypesAreMedia(t);
      }
    }
  }

  const DefaultMaxFileSize: nat := 104857600

  /** `parseInt(process.env.MAX_FILE_SIZE || '104857600', 10)` */
  function MaxFileSize(env: Option<string>): (r: Js.Number) {
    Js.ParseInt(Js.Or(env, "104857600"))
  }

  /** `fileSize <= maxSize`, where any comparison with NaN is false. */
  predicate IsFileSizeAllowed(fileSize: real, env: Option<string>) {
    var maxSize := MaxFileSize(env);
    maxSize.Num? && fileSize <= maxSize.value
  }

  /** With the variable unset or empty the limit is 100 MiB, inclusive. */
  lemma DefaultSizeLimit(fileSize: real, env: Option<string>)
    requires !Js.Truthy(env)
    ensures IsFileSizeAllowed(fileSize, env) <==> fileSize <= DefaultMaxFileSize as real
  {
    assert Text.NatToString(1) == "1";
    DefaultLimitText();
    Js.ParseIntOfNatToString(DefaultMaxFileSize);
  }

  lemma DefaultLimitText()
    ensures Text.NatToString(DefaultMaxFileSize) == "104857600"
  {
    assert Text.NatToString(10) == "10";
    assert Text.NatToString(104) == "104";
    assert Text.NatToString(1048) == "1048";
    assert Text.NatToString(10485) == "10485";
    assert Text.NatToString(104857) == "104857";
    assert Text.NatToString(1048576) == "1048576";
    assert Text.NatToString(10485760) == "10485760";
  }

  /** A limit that does not start with digits parses to NaN, and then no size is accepted. */
  lemma NonNumericLimitRejectsAll(fileSize: real, env: Option<string>)
    requires Js.Truthy(env) && Js.ParseInt(env.value) == Js.NaN
    ensures !IsFileSizeAllowed(fileSize, env)
  {
  }

  /** formatFileSize: zero is "0 Bytes"; other sizes go through floating-point formatting, a parameter here. */
  function FormatFileSize(bytes: real, formatNonZero: real -> string): (r: string)
    ensures bytes == 0.0 ==> r == "0 Bytes"
    ensures bytes != 0.0 ==> r == formatNonZero(bytes)
  {
    if bytes == 0.0 then "0 Bytes" else formatNonZero(bytes)
  }
}
