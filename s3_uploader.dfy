/**
 * The image relocator: an image is downloaded from its URL and stored in an S3 bucket
 * under a fresh key, and the object's public URL is returned; every failure gives `null`.
 * The HTTP server and the bucket are a `Network` object whose logs record the requests
 * made; the clock and the random generator are inputs.
 */
module S3Uploader {
  import opened Wrappers
  import opened Strings

  // ---------------------------------------------------------------------------
  // POSIX `path.basename` and `path.extname`

  /** The index just past the last character of `p` that is not `/`. */
  function TrimmedEnd(p: string): (e: nat)
    ensures e <= |p|
    ensures e > 0 ==> p[e - 1] != '/'
    ensures forall k :: e <= k < |p| ==> p[k] == '/'
  {
    if p == [] then 0
    else if p[|p| - 1] == '/' then TrimmedEnd(p[..|p| - 1])
    else |p|
  }

  /** `path.basename(p)`: the last segment of `p`, trailing slashes ignored. */
  function Basename(p: string): (b: string)
    ensures '/' !in b
    ensures EndsWith(p[..TrimmedEnd(p)], b)
    ensures |b| == TrimmedEnd(p) || p[TrimmedEnd(p) - |b| - 1] == '/'
  {
    var e := TrimmedEnd(p);
    match LastIndexOf(p[..e], '/')
    case None => p[..e]
    case Some(i) => p[i + 1..e]
  }

  /** A name without slashes is its own basename. */
  lemma BasenameOfName(name: string)
    requires '/' !in name
    ensures Basename(name) == name
  {
    assert name != [] ==> name[|name| - 1] != '/';
    assert name[..|name|] == name;
  }

  /** `path.extname(p)`: the basename from its last `.` on; empty when there is no `.`,
      when the only `.` is the basename's first character, or for `..`. */
  function Extname(p: string): (x: string)
    ensures x != "" ==> x[0] == '.' && '.' !in x[1..]
    ensures x != "" ==> EndsWith(Basename(p), x) && |x| < |Basename(p)|
  {
    var b := Basename(p);
    match LastIndexOf(b, '.')
    case None => ""
    case Some(d) =>
      if d == 0 || b == ".." then ""
      else
        AfterLastDot(b, d);
        b[d..]
  }

  /** The part of `b` from its last `.` on is a suffix with no other `.`. */
  lemma AfterLastDot(b: string, d: nat)
    requires d < |b| && b[d] == '.'
    requires forall i :: d < i < |b| ==> b[i] != '.'
    ensures b[d..][0] == '.' && '.' !in b[d..][1..]
    ensures EndsWith(b, b[d..])
  {
    assert forall k :: 0 <= k < |b| - d - 1 ==> b[d..][1..][k] == b[d + 1 + k];
    assert b[|b| - |b[d..]|..] == b[d..];
  }

  // ---------------------------------------------------------------------------
  // _normalizeUrl, _getContentType, _generateFileName

  /** `_normalizeUrl`: a protocol-relative URL gets `https:`, any other URL that does not
      start with `http` gets `https://`. */
  function NormalizeUrl(url: string): (r: string)
    ensures StartsWith(r, "http")
    ensures EndsWith(r, url)
    ensures r == url <==> StartsWith(url, "http")
  {
    if StartsWith(url, "//") then
      var r := "https:" + url;
      assert r[..4] == "http" && r[|r| - |url|..] == url;
      assert url[0] == url[..2][0];
      r
    else if !StartsWith(url, "http") then
      var r := "https://" + url;
      assert r[..4] == "http" && r[|r| - |url|..] == url;
      r
    else
      assert url[|url| - |url|..] == url;
      url
  }

  /** Normalising a normalised URL changes nothing. */
  lemma NormalizeUrlIdempotent(url: string)
    ensures NormalizeUrl(NormalizeUrl(url)) == NormalizeUrl(url)
  {
  }

  /** The `mimeTypes` table: the `Content-Type` of each known image extension. */
  function MimeType(ext: string): (t: Option<string>)
    ensures t.Some? ==> '?' !in ext && '.' in ext
  {
    if ext == ".jpg" then Some("image/jpeg")
    else if ext == ".jpeg" then Some("image/jpeg")
    else if ext == ".png" then Some("image/png")
    else if ext == ".gif" then Some("image/gif")
    else if ext == ".webp" then Some("image/webp")
    else None
  }

  /** The `Content-Type` for an extension: its `mimeTypes` entry, `image/jpeg` otherwise. */
  function TypeOfExtension(ext: string): (t: string)
    ensures t == "image/jpeg" || t == "image/png" || t == "image/gif" || t == "image/webp"
    ensures MimeType(ext).Some? ==> t == MimeType(ext).value
    ensures MimeType(ext).None? ==> t == "image/jpeg"
  {
    match MimeType(ext)
    case Some(t) => t
    case None => "image/jpeg"
  }

  /** `_getContentType(url)`: the type of the URL's lower-cased extension. */
  function ContentType(url: string): string {
    TypeOfExtension(AsciiLower(Extname(url)))
  }

  /** The extension is taken from the URL as given, query included: an image URL whose
      extension runs into a `?` is typed `image/jpeg`, whatever the file's real type. */
  lemma ContentTypeWithQuery(url: string, i: nat)
    requires i < |Extname(url)| && Extname(url)[i] == '?'
    ensures ContentType(url) == "image/jpeg"
  {
    QueriedExtension(Extname(url), i);
  }

  /** An extension holding a `?` has no `mimeTypes` entry. */
  lemma QueriedExtension(ext: string, i: nat)
    requires i < |ext| && ext[i] == '?'
    ensures TypeOfExtension(AsciiLower(ext)) == "image/jpeg"
  {
    var lower := AsciiLower(ext);
    assert lower[i] == '?';
  }

  /** `split('?')[0]`: the text before the first `?`. */
  function BeforeQuery(s: string): (r: string)
    ensures '?' !in r
    ensures StartsWith(s, r)
    ensures r == s || s[|r|] == '?'
  {
    match IndexOf(s, "?")
    case None =>
      assert forall i :: 0 <= i < |s| ==> s[i] != '?' by {
        forall i | 0 <= i < |s| ensures s[i] != '?' { assert !OccursAt(s, "?", i); }
      }
      s
    case Some(i) =>
      assert forall k :: 0 <= k < i ==> s[k] != '?' by {
        forall k | 0 <= k < i ensures s[k] != '?' { assert !OccursAt(s, "?", k); }
      }
      s[..i]
  }

  /** The file name kept from the URL: the basename cut at the first `?`, with `.jpg`
      appended when it has no `.`. */
  function OriginalName(url: string): (name: string)
    ensures '.' in name && '?' !in name && '/' !in name
    ensures StartsWith(name, BeforeQuery(Basename(url)))
    ensures '.' !in BeforeQuery(Basename(url)) ==> name == BeforeQuery(Basename(url)) + ".jpg"
  {
    var n := BeforeQuery(Basename(url));
    assert '/' !in n by {
      forall k | 0 <= k < |n| ensures n[k] != '/' { assert n[k] == Basename(url)[k]; }
    }
    if '.' in n then n
    else
      var r := n + ".jpg";
      assert r[|n|] == '.';
      r
  }

  /** `Math.floor(Math.random() * 1000000)` for a random number `u` in [0, 1). */
  function RandomComponent(u: Fraction): (r: nat)
    ensures r < 1000000
    ensures r as real <= u * 1000000.0 < r as real + 1.0
  {
    (u * 1000000.0).Floor
  }

  /** `_generateFileName`: timestamp, random number and the original file name, joined by
      `_`; the name is split into stem and extension and put back together. */
  function FileName(millis: nat, rnd: nat, url: string): (f: string)
    ensures f == NatToString(millis) + "_" + NatToString(rnd) + "_" + OriginalName(url)
  {
    var name := OriginalName(url);
    var ext := Extname(name);
    NameSplit(name);
    var stem := name[..|name| - |ext|];
    NatToString(millis) + "_" + NatToString(rnd) + "_" + (stem + ext)
  }

  /** A name without slashes is its stem followed by its extension. */
  lemma NameSplit(name: string)
    requires '/' !in name
    ensures |Extname(name)| <= |name|
    ensures name[..|name| - |Extname(name)|] + Extname(name) == name
  {
    BasenameOfName(name);
    var ext := Extname(name);
    if ext != "" {
      assert name[|name| - |ext|..] == ext;
    }
  }

  // ---------------------------------------------------------------------------
  // Configuration

  /** A configuration object; `None` is a property whose value is `undefined`. */
  type Config = map<string, Option<string>>

  const DefaultRegion := "ap-northeast-2"

  /** `config.k`. */
  function Property(c: Config, k: string): Option<string> {
    if k in c then c[k] else None
  }

  /** `${v}` in a template literal. */
  function Interpolate(v: Option<string>): string {
    if v.Some? then v.value else "undefined"
  }

  /** The constructor's `{region: config.region || default, bucket: config.bucket, ...config}`:
      the trailing spread overrides the default whenever the input has a `region` key. */
  function ConfigOf(input: Config): (c: Config)
    ensures c.Keys == input.Keys + {"region", "bucket"}
    ensures forall k :: k in input ==> c[k] == input[k]
    ensures "region" !in input ==> c["region"] == Some(DefaultRegion)
    ensures "bucket" !in input ==> c["bucket"] == None
  {
    var region := Property(input, "region");
    var defaults := map["region" := if region.Some? && region.value != "" then region else Some(DefaultRegion),
                        "bucket" := Property(input, "bucket")];
    defaults + input
  }

  /** The region is defaulted exactly when the input names no region or names the default. */
  lemma ConfigRegion(input: Config)
    ensures ConfigOf(input)["region"] == Some(DefaultRegion) <==>
      ("region" !in input || input["region"] == Some(DefaultRegion))
  {
  }

  // ---------------------------------------------------------------------------
  // The outside world

  type Bytes = seq<bv8>

  /** The parameters of a `PutObjectCommand`. */
  datatype PutObject = PutObject(bucket: Option<string>, key: string, body: Bytes, contentType: string, acl: string)

  /** The image servers and the S3 service, with a log of the requests they receive. */
  class Network {
    /** The body a GET of each URL returns; `None` when the request fails. */
    const serves: string -> Option<Bytes>
    /** Whether S3 accepts a put; `false` when `send` throws. */
    const accepts: PutObject -> bool
    /** The URLs downloaded, in order. */
    var fetched: seq<string>
    /** The objects S3 has stored, in order. */
    var stored: seq<PutObject>

    constructor(serves: string -> Option<Bytes>, accepts: PutObject -> bool)
      ensures this.serves == serves && this.accepts == accepts
      ensures fetched == [] && stored == []
    {
      this.serves := serves;
      this.accepts := accepts;
      fetched := [];
      stored := [];
    }

    /** `_downloadImage(url)`: the image's bytes, `null` on any failure. */
    method Download(url: string) returns (body: Option<Bytes>)
      modifies this
      ensures body == serves(url)
      ensures fetched == old(fetched) + [url] && stored == old(stored)
    {
      body := serves(url);
      fetched := fetched + [url];
    }

    /** `s3Client.send(new PutObjectCommand(put))`; `false` when it throws. */
    method Send(put: PutObject) returns (ok: bool)
      modifies this
      ensures ok == accepts(put)
      ensures stored == old(stored) + (if ok then [put] else []) && fetched == old(fetched)
    {
      ok := accepts(put);
      if ok {
        stored := stored + [put];
      }
    }
  }

  /** The clock and random readings an upload takes: `Date.now()`, `Math.random()` and
      `new Date().toISOString()`. */
  datatype Clock = Clock(millis: nat, random: Fraction, iso: string)

  /** The range of `Math.random()`. */
  type Fraction = u: real | 0.0 <= u < 1.0

  /** A concatenation starts with its first part and ends with its second. */
  lemma Append(a: string, b: string)
    ensures StartsWith(a + b, a) && EndsWith(a + b, b)
  {
    assert (a + b)[..|a|] == a;
    assert (a + b)[|a|..] == b;
  }

  /** A prefix of a prefix is a prefix. */
  lemma StartsWithTransitive(a: string, b: string, c: string)
    requires StartsWith(a, b) && StartsWith(b, c)
    ensures StartsWith(a, c)
  {
    assert a[..|c|] == a[..|b|][..|c|];
  }

  /** A suffix of a suffix is a suffix. */
  lemma EndsWithTransitive(a: string, b: string, c: string)
    requires EndsWith(a, b) && EndsWith(b, c)
    ensures EndsWith(a, c)
  {
    assert a[|a| - |c|..] == a[|a| - |b|..][|b| - |c|..];
  }

  /** A key `folder/dir/p+name` lies in `folder` and ends in `name`. */
  lemma KeyParts(folder: string, dir: string, f: string, p: string, name: string)
    requires f == p + name
    ensures StartsWith(folder + "/" + dir + "/" + f, folder + "/")
    ensures EndsWith(folder + "/" + dir + "/" + f, name)
  {
    var d := folder + "/" + dir;
    var key := d + "/" + f;
    Append(folder + "/", dir);
    Append(d, "/");
    Append(d + "/", f);
    StartsWithTransitive(d + "/", d, folder + "/");
    StartsWithTransitive(key, d + "/", folder + "/");
    Append(p, name);
    EndsWithTransitive(key, f, name);
  }

  /** The S3 key: folder, `YYYY-MM` and file name. */
  function ObjectKey(folder: string, clock: Clock, url: string): (key: string)
    ensures StartsWith(key, folder + "/")
    ensures EndsWith(key, OriginalName(url))
    ensures key == folder + "/" + Take(clock.iso, 7) + "/" + FileName(clock.millis, RandomComponent(clock.random), url)
  {
    var rnd := RandomComponent(clock.random);
    var f := FileName(clock.millis, rnd, url);
    var month := Take(clock.iso, 7);
    KeyParts(folder, month, f, NatToString(clock.millis) + "_" + NatToString(rnd) + "_", OriginalName(url));
    folder + "/" + month + "/" + f
  }

  /** The public URL of an object stored under `key`: the bucket's virtual-hosted S3
      address in its region, then the key. */
  function ObjectUrl(config: Config, key: string): (u: string)
    ensures StartsWith(u, "https://") && EndsWith(u, key)
    ensures var host := "https://" + Interpolate(Property(config, "bucket")) + ".s3."
                          + Interpolate(Property(config, "region")) + ".amazonaws.com/";
      StartsWith(u, host) && |u| == |host| + |key|
  {
    var host := "https://" + Interpolate(Property(config, "bucket")) + ".s3." + Interpolate(Property(config, "region"))
      + ".amazonaws.com/";
    var u := host + key;
    assert u[..|host|] == host;
    assert u[|u| - |key|..] == key;
    u
  }

  /** The put `_uploadToS3` sends for an image fetched from `url`. */
  function PutOf(config: Config, body: Bytes, url: string, folder: string, clock: Clock): PutObject
  {
    PutObject(Property(config, "bucket"), ObjectKey(folder, clock, url), body, ContentType(url), "public-read")
  }

  /** What `uploadImageFromUrl` returns, with the URLs it downloads and the objects S3 stores. */
  datatype Outcome = Outcome(url: Option<string>, fetched: seq<string>, stored: seq<PutObject>)

  /** The effect of `uploadImageFromUrl(imageUrl, folder)`: nothing for a blank URL;
      otherwise one download of the normalised URL and, when it succeeds, one put. */
  function UploadOf(config: Config, imageUrl: string, folder: string, serves: string -> Option<Bytes>,
                    accepts: PutObject -> bool, clock: Clock): (o: Outcome)
    ensures Trim(imageUrl) == "" ==> o == Outcome(None, [], [])
    ensures Trim(imageUrl) != "" ==> o.fetched == [NormalizeUrl(imageUrl)]
    ensures |o.stored| <= 1
    ensures o.url.Some? <==> o.stored != []
    ensures o.stored != [] ==> o.fetched != [] && serves(o.fetched[0]).Some?
  {
    if Trim(imageUrl) == "" then Outcome(None, [], [])
    else
      var url := NormalizeUrl(imageUrl);
      match serves(url)
      case None => Outcome(None, [url], [])
      case Some(body) =>
        var put := PutOf(config, body, url, folder, clock);
        if accepts(put) then Outcome(Some(ObjectUrl(config, put.key)), [url], [put])
        else Outcome(None, [url], [])
  }

  /** An upload that returns a URL stored one object: the downloaded bytes, typed by the
      URL's extension, readable by all, in the configured bucket, under a key in `folder`
      ending in the image's file name; the URL names that key. */
  lemma UploadedObject(config: Config, imageUrl: string, folder: string,
                       serves: string -> Option<Bytes>, accepts: PutObject -> bool, clock: Clock)
    ensures var o := UploadOf(config, imageUrl, folder, serves, accepts, clock);
      o.url.Some? ==>
        (var url := o.fetched[0];
         var put := o.stored[0];
         && url == NormalizeUrl(imageUrl)
         && accepts(put)
         && put.body == serves(url).value
         && put.contentType == ContentType(url)
         && put.acl == "public-read"
         && put.bucket == Property(config, "bucket")
         && put.key == ObjectKey(folder, clock, url)
         && StartsWith(put.key, folder + "/")
         && EndsWith(put.key, OriginalName(url))
         && o.url.value == ObjectUrl(config, put.key))
  {
  }

  // ---------------------------------------------------------------------------
  // The uploader

  class S3Uploader {
    /** `this.config`, set once by the constructor. */
    const config: Config

    ghost predicate Valid() {
      "region" in config && "bucket" in config
    }

    /** `new S3Uploader(config)`; the S3 client it also builds is not modelled. */
    constructor(input: Config)
      ensures config == ConfigOf(input)
      ensures Valid()
    {
      config := ConfigOf(input);
    }

    /** `getConfig()`: the region and bucket, and nothing else of the configuration. */
    function GetConfig(): (r: Config)
      requires Valid()
      ensures r.Keys == {"region", "bucket"}
      ensures r["region"] == config["region"] && r["bucket"] == config["bucket"]
    {
      map["region" := config["region"], "bucket" := config["bucket"]]
    }

    /** `_uploadToS3(body, url, folder)`: stores the image, returning its public URL, or
        `None` when `send` throws. */
    method UploadToS3(body: Bytes, url: string, folder: string, net: Network, clock: Clock)
      returns (s3Url: Option<string>)
      modifies net
      ensures var put := PutOf(config, body, url, folder, clock);
        && s3Url == (if net.accepts(put) then Some(ObjectUrl(config, put.key)) else None)
        && net.stored == old(net.stored) + (if net.accepts(put) then [put] else [])
        && net.fetched == old(net.fetched)
    {
      var s3Key := ObjectKey(folder, clock, url);
      var put := PutObject(Property(config, "bucket"), s3Key, body, ContentType(url), "public-read");
      assert put == PutOf(config, body, url, folder, clock);
      var ok := net.Send(put);
      assert ok == net.accepts(put);
      if !ok {
        return None;
      }
      s3Url := Some(ObjectUrl(config, s3Key));
    }

    /** `uploadImageFromUrl(imageUrl, folder)`. */
    method UploadImageFromUrl(imageUrl: string, folder: string, net: Network, clock: Clock)
      returns (s3Url: Option<string>)
      modifies net
      ensures var o := UploadOf(config, imageUrl, folder, net.serves, net.accepts, clock);
        && s3Url == o.url
        && net.fetched == old(net.fetched) + o.fetched
        && net.stored == old(net.stored) + o.stored
    {
      if Trim(imageUrl) == "" {
        return None;
      }
      var normalizedUrl := NormalizeUrl(imageUrl);
      var imageBuffer := net.Download(normalizedUrl);
      if imageBuffer.None? {
        return None;
      }
      s3Url := UploadToS3(imageBuffer.value, normalizedUrl, folder, net, clock);
    }
  }

  /** The folder `uploadImageFromUrl` uses by default. */
  const DefaultFolder := "images"
}
