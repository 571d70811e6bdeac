/**
  Request validation for `GET /api/assets?platform=<p>&arch=<a>` and the store paths
  derived from an accepted variant key `<p>-<a>`.
 */
module Request {
  import opened Wrappers

  /** The parsed query string: parameter name to value. */
  type Query = map<string, string>

  /** The fixed allow-list of variant keys. */
  const ValidKeys: seq<string> := ["windows-x64", "windows-x86", "linux-x64", "macos-arm64"]

  /** `query[name] ?? null`. */
  function Param(query: Query, name: string): (v: Option<string>)
  {
    if name in query then Some(query[name]) else None
  }

  /** JavaScript truthiness of `query[name] ?? null`: present and non-empty. */
  predicate Truthy(v: Option<string>)
  {
    v.Some? && v.value != ""
  }

  /** `${platform}-${arch}`. */
  function VariantKey(platform: string, arch: string): (key: string)
  {
    platform + "-" + arch
  }

  /**
    The guard of the handler: Some(key) when both parameters are non-empty and the
    variant key is allow-listed, None when the request must be rejected with 400.
   */
  function Validate(query: Query): (r: Option<string>)
    ensures r.Some? ==> r.value in ValidKeys
  {
    var platform, arch := Param(query, "platform"), Param(query, "arch");
    if !Truthy(platform) || !Truthy(arch) || VariantKey(platform.value, arch.value) !in ValidKeys then None
    else Some(VariantKey(platform.value, arch.value))
  }

  /** The request is accepted. */
  predicate Accepted(query: Query)
  {
    Validate(query).Some?
  }

  /** The (platform, arch) pairs the allow-list admits. */
  const ValidPairs: set<(string, string)> :=
    {("windows", "x64"), ("windows", "x86"), ("linux", "x64"), ("macos", "arm64")}

  /** A key with its only '-' at position d splits uniquely around it. */
  lemma SplitAtDash(p: string, a: string, key: string, d: nat)
    requires key == p + "-" + a
    requires d < |key| && forall i :: 0 <= i < |key| && key[i] == '-' ==> i == d
    ensures p == key[..d] && a == key[d + 1..]
  {
    assert key[|p|] == '-';
  }

  /** A non-empty platform and arch whose variant key is allow-listed are one of the four pairs. */
  lemma PairOfValidKey(p: string, a: string)
    requires VariantKey(p, a) in ValidKeys
    ensures (p, a) in ValidPairs
  {
    var key := VariantKey(p, a);
    if key == "windows-x64" {
      assert forall i :: 0 <= i < |key| && key[i] == '-' ==> i == 7;
      SplitAtDash(p, a, key, 7);
      assert key[..7] == "windows" && key[8..] == "x64";
    } else if key == "windows-x86" {
      assert forall i :: 0 <= i < |key| && key[i] == '-' ==> i == 7;
      SplitAtDash(p, a, key, 7);
      assert key[..7] == "windows" && key[8..] == "x86";
    } else if key == "linux-x64" {
      assert forall i :: 0 <= i < |key| && key[i] == '-' ==> i == 5;
      SplitAtDash(p, a, key, 5);
      assert key[..5] == "linux" && key[6..] == "x64";
    } else {
      assert key == "macos-arm64";
      assert forall i :: 0 <= i < |key| && key[i] == '-' ==> i == 5;
      SplitAtDash(p, a, key, 5);
      assert key[..5] == "macos" && key[6..] == "arm64";
    }
  }

  /** Each admitted pair forms an allow-listed key. */
  lemma ValidKeyOfPair(p: string, a: string)
    requires (p, a) in ValidPairs
    ensures p != "" && a != "" && VariantKey(p, a) in ValidKeys
  {
    assert VariantKey("windows", "x64") == ValidKeys[0];
    assert VariantKey("windows", "x86") == ValidKeys[1];
    assert VariantKey("linux", "x64") == ValidKeys[2];
    assert VariantKey("macos", "arm64") == ValidKeys[3];
  }

  /**
    A request is accepted exactly when `platform` and `arch` are given as one of the four
    allow-listed pairs; the accepted key is then `platform-arch`.
   */
  lemma AcceptedIff(query: Query)
    ensures Accepted(query) <==>
      "platform" in query && "arch" in query && (query["platform"], query["arch"]) in ValidPairs
    ensures Accepted(query) ==> Validate(query) == Some(query["platform"] + "-" + query["arch"])
  {
    if "platform" in query && "arch" in query {
      var p, a := query["platform"], query["arch"];
      if VariantKey(p, a) in ValidKeys {
        PairOfValidKey(p, a);
      }
      if (p, a) in ValidPairs {
        ValidKeyOfPair(p, a);
      }
    }
  }

  /** Where the generated listing for a variant is cached: `libs/<key>.json`. */
  function JsonPath(key: string): (path: string)
    ensures |path| == |key| + 10
    ensures path[..5] == "libs/" && path[|path| - 5..] == ".json" && path[5..|path| - 5] == key
  {
    "libs/" + key + ".json"
  }

  /** The prefix shared by all variants. */
  const CommonPrefix: string := "libs/common/"

  /** The prefix of a variant's own native assets: `libs/<key>/`. */
  function VariantPrefix(key: string): (prefix: string)
    ensures |prefix| == |key| + 6
    ensures prefix[..5] == "libs/" && prefix[|prefix| - 1] == '/' && prefix[5..|prefix| - 1] == key
  {
    "libs/" + key + "/"
  }

  /** Distinct variants never share a cache path. */
  lemma JsonPathInjective(k1: string, k2: string)
    requires JsonPath(k1) == JsonPath(k2)
    ensures k1 == k2
  {
  }

  /** s starts with t. */
  predicate StartsWith(s: string, t: string)
  {
    |t| <= |s| && s[..|t|] == t
  }

  /**
    The cache file of an allow-listed variant lies under neither listed prefix, so a
    generated listing is never itself listed as an asset.
   */
  lemma CachePathNotListed(key: string, other: string)
    requires key in ValidKeys
    ensures !StartsWith(JsonPath(key), CommonPrefix)
    ensures !StartsWith(JsonPath(key), VariantPrefix(other))
  {
    var path, prefix := JsonPath(key), VariantPrefix(other);
    assert path[5] == key[0];
    assert '/' !in key;
  }
}
