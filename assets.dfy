/**
  Building the asset list on a cache miss: the two listings are concatenated, the
  entries that are not downloadable files are dropped, and each remaining object key
  becomes an `{name, url}` record.
 */
module Assets {
  import opened Wrappers
  import opened Paths

  /** An object descriptor from a listing; its `key` may be missing. */
  datatype Descriptor = Descriptor(key: Option<string>)

  /** The reply of `list({prefix})`; its `objects` field may be missing. */
  datatype Listing = Listing(objects: Option<seq<Descriptor>>)

  /** One record of the generated list. */
  datatype Asset = Asset(name: string, url: string)

  /** The public base URL under which every object key is served. */
  const BaseUrl: string := "https://assets.blockgame.james090500.com/"

  /** `list.objects || []`. */
  function Objects(list: Listing): (ds: seq<Descriptor>)
  {
    if list.objects.Some? then list.objects.value else []
  }

  /** `obj && obj.key && !obj.key.endsWith('/')`: the descriptor names a file. */
  predicate IsFile(d: Descriptor)
  {
    d.key.Some? && d.key.value != [] && d.key.value[|d.key.value| - 1] != '/'
  }

  /** `.filter(IsFile)`: the file descriptors, in their original order. */
  function Files(ds: seq<Descriptor>): (r: seq<Descriptor>)
    ensures |r| <= |ds|
    ensures forall i :: 0 <= i < |r| ==> IsFile(r[i])
    ensures forall d :: d in r <==> d in ds && IsFile(d)
  {
    if ds == [] then []
    else if IsFile(ds[0]) then [ds[0]] + Files(ds[1..])
    else Files(ds[1..])
  }

  /** Filtering commutes with concatenation, so order is kept across the two listings. */
  lemma {:induction false} FilesAppend(a: seq<Descriptor>, b: seq<Descriptor>)
    ensures Files(a + b) == Files(a) + Files(b)
  {
    if a != [] {
      assert (a + b)[0] == a[0] && (a + b)[1..] == a[1..] + b;
      FilesAppend(a[1..], b);
    } else {
      assert a + b == b;
    }
  }

  /** The filter keeps one copy of each file descriptor: its length is the number of files. */
  function CountFiles(ds: seq<Descriptor>): (n: nat)
  {
    if ds == [] then 0 else (if IsFile(ds[0]) then 1 else 0) + CountFiles(ds[1..])
  }

  lemma {:induction false} FilesLength(ds: seq<Descriptor>)
    ensures |Files(ds)| == CountFiles(ds)
  {
    if ds != [] {
      FilesLength(ds[1..]);
    }
  }

  /** The record for one file descriptor. */
  function ToAsset(d: Descriptor): (a: Asset)
    requires IsFile(d)
  {
    Asset(Name(d.key.value), BaseUrl + d.key.value)
  }

  /** The object key a record was made from: its URL without the base. */
  function KeyOf(a: Asset): (key: Option<string>)
  {
    if |BaseUrl| <= |a.url| && a.url[..|BaseUrl|] == BaseUrl then Some(a.url[|BaseUrl|..]) else None
  }

  /**
    Every record describes its key: the name is a non-empty '/'-free suffix of the key
    that follows its last '/', and the URL is the base followed by the full key, from
    which the key is recovered.
   */
  lemma ToAssetDescribes(d: Descriptor)
    requires IsFile(d)
    ensures Describes(ToAsset(d), d.key.value)
    ensures KeyOf(ToAsset(d)) == d.key
  {
    NameIsLastSegment(d.key.value);
    var a := ToAsset(d);
    assert a.url[..|BaseUrl|] == BaseUrl;
    assert a.url[|BaseUrl|..] == d.key.value;
  }

  /** How a record relates to the object key it is made from. */
  predicate Describes(a: Asset, key: string)
  {
    && a.url == BaseUrl + key
    && a.name != [] && NoSlash(a.name) && IsSuffix(a.name, key)
    && (a.name == key || key[|key| - |a.name| - 1] == '/')
  }

  /** `.map(ToAsset)` over file descriptors: one record per descriptor, in order. */
  function ToAssets(files: seq<Descriptor>): (r: seq<Asset>)
    requires forall i :: 0 <= i < |files| ==> IsFile(files[i])
    ensures |r| == |files|
    ensures forall i :: 0 <= i < |r| ==> r[i] == ToAsset(files[i])
  {
    if files == [] then [] else [ToAsset(files[0])] + ToAssets(files[1..])
  }

  /** Mapping commutes with concatenation. */
  lemma ToAssetsAppend(a: seq<Descriptor>, b: seq<Descriptor>)
    requires forall i :: 0 <= i < |a| ==> IsFile(a[i])
    requires forall i :: 0 <= i < |b| ==> IsFile(b[i])
    ensures forall i :: 0 <= i < |a + b| ==> IsFile((a + b)[i])
    ensures ToAssets(a + b) == ToAssets(a) + ToAssets(b)
  {
  }

  /** The records for one listing. */
  function ListingAssets(list: Listing): (r: seq<Asset>)
  {
    ToAssets(Files(Objects(list)))
  }

  /** The generated list: `[...common, ...native].filter(IsFile).map(ToAsset)`. */
  function BuildAssetList(common: Listing, native: Listing): (r: seq<Asset>)
  {
    ToAssets(Files(Objects(common) + Objects(native)))
  }

  /**
    Order: all records of the common listing come first, then those of the variant
    listing, each in listing order. A listing without `objects` contributes nothing.
   */
  lemma BuildAssetListOrder(common: Listing, native: Listing)
    ensures BuildAssetList(common, native) == ListingAssets(common) + ListingAssets(native)
    ensures common.objects.None? ==> BuildAssetList(common, native) == ListingAssets(native)
    ensures native.objects.None? ==> BuildAssetList(common, native) == ListingAssets(common)
  {
    FilesAppend(Objects(common), Objects(native));
    ToAssetsAppend(Files(Objects(common)), Files(Objects(native)));
  }

  /**
    The i-th record is made from the i-th file descriptor of the combined listings, and it
    describes that descriptor's key; there is one record per file descriptor.
   */
  lemma BuildAssetListRecords(common: Listing, native: Listing)
    ensures var all, r := Objects(common) + Objects(native), BuildAssetList(common, native);
      && |r| == CountFiles(all)
      && forall i :: 0 <= i < |r| ==>
           Files(all)[i] in all && IsFile(Files(all)[i]) && Describes(r[i], Files(all)[i].key.value)
  {
    var all := Objects(common) + Objects(native);
    FilesLength(all);
    forall i | 0 <= i < |Files(all)|
      ensures Describes(BuildAssetList(common, native)[i], Files(all)[i].key.value)
    {
      ToAssetDescribes(Files(all)[i]);
    }
  }

  /** Every file descriptor of either listing yields a record, and only those do. */
  lemma BuildAssetListComplete(common: Listing, native: Listing, d: Descriptor)
    requires IsFile(d)
    ensures ToAsset(d) in BuildAssetList(common, native) <== d in Objects(common) + Objects(native)
  {
    var files := Files(Objects(common) + Objects(native));
    if d in Objects(common) + Objects(native) {
      var i :| 0 <= i < |files| && files[i] == d;
      assert BuildAssetList(common, native)[i] == ToAsset(d);
    }
  }

  /** Records come only from file descriptors of the two listings. */
  lemma BuildAssetListSound(common: Listing, native: Listing, a: Asset)
    requires a in BuildAssetList(common, native)
    ensures exists d :: d in Objects(common) + Objects(native) && IsFile(d) && a == ToAsset(d)
  {
    var files := Files(Objects(common) + Objects(native));
    var i :| 0 <= i < |files| && BuildAssetList(common, native)[i] == a;
    assert files[i] in Objects(common) + Objects(native);
  }
}
