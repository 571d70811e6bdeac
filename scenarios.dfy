/** Two example requests, worked through the model. */
module Scenarios {
  import opened Wrappers
  import opened Paths
  import opened Request
  import opened Assets
  import opened Json
  import opened ObjectStore
  import opened Router

  const CommonSo: Descriptor := Descriptor(Some("libs/common/a.so"))
  const WindowsDll: Descriptor := Descriptor(Some("libs/windows-x64/b.dll"))
  const WindowsDir: Descriptor := Descriptor(Some("libs/windows-x64/"))

  /** The records the windows-x64 listing below generates. */
  const WindowsList: seq<Asset> :=
    [Asset("a.so", "https://assets.blockgame.james090500.com/libs/common/a.so"),
     Asset("b.dll", "https://assets.blockgame.james090500.com/libs/windows-x64/b.dll")]

  lemma NameOfCommonSo()
    ensures Name("libs/common/a.so") == "a.so"
  {
    var k := "libs/common/a.so";
    assert k[12..] == "a.so" && k[11] == '/';
    NameUnique(k, "a.so");
  }

  lemma NameOfWindowsDll()
    ensures Name("libs/windows-x64/b.dll") == "b.dll"
  {
    var k := "libs/windows-x64/b.dll";
    assert k[17..] == "b.dll" && k[16] == '/';
    NameUnique(k, "b.dll");
  }

  /** The pseudo-directory entry is filtered out; the two files are kept, in order. */
  lemma WindowsFiles()
    ensures Files([CommonSo] + [WindowsDll, WindowsDir]) == [CommonSo, WindowsDll]
  {
    assert IsFile(CommonSo) && IsFile(WindowsDll) && !IsFile(WindowsDir);
    assert Files([WindowsDir]) == [];
    assert Files([WindowsDll, WindowsDir]) == [WindowsDll] by { assert [WindowsDll, WindowsDir][1..] == [WindowsDir]; }
    assert ([CommonSo] + [WindowsDll, WindowsDir])[1..] == [WindowsDll, WindowsDir];
  }

  /** Any two files and a directory entry build the two files' records. */
  lemma TwoFilesAssets(a: Descriptor, b: Descriptor, dir: Descriptor)
    requires IsFile(a) && IsFile(b) && !IsFile(dir)
    ensures BuildAssetList(Listing(Some([a])), Listing(Some([b, dir]))) == [ToAsset(a), ToAsset(b)]
  {
    assert Files([dir]) == [];
    assert Files([b, dir]) == [b] by { assert [b, dir][1..] == [dir]; }
    assert ([a] + [b, dir])[1..] == [b, dir];
  }

  lemma UrlOfCommonSo()
    ensures BaseUrl + "libs/common/a.so" == "https://assets.blockgame.james090500.com/libs/common/a.so"
  {
  }

  lemma UrlOfWindowsDll()
    ensures BaseUrl + "libs/windows-x64/b.dll" == "https://assets.blockgame.james090500.com/libs/windows-x64/b.dll"
  {
  }

  lemma AssetOf(d: Descriptor, name: string, url: string)
    requires IsFile(d) && Name(d.key.value) == name && BaseUrl + d.key.value == url
    ensures ToAsset(d) == Asset(name, url)
  {
  }

  lemma CommonSoAsset()
    ensures ToAsset(CommonSo) == WindowsList[0]
  {
    NameOfCommonSo();
    UrlOfCommonSo();
    assert CommonSo.key.value == "libs/common/a.so";
    AssetOf(CommonSo, WindowsList[0].name, WindowsList[0].url);
  }

  lemma WindowsDllAsset()
    ensures ToAsset(WindowsDll) == WindowsList[1]
  {
    NameOfWindowsDll();
    UrlOfWindowsDll();
    assert WindowsDll.key.value == "libs/windows-x64/b.dll";
    AssetOf(WindowsDll, WindowsList[1].name, WindowsList[1].url);
  }

  /** The pseudo-directory entry is dropped; the two files become their records. */
  lemma WindowsAssets()
    ensures BuildAssetList(Listing(Some([CommonSo])), Listing(Some([WindowsDll, WindowsDir]))) == WindowsList
  {
    TwoFilesAssets(CommonSo, WindowsDll, WindowsDir);
    CommonSoAsset();
    WindowsDllAsset();
  }

  /**
    With nothing cached, a request for windows/x64 returns the serialised records without
    Cache-Control and stores that same body at libs/windows-x64.json.
   */
  lemma WindowsMiss(s: Snapshot, q: Query)
    requires s.entries == map[] && s.faults == {}
    requires s.listings == map["libs/common/" := Listing(Some([CommonSo])),
                               "libs/windows-x64/" := Listing(Some([WindowsDll, WindowsDir]))]
    requires "platform" in q && q["platform"] == "windows" && "arch" in q && q["arch"] == "x64"
    ensures var run := Handle(s, q);
      && run.response == Response(200, Serialize(WindowsList), "application/json", None)
      && run.entries == map["libs/windows-x64.json" := Entry(run.response.body, "application/json")]
  {
    AcceptedIff(q);
    var key := Validate(q).value;
    assert key == "windows-x64";
    assert JsonPath(key) == "libs/windows-x64.json";
    assert VariantPrefix(key) == "libs/windows-x64/";
    assert ListReply(s, CommonPrefix) == Ok(Listing(Some([CommonSo])));
    assert ListReply(s, VariantPrefix(key)) == Ok(Listing(Some([WindowsDll, WindowsDir])));
    WindowsAssets();
    assert Generated(s, key) == Serialize(WindowsList);
    CacheMiss(s, q);
  }

  /** A variant whose parts are each valid elsewhere is still rejected. */
  lemma LinuxX86Rejected(s: Snapshot)
    ensures Handle(s, map["platform" := "linux", "arch" := "x86"]).response.status == 400
  {
    AcceptedIff(map["platform" := "linux", "arch" := "x86"]);
  }
}
