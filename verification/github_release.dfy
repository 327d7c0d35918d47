/**
 * GitHub releases and their assets as the client exchanges them with the
 * GitHub API (`GitHubRelease`, `GitHubReleaseAsset`): their JSON keys and
 * the request for a repository's latest release.
 */
module GitHubRelease {
  import opened Wrappers
  import opened Json

  /** A downloadable file of a release. */
  datatype GitHubReleaseAsset = GitHubReleaseAsset(name: string, browserDownloadURL: string)

  /** A release; the tag is kept as the version's text. */
  datatype GitHubRelease = GitHubRelease(
    name: string,
    tagName: string,
    draft: bool,
    prerelease: bool,
    assets: seq<GitHubReleaseAsset>)

  datatype AssetField = AssetName | BrowserDownloadURL

  /** The asset's coding keys. */
  function AssetKey(f: AssetField): (k: string)
    ensures f == AssetName ==> k == "name"
    ensures f == BrowserDownloadURL ==> k == "browser_download_url"
  {
    match f
    case AssetName => "name"
    case BrowserDownloadURL => "browser_download_url"
  }

  datatype ReleaseField = ReleaseName | TagName | Draft | Prerelease | Assets

  /** The release's coding keys: only the tag is renamed. */
  function ReleaseKey(f: ReleaseField): (k: string)
    ensures f == TagName ==> k == "tag_name"
    ensures f == ReleaseName ==> k == "name"
    ensures f == Draft ==> k == "draft"
    ensures f == Prerelease ==> k == "prerelease"
    ensures f == Assets ==> k == "assets"
  {
    match f
    case ReleaseName => "name"
    case TagName => "tag_name"
    case Draft => "draft"
    case Prerelease => "prerelease"
    case Assets => "assets"
  }

  /** Different fields are stored under different keys, so decoding can tell them apart. */
  lemma ReleaseKeysDistinct(a: ReleaseField, b: ReleaseField)
    ensures ReleaseKey(a) == ReleaseKey(b) ==> a == b
  {
    if ReleaseKey(a) == ReleaseKey(b) {
      assert ReleaseKey(a)[0] == ReleaseKey(b)[0] && |ReleaseKey(a)| == |ReleaseKey(b)|;
    }
  }

  function EncodeAsset(a: GitHubReleaseAsset): (j: Json)
    ensures j.JObject? && |j.fields| == 2
  {
    JObject([(AssetKey(AssetName), JString(a.name)), (AssetKey(BrowserDownloadURL), JString(a.browserDownloadURL))])
  }

  /** Decoding needs both keys to hold strings. */
  function DecodeAsset(j: Json): (r: Option<GitHubReleaseAsset>)
    ensures r.Some? <==> j.JObject? && GetString(j.fields, "name").Some?
                         && GetString(j.fields, "browser_download_url").Some?
  {
    match j
    case JObject(fields) =>
      var name :- GetString(fields, AssetKey(AssetName));
      var url :- GetString(fields, AssetKey(BrowserDownloadURL));
      Some(GitHubReleaseAsset(name, url))
    case _ => None
  }

  /** An encoded asset decodes to itself. */
  lemma AssetRoundTrip(a: GitHubReleaseAsset)
    ensures DecodeAsset(EncodeAsset(a)) == Some(a)
  {
    var fields := EncodeAsset(a).fields;
    assert Get(fields, "name") == Some(JString(a.name));
    assert Get(fields, "browser_download_url") == Some(JString(a.browserDownloadURL)) by {
      assert fields[0].0 == "name" != "browser_download_url";
    }
  }

  function EncodeAssets(assets: seq<GitHubReleaseAsset>): (r: seq<Json>)
    ensures |r| == |assets|
    ensures forall i :: 0 <= i < |assets| ==> r[i] == EncodeAsset(assets[i])
  {
    seq(|assets|, i requires 0 <= i < |assets| => EncodeAsset(assets[i]))
  }

  /** Decodes every element; any element that is not an asset fails the list. */
  function DecodeAssets(items: seq<Json>): (r: Option<seq<GitHubReleaseAsset>>)
    ensures r.Some? ==> |r.value| == |items|
    ensures r.Some? <==> forall i :: 0 <= i < |items| ==> DecodeAsset(items[i]).Some?
  {
    if items == [] then Some([])
    else
      var first :- DecodeAsset(items[0]);
      var rest := DecodeAssets(items[1..]);
      assert forall i :: 1 <= i < |items| ==> items[i] == items[1..][i - 1];
      match rest
      case None => None
      case Some(assets) => Some([first] + assets)
  }

  /** An encoded asset list decodes to itself. */
  lemma {:induction false} AssetsRoundTrip(assets: seq<GitHubReleaseAsset>)
    ensures DecodeAssets(EncodeAssets(assets)) == Some(assets)
  {
    if assets != [] {
      AssetRoundTrip(assets[0]);
      AssetsRoundTrip(assets[1..]);
      assert EncodeAssets(assets)[1..] == EncodeAssets(assets[1..]);
      assert [assets[0]] + assets[1..] == assets;
    }
  }

  function EncodeRelease(r: GitHubRelease): (j: Json)
    ensures j.JObject? && |j.fields| == 5
  {
    JObject([(ReleaseKey(ReleaseName), JString(r.name)),
             (ReleaseKey(TagName), JString(r.tagName)),
             (ReleaseKey(Draft), JBool(r.draft)),
             (ReleaseKey(Prerelease), JBool(r.prerelease)),
             (ReleaseKey(Assets), JArray(EncodeAssets(r.assets)))])
  }

  /** The asset list stored under `key`, if it is an array of assets. */
  function GetAssets(fields: seq<(string, Json)>, key: string): Option<seq<GitHubReleaseAsset>>
  {
    match Get(fields, key)
    case Some(JArray(items)) => DecodeAssets(items)
    case _ => None
  }

  /** Decoding needs every key; the tag is read from `tag_name`. */
  function DecodeRelease(j: Json): (r: Option<GitHubRelease>)
    ensures r.Some? ==> j.JObject? && GetString(j.fields, "tag_name") == Some(r.value.tagName)
    ensures j.JObject? && GetString(j.fields, "tag_name").None? ==> r.None?
  {
    match j
    case JObject(fields) =>
      var name := GetString(fields, ReleaseKey(ReleaseName));
      var tag := GetString(fields, ReleaseKey(TagName));
      var draft := GetBool(fields, ReleaseKey(Draft));
      var prerelease := GetBool(fields, ReleaseKey(Prerelease));
      var assets := GetAssets(fields, ReleaseKey(Assets));
      if name.Some? && tag.Some? && draft.Some? && prerelease.Some? && assets.Some? then
        Some(GitHubRelease(name.value, tag.value, draft.value, prerelease.value, assets.value))
      else
        None
    case _ => None
  }

  /** An encoded release decodes to itself. */
  lemma ReleaseRoundTrip(r: GitHubRelease)
    ensures DecodeRelease(EncodeRelease(r)) == Some(r)
  {
    var fields := EncodeRelease(r).fields;
    ReleaseFieldFound(r, 0);
    ReleaseFieldFound(r, 1);
    ReleaseFieldFound(r, 2);
    ReleaseFieldFound(r, 3);
    ReleaseFieldFound(r, 4);
    AssetsRoundTrip(r.assets);
    DecodeReleaseFrom(fields, r, EncodeAssets(r.assets));
  }

  /** The keys of an encoded release are pairwise different, so every field is found where it was put. */
  lemma ReleaseFieldFound(r: GitHubRelease, i: nat)
    requires i < 5
    ensures var fields := EncodeRelease(r).fields;
            Get(fields, fields[i].0) == Some(fields[i].1)
  {
    var fields := EncodeRelease(r).fields;
    var lengths := [4, 8, 5, 10, 6];
    assert forall j :: 0 <= j < 5 ==> |fields[j].0| == lengths[j];
    GetFirst(fields, i);
  }

  /** A field list holding every key with the right kind of value decodes to that release. */
  lemma DecodeReleaseFrom(fields: seq<(string, Json)>, r: GitHubRelease, items: seq<Json>)
    requires Get(fields, "name") == Some(JString(r.name))
    requires Get(fields, "tag_name") == Some(JString(r.tagName))
    requires Get(fields, "draft") == Some(JBool(r.draft))
    requires Get(fields, "prerelease") == Some(JBool(r.prerelease))
    requires Get(fields, "assets") == Some(JArray(items)) && DecodeAssets(items) == Some(r.assets)
    ensures DecodeRelease(JObject(fields)) == Some(r)
  {
  }

  /** A request against the GitHub API. */
  datatype HTTPRequest = HTTPRequest(httpMethod: string, baseURL: string, path: string)

  /** `latest(repositoryFullName:)`: a GET of `/repos/<full name>/releases/latest` against the API URL. */
  function Latest(apiURL: string, repositoryFullName: string): (r: HTTPRequest)
    ensures r.httpMethod == "GET" && r.baseURL == apiURL
    ensures |r.path| == 7 + |repositoryFullName| + 16 && "/repos/" <= r.path
    ensures r.path[7..|r.path| - 16] == repositoryFullName && r.path[|r.path| - 16..] == "/releases/latest"
  {
    HTTPRequest("GET", apiURL, "/repos/" + repositoryFullName + "/releases/latest")
  }

  /** Different repositories get different requests. */
  lemma LatestInjective(apiURL: string, a: string, b: string)
    ensures Latest(apiURL, a) == Latest(apiURL, b) ==> a == b
  {
  }
}
