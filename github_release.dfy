/**
 * The GitHub binding of a release: it checks one raw record of the releases
 * endpoint, derives where the release's `.rr.yaml` lives on GitHub's
 * raw-content host, keeps the raw assets for deferred parsing, and fetches
 * the configuration text on demand through the client it was given.
 */
module GitHub {
  import opened Wrappers
  import opened RawData
  import opened Assets
  import opened Http

  /** Host and leading slash of GitHub's raw-content URLs. */
  const RawContentBase := "https://raw.githubusercontent.com/"
  /** Path of the configuration file below a release. */
  const ConfigFile := "/.rr.yaml"
  /** Message of the error raised for a record without a name. */
  const NameMissing := "Passed array must contain \"name\" value of type string"

  /**
   * The exceptions `fromApiResponse` can raise: the explicit check on the
   * name, and the type error of the constructor's `string $name` parameter
   * (strict types) when the name is set but is not a string.
   */
  datatype Error = InvalidArgument(message: string) | TypeError

  /** The values a release is built from. */
  datatype ReleaseData = ReleaseData(name: string, config: string, assets: AssetsCollection)

  /** The configuration URL of release `releaseName` of repository `repositoryName`. */
  function ConfigUrl(repositoryName: string, releaseName: string): (url: string)
    ensures |url| == |RawContentBase| + |repositoryName| + 1 + |releaseName| + |ConfigFile|
    ensures url[..|RawContentBase|] == RawContentBase
    ensures url[|url| - |ConfigFile|..] == ConfigFile
  {
    RawContentBase + repositoryName + "/" + releaseName + ConfigFile
  }

  /**
   * The release name a configuration URL of `repositoryName` points at, if
   * `url` has the shape of one.
   */
  function ReleaseNameIn(repositoryName: string, url: string): (name: Option<string>)
    ensures name.Some? ==> ConfigUrl(repositoryName, name.value) == url
  {
    var head := RawContentBase + repositoryName + "/";
    if |url| >= |head| + |ConfigFile| && url[..|head|] == head && url[|url| - |ConfigFile|..] == ConfigFile
    then
      var name := url[|head|..|url| - |ConfigFile|];
      assert url == head + name + ConfigFile;
      Some(name)
    else None
  }

  /** The release name is recovered from its configuration URL. */
  lemma ConfigUrlRoundTrip(repositoryName: string, releaseName: string)
    ensures ReleaseNameIn(repositoryName, ConfigUrl(repositoryName, releaseName)) == Some(releaseName)
  {
    var head := RawContentBase + repositoryName + "/";
    var url := ConfigUrl(repositoryName, releaseName);
    assert url == head + releaseName + ConfigFile;
    assert url[..|head|] == head;
    assert url[|head|..|url| - |ConfigFile|] == releaseName;
  }

  /** Within one repository, distinct release names have distinct configuration URLs. */
  lemma ConfigUrlInjective(repositoryName: string, a: string, b: string)
    requires a != b
    ensures ConfigUrl(repositoryName, a) != ConfigUrl(repositoryName, b)
  {
    ConfigUrlRoundTrip(repositoryName, a);
    ConfigUrlRoundTrip(repositoryName, b);
  }

  /** The raw asset items: `$release['assets'] ?? []`, as `foreach` visits them. */
  function RawAssets(record: Record): seq<Value>
  {
    if IsSet(record, "assets") then ForeachValues(record["assets"]) else []
  }

  /**
   * `fromApiResponse` on values: the name check, the derived configuration
   * URL, and the raw assets wrapped with the parser, unparsed.
   */
  function ReleaseFromApiResponse(repositoryName: string, record: Record, parse: AssetParser)
    : (r: Result<ReleaseData, Error>)
    ensures r.Ok? <==> IsSet(record, "name") && record["name"].Str?
    ensures !IsSet(record, "name") ==> r == Err(InvalidArgument(NameMissing))
    ensures IsSet(record, "name") && !record["name"].Str? ==> r == Err(TypeError)
    ensures r.Ok? ==>
      r.value.name == record["name"].s &&
      ReleaseNameIn(repositoryName, r.value.config) == Some(r.value.name) &&
      r.value.assets == Deferred(parse, RawAssets(record))
  {
    if !IsSet(record, "name") then Err(InvalidArgument(NameMissing))
    else match record["name"]
      case Str(name) =>
        ConfigUrlRoundTrip(repositoryName, name);
        Ok(ReleaseData(name, ConfigUrl(repositoryName, name), Deferred(parse, RawAssets(record))))
      case _ => Err(TypeError)
  }

  /**
   * Building a release never runs the asset parser: with a string name it
   * succeeds whatever `assets` holds and whatever the parser would say of it,
   * and the name and URL do not depend on either.
   */
  lemma ConstructionIgnoresAssets(repositoryName: string, record: Record, parse: AssetParser,
                                  otherAssets: Value, otherParse: AssetParser)
    requires IsSet(record, "name") && record["name"].Str?
    ensures var r := ReleaseFromApiResponse(repositoryName, record, parse);
            var r' := ReleaseFromApiResponse(repositoryName, record["assets" := otherAssets], otherParse);
            r.Ok? && r'.Ok? && r.value.name == r'.value.name && r.value.config == r'.value.config
  {
    var other := record["assets" := otherAssets];
    assert "name" != "assets";
    assert other["name"] == record["name"];
  }

  /** A record without `assets` gives a release whose assets iterate to nothing, without failure. */
  lemma MissingAssetsIsEmpty(repositoryName: string, record: Record, parse: AssetParser)
    requires IsSet(record, "name") && record["name"].Str?
    requires !IsSet(record, "assets")
    ensures Iterated(ReleaseFromApiResponse(repositoryName, record, parse).value.assets) == Iteration([], None)
  {
  }

  /**
   * A malformed raw asset does not stop the release from being built; it
   * surfaces only when the assets are iterated, after the assets before it,
   * at its own position.
   */
  lemma MalformedAssetFailsLate(repositoryName: string, record: Record, parse: AssetParser, bad: nat)
    requires IsSet(record, "name") && record["name"].Str?
    requires bad < |RawAssets(record)| && parse(RawAssets(record)[bad]).Err?
    requires AllParse(parse, RawAssets(record)[..bad])
    ensures ReleaseFromApiResponse(repositoryName, record, parse).Ok?
    ensures var it := Iterated(ReleaseFromApiResponse(repositoryName, record, parse).value.assets);
            it.failure == Some(Failure(bad, parse(RawAssets(record)[bad]).error)) &&
            it.yielded == ParsedEach(parse, RawAssets(record)[..bad])
  {
    FailsAtFirstRejected(parse, RawAssets(record), bad);
  }

  /** When every raw asset parses, the release's assets are those items parsed, one each, in order. */
  lemma WellFormedAssetsInOrder(repositoryName: string, record: Record, parse: AssetParser)
    requires IsSet(record, "name") && record["name"].Str?
    requires AllParse(parse, RawAssets(record))
    ensures Iterated(ReleaseFromApiResponse(repositoryName, record, parse).value.assets)
            == Iteration(ParsedEach(parse, RawAssets(record)), None)
  {
    InstantiatedMapsInOrder(parse, RawAssets(record));
  }

  /** The release the repository `roadrunner-server/roadrunner` publishes as `v2.12.0`. */
  lemma RoadRunnerExample(parse: AssetParser)
    ensures var r := ReleaseFromApiResponse("roadrunner-server/roadrunner", map["name" := Str("v2.12.0")], parse);
            r.Ok? && r.value.name == "v2.12.0" &&
            r.value.config == "https://raw.githubusercontent.com/roadrunner-server/roadrunner/v2.12.0/.rr.yaml"
  {
    var record := map["name" := Str("v2.12.0")];
    assert IsSet(record, "name");
    var repo := "https://raw.githubusercontent.com/roadrunner-server/roadrunner";
    assert RawContentBase + "roadrunner-server/roadrunner" == repo;
    assert repo + "/" + "v2.12.0" + ConfigFile
        == "https://raw.githubusercontent.com/roadrunner-server/roadrunner/v2.12.0/.rr.yaml";
  }

  /** A release bound to GitHub: its name, configuration URL, assets and the client it fetches with. */
  class GitHubRelease {
    const client: StubClient
    const name: string
    const config: string
    const assets: AssetsCollection

    constructor (client: StubClient, name: string, config: string, assets: AssetsCollection := Eager([]))
      ensures this.client == client && Data() == ReleaseData(name, config, assets)
    {
      this.client := client;
      this.name := name;
      this.config := config;
      this.assets := assets;
    }

    /** The release as a value. */
    function Data(): ReleaseData
    {
      ReleaseData(name, config, assets)
    }

    /** The configuration text: one GET to the configuration URL, whose body is returned. */
    method GetConfig() returns (content: string)
      modifies client
      ensures client.log == old(client.log) + [Sent("GET", config)]
      ensures content == client.serve(config)
    {
      content := client.Request("GET", config);
    }

    /**
     * `fromApiResponse`: a release built from one raw record, or the error
     * the record raises; building it sends no request.
     */
    static method FromApiResponse(repositoryName: string, client: StubClient, record: Record, parse: AssetParser)
      returns (r: Result<GitHubRelease, Error>)
      ensures client.log == old(client.log)
      ensures r.Ok? <==> ReleaseFromApiResponse(repositoryName, record, parse).Ok?
      ensures r.Err? ==> r.error == ReleaseFromApiResponse(repositoryName, record, parse).error
      ensures r.Ok? ==>
        fresh(r.value) && r.value.client == client &&
        r.value.Data() == ReleaseFromApiResponse(repositoryName, record, parse).value
    {
      match ReleaseFromApiResponse(repositoryName, record, parse) {
        case Err(e) =>
          r := Err(e);
        case Ok(data) =>
          var release := new GitHubRelease(client, data.name, data.config, data.assets);
          r := Ok(release);
      }
    }
  }

  /**
   * The configuration is not cached: asking twice sends two GETs to the same
   * URL, and the stub answers both alike.
   */
  method GetConfigTwice(release: GitHubRelease) returns (first: string, second: string)
    modifies release.client
    ensures release.client.log == old(release.client.log) + [Sent("GET", release.config), Sent("GET", release.config)]
    ensures first == second == release.client.serve(release.config)
  {
    first := release.GetConfig();
    second := release.GetConfig();
  }
}
