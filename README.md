# GitHub release binding of the RoadRunner installer

This project models, in Dafny, how the RoadRunner binary installer turns one
raw record of GitHub's releases endpoint into a release
(`GitHubRelease::fromApiResponse`), and how that release fetches its
configuration file (`GitHubRelease::getConfig`).

- **Raw data** (`raw_data.dfy`): decoded JSON values. A record is a map from
  field name to value, and `Null` is the JSON null, so PHP's `isset` is
  "key present and value not null" (`RawData.IsSet`).
- **Assets** (`assets.dfy`): a release's assets are either already known or
  raw items kept with the asset parser. Nothing is parsed when the release is
  built. Iterating the collection parses the items one by one, in order, and
  stops at the first item the parser rejects. `Iteration` records what a
  consumer sees: the assets yielded so far, then the end or the failure with
  its position. The parser (`GitHubAsset::fromApiResponse`) is a parameter
  that may reject any item.
- **HTTP** (`http.dfy`): a stub client that logs each `(method, url)` it is
  sent and answers each URL with a fixed body.
- **Release** (`github_release.dfy`): the name check, the configuration URL
  `https://raw.githubusercontent.com/<repository>/<release>/.rr.yaml`, the
  `GitHubRelease` class with its stored client, and `getConfig`.

A non-null `name` that is not a string passes the `isset` check. The
constructor's `string $name` parameter then rejects it under strict types.
The model returns `TypeError` for this case.

`isset` accepts an empty-string name and the constructor does not reject it,
so the model accepts `""` too.

## Model

| member | source | states |
|---|---|---|
| `GitHub.ReleaseFromApiResponse` | src/Installer/Repository/GitHub/GitHubRelease.php:62-82 | Succeeds exactly when `name` is set and is a string. An unset or null name gives the invalid-argument error with its message; any other non-string name gives a type error. On success the release name is the record's name unchanged, the config URL decodes back to that name, and the assets are the raw `assets` items, unparsed, with the parser |
| `GitHub.ConfigUrl` | src/Installer/Repository/GitHub/GitHubRelease.php:76-79 | The config URL starts with `https://raw.githubusercontent.com/`, ends with `/.rr.yaml`, and its length is the prefix, repository, slash, release name and suffix together |
| `GitHub.ReleaseNameIn` | src/Installer/Repository/GitHub/GitHubRelease.php:76-79 | Inverse of the URL derivation: any release name it recovers from a URL rebuilds exactly that URL |
| `GitHub.ConfigUrlRoundTrip` | src/Installer/Repository/GitHub/GitHubRelease.php:76-79 | The release name is recovered unchanged from the URL derived for it |
| `GitHub.ConfigUrlInjective` | src/Installer/Repository/GitHub/GitHubRelease.php:76-79 | For a fixed repository, two different release names give two different config URLs |
| `GitHub.ConstructionIgnoresAssets` | src/Installer/Repository/GitHub/GitHubRelease.php:70-81 | With a string name, the release is built whatever `assets` holds and whatever the parser would do with it. Name and URL do not depend on either |
| `GitHub.MissingAssetsIsEmpty` | src/Installer/Repository/GitHub/GitHubRelease.php:71 | A record without `assets` gives a release whose assets iterate to nothing, with no error |
| `GitHub.MalformedAssetFailsLate` | src/Installer/Repository/GitHub/GitHubRelease.php:70-81 | A rejected raw asset does not stop the release from being built. Iteration yields the assets before it, then fails at its position with the parser's reason |
| `GitHub.WellFormedAssetsInOrder` | src/Installer/Repository/GitHub/GitHubRelease.php:70-81 | When every raw asset parses, iteration yields one asset per raw item, in order, and does not fail |
| `GitHub.RoadRunnerExample` | src/Installer/Repository/GitHub/GitHubRelease.php:76-81 | Release `v2.12.0` of `roadrunner-server/roadrunner` has the config URL `https://raw.githubusercontent.com/roadrunner-server/roadrunner/v2.12.0/.rr.yaml` |
| `GitHub.GitHubRelease.constructor` | src/Installer/Repository/GitHub/GitHubRelease.php:39-44 | Stores the client, name, config URL and assets as given. Assets default to an empty known collection |
| `GitHub.GitHubRelease.GetConfig` | src/Installer/Repository/GitHub/GitHubRelease.php:49-54 | Sends exactly one request, `GET` to the release's config URL, and returns that response's body. Name, URL and assets are constants and stay unchanged |
| `GitHub.GitHubRelease.FromApiResponse` | src/Installer/Repository/GitHub/GitHubRelease.php:62-82 | Fails exactly when `ReleaseFromApiResponse` fails, with the same error. Otherwise returns a new release holding the given client and the fields `ReleaseFromApiResponse` computes. The client's request log is unchanged |
| `GitHub.GetConfigTwice` | src/Installer/Repository/GitHub/GitHubRelease.php:49-54 | The config text is not cached: two calls send two identical GETs and return the same body |
| `Http.StubClient.Request` | src/Installer/Repository/GitHub/GitHubRelease.php:51-53 | The stub behind `request(...)->getContent()`: it appends `(method, url)` to the log and returns the body for that URL |
| `Assets.Instantiated` | src/Installer/Repository/GitHub/GitHubRelease.php:70-74 | The deferred producer: each yielded asset is its raw item parsed, in order. Iteration ends without failure exactly when every item parses, and then yields one asset per item. Otherwise the failure sits at the first rejected item, right after the yielded prefix, with the parser's reason |
| `Assets.Materialise` | src/Installer/Repository/GitHub/GitHubRelease.php:70-74 | The `foreach` loop of the instantiator computes exactly what `Instantiated` specifies: known assets as they are, raw items parsed in order up to the first rejection |
| `Assets.FailuresAgree` | src/Installer/Repository/GitHub/GitHubRelease.php:71-73 | If the first `k` raw items already fail, the whole list fails at the same position after the same number of yielded assets |
| `Assets.FailureIsFinal` | src/Installer/Repository/GitHub/GitHubRelease.php:71-73 | Once a prefix of the raw items has failed, the remaining items change nothing: the exception ends the generator |
| `Assets.PrefixIsConsistent` | src/Installer/Repository/GitHub/GitHubRelease.php:71-73 | What the first `k` raw items yield is a prefix of what the whole list yields. Assets are produced one at a time, in order |
| `Assets.InstantiatedMapsInOrder` | src/Installer/Repository/GitHub/GitHubRelease.php:70-73 | When every item parses, iteration equals the in-order map of the parser over the raw items |
| `Assets.FailsAtFirstRejected` | src/Installer/Repository/GitHub/GitHubRelease.php:70-74 | If the item at `bad` is rejected and every item before it parses, iteration yields exactly those earlier assets and then fails at `bad` |

## Left out

- The HTTP transport behind `request(...)->getContent()` is not modelled: connections, TLS, status codes and transport errors. The stub answers every URL with a fixed body and never fails.
- `GitHubAsset::fromApiResponse` is not part of this model. It is a parameter that may accept or reject any raw item. It also receives the client, which only matters for later downloads.
- `AssetsCollection::from`, its filtering and the `Release` base class are not part of this model. A collection is modelled as known assets or deferred raw items, and "iterating" it as `Iterated`.
- PHP generator mechanics are not modelled, including whether a second iteration re-runs the parser. Iteration is a pure function of the raw items, so two iterations always agree.
- `GitHubRepository::getName()` is not part of this model. The repository name is an arbitrary string, and its format is not checked.
- PHP warnings are not modelled: `foreach` over a non-array `assets` value and `vsprintf` over an array name both warn. The model treats the first as no items; the second is followed by the type error anyway.
- JSON floating-point numbers are not modelled. Like every other non-string name, they would lead to the type error.
- The type error carries no message, because PHP's message text comes from the runtime, not from this file.
