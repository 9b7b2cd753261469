# config-importer: a Dafny model of `CompositeConfigLoader`

`CompositeConfigLoader` is a Spring Boot environment post-processor. It runs once at startup. It
merges YAML property groups into the environment's ordered chain of property sources, and it has
two phases:

- In a run that is not production-like, it loads every `.yml` file on the classpath except the
  host's own `application*` files and `bootstrap.yml`.
- In a production-like run, it loads every `.yml` object listed under a key prefix in an S3
  bucket.

A run is production-like when some active profile contains `prod`. Each decoded group is then
filtered by its `spring.config.activate.on-profile` marker. Accepted groups are appended at the
tail of the chain. No failure escapes the post-processor.

The model has these files:

- `wrappers.dfy`: `Option`.
- `strings.dfy` (`JavaStrings`): `startsWith`, `endsWith`, `contains` and `equalsIgnoreCase` on
  `seq<char>`.
- `properties.dfy` (`PropertySources`): the `PropertyGroup` datatype; its marker, read from the
  group's own reserved key; first-match-wins `Lookup` over a chain; and the `Environment` class.
  The class holds the active profiles, fixed for the run, and the mutable `propertySources`
  sequence.
- `fragments.dfy` (`Fragments`): the outside world as given inputs.
  - The classpath scan is a `Scan`.
  - The YAML loader is a `Decoder`. It takes the name it is given and the bytes, and returns
    `Parsed(groups)` or `Malformed`.
  - The S3 client is a pair of functions, `listObjects(bucket, prefix)` and
    `getObject(bucket, key)`. Each may fail.
  - The client provider maps a region to a client, or to `None` when building the client fails.
- `profiles.dfy` (`Profiles`): the production classifier `IsProd`, `ShouldInclude`, and
  `Accepted` (the groups of one fragment that pass the filter).
- `phases.dfy` (`Phases`): what each phase appends, as functions of its inputs, and the lemmas
  about those functions.
- `loader.dfy` (`ConfigImporter`): the class `CompositeConfigLoader`. Its methods have the same
  loops, guards and early exits as the Java code. Each is proved to append exactly what the
  functions of `Phases` prescribe.
- `scenarios.dfy` (`Scenarios`): the repository's two end-to-end tests, written as clients of
  those contracts.

Exceptions become data. A failing scan, decode, fetch, listing or client construction is a
constructor of the input types. The methods then follow the Java `try`/`catch` scopes:

- In the local phase, one `try` encloses the whole loop. The first loader exception ends the
  phase, and the groups appended before it remain.
- In the S3 phase, each object has its own `try`, so a failing object is skipped and the objects
  after it are still loaded. A failing client or listing ends the phase.

`PostProcessEnvironment` has no precondition. Its contract covers every input, failures
included.

Some points follow the code where a casual reading would say otherwise:

- The production test is case-sensitive `contains("prod")`. So `PROD` is not production-like, but
  `prod-kr` is.
- An S3 object is decoded under the name `"s3-" + key`.
- Only names starting with `application`, the exact name `bootstrap.yml` and files without a
  name are skipped locally. `app.yml` and `bootstrap-dev.yml` are loaded.
- The marker is compared through its `toString()`. A marker value that is a YAML list is
  flattened by the decoder into indexed keys. The plain key is then absent, so the group counts
  as unmarked.

## Model

| member | source | states |
|---|---|---|
| `JavaStrings.StartsWith` | src/main/java/com/ryuqq/configImporter/CompositeConfigLoader.java:73 | definition: `name.startsWith(prefix)`, the prefix is the first `|prefix|` characters of the name; used for the `application` skip |
| `JavaStrings.EndsWith` | src/main/java/com/ryuqq/configImporter/CompositeConfigLoader.java:109 | definition: `key.endsWith(suffix)`, the suffix is the last `|suffix|` characters of the key; used for the `.yml` filter |
| `JavaStrings.Contains` | src/main/java/com/ryuqq/configImporter/CompositeConfigLoader.java:161 | `s.contains(sub)` is true exactly when `sub` occurs at some position of `s` |
| `JavaStrings.EqualsIgnoreCaseIsEquivalence` | src/main/java/com/ryuqq/configImporter/CompositeConfigLoader.java:156 | ASCII `equalsIgnoreCase` is reflexive, symmetric and transitive |
| `JavaStrings.EqualsIgnoreCase` | src/main/java/com/ryuqq/configImporter/CompositeConfigLoader.java:156 | definition: same length, and equal position by position after lowering ASCII letters |
| `PropertySources.Marker` | src/main/java/com/ryuqq/configImporter/CompositeConfigLoader.java:153 | definition: the group's own `spring.config.activate.on-profile` value, or none when the group does not define that key |
| `PropertySources.Lookup` | src/main/java/com/ryuqq/configImporter/CompositeConfigLoader.java:97-99 | a key reads as absent iff no group defines it; otherwise it reads as its value in the first group that defines it |
| `PropertySources.LookupAppend` | src/main/java/com/ryuqq/configImporter/CompositeConfigLoader.java:76-83 | appending groups never changes a key the chain already defines; a key it lacks reads as in the appended groups |
| `PropertySources.Environment.AddLast` | src/main/java/com/ryuqq/configImporter/CompositeConfigLoader.java:78 | `addLast` puts the group at the tail and leaves the existing chain as it was |
| `Profiles.IsProd` | src/main/java/com/ryuqq/configImporter/CompositeConfigLoader.java:159-166 | definition: some active profile contains `prod` as a case-sensitive substring |
| `Profiles.AnyEqualsIgnoreCase` | src/main/java/com/ryuqq/configImporter/CompositeConfigLoader.java:155-156 | the `anyMatch` is true iff some active profile equals the marker ignoring case; false for no profiles |
| `Profiles.ShouldInclude` | src/main/java/com/ryuqq/configImporter/CompositeConfigLoader.java:152-157 | an unmarked group is always included; a marked one iff some active profile equals its marker ignoring case |
| `Profiles.Accepted` | src/main/java/com/ryuqq/configImporter/CompositeConfigLoader.java:76-83 | definition: the groups of one fragment that pass `ShouldInclude`, kept in decoding order |
| `Profiles.AcceptedMembers` | src/main/java/com/ryuqq/configImporter/CompositeConfigLoader.java:76-83 | a group is appended iff it is one of the fragment's groups and passes `ShouldInclude`; rejected groups never are |
| `Profiles.AcceptedConcat` | src/main/java/com/ryuqq/configImporter/CompositeConfigLoader.java:76 | the groups are filtered one by one in decoding order, so relative order is kept |
| `Profiles.NoProfilesIsNotProd` | src/main/java/com/ryuqq/configImporter/CompositeConfigLoader.java:159-166 | an empty profile list is not production-like |
| `Profiles.ProdIsCaseSensitiveSubstring` | src/main/java/com/ryuqq/configImporter/CompositeConfigLoader.java:161 | the classifier is case-sensitive and matches substrings: `PROD` is not production-like, `prod-kr` is |
| `Profiles.MarkerMatchesWholeNameIgnoringCase` | src/main/java/com/ryuqq/configImporter/CompositeConfigLoader.java:152-157 | a `prod` marker is matched by profile `PROD`, not by `prod-kr`, and never when there are no profiles |
| `Profiles.OtherProfileGroupSkipped` | src/main/java/com/ryuqq/configImporter/CompositeConfigLoader.java:152-157 | a group marked `staging` is not appended in a `prod` run |
| `Phases.IsSkipped` | src/main/java/com/ryuqq/configImporter/CompositeConfigLoader.java:72-73 | definition: a resource is skipped when it has no filename, its name starts with `application`, or it is exactly `bootstrap.yml` |
| `Phases.LocalAppends` | src/main/java/com/ryuqq/configImporter/CompositeConfigLoader.java:71-84 | definition: resources are taken in scan order; a skipped one adds nothing, a decoded one adds its accepted groups, and the first malformed one ends the walk |
| `Phases.LocalPhase` | src/main/java/com/ryuqq/configImporter/CompositeConfigLoader.java:63-88 | definition: nothing when some profile is active and the run is production-like, nothing when the scan fails, otherwise `LocalAppends` of the scanned resources |
| `Phases.LocalAppendsConcat` | src/main/java/com/ryuqq/configImporter/CompositeConfigLoader.java:71-84 | resources contribute in scan order; a later block of resources contributes only if every resource before it decoded |
| `Phases.LocalFailureAbortsRest` | src/main/java/com/ryuqq/configImporter/CompositeConfigLoader.java:67-87 | one loader exception ends the local phase: later resources add nothing, and the earlier groups stay |
| `Phases.LocalLoadsOnlyUnskipped` | src/main/java/com/ryuqq/configImporter/CompositeConfigLoader.java:72-75 | no skipped resource reaches the loader: the outcome does not depend on what the loader would do with one |
| `Phases.SkippedNames` | src/main/java/com/ryuqq/configImporter/CompositeConfigLoader.java:73 | null names, `application*` names and exactly `bootstrap.yml` are skipped; `bootstrap-dev.yml`, `app.yml` and `test.yml` are not |
| `Phases.ResolveS3Settings` | src/main/java/com/ryuqq/configImporter/CompositeConfigLoader.java:97-99 | definition: bucket, prefix and region read from the chain under `s3.bucket`, `s3.keyPrefix` and `s3.region`, with the code's defaults |
| `Phases.S3SettingsDefaults` | src/main/java/com/ryuqq/configImporter/CompositeConfigLoader.java:97-99 | bucket, prefix and region are the first values the environment defines, else `my-secure-bucket`, `config/` and `ap-northeast-2` |
| `Phases.S3SourceName` | src/main/java/com/ryuqq/configImporter/CompositeConfigLoader.java:129 | definition: an S3 object is decoded under the name `"s3-" + key` |
| `Phases.YmlObjects` | src/main/java/com/ryuqq/configImporter/CompositeConfigLoader.java:108-110 | exactly the listed keys ending in `.yml` are kept |
| `Phases.YmlObjectsConcat` | src/main/java/com/ryuqq/configImporter/CompositeConfigLoader.java:108-110 | the filter works key by key: filtering a concatenation is the concatenation of the filtered parts, so listing order and repeated keys are kept |
| `Phases.ObjectGroups` | src/main/java/com/ryuqq/configImporter/CompositeConfigLoader.java:122-140 | definition: one object adds nothing when its fetch or its decoding fails, otherwise its accepted groups |
| `Phases.S3Appends` | src/main/java/com/ryuqq/configImporter/CompositeConfigLoader.java:118-141 | definition: the `.yml` objects are taken in listing order, each adding its `ObjectGroups` |
| `Phases.S3Phase` | src/main/java/com/ryuqq/configImporter/CompositeConfigLoader.java:90-150 | definition: nothing outside a production-like run, when the client cannot be built, or when the listing fails; otherwise `S3Appends` of the listed `.yml` keys with the settings read from the chain |
| `Phases.S3AppendsConcat` | src/main/java/com/ryuqq/configImporter/CompositeConfigLoader.java:118-141 | S3 objects contribute independently of each other, in listing order |
| `Phases.S3FailureSkipsOnlyThatObject` | src/main/java/com/ryuqq/configImporter/CompositeConfigLoader.java:127-140 | an object whose fetch or decoding fails adds nothing, and the objects before and after it load as usual |
| `Phases.S3ReadsOnlyYmlObjects` | src/main/java/com/ryuqq/configImporter/CompositeConfigLoader.java:107-129 | only listed `.yml` objects are fetched, and each is decoded under the name `"s3-" + key`: clients and decoders that agree on those give the same phase |
| `Phases.S3NothingToLoad` | src/main/java/com/ryuqq/configImporter/CompositeConfigLoader.java:107-115 | a failed listing, or one with no `.yml` key, leaves the chain unchanged |
| `Phases.LocalGuardIsProd` | src/main/java/com/ryuqq/configImporter/CompositeConfigLoader.java:64 | the local guard `length > 0 && isProd` is equivalent to `isProd` |
| `Phases.ExactlyOnePhaseWorks` | src/main/java/com/ryuqq/configImporter/CompositeConfigLoader.java:56-57 | in a production-like run the local phase appends nothing; otherwise the S3 phase appends nothing |
| `ConfigImporter.CompositeConfigLoader.constructor` | src/main/java/com/ryuqq/configImporter/CompositeConfigLoader.java:49-51 | the loader keeps the injected S3 client provider |
| `ConfigImporter.CompositeConfigLoader.PostProcessEnvironment` | src/main/java/com/ryuqq/configImporter/CompositeConfigLoader.java:54-58 | for every input the chain grows by the S3 phase's groups in a production-like run, else by the local phase's; keys already defined keep their values |
| `ConfigImporter.CompositeConfigLoader.IsProdProfile` | src/main/java/com/ryuqq/configImporter/CompositeConfigLoader.java:159-166 | true iff some active profile contains `prod` |
| `ConfigImporter.CompositeConfigLoader.LoadLocalYmlConfigsIfNotProd` | src/main/java/com/ryuqq/configImporter/CompositeConfigLoader.java:63-88 | appends exactly the local phase's groups, in scan and decoding order, after the unchanged old chain |
| `ConfigImporter.CompositeConfigLoader.LoadResources` | src/main/java/com/ryuqq/configImporter/CompositeConfigLoader.java:71-84 | appends the accepted groups of each unskipped resource in scan order, stopping at the first that fails to decode |
| `ConfigImporter.CompositeConfigLoader.AppendAccepted` | src/main/java/com/ryuqq/configImporter/CompositeConfigLoader.java:130-137 | appends the accepted groups of one fragment in order, and nothing else |
| `ConfigImporter.CompositeConfigLoader.LoadS3ConfigsIfProd` | src/main/java/com/ryuqq/configImporter/CompositeConfigLoader.java:90-150 | appends exactly the S3 phase's groups, settings read from the chain as it was, after the unchanged old chain |
| `ConfigImporter.CompositeConfigLoader.LoadObjects` | src/main/java/com/ryuqq/configImporter/CompositeConfigLoader.java:118-141 | appends the groups of each `.yml` object in listing order, skipping each object that fails |
| `Scenarios.LocalRunLoadsTestYml` | src/test/java/com/ryuqq/configImporter/CompositeConfigLoaderTest.java:32-41 | with profile `local`, `test.key` reads `imported-from-yml` and `test.count` reads `42`; the skipped files are never decoded |
| `Scenarios.ProdRunLoadsBothS3Objects` | src/test/java/com/ryuqq/configImporter/CompositeConfigLoaderTest.java:45-80 | with profile `prod` and two S3 objects marked `prod`, both `aws.accessKey` and `slack.webhook` are readable |

## Left out

- Spring Boot registration of the post-processor and the `SpringApplication` argument. They are host plumbing that the loader does not use.
- The no-argument constructor and `DefaultS3ClientProvider`. They build a real S3 client with ambient credentials, which is network I/O. The provider is a parameter of the model.
- The classpath scan for `.yml` resources. Its result, or its failure, is the `Scan` input.
- YAML decoding. The decoder is a parameter. The names of the property sources it derives are whatever the decoder returns.
- Closing streams and clients in try-with-resources, and all logging. Neither changes the chain. A failing `close` after the groups were appended leaves them appended, as the model does.
- `Environment.AddLast`: Spring's `MutablePropertySources.addLast` first removes an existing source with the same name. The model appends unconditionally, which matches only when group names are distinct. The local loader names each source after the bare filename (lines 72 and 75), so two classpath roots holding files of the same name collide: Spring keeps only the later file's source, at the tail, while the model keeps both and the earlier one wins lookups.
- `Lookup`: `getProperty` also resolves placeholders and converts types. The model reads the raw first-match string. An exception from `getProperty` (the outer catch at lines 147-149) is not modelled.
- Profile re-reading: the `Environment` class reads the active profiles once, when it is built, and they stay fixed for the run. Spring's `getActiveProfiles()` (called again at lines 64, 155 and 160) falls back to reading `spring.profiles.active` from the chain while no profile is active, so a group appended during the run could activate profiles for later `shouldInclude` and `isProdProfile` calls. The model does not capture that feedback.
- Property values are the `toString()` of the decoded YAML values. Non-string YAML types are not distinguished.
- `JavaStrings.EqualsIgnoreCaseIsEquivalence`: case folding is ASCII only, not Java's full Unicode `equalsIgnoreCase`.
- The S3 listing order is whatever the backend returns. The model keeps the order it is given (`Phases.YmlObjectsConcat`).
- The S3 listing is a single `listObjectsV2` response. The code does not page through continuation tokens, and neither does the model.
- The test files `S3TestClient.java` and `AwsTestProperties.java`, and the `Binder` test. They exercise a test double and Spring's binder, not the loader.
- `Scenarios.ProdRunLoadsBothS3Objects`: the test's mock picks the body by `key.contains("aws")`. The model's mock picks it by the exact key. Both give the same bodies for the two listed keys.
