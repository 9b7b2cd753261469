/**
 * The repository's two end-to-end tests, stated as clients of the loader's contracts:
 * what a reader of the environment sees after one run.
 */
module Scenarios {
  import opened Wrappers
  import opened JavaStrings
  import opened PropertySources
  import opened Fragments
  import opened Profiles
  import opened Phases
  import opened ConfigImporter

  /** Stand-ins for the bytes of the test's YAML files; the decoders below tell them apart. */
  const TestYml: Bytes := [1]
  const AwsYml: Bytes := [2]
  const SlackYml: Bytes := [3]

  /** `test.yml` on the test classpath: no profile marker. */
  function TestYmlGroups(name: string): seq<PropertyGroup>
  {
    [PropertyGroup(name, map["test.key" := "imported-from-yml", "test.count" := "42"])]
  }

  /** Decodes `test.yml`; throws for anything else, so loading a skipped file would end the phase. */
  function ClasspathDecoder(name: string, bytes: Bytes): Decoded
  {
    if bytes == TestYml then Parsed(TestYmlGroups(name)) else Malformed
  }

  /**
   * Profile `local`, a classpath holding `application.yml`, `bootstrap.yml` and `test.yml`:
   * `test.key` and `test.count` come from `test.yml`, whatever the S3 client would do.
   */
  method LocalRunLoadsTestYml(provider: S3ClientProvider) returns (testKey: Option<string>, testCount: Option<string>)
    ensures testKey == Some("imported-from-yml") && testCount == Some("42")
  {
    var environment := new Environment(["local"], []);
    var loader := new CompositeConfigLoader(provider);
    var classpath := Scanned([Resource(Some("application.yml"), [9]),
                              Resource(Some("bootstrap.yml"), [9]),
                              Resource(Some("test.yml"), TestYml)]);
    assert !IsProd(["local"]) by {
      assert !Contains("local", "prod") by {
        assert !OccursAt("local", "prod", 0) by { assert "local"[0..4][0] != "prod"[0]; }
        assert !OccursAt("local", "prod", 1) by { assert "local"[1..5][0] != "prod"[0]; }
      }
    }
    assert IsSkipped(Some("application.yml")) && IsSkipped(Some("bootstrap.yml")) && !IsSkipped(Some("test.yml"));
    ghost var rs := classpath.resources;
    assert LocalAppends(rs[2..], ClasspathDecoder, ["local"]) == TestYmlGroups("test.yml") by {
      assert rs[2..][1..] == [];
    }
    assert LocalAppends(rs, ClasspathDecoder, ["local"]) == TestYmlGroups("test.yml") by {
      assert rs[1..][1..] == rs[2..];
    }
    loader.PostProcessEnvironment(environment, classpath, ClasspathDecoder);
    testKey := Lookup(environment.propertySources, "test.key");
    testCount := Lookup(environment.propertySources, "test.count");
  }

  /** A document of the test bucket: marked for `prod`, with one more key. */
  function ProdGroup(name: string, key: string, value: string): seq<PropertyGroup>
  {
    [PropertyGroup(name, map[OnProfileKey := "prod", key := value])]
  }

  /** Decodes the two objects of the test bucket. */
  function BucketDecoder(name: string, bytes: Bytes): Decoded
  {
    if bytes == AwsYml then Parsed(ProdGroup(name, "aws.accessKey", "mock-access"))
    else Parsed(ProdGroup(name, "slack.webhook", "https://slack.com/api/notify"))
  }

  /** The test's mock client: two objects under `mock-prefix/`, the AWS settings and the Slack settings. */
  function MockClient(): S3Client
  {
    S3Client((bucket, prefix) => Listed(["mock-prefix/aws.yml", "mock-prefix/slack.yml"]),
             (bucket, key) => Body(if key == "mock-prefix/aws.yml" then AwsYml else SlackYml))
  }

  /** The test's provider: the mock client, whatever the region. */
  function MockProvider(region: string): Option<S3Client>
  {
    Some(MockClient())
  }

  const MockKeys := ["mock-prefix/aws.yml", "mock-prefix/slack.yml"]

  /** The `s3.*` settings the test puts into the system properties. */
  function SystemProperties(): PropertyGroup
  {
    PropertyGroup("systemProperties", map[BucketKey := "mock-bucket", PrefixKey := "mock-prefix/", RegionKey := "ap-northeast-2"])
  }

  function AwsGroups(): seq<PropertyGroup>
  {
    ProdGroup(S3SourceName(MockKeys[0]), "aws.accessKey", "mock-access")
  }

  function SlackGroups(): seq<PropertyGroup>
  {
    ProdGroup(S3SourceName(MockKeys[1]), "slack.webhook", "https://slack.com/api/notify")
  }

  /** Both mock objects are decoded and both of their groups pass the `prod` filter. */
  lemma MockObjectsLoad()
    ensures S3Appends(MockKeys, MockClient(), "mock-bucket", BucketDecoder, ["prod"]) == AwsGroups() + SlackGroups()
  {
    assert EqualsIgnoreCase(["prod"][0], "prod");
    assert ObjectGroups(MockClient(), "mock-bucket", MockKeys[0], BucketDecoder, ["prod"]) == AwsGroups() by {
      assert Accepted(AwsGroups(), ["prod"]) == AwsGroups() by { assert AwsGroups()[1..] == []; }
    }
    assert ObjectGroups(MockClient(), "mock-bucket", MockKeys[1], BucketDecoder, ["prod"]) == SlackGroups() by {
      assert Accepted(SlackGroups(), ["prod"]) == SlackGroups() by { assert SlackGroups()[1..] == []; }
    }
    assert MockKeys[1..][1..] == [];
  }

  /** In the test's environment the S3 phase appends the groups of both objects. */
  lemma MockS3Phase()
    ensures IsProd(["prod"])
    ensures S3Phase(["prod"], [SystemProperties()], MockProvider, BucketDecoder) == AwsGroups() + SlackGroups()
  {
    assert IsProd(["prod"]) by {
      assert OccursAt("prod", "prod", 0);
      assert Contains(["prod"][0], "prod");
    }
    assert ResolveS3Settings([SystemProperties()]) == S3Settings("mock-bucket", "mock-prefix/", "ap-northeast-2");
    assert YmlObjects(MockKeys) == MockKeys by {
      assert EndsWith(MockKeys[0], ".yml") && EndsWith(MockKeys[1], ".yml");
      assert MockKeys[1..][1..] == [];
    }
    MockObjectsLoad();
  }

  /** After the two objects' groups follow the system properties, both keys read as the objects set them. */
  lemma MockChainReads()
    ensures Lookup([SystemProperties()] + (AwsGroups() + SlackGroups()), "aws.accessKey") == Some("mock-access")
    ensures Lookup([SystemProperties()] + (AwsGroups() + SlackGroups()), "slack.webhook") == Some("https://slack.com/api/notify")
  {
    assert Lookup([SystemProperties()], "aws.accessKey") == None && Lookup([SystemProperties()], "slack.webhook") == None;
    LookupAppend([SystemProperties()], AwsGroups() + SlackGroups(), "aws.accessKey");
    LookupAppend([SystemProperties()], AwsGroups() + SlackGroups(), "slack.webhook");
    LookupAppend(AwsGroups(), SlackGroups(), "aws.accessKey");
    LookupAppend(AwsGroups(), SlackGroups(), "slack.webhook");
  }

  /**
   * Profile `prod`, the `s3.*` settings given as system properties, and a bucket with two
   * objects marked `on-profile: prod`: both keys are readable afterwards, whatever the classpath holds.
   */
  method ProdRunLoadsBothS3Objects(classpath: Scan) returns (accessKey: Option<string>, webhook: Option<string>)
    ensures accessKey == Some("mock-access") && webhook == Some("https://slack.com/api/notify")
  {
    var environment := new Environment(["prod"], [SystemProperties()]);
    var loader := new CompositeConfigLoader(MockProvider);
    MockS3Phase();
    loader.PostProcessEnvironment(environment, classpath, BucketDecoder);
    MockChainReads();
    accessKey := Lookup(environment.propertySources, "aws.accessKey");
    webhook := Lookup(environment.propertySources, "slack.webhook");
  }
}
