/**
 * What each phase of the loader appends to the property chain, as functions of its inputs,
 * and the properties of those functions. The imperative methods in `ConfigImporter` are
 * proved to append exactly these sequences.
 */
module Phases {
  import opened Wrappers
  import opened JavaStrings
  import opened PropertySources
  import opened Fragments
  import opened Profiles

  // ---------------------------------------------------------------- local phase

  /** The local loop passes over a resource that has no file name, is the host's own
      `application*` file, or is exactly `bootstrap.yml`. */
  predicate IsSkipped(filename: Option<string>)
  {
    filename.None? || StartsWith(filename.value, "application") || filename.value == "bootstrap.yml"
  }

  /** The groups the local loop appends for `resources`. The loader's first exception leaves
      the loop, so nothing after a malformed resource is visited. */
  function LocalAppends(resources: seq<Resource>, decode: Decoder, profiles: seq<string>): seq<PropertyGroup>
  {
    if resources == [] then []
    else if IsSkipped(resources[0].filename) then LocalAppends(resources[1..], decode, profiles)
    else match decode(resources[0].filename.value, resources[0].content)
      case Malformed => []
      case Parsed(groups) => Accepted(groups, profiles) + LocalAppends(resources[1..], decode, profiles)
  }

  /** Every resource of `resources` that the loop hands to the loader decodes without an exception. */
  predicate LoadsCleanly(resources: seq<Resource>, decode: Decoder)
  {
    forall i | 0 <= i < |resources| ::
      !IsSkipped(resources[i].filename) ==> decode(resources[i].filename.value, resources[i].content).Parsed?
  }

  /** The whole local phase: it does nothing in a production-like run or when the scan throws. */
  function LocalPhase(profiles: seq<string>, classpath: Scan, decode: Decoder): seq<PropertyGroup>
  {
    if |profiles| > 0 && IsProd(profiles) then []
    else match classpath
      case ScanFailed => []
      case Scanned(resources) => LocalAppends(resources, decode, profiles)
  }

  /** A block loads cleanly iff its first resource does and the rest of the block does. */
  lemma LoadsCleanlyCons(a: seq<Resource>, decode: Decoder)
    requires a != []
    ensures LoadsCleanly(a, decode) <==>
            (!IsSkipped(a[0].filename) ==> decode(a[0].filename.value, a[0].content).Parsed?) && LoadsCleanly(a[1..], decode)
  {
    assert forall i | 0 < i < |a| :: a[i] == a[1..][i - 1];
  }

  /**
   * The local loop runs resource by resource, in scan order: a later block of resources
   * contributes only if every resource before it decoded.
   */
  lemma {:induction false} LocalAppendsConcat(a: seq<Resource>, b: seq<Resource>, decode: Decoder, profiles: seq<string>)
    ensures LocalAppends(a + b, decode, profiles) ==
            LocalAppends(a, decode, profiles) + (if LoadsCleanly(a, decode) then LocalAppends(b, decode, profiles) else [])
  {
    if a == [] {
      assert a + b == b;
    } else {
      assert (a + b)[1..] == a[1..] + b;
      assert (a + b)[0] == a[0];
      LocalAppendsConcat(a[1..], b, decode, profiles);
      LoadsCleanlyCons(a, decode);
    }
  }

  /**
   * One loader exception aborts the rest of the local phase, and the groups appended
   * before it stay: the chain gets exactly what the resources before `r` gave.
   */
  lemma LocalFailureAbortsRest(a: seq<Resource>, r: Resource, b: seq<Resource>, decode: Decoder, profiles: seq<string>)
    requires !IsSkipped(r.filename) && decode(r.filename.value, r.content).Malformed?
    ensures LocalAppends(a + [r] + b, decode, profiles) == LocalAppends(a, decode, profiles)
  {
    assert a + [r] + b == a + ([r] + b);
    LocalAppendsConcat(a, [r] + b, decode, profiles);
    assert ([r] + b)[0] == r;
  }

  /**
   * One step of the local loop over a prefix that loaded cleanly: a skipped or decoded resource
   * extends the prefix, a malformed one ends the phase with what the prefix gave.
   */
  lemma LocalAppendsStep(resources: seq<Resource>, i: nat, decode: Decoder, profiles: seq<string>)
    requires i < |resources| && LoadsCleanly(resources[..i], decode)
    ensures IsSkipped(resources[i].filename) ==>
              LoadsCleanly(resources[..i + 1], decode) &&
              LocalAppends(resources[..i + 1], decode, profiles) == LocalAppends(resources[..i], decode, profiles)
    ensures !IsSkipped(resources[i].filename) && decode(resources[i].filename.value, resources[i].content).Parsed? ==>
              LoadsCleanly(resources[..i + 1], decode) &&
              LocalAppends(resources[..i + 1], decode, profiles) ==
              LocalAppends(resources[..i], decode, profiles) + Accepted(decode(resources[i].filename.value, resources[i].content).groups, profiles)
    ensures !IsSkipped(resources[i].filename) && decode(resources[i].filename.value, resources[i].content).Malformed? ==>
              LocalAppends(resources, decode, profiles) == LocalAppends(resources[..i], decode, profiles)
  {
    var r := resources[i];
    assert resources[..i + 1] == resources[..i] + [r];
    LocalAppendsConcat(resources[..i], [r], decode, profiles);
    assert [r][1..] == [];
    LoadsCleanlyCons([r], decode);
    assert LoadsCleanly(resources[..i + 1], decode) <==> LoadsCleanly([r], decode) by {
      assert forall k | 0 <= k < i :: resources[..i + 1][k] == resources[..i][k];
    }
    if !IsSkipped(r.filename) && decode(r.filename.value, r.content).Malformed? {
      assert resources == resources[..i] + [r] + resources[i + 1..];
      LocalFailureAbortsRest(resources[..i], r, resources[i + 1..], decode, profiles);
    }
  }

  /**
   * No skipped resource reaches the loader: the phase's outcome is the same for any two
   * decoders that agree on the resources it does not skip.
   */
  lemma {:induction false} LocalLoadsOnlyUnskipped(resources: seq<Resource>, d1: Decoder, d2: Decoder, profiles: seq<string>)
    requires forall i | 0 <= i < |resources| :: !IsSkipped(resources[i].filename) ==>
               d1(resources[i].filename.value, resources[i].content) == d2(resources[i].filename.value, resources[i].content)
    ensures LocalAppends(resources, d1, profiles) == LocalAppends(resources, d2, profiles)
  {
    if resources != [] {
      assert forall i | 0 < i < |resources| :: resources[i] == resources[1..][i - 1];
      LocalLoadsOnlyUnskipped(resources[1..], d1, d2, profiles);
    }
  }

  /** Which file names the local loop skips. */
  lemma SkippedNames()
    ensures IsSkipped(None)
    ensures IsSkipped(Some("application.yml")) && IsSkipped(Some("application-dev.yml"))
    ensures IsSkipped(Some("bootstrap.yml"))
    ensures !IsSkipped(Some("bootstrap-dev.yml")) && !IsSkipped(Some("app.yml")) && !IsSkipped(Some("test.yml"))
  {
    assert "bootstrap-dev.yml"[..11][0] != "application"[0];
  }

  // ---------------------------------------------------------------- S3 phase

  const BucketKey := "s3.bucket"
  const PrefixKey := "s3.keyPrefix"
  const RegionKey := "s3.region"
  const DefaultBucket := "my-secure-bucket"
  const DefaultPrefix := "config/"
  const DefaultRegion := "ap-northeast-2"

  datatype S3Settings = S3Settings(bucket: string, prefix: string, region: string)

  /** Bucket, key prefix and region as the S3 phase reads them from the environment. */
  function ResolveS3Settings(chain: seq<PropertyGroup>): S3Settings
  {
    S3Settings(PropertyOr(chain, BucketKey, DefaultBucket),
               PropertyOr(chain, PrefixKey, DefaultPrefix),
               PropertyOr(chain, RegionKey, DefaultRegion))
  }

  /** Each setting is the first value the chain defines for its key, or its default when none does. */
  lemma S3SettingsDefaults(chain: seq<PropertyGroup>)
    ensures (forall i | 0 <= i < |chain| :: BucketKey !in chain[i].properties) ==> ResolveS3Settings(chain).bucket == "my-secure-bucket"
    ensures (forall i | 0 <= i < |chain| :: PrefixKey !in chain[i].properties) ==> ResolveS3Settings(chain).prefix == "config/"
    ensures (forall i | 0 <= i < |chain| :: RegionKey !in chain[i].properties) ==> ResolveS3Settings(chain).region == "ap-northeast-2"
    ensures forall i :: FirstDefining(chain, BucketKey, i) ==> ResolveS3Settings(chain).bucket == chain[i].properties[BucketKey]
    ensures forall i :: FirstDefining(chain, PrefixKey, i) ==> ResolveS3Settings(chain).prefix == chain[i].properties[PrefixKey]
    ensures forall i :: FirstDefining(chain, RegionKey, i) ==> ResolveS3Settings(chain).region == chain[i].properties[RegionKey]
  {
  }

  /** The name the S3 phase gives the loader for object `key`. */
  function S3SourceName(key: string): string
  {
    "s3-" + key
  }

  /** The listed keys ending in `.yml`, in listing order. */
  function YmlObjects(keys: seq<string>): (r: seq<string>)
    ensures forall k :: k in r <==> k in keys && EndsWith(k, ".yml")
  {
    if keys == [] then []
    else (if EndsWith(keys[0], ".yml") then [keys[0]] else []) + YmlObjects(keys[1..])
  }

  /** The `.yml` filter keeps the listing order, repeated keys included: it works key by key. */
  lemma {:induction false} YmlObjectsConcat(a: seq<string>, b: seq<string>)
    ensures YmlObjects(a + b) == YmlObjects(a) + YmlObjects(b)
  {
    if a == [] {
      assert a + b == b;
    } else {
      assert (a + b)[0] == a[0] && (a + b)[1..] == a[1..] + b;
      YmlObjectsConcat(a[1..], b);
    }
  }

  /** What one S3 object contributes: nothing when fetching or decoding it throws. */
  function ObjectGroups(client: S3Client, bucket: string, key: string, decode: Decoder, profiles: seq<string>): seq<PropertyGroup>
  {
    match client.getObject(bucket, key)
    case FetchFailed => []
    case Body(bytes) =>
      match decode(S3SourceName(key), bytes)
      case Malformed => []
      case Parsed(groups) => Accepted(groups, profiles)
  }

  /** The groups the S3 loop appends for `keys`, object after object. */
  function S3Appends(keys: seq<string>, client: S3Client, bucket: string, decode: Decoder, profiles: seq<string>): seq<PropertyGroup>
  {
    if keys == [] then []
    else ObjectGroups(client, bucket, keys[0], decode, profiles) + S3Appends(keys[1..], client, bucket, decode, profiles)
  }

  /** One step of the S3 loop: the object at position `i` adds its groups after those of the objects before it. */
  lemma S3AppendsStep(keys: seq<string>, i: nat, client: S3Client, bucket: string, decode: Decoder, profiles: seq<string>)
    requires i < |keys|
    ensures S3Appends(keys[..i + 1], client, bucket, decode, profiles) ==
            S3Appends(keys[..i], client, bucket, decode, profiles) + ObjectGroups(client, bucket, keys[i], decode, profiles)
  {
    assert keys[..i + 1] == keys[..i] + [keys[i]];
    S3AppendsConcat(keys[..i], [keys[i]], client, bucket, decode, profiles);
    assert [keys[i]][1..] == [];
  }

  /** The whole S3 phase: nothing unless production-like, and nothing when the client cannot be
      built, the listing throws, or no listed key ends in `.yml`. */
  function S3Phase(profiles: seq<string>, chain: seq<PropertyGroup>, provider: S3ClientProvider, decode: Decoder): seq<PropertyGroup>
  {
    if !IsProd(profiles) then []
    else
      var settings := ResolveS3Settings(chain);
      match provider(settings.region)
      case None => []
      case Some(client) =>
        match client.listObjects(settings.bucket, settings.prefix)
        case ListFailed => []
        case Listed(keys) =>
          var yml := YmlObjects(keys);
          if yml == [] then [] else S3Appends(yml, client, settings.bucket, decode, profiles)
  }

  /** Failures are isolated per object: objects contribute independently, in listing order. */
  lemma {:induction false} S3AppendsConcat(a: seq<string>, b: seq<string>, client: S3Client, bucket: string, decode: Decoder, profiles: seq<string>)
    ensures S3Appends(a + b, client, bucket, decode, profiles) ==
            S3Appends(a, client, bucket, decode, profiles) + S3Appends(b, client, bucket, decode, profiles)
  {
    if a == [] {
      assert a + b == b;
    } else {
      assert (a + b)[1..] == a[1..] + b;
      assert (a + b)[0] == a[0];
      S3AppendsConcat(a[1..], b, client, bucket, decode, profiles);
    }
  }

  /** An object whose fetch or decoding fails is skipped, and the objects after it are still loaded. */
  lemma S3FailureSkipsOnlyThatObject(a: seq<string>, key: string, b: seq<string>, client: S3Client, bucket: string, decode: Decoder, profiles: seq<string>)
    requires client.getObject(bucket, key).FetchFailed? ||
             decode(S3SourceName(key), client.getObject(bucket, key).bytes).Malformed?
    ensures S3Appends(a + [key] + b, client, bucket, decode, profiles) ==
            S3Appends(a, client, bucket, decode, profiles) + S3Appends(b, client, bucket, decode, profiles)
  {
    assert S3Appends([key], client, bucket, decode, profiles) == [] by {
      assert ObjectGroups(client, bucket, key, decode, profiles) == [];
      assert [key][1..] == [];
    }
    S3AppendsConcat(a + [key], b, client, bucket, decode, profiles);
    S3AppendsConcat(a, [key], client, bucket, decode, profiles);
  }

  /**
   * Only listed `.yml` objects are fetched, and each is decoded under the name "s3-" + key: the
   * phase's outcome is the same for clients and decoders that agree on those objects and names.
   */
  lemma {:induction false} S3ReadsOnlyYmlObjects(keys: seq<string>, c1: S3Client, c2: S3Client, bucket: string, d1: Decoder, d2: Decoder, profiles: seq<string>)
    requires forall k | k in keys && EndsWith(k, ".yml") :: c1.getObject(bucket, k) == c2.getObject(bucket, k)
    requires forall k, bytes | k in keys && EndsWith(k, ".yml") :: d1(S3SourceName(k), bytes) == d2(S3SourceName(k), bytes)
    ensures S3Appends(YmlObjects(keys), c1, bucket, d1, profiles) == S3Appends(YmlObjects(keys), c2, bucket, d2, profiles)
  {
    if keys != [] {
      var head := if EndsWith(keys[0], ".yml") then [keys[0]] else [];
      assert YmlObjects(keys) == head + YmlObjects(keys[1..]);
      S3AppendsConcat(head, YmlObjects(keys[1..]), c1, bucket, d1, profiles);
      S3AppendsConcat(head, YmlObjects(keys[1..]), c2, bucket, d2, profiles);
      assert forall k | k in keys[1..] :: k in keys;
      S3ReadsOnlyYmlObjects(keys[1..], c1, c2, bucket, d1, d2, profiles);
      if head != [] {
        assert keys[0] in keys;
        assert head[1..] == [];
        assert S3Appends(head, c1, bucket, d1, profiles) == ObjectGroups(c1, bucket, keys[0], d1, profiles);
        assert S3Appends(head, c2, bucket, d2, profiles) == ObjectGroups(c2, bucket, keys[0], d2, profiles);
      }
    }
  }

  /** A listing with no `.yml` key, or one that fails, leaves the chain as it was. */
  lemma S3NothingToLoad(profiles: seq<string>, chain: seq<PropertyGroup>, provider: S3ClientProvider, decode: Decoder)
    requires provider(ResolveS3Settings(chain).region).Some?
    requires var s := ResolveS3Settings(chain);
             var listing := provider(s.region).value.listObjects(s.bucket, s.prefix);
             listing.ListFailed? || forall k | k in listing.keys :: !EndsWith(k, ".yml")
    ensures S3Phase(profiles, chain, provider, decode) == []
  {
    var s := ResolveS3Settings(chain);
    var listing := provider(s.region).value.listObjects(s.bucket, s.prefix);
    if listing.Listed? {
      var yml := YmlObjects(listing.keys);
      assert forall i | 0 <= i < |yml| :: yml[i] in yml;
    }
  }

  // ---------------------------------------------------------------- phase selection

  /** The local guard `|profiles| > 0 && IsProd(profiles)` is just `IsProd(profiles)`. */
  lemma LocalGuardIsProd(profiles: seq<string>)
    ensures (|profiles| > 0 && IsProd(profiles)) == IsProd(profiles)
  {
  }

  /** Exactly one phase does work in a run: the local one when not production-like, the S3 one otherwise. */
  lemma ExactlyOnePhaseWorks(profiles: seq<string>, chain: seq<PropertyGroup>, classpath: Scan, provider: S3ClientProvider, decode: Decoder)
    ensures IsProd(profiles) ==> LocalPhase(profiles, classpath, decode) == []
    ensures !IsProd(profiles) ==> S3Phase(profiles, chain, provider, decode) == []
  {
  }
}
