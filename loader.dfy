/**
 * The environment post-processor: a local phase for non-production runs and an S3 phase for
 * production-like ones, each appending the accepted groups to the environment's chain.
 */
module ConfigImporter {
  import opened Wrappers
  import opened JavaStrings
  import opened PropertySources
  import opened Fragments
  import opened Profiles
  import opened Phases

  class CompositeConfigLoader {
    const s3ClientProvider: S3ClientProvider

    constructor (provider: S3ClientProvider)
      ensures s3ClientProvider == provider
    {
      s3ClientProvider := provider;
    }

    /**
     * `postProcessEnvironment`: runs both phases, of which exactly one does work, and throws
     * nothing. The chain only grows at its tail, so every key already defined reads as before.
     */
    method PostProcessEnvironment(environment: Environment, classpath: Scan, decode: Decoder)
      modifies environment
      ensures environment.propertySources ==
              old(environment.propertySources) +
              (if IsProd(environment.activeProfiles)
               then S3Phase(environment.activeProfiles, old(environment.propertySources), s3ClientProvider, decode)
               else LocalPhase(environment.activeProfiles, classpath, decode))
      ensures forall key :: Lookup(old(environment.propertySources), key).Some? ==>
                Lookup(environment.propertySources, key) == Lookup(old(environment.propertySources), key)
    {
      ExactlyOnePhaseWorks(environment.activeProfiles, environment.propertySources, classpath, s3ClientProvider, decode);
      LoadLocalYmlConfigsIfNotProd(environment, classpath, decode);
      ghost var afterLocal := environment.propertySources;
      LoadS3ConfigsIfProd(environment, decode);
      assert afterLocal == old(environment.propertySources) || S3Phase(environment.activeProfiles, afterLocal, s3ClientProvider, decode) == [];
      forall key | Lookup(old(environment.propertySources), key).Some?
        ensures Lookup(environment.propertySources, key) == Lookup(old(environment.propertySources), key)
      {
        LookupAppend(old(environment.propertySources), environment.propertySources[|old(environment.propertySources)|..], key);
        assert environment.propertySources == old(environment.propertySources) + environment.propertySources[|old(environment.propertySources)|..];
      }
    }

    /** `isProdProfile`: scans the active profiles and stops at the first that contains "prod". */
    method IsProdProfile(environment: Environment) returns (r: bool)
      ensures r == IsProd(environment.activeProfiles)
    {
      var profiles := environment.activeProfiles;
      for i := 0 to |profiles|
        invariant forall j | 0 <= j < i :: !Contains(profiles[j], "prod")
      {
        if Contains(profiles[i], "prod") {
          return true;
        }
      }
      return false;
    }

    /**
     * `loadLocalYmlConfigsIfNotProd`: in a run that is not production-like, decodes every
     * scanned resource the loop does not skip and appends its accepted groups. One exception
     * ends the phase, keeping what was appended before it.
     */
    method LoadLocalYmlConfigsIfNotProd(environment: Environment, classpath: Scan, decode: Decoder)
      modifies environment
      ensures environment.propertySources ==
              old(environment.propertySources) + LocalPhase(environment.activeProfiles, classpath, decode)
    {
      if |environment.activeProfiles| > 0 {
        var prod := IsProdProfile(environment);
        if prod {
          return;
        }
      }
      if classpath.ScanFailed? {
        return;
      }
      LoadResources(environment, classpath.resources, decode);
    }

    /** The resource loop of `loadLocalYmlConfigsIfNotProd`, inside its single `try`. */
    method LoadResources(environment: Environment, resources: seq<Resource>, decode: Decoder)
      modifies environment
      ensures environment.propertySources ==
              old(environment.propertySources) + LocalAppends(resources, decode, environment.activeProfiles)
    {
      ghost var profiles := environment.activeProfiles;
      var i := 0;
      while i < |resources|
        invariant 0 <= i <= |resources|
        invariant LoadsCleanly(resources[..i], decode)
        invariant environment.propertySources == old(environment.propertySources) + LocalAppends(resources[..i], decode, profiles)
      {
        LocalAppendsStep(resources, i, decode, profiles);
        var name := resources[i].filename;
        if name.None? || StartsWith(name.value, "application") || name.value == "bootstrap.yml" {
          i := i + 1;
          continue;
        }
        var sources := decode(name.value, resources[i].content);
        if sources.Malformed? {
          // the exception leaves the loop; the phase's catch swallows it
          return;
        }
        AppendAccepted(environment, sources.groups);
        i := i + 1;
      }
      assert resources[..|resources|] == resources;
    }

    /** The group loop shared by both phases: appends, in order, the groups that `ShouldInclude` accepts. */
    method AppendAccepted(environment: Environment, groups: seq<PropertyGroup>)
      modifies environment
      ensures environment.propertySources == old(environment.propertySources) + Accepted(groups, environment.activeProfiles)
    {
      for j := 0 to |groups|
        invariant environment.propertySources == old(environment.propertySources) + Accepted(groups[..j], environment.activeProfiles)
      {
        AcceptedStep(groups, j, environment.activeProfiles);
        if ShouldInclude(groups[j], environment.activeProfiles) {
          environment.AddLast(groups[j]);
        }
      }
      assert groups[..|groups|] == groups;
    }

    /**
     * `loadS3ConfigsIfProd`: in a production-like run, lists the bucket under the key prefix and
     * appends the accepted groups of each `.yml` object. A failing object is skipped; a failing
     * client or listing ends the phase.
     */
    method LoadS3ConfigsIfProd(environment: Environment, decode: Decoder)
      modifies environment
      ensures environment.propertySources ==
              old(environment.propertySources) +
              S3Phase(environment.activeProfiles, old(environment.propertySources), s3ClientProvider, decode)
    {
      var prod := IsProdProfile(environment);
      if !prod {
        return;
      }
      var bucket := environment.GetProperty(BucketKey, DefaultBucket);
      var prefix := environment.GetProperty(PrefixKey, DefaultPrefix);
      var region := environment.GetProperty(RegionKey, DefaultRegion);
      assert S3Settings(bucket, prefix, region) == ResolveS3Settings(environment.propertySources);

      var s3 := s3ClientProvider(region);
      if s3.None? {
        return;
      }
      var listRes := s3.value.listObjects(bucket, prefix);
      if listRes.ListFailed? {
        return;
      }
      var ymlObjects := YmlObjects(listRes.keys);
      if ymlObjects == [] {
        return;
      }

      assert S3Phase(environment.activeProfiles, environment.propertySources, s3ClientProvider, decode)
          == S3Appends(ymlObjects, s3.value, bucket, decode, environment.activeProfiles);
      LoadObjects(environment, s3.value, bucket, ymlObjects, decode);
    }

    /** The object loop of `loadS3ConfigsIfProd`: each object's failure is caught on its own. */
    method LoadObjects(environment: Environment, s3: S3Client, bucket: string, ymlObjects: seq<string>, decode: Decoder)
      modifies environment
      ensures environment.propertySources ==
              old(environment.propertySources) + S3Appends(ymlObjects, s3, bucket, decode, environment.activeProfiles)
    {
      ghost var profiles := environment.activeProfiles;
      for i := 0 to |ymlObjects|
        invariant environment.propertySources ==
                  old(environment.propertySources) + S3Appends(ymlObjects[..i], s3, bucket, decode, profiles)
      {
        var key := ymlObjects[i];
        S3AppendsStep(ymlObjects, i, s3, bucket, decode, profiles);
        var input := s3.getObject(bucket, key);
        if input.FetchFailed? {
          // caught per object: the next object is still loaded
          continue;
        }
        var sources := decode(S3SourceName(key), input.bytes);
        if sources.Malformed? {
          continue;
        }
        AppendAccepted(environment, sources.groups);
      }
      assert ymlObjects[..|ymlObjects|] == ymlObjects;
    }
  }
}
