/**
 * What the loader receives from collaborators it does not implement: the classpath scan,
 * the YAML decoder and the S3 service. Each is a given input that may report failure.
 */
module Fragments {
  import opened Wrappers
  import opened PropertySources

  type Bytes = seq<bv8>

  /** A classpath resource: `getFilename()` may be null. */
  datatype Resource = Resource(filename: Option<string>, content: Bytes)

  /** The result of the recursive classpath scan for `.yml` resources, which may throw. */
  datatype Scan = Scanned(resources: seq<Resource>) | ScanFailed

  /** `YamlPropertySourceLoader.load(name, resource)`: the decoded documents, or an exception. */
  datatype Decoded = Parsed(groups: seq<PropertyGroup>) | Malformed

  /** The decoder is determined by the name it is given and the bytes it reads. */
  type Decoder = (string, Bytes) -> Decoded

  /** `listObjectsV2`: the listed object keys, or an exception. */
  datatype Listing = Listed(keys: seq<string>) | ListFailed

  /** `getObject`: the object body, or an exception. */
  datatype Fetched = Body(bytes: Bytes) | FetchFailed

  /** An S3 client: listing by (bucket, prefix) and fetching by (bucket, key). */
  datatype S3Client = S3Client(listObjects: (string, string) -> Listing, getObject: (string, string) -> Fetched)

  /** `S3ClientProvider.get(region)`; `None` when building the client throws. */
  type S3ClientProvider = string -> Option<S3Client>
}
