/** Resolution of an image reference against a registry (pkg/fanal/image/remote.go):
    the canonical names of a resolved image, and the policy by which the fetched
    descriptor's media type decides what happens before the image is materialised.
    The registry fetch, the index-manifest decoder and the materialisation of image
    content are collaborators whose results are inputs here. */
module ImageRemote {
  import opened Wrappers
  import opened Strings

  /** `name.DefaultRegistry` of go-containerregistry. */
  const DefaultRegistry := "index.docker.io"
  /** The namespace of official images on the default registry. */
  const DefaultNamespace := "library/"

  const OCIImageIndex := "application/vnd.oci.image.index.v1+json"
  const DockerManifestList := "application/vnd.docker.distribution.manifest.list.v2+json"
  const OCIManifest := "application/vnd.oci.image.manifest.v1+json"
  const DockerManifestSchema2 := "application/vnd.docker.distribution.manifest.v2+json"

  /** A `name.Reference`, already split into its parts: a tag reference (`name.Tag`)
      or a digest reference (`name.Digest`), both scoped to a registry and repository. */
  datatype Reference =
    | Tag(registry: string, repository: string, tag: string)
    | Digest(registry: string, repository: string, digest: string)

  /** `implicitReference`: a reference as the image handle names it. */
  datatype ImplicitReference = ImplicitReference(ref: Reference)
  {
    /** The tag of a tag reference; a digest reference has none. */
    function TagName(): (t: string)
      ensures ref.Tag? ==> t == ref.tag
      ensures ref.Digest? ==> t == ""
    {
      match ref
      case Tag(_, _, tag) => tag
      case Digest(_, _, _) => ""
    }

    /** `registry/repo` for any registry but the default one; on the default registry
        the repository alone, with one leading `library/` removed. */
    function RepositoryName(): (n: string)
      ensures ref.registry != DefaultRegistry ==> n == ref.registry + "/" + ref.repository
      ensures (ref.registry == DefaultRegistry && HasPrefix(ref.repository, DefaultNamespace))
                ==> DefaultNamespace + n == ref.repository
      ensures (ref.registry == DefaultRegistry && !HasPrefix(ref.repository, DefaultNamespace))
                ==> n == ref.repository
    {
      var reg := ref.registry;
      var repo := ref.repository;
      if reg != DefaultRegistry then reg + "/" + repo
      else TrimPrefix(repo, DefaultNamespace)
    }
  }

  /** `v1.Hash`: a content digest such as `sha256:<hex>`. */
  datatype Hash = Hash(algorithm: string, hex: string)
  {
    function String(): (s: string) { algorithm + ":" + hex }
  }

  /** `v1.Platform`, reduced to the fields the core reports. */
  datatype Platform = Platform(architecture: string, os: string, variant: string)

  /** `remote.Descriptor`: what the registry returned for a reference. */
  datatype Descriptor = Descriptor(mediaType: string, digest: Hash, platform: Platform, manifest: seq<bv8>)

  /** `v1.IndexManifest`, reduced to the platform of each child manifest. */
  datatype IndexManifest = IndexManifest(manifests: seq<Platform>)

  /** `remoteImage`: the resolved image handle. `Img` stands for the materialised
      `v1.Image` content, which this model does not look into. */
  datatype RemoteImage<Img> = RemoteImage(name: string, ref: ImplicitReference, descriptor: Descriptor, image: Img)
  {
    /** The name the caller resolved, as given. */
    function Name(): (n: string)
    {
      name
    }

    /** No tag name, no tags; otherwise the single `repository:tag`. */
    function RepoTags(): (tags: seq<string>)
      ensures |tags| <= 1
      ensures tags == [] <==> ref.TagName() == ""
      ensures tags != [] ==> tags[0] == ref.RepositoryName() + ":" + ref.TagName()
    {
      var tag := ref.TagName();
      if tag == "" then [] else [ref.RepositoryName() + ":" + tag]
    }

    /** Always exactly one `repository@digest`, with the fetched descriptor's digest. */
    function RepoDigests(): (digests: seq<string>)
      ensures |digests| == 1
      ensures digests[0] == ref.RepositoryName() + "@" + descriptor.digest.String()
    {
      [ref.RepositoryName() + "@" + descriptor.digest.String()]
    }
  }

  /** A digest reference never contributes a tag. */
  lemma RepoTagsOfDigest<Img>(img: RemoteImage<Img>)
    requires img.ref.ref.Digest?
    ensures img.RepoTags() == []
  {
  }

  /** The repository and the tag can be read back from a repo tag: the tag is what
      follows the last `:` (tags never contain one, repository names may, when the
      registry carries a port). */
  lemma RepoTagRoundTrip<Img>(img: RemoteImage<Img>)
    requires img.ref.ref.Tag? && img.ref.ref.tag != "" && ':' !in img.ref.ref.tag
    ensures |img.RepoTags()| == 1
    ensures var s := img.RepoTags()[0];
            var i := LastIndexOf(s, ':');
            0 <= i && s[..i] == img.ref.RepositoryName() && s[i + 1..] == img.ref.ref.tag
  {
    var name, tag := img.ref.RepositoryName(), img.ref.ref.tag;
    var s := img.RepoTags()[0];
    assert s == name + [':'] + tag;
    LastIndexOfBefore(name, ':', tag);
    assert s[..|name|] == name;
  }

  /** The repository and the descriptor's digest can be read back from a repo digest:
      the digest is what follows the first `@`. */
  lemma RepoDigestRoundTrip<Img>(img: RemoteImage<Img>)
    requires '@' !in img.ref.ref.registry && '@' !in img.ref.ref.repository
    ensures var s := img.RepoDigests()[0];
            var i := IndexOf(s, '@');
            0 <= i && s[..i] == img.ref.RepositoryName() && s[i + 1..] == img.descriptor.digest.String()
  {
    var r := img.ref.ref;
    var name, digest := img.ref.RepositoryName(), img.descriptor.digest.String();
    if r.registry == DefaultRegistry && HasPrefix(r.repository, DefaultNamespace) {
      assert name == r.repository[|DefaultNamespace|..];
    }
    assert '@' !in name;
    var s := img.RepoDigests()[0];
    assert s == name + ['@'] + digest;
    IndexOfAfter(name, '@', digest);
    assert s[..|name|] == name;
  }

  /** On the default registry an official image `library/<n>` is named `<n>`, even when
      `<n>` itself starts with `library/`: the namespace is removed once only. */
  lemma OfficialImageName(r: Reference, n: string)
    requires r.registry == DefaultRegistry && r.repository == DefaultNamespace + n
    ensures ImplicitReference(r).RepositoryName() == n
  {
  }

  /** On the default registry the name is the repository itself or that repository
      with its `library/` namespace removed; nothing else is ever dropped. */
  lemma DefaultRegistryName(r: Reference)
    requires r.registry == DefaultRegistry
    ensures var n := ImplicitReference(r).RepositoryName();
            n == r.repository || DefaultNamespace + n == r.repository
  {
  }

  /** Away from the default registry, distinct references name distinct repositories,
      as long as registry hosts hold no `/`. */
  lemma RepositoryNameInjective(r1: Reference, r2: Reference)
    requires r1.registry != DefaultRegistry && r2.registry != DefaultRegistry
    requires '/' !in r1.registry && '/' !in r2.registry
    requires ImplicitReference(r1).RepositoryName() == ImplicitReference(r2).RepositoryName()
    ensures r1.registry == r2.registry && r1.repository == r2.repository
  {
    var s := ImplicitReference(r1).RepositoryName();
    assert s == r1.registry + ['/'] + r1.repository;
    assert s == r2.registry + ['/'] + r2.repository;
    FirstSeparator(r1.registry, r1.repository, r2.registry, r2.repository, '/');
  }

  /** A manifest list or image index: several platform-specific child manifests. */
  predicate IsIndexMediaType(mediaType: string)
  {
    mediaType == OCIImageIndex || mediaType == DockerManifestList
  }

  /** A single-platform image manifest. */
  predicate IsImageMediaType(mediaType: string)
  {
    mediaType == OCIManifest || mediaType == DockerManifestSchema2
  }

  /** The diagnostic lines `tryRemote` writes, as structured events. */
  datatype Event =
    | ManifestMediaType(mediaType: string)
    | ListManifest
    | Schema2Manifest
    | OtherManifest
    | PlatformLine(platform: Platform)

  /** The collaborators `tryRemote` calls, in the order it calls them. */
  datatype Call = Fetch | ParseIndex | Materialise

  function PlatformLines(platforms: seq<Platform>): (events: seq<Event>)
  {
    seq(|platforms|, i requires 0 <= i < |platforms| => PlatformLine(platforms[i]))
  }

  /** The diagnostics for a fetched descriptor, given what decoding its manifest as an
      index gives (consulted for index media types only). */
  function Diagnostics(desc: Descriptor, index: Result<IndexManifest>): (events: seq<Event>)
  {
    [ManifestMediaType(desc.mediaType)]
    + if IsIndexMediaType(desc.mediaType) then
        [ListManifest] + (if index.Ok? then PlatformLines(index.value.manifests) else [])
      else if IsImageMediaType(desc.mediaType) then
        [Schema2Manifest, PlatformLine(desc.platform)]
      else
        [OtherManifest]
  }

  /** Every child platform of a decoded index is reported. */
  lemma IndexPlatformsReported(desc: Descriptor, index: IndexManifest, p: Platform)
    requires IsIndexMediaType(desc.mediaType) && p in index.manifests
    ensures PlatformLine(p) in Diagnostics(desc, Ok(index))
  {
    var i :| 0 <= i < |index.manifests| && index.manifests[i] == p;
    assert Diagnostics(desc, Ok(index))[2 + i] == PlatformLine(p);
  }

  /** `tryRemote`. `fetched` is what `remote.Get` returned for `ref`; `parseIndex` is
      `v1.ParseIndexManifest` on manifest bytes; `materialise` is `desc.Image()`.
      A failed fetch is returned as it is. An index whose decoding fails aborts before
      the image is materialised; every other media type goes straight to
      materialisation, whose error is returned as it is. On success the handle holds
      the caller's name, the reference and the fetched descriptor. */
  method TryRemote<Img>(imageName: string, ref: Reference, fetched: Result<Descriptor>,
                        parseIndex: seq<bv8> -> Result<IndexManifest>,
                        materialise: Descriptor -> Result<Img>)
    returns (result: Result<RemoteImage<Img>>, events: seq<Event>, calls: seq<Call>)
    ensures result.Ok? ==>
              && fetched.Ok? && Materialise in calls
              && result.value.Name() == imageName
              && result.value.ref == ImplicitReference(ref)
              && result.value.descriptor == fetched.value
              && materialise(fetched.value) == Ok(result.value.image)
    ensures fetched.Err? ==> result == Err(fetched.error) && events == [] && calls == [Fetch]
    ensures fetched.Ok? ==> events == Diagnostics(fetched.value, parseIndex(fetched.value.manifest))
    ensures (fetched.Ok? && IsIndexMediaType(fetched.value.mediaType)
             && parseIndex(fetched.value.manifest).Err?)
              ==> result == Err(parseIndex(fetched.value.manifest).error)
                  && calls == [Fetch, ParseIndex]
    ensures (fetched.Ok? && !IsIndexMediaType(fetched.value.mediaType))
              ==> calls == [Fetch, Materialise]
    ensures (fetched.Ok? && IsIndexMediaType(fetched.value.mediaType)
             && parseIndex(fetched.value.manifest).Ok?)
              ==> calls == [Fetch, ParseIndex, Materialise]
    ensures (fetched.Ok? && Materialise in calls) ==>
              var desc := fetched.value;
              result == match materialise(desc)
                        case Err(e) => Err(e)
                        case Ok(img) => Ok(RemoteImage(imageName, ImplicitReference(ref), desc, img))
  {
    calls := [Fetch];
    events := [];
    if fetched.Err? {
      return Err(fetched.error), events, calls;
    }
    var desc := fetched.value;
    events := events + [ManifestMediaType(desc.mediaType)];
    if desc.mediaType == OCIImageIndex || desc.mediaType == DockerManifestList {
      events := events + [ListManifest];
      calls := calls + [ParseIndex];
      var parsed := parseIndex(desc.manifest);
      if parsed.Err? {
        return Err(parsed.error), events, calls;
      }
      var manifests := parsed.value.manifests;
      ghost var head := events;
      for i := 0 to |manifests|
        invariant events == head + PlatformLines(manifests[..i])
      {
        assert PlatformLines(manifests[..i + 1]) == PlatformLines(manifests[..i]) + [PlatformLine(manifests[i])];
        events := events + [PlatformLine(manifests[i])];
      }
      assert manifests[..|manifests|] == manifests;
    } else if desc.mediaType == OCIManifest || desc.mediaType == DockerManifestSchema2 {
      events := events + [Schema2Manifest, PlatformLine(desc.platform)];
    } else {
      events := events + [OtherManifest];
    }
    calls := calls + [Materialise];
    var img := materialise(desc);
    if img.Err? {
      return Err(img.error), events, calls;
    }
    result := Ok(RemoteImage(imageName, ImplicitReference(ref), desc, img.value));
  }
}
