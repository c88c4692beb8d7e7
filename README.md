# Remote image naming and registry credentials, modelled in Dafny

This project models two parts of the Trivy scanner.

- **Image resolution** (`pkg/fanal/image/remote.go`). A reference to a container
  image is resolved against a registry. `tryRemote` fetches a descriptor and looks at
  its media type. A manifest list or image index is decoded first, and a decoding
  failure aborts resolution. Every other media type goes straight on to
  materialising the image. The resulting handle gives canonical names:
  `repository:tag` for a tag reference and exactly one `repository@digest`. The
  repository is `registry/repo` on every registry except Docker Hub
  (`index.docker.io`). There, the `library/` namespace of official images is removed
  once.
- **Credential aggregation** (`pkg/types/docker_conf.go`). `GetDockerOption` splits the
  configured user names and passwords on commas and refuses lists of different
  lengths. It pairs the trimmed entries by position and mirrors the first pair into the
  legacy single-credential fields. The token and the flags pass through unchanged.

Files:

- `wrappers.dfy`: `Result` and `Error`, standing for Go's `(value, error)` returns.
- `strings.dfy`: the functions of Go's `strings` package the core calls (`Split`, `TrimSpace`,
  `TrimPrefix`), and the helpers their contracts and lemmas use (`Count`, `Join`, `IndexOf`,
  `LastIndexOf`).
  - `Split` and `Join` on a one-character separator.
  - `TrimSpace`, with white space as Go's `unicode.IsSpace` defines it.
  - `HasPrefix` and `TrimPrefix`.
  - `IndexOf` and `LastIndexOf`.
- `image_remote.dfy`: references and the image handle as datatypes. `TryRemote` is a
  method over the collaborators' results.
- `docker_conf.dfy`: the specification function `Options`, the method
  `GetDockerOption` (proved equal to `Options`, its loop
  in `PairCredentials`), and lemmas about `Options`.

The collaborators of `tryRemote` are inputs:
- `fetched` is the outcome of `remote.Get`;
- `parseIndex` stands for `v1.ParseIndexManifest`;
- `materialise` stands for `desc.Image()`.

`TryRemote` also returns the collaborators it called, in order, so "the image is never
materialised after a failed index decoding" is a statement about its result. The
`fmt.Printf` diagnostics are returned as structured events. The loaded `DockerConfig`
(or the error from loading it) is an input of `GetDockerOption`.

## Model

| member | source | states |
|---|---|---|
| `ImageRemote.ImplicitReference.TagName` | pkg/fanal/image/remote.go:86-91 | a tag reference gives its tag, a digest reference gives "" |
| `ImageRemote.ImplicitReference.RepositoryName` | pkg/fanal/image/remote.go:93-106 | the name is `registry/repo` off the default registry; on `index.docker.io` it is the repository, with a leading `library/` removed when present |
| `ImageRemote.OfficialImageName` | pkg/fanal/image/remote.go:103-105 | on the default registry `library/<n>` is named `<n>`, even when `<n>` itself starts with `library/` (the namespace is stripped at most once) |
| `ImageRemote.DefaultRegistryName` | pkg/fanal/image/remote.go:103-105 | on the default registry the name is the repository itself, or the repository minus its `library/` prefix, and nothing else |
| `ImageRemote.RepositoryNameInjective` | pkg/fanal/image/remote.go:99-101 | off the default registry, with host names free of `/`, two references with the same name have the same registry and repository |
| `ImageRemote.RemoteImage.Name` | pkg/fanal/image/remote.go:61-63 | the name the caller resolved, returned as given; it has no contract of its own: `TryRemote`'s ensures state that on success `Name()` is the caller's `imageName` verbatim |
| `ImageRemote.RemoteImage.RepoTags` | pkg/fanal/image/remote.go:69-75 | at most one tag; none exactly when the tag name is empty; otherwise `RepositoryName() + ":" + tag` |
| `ImageRemote.RepoTagsOfDigest` | pkg/fanal/image/remote.go:69-75 | a digest reference has no repo tags |
| `ImageRemote.RepoTagRoundTrip` | pkg/fanal/image/remote.go:69-75 | for a tag without `:`, the text after the last `:` of the repo tag is the tag and the text before it is the repository name |
| `ImageRemote.RemoteImage.RepoDigests` | pkg/fanal/image/remote.go:77-80 | always exactly one entry, `RepositoryName() + "@" +` the digest of the fetched descriptor |
| `ImageRemote.RepoDigestRoundTrip` | pkg/fanal/image/remote.go:77-80 | when registry and repository hold no `@`, the repo digest splits at its first `@` back into the repository name and the descriptor's digest |
| `ImageRemote.IndexPlatformsReported` | pkg/fanal/image/remote.go:28-30 | every child platform of a decoded index appears in the diagnostics |
| `ImageRemote.TryRemote` | pkg/fanal/image/remote.go:16-52 | a fetch error is returned unchanged after the fetch alone; an index or manifest-list media type is decoded first, and a decoding error is returned before `desc.Image()` is called; every other media type goes straight to materialisation; a materialisation error is returned unchanged; on success the handle carries the caller's name, the reference and the fetched descriptor; the diagnostics are `Diagnostics` of the descriptor |
| `Strings.TrimPrefix` | pkg/fanal/image/remote.go:105 | when `s` starts with the prefix, the prefix followed by the result is `s`; otherwise the result is `s` |
| `Strings.Split` | pkg/types/docker_conf.go:27-28 | never returns an empty list: there is one more field than separators, no field contains the separator, and joining the fields gives the input back |
| `Strings.SplitJoin` | pkg/types/docker_conf.go:27-28 | splitting inverts joining for a non-empty list of separator-free fields |
| `Strings.SplitTrailingSeparator` | pkg/types/docker_conf.go:27-28 | a trailing separator adds one empty field after the unchanged others |
| `Strings.TrimSpace` | pkg/types/docker_conf.go:34-35 | the result is no longer than the input, and its first and last characters are not white space |
| `Strings.TrimSpacePadded` | pkg/types/docker_conf.go:34-35 | white space around a core whose ends are not white space is removed, and exactly that core is returned |
| `Strings.TrimSpaceIdempotent` | pkg/types/docker_conf.go:34-35 | trimming twice is trimming once |
| `DockerConf.Credentials` | pkg/types/docker_conf.go:32-37 | one credential per user field, and credential i is the trimmed user field i paired with the trimmed password field i |
| `DockerConf.Options` | pkg/types/docker_conf.go:21-48 | a failed environment load gives no options; on success the configuration was loaded, there is one credential per comma-separated user field, and the legacy user name and password are the first credential |
| `DockerConf.GetDockerOption` | pkg/types/docker_conf.go:21-48 | the method returns exactly `Options` of its inputs |
| `DockerConf.PairCredentials` | pkg/types/docker_conf.go:32-37 | the loop that appends one trimmed pair per position builds exactly `Credentials` of the split fields |
| `DockerConf.EnvErrorWrapped` | pkg/types/docker_conf.go:23-25 | a failure to load the environment is returned with the wrapping message, and no options |
| `DockerConf.RejectedIffFieldCountsDiffer` | pkg/types/docker_conf.go:27-31 | the options are refused exactly when the user and password lists have different numbers of commas, and then with the length-mismatch error |
| `DockerConf.TrimmedPairsExample` | pkg/types/docker_conf.go:32-37 | users `a, b` with passwords `x,y` give the credentials (a, x) and (b, y): the blank after the comma is trimmed |
| `DockerConf.MismatchExample` | pkg/types/docker_conf.go:29-31 | users `a,b` with password `x` are refused |
| `DockerConf.CredentialsPairFields` | pkg/types/docker_conf.go:32-37 | on success there is one credential per comma-separated user field; credential i pairs the trimmed user field i with the trimmed password field i |
| `DockerConf.LegacyFieldsAndFlags` | pkg/types/docker_conf.go:38-47 | on success there is a first credential; the legacy user name and password are that credential; the token and the NonSSL flag come from the configuration; the TLS-skip flag, the platform and the force-platform flag are the caller's arguments |
| `DockerConf.EmptyConfigOneEmptyCredential` | pkg/types/docker_conf.go:27-40 | empty user and password strings give exactly one credential ("", ""), and empty legacy fields |
| `DockerConf.TrailingCommaAddsEmptyCredential` | pkg/types/docker_conf.go:27-37 | fields are split before they are trimmed: a trailing comma on both lists accepts or refuses exactly as before, and adds one empty credential after the others |

## Left out

- `env.Parse` (pkg/types/docker_conf.go:23) reads the process environment. The loaded `DockerConfig`, or the error from loading it, is an input.
- `remote.Get` (pkg/fanal/image/remote.go:17) is network, authentication and TLS. Its outcome is the input `fetched`. The context and the registry options it receives are not modelled.
- `v1.ParseIndexManifest` (line 24) is a library decoder. It is the function parameter `parseIndex`, and only each child manifest's platform is kept.
- `desc.Image()` (line 40) is the function parameter `materialise`. The image content is an opaque type parameter. The `v1.Image` methods the handle passes through are not modelled.
- `remoteImage.ID` (lines 65-67) hashes image content in code that is not part of this model.
- The `fmt.Printf` lines (21-35) become `Event` values; their text formatting is not reproduced.
- The check at lines 37-39 is dead: the `err` it tests is always nil there. It is omitted.
- The diagnostic lines 29 and 33 dereference platform pointers that Go allows to be nil. Here a platform is always present, so that nil dereference is not modelled.
- Turning a reference string into registry, repository and tag or digest (go-containerregistry's parsing and defaulting) is not modelled. References arrive already split.
- On an error, Go returns a zero `DockerOption` beside the error. Here an error is `Err` and carries no options.
- `Strings.Split`: does not model multi-character or empty separators, because the core only splits on ",".
- `Strings.TrimSpace`: inputs are sequences of Unicode scalar values. Go works on UTF-8 bytes; invalid UTF-8 is not modelled.
- `xerrors` wrapping is reduced to the message text of the wrapped error.
