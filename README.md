# kubeimageswap, modelled in Dafny

`kubeimageswap` is a Kubernetes mutating admission webhook. It rewrites the
container images of a pod from one registry to another. For each pod the
webhook does the following:

1. It makes sure the pod has an annotation map.
2. It runs the configured JMESPath filters, in order, against the pod's JSON
   form. The pod is left alone when the first filter that does not yield
   `false` yields `true`, or when the pod cannot be converted to JSON. A
   search error or a non-boolean result stops the filters and the pod is
   rewritten.
3. Otherwise it normalises the image of every regular, init and ephemeral
   container. It matches the normalised reference against a
   registry-prefix mapping and writes any changed image back in place.
4. It records the names of the changed containers, comma-separated, in the
   `containers.mutated` annotation.

The model is in seven modules:

- `Wrappers` (wrappers.dfy): `Option` and `Result`.
- `GoStrings` (gostrings.dfy): the Go `strings` functions the webhook relies
  on. These are `HasPrefix`, `ReplaceAll` (every non-overlapping occurrence,
  left to right, including Go's empty-pattern case) and `Join`. `Split` undoes
  `Join` when there is at least one item and no item holds the separator,
  and `IndexOf`/`LastIndex` are used by the parser.
- `Reference` (reference.dfy): image references. It contains:
  - the container-image library's `ParseNormalizedNamed`, modelled on the
    shape `[domain/]path[:tag][@digest]` with Docker Hub defaulting
    (`docker.io`, `index.docker.io`, `library/`);
  - `TagNameOnly` (`latest`), `TrimNamed`, `WithDigest` and
    `docker.ParseReference`;
  - the webhook's own `imageNamesWithDigestOrTag`;
  - `ReferenceString`, the string `transform` matches against, proved equal to
    `CanonicalString`, a direct statement on the parsed reference.
- `Exemption` (exemption.dfy): `evaluatesJMESPaths`, as a loop with early
  returns proved equal to the recursive `Scan`/`Evaluation`. Its
  properties are stated as lemmas on those functions.
- `Rewrite` (rewrite.dfy): `transform`. The mapping is a Go map, so the
  order in which keys are tried is unspecified. `Transform` picks the next
  key arbitrarily, and its contract `Transforms` holds for every order.
- `Webhook` (webhook.dfy): `newDefaulter` and `Default`.
  - The pod is a class. Its three container lists are arrays that `Default`
    updates in place, and its annotations are `None` for a nil map.
  - `Default`'s contract is the predicate `Defaulted`. It covers the skip
    when a filter matches, the rewrite of each group, and the annotation
    write. When `transform` fails, the contract says which containers were
    already rewritten and that the annotation is not written.
- `Scenarios` (scenarios.dfy): concrete runs on literal images, mappings and
  pods.

The JSON conversion and the JMESPath search belong to libraries. The model
takes them as function parameters (`Webhook.Engine`). Compiling a filter is
a parameter of `NewDefaulter`.

### Behaviour of the code worth knowing

- The mapping is an unordered Go map, not an ordered list with "first match
  wins". When several keys are prefixes of the reference, any one of them may
  be used. `Scenarios.MapOrderDecides` shows both outcomes are possible.
  `Rewrite.TransformIsDeterministic` shows the result is unique when at most
  one key matches.
- A matching key is replaced everywhere in the reference string
  (`strings.ReplaceAll`), not only as a prefix. See
  `Scenarios.EveryOccurrenceReplaced`.
- When no key matches, `transform` returns the image exactly as written, not
  its normalised form (`Scenarios.UnmatchedImageKeepsSpelling`). When a key
  does match, the reference string it is matched against has an explicit tag
  or digest. The result keeps it unless the key reaches into the tag or the
  digest, which `strings.ReplaceAll` then rewrites as well. A tagged and digested image
  loses its tag (`Scenarios.RewriteDropsTag`, on a sha256
  digest of 64 hexadecimal digits, `Scenarios.PinnedDigest`).
- When the pod cannot be converted to JSON, `evaluatesJMESPaths` reports a
  match. `Default` then returns without changing the pod beyond
  initialising a nil annotation map, rather than failing
  (`Webhook.ConversionFailureSkipsPod`).
- When `transform` fails, the containers already processed keep their new
  images, because they were written in place. The annotation is not written.
- The error branch after `docker.ParseReference` in `transform`
  (mutatingwebhook.go:173-176) is never taken. The name it reparses was
  produced by a successful parse and has at most one of tag and digest
  (`Reference.CollapseSpec`). `Rewrite.Transform` asserts this in that branch.

## Model

| member | source | states |
|---|---|---|
| `GoStrings.HasPrefix` | mutatingwebhook.go:179 | a string has a prefix exactly when it is that prefix followed by the rest of the string |
| `GoStrings.ReplaceAll` | mutatingwebhook.go:180 | replacing a non-empty pattern by a replacement of the same length keeps the string's length |
| `GoStrings.Join` | mutatingwebhook.go:132 | the joined string starts with the first item, and holds no character that is in neither the items nor the separator |
| `GoStrings.IndexOf` | mutatingwebhook.go:187 | the first index of a character, or -1 exactly when it is absent |
| `GoStrings.LastIndex` | mutatingwebhook.go:187 | the last index of a character, or -1 exactly when it is absent |
| `GoStrings.ReplaceAllIdentity` | mutatingwebhook.go:180 | replacing a pattern by itself leaves any string unchanged, including the empty-pattern case |
| `GoStrings.ReplaceAllAbsent` | mutatingwebhook.go:180 | a string in which a non-empty pattern does not occur is returned unchanged |
| `GoStrings.ReplaceAllMissingChar` | mutatingwebhook.go:180 | a string lacking one of the pattern's characters is returned unchanged |
| `GoStrings.ReplaceAllAtPrefix` | mutatingwebhook.go:179-180 | when the pattern is a prefix, the result starts with the replacement |
| `GoStrings.Split` | mutatingwebhook.go:132 | splitting yields at least one part |
| `GoStrings.SplitJoin` | mutatingwebhook.go:132 | splitting the comma-joined names gives the names back, when there is at least one name and no name holds a comma |
| `Reference.ParseNormalizedNamed` | mutatingwebhook.go:187 | every parse error is an invalid-reference error naming the input |
| `Reference.TrimNamed` | mutatingwebhook.go:194 | the result has no tag and no digest, and its string form is the bare name |
| `Reference.WithDigest` | mutatingwebhook.go:194 | attaching succeeds exactly for a valid digest, and the result then prints as the name and tag followed by `@` and the digest |
| `Reference.TagNameOnly` | mutatingwebhook.go:173 | the name and digest are kept, the result has a tag or a digest, and a reference that already has one is unchanged |
| `Reference.DockerParseReference` | mutatingwebhook.go:173 | a string without the `//` prefix is refused, and every result carries exactly one of a tag and a digest |
| `Reference.DockerChecked` | mutatingwebhook.go:173 | a reference accepted by the final checks of `docker.ParseReference` carries exactly one of a tag and a digest |
| `Reference.DockerCheckedOf` | mutatingwebhook.go:173 | those checks refuse a reference with both tag and digest and otherwise return it with `latest` filled in |
| `Reference.ImageNamesWithDigestOrTag` | mutatingwebhook.go:186-201 | a parse error of the image is returned as it is, and a success implies that the image parses |
| `Reference.ReferenceString` | mutatingwebhook.go:169-179 | a parse error of the image is returned as it is, and a reference string exists only for an image that parses |
| `Reference.ParseWellFormed` | mutatingwebhook.go:187 | every parsed reference has a registry-like domain, a valid path (under `library/` on Docker Hub) and valid tag and digest |
| `Reference.RefString` | mutatingwebhook.go:179 | `String()` of a reference, also called at line 198: it starts with `Name()` and ends with `@digest` when the reference is digested; `Reference.ParseRefString` states that it parses back to the reference |
| `Reference.ParseRefString` | mutatingwebhook.go:187 | parsing the string form of a well-formed reference gives that reference back |
| `Reference.CollapseFailsIffParseFails` | mutatingwebhook.go:186-190 | `imageNamesWithDigestOrTag` fails exactly when the image does not parse |
| `Reference.CollapseSpec` | mutatingwebhook.go:186-201 | a reference with tag and digest becomes `name@digest`, which reparses without its tag; any other image is returned as written |
| `Reference.DockerParseOf` | mutatingwebhook.go:173 | `docker.ParseReference` adds `latest` to a bare name and refuses a reference with both tag and digest |
| `Reference.ReferenceStringFailsIffParseFails` | mutatingwebhook.go:169-176 | the reference string exists exactly when the image parses |
| `Reference.ReferenceStringSpec` | mutatingwebhook.go:169-179 | the reference string is that of the parsed reference with the digest winning over the tag and `latest` as default |
| `Reference.ReferenceStringIsCanonical` | mutatingwebhook.go:169-179 | the two-step computation of the source equals the direct statement `CanonicalString` on every image |
| `Reference.CanonicalIsFixedPoint` | mutatingwebhook.go:179 | the canonical reference is well formed and canonical again |
| `Reference.ReferenceStringIdempotent` | mutatingwebhook.go:169-179 | the reference string of a reference string is itself |
| `Reference.ReferenceStringTaggedXorDigested` | mutatingwebhook.go:169-179 | a reference string carries exactly one of a tag and a digest |
| `Exemption.Scan` | mutatingwebhook.go:149-165 | over the converted pod, the verdict is a match exactly when it carries no error |
| `Exemption.Evaluation` | mutatingwebhook.go:140-165 | a verdict without an error is always a match |
| `Exemption.EvaluatesJMESPaths` | mutatingwebhook.go:140-166 | the loop with early returns gives the verdict `Evaluation` specifies |
| `Exemption.AllFalseNotNegative` | mutatingwebhook.go:149-165 | when every filter yields `false` (or there are none) the pod is not skipped and the error is "not true" |
| `Exemption.StopsAtFirstDecisive` | mutatingwebhook.go:149-162 | the first filter not yielding `false` settles the verdict: a search error, `true`, or a non-boolean value |
| `Exemption.LaterQueriesNotConsulted` | mutatingwebhook.go:149-162 | the filters after the first decisive one do not influence the verdict |
| `Exemption.MatchedIffFirstTrue` | mutatingwebhook.go:149-165 | the pod is skipped exactly when some filter yields `true` after only `false`s, and then with no error |
| `Exemption.NotMatchedHasError` | mutatingwebhook.go:149-165 | a pod that is not skipped always comes with an error |
| `Exemption.ConversionFailureSkips` | mutatingwebhook.go:141-148 | a failed JSON conversion reports a match with the conversion error |
| `Rewrite.TransformsIff` | mutatingwebhook.go:168-184 | the outcomes of `transform` are fixed by the image's reference string, or by the error that prevents one |
| `Rewrite.Transform` | mutatingwebhook.go:168-184 | the result is the parser's error, the image as written when no key is a prefix, or the reference string with every occurrence of some matching key replaced |
| `Rewrite.TransformFailsIffInvalid` | mutatingwebhook.go:169-176 | `transform` fails exactly when the image does not parse |
| `Rewrite.ChangedImageStartsWithReplacement` | mutatingwebhook.go:177-180 | a changed image comes from a matching key and starts with that key's replacement |
| `Rewrite.IdentityMappingOnlyNormalizes` | mutatingwebhook.go:177-183 | with values equal to keys the result is the image or its reference string |
| `Rewrite.IdentityMappingKeepsCanonical` | mutatingwebhook.go:177-183 | an already canonical image is left alone by an identity mapping |
| `Rewrite.UniqueMatchIsDeterministic` | mutatingwebhook.go:177-181 | with at most one matching key the rewrite does not depend on the map order |
| `Rewrite.TransformIsDeterministic` | mutatingwebhook.go:168-184 | with at most one matching key `transform` has a single outcome |
| `Rewrite.TransformFailureCause` | mutatingwebhook.go:169-176 | a failure of `transform` carries the parser's error for the image |
| `Rewrite.EmptyMappingKeepsImage` | mutatingwebhook.go:177-183 | with an empty mapping a valid image comes back as written and an invalid one fails |
| `Rewrite.TransformsValid` | mutatingwebhook.go:177-183 | an image with a reference string is always rewritten successfully |
| `Rewrite.RewritesAreTransforms` | mutatingwebhook.go:177-183 | every rewrite allowed by some map order is a possible result |
| `Rewrite.TransformsInvalid` | mutatingwebhook.go:169-176 | an image that does not parse makes `transform` fail with the parser's error |
| `Rewrite.SingleMatchRewrites` | mutatingwebhook.go:177-181 | with exactly one matching key, that key is the one replaced |
| `Webhook.Pod.constructor` | mutatingwebhook.go:84 | a pod with fresh, separate container arrays holding the given value |
| `Webhook.ChangedNames` | mutatingwebhook.go:109-113 | no more names are recorded than there are containers; which names are recorded is stated by `Webhook.ChangedNamesMembers` |
| `Webhook.RewriteOutcome` | mutatingwebhook.go:101-133 | a rewrite ends with no error or with a `transform` error, and every container group keeps its size |
| `Webhook.Defaulted` | mutatingwebhook.go:82-137 | after `Default` on a pod the annotations are always a map, and the only possible error is a `transform` error |
| `Webhook.NewDefaulter` | mutatingwebhook.go:55-68 | construction succeeds exactly when every filter compiles, keeps the filters in order and the mapping, and otherwise reports the first compile error |
| `Webhook.RewriteContainers` | mutatingwebhook.go:104-129 | every image of a group is rewritten in place and changed names are appended in order, or the group stops at its first invalid image with the earlier containers rewritten and the rest untouched |
| `Webhook.RewriteImages` | mutatingwebhook.go:101-133 | regular, init and ephemeral groups are rewritten in that order and the annotation is written only when all succeed and some image changed; the pod's arrays stay separate |
| `Webhook.Default` | mutatingwebhook.go:82-137 | a non-pod is refused; a pod is skipped when a filter matches and otherwise rewritten as `RewriteOutcome` describes; the pod's arrays stay separate |
| `Webhook.FilterMatchSkipsPod` | mutatingwebhook.go:93-99 | a filter yielding `true` first leaves the pod unchanged but for initialised annotations, with no error |
| `Webhook.NoFilterMatchRewrites` | mutatingwebhook.go:93-99 | when no filter yields `true` first, the pod is rewritten |
| `Webhook.ConversionFailureSkipsPod` | mutatingwebhook.go:93-99 | a pod that cannot be converted to JSON is left unchanged with no error |
| `Webhook.NoFiltersNeverSkip` | mutatingwebhook.go:93-99 | with no filters every convertible pod is rewritten |
| `Webhook.ChangedNamesMembers` | mutatingwebhook.go:109-113 | a name is recorded exactly when some container with that name had its image changed |
| `Webhook.NoChangeNoNames` | mutatingwebhook.go:109-113 | no name is recorded exactly when no image changed |
| `Webhook.GroupFailedKeepsNames` | mutatingwebhook.go:104-108 | a group that stopped at an invalid image keeps its size and names |
| `Webhook.DefaultKeepsNames` | mutatingwebhook.go:103-129 | whatever the outcome, every group keeps its size and every container its name |
| `Webhook.FailureWritesNoAnnotation` | mutatingwebhook.go:105-108 | a failed rewrite leaves the annotations as the filters saw them |
| `Webhook.FailureNamesInvalidImage` | mutatingwebhook.go:105-108 | an error from a pod is always the parser's error for one of its images |
| `Webhook.ValidImagesNeverFail` | mutatingwebhook.go:103-129 | a pod whose images all parse never yields an error |
| `Webhook.ChangedNamesFree` | mutatingwebhook.go:113 | a recorded name holds no comma when no container name of the group does |
| `Webhook.AnnotationRecordsMutatedNames` | mutatingwebhook.go:131-133 | after a successful rewrite `containers.mutated` splits back into the changed names, nothing else in the annotations changes, and nothing is written when no image changed |
| `Webhook.EmptyMappingKeepsGroup` | mutatingwebhook.go:103-116 | an empty mapping leaves every container of a group as it was |
| `Webhook.EmptyMappingChangesNothing` | mutatingwebhook.go:82-137 | with an empty mapping a successful run changes nothing but the nil annotations |
| `Scenarios.ShortNameNormalizes` | mutatingwebhook.go:169-179 | `nginx` is matched as `docker.io/library/nginx:latest` |
| `Scenarios.ShortNameRewritten` | mutatingwebhook.go:168-184 | `nginx` with the Docker Hub mirror mapping becomes `internal.registry/nginx:latest` |
| `Scenarios.UnmatchedImageKeepsSpelling` | mutatingwebhook.go:183 | `nginx` with a mapping that does not match comes back as `nginx` |
| `Scenarios.MapOrderDecides` | mutatingwebhook.go:177-181 | two matching keys give two different possible results |
| `Scenarios.EveryOccurrenceReplaced` | mutatingwebhook.go:180 | `docker.io/docker.io/x:1` with `docker.io/` mapped becomes `mirror.io/mirror.io/x:1` |
| `Scenarios.DigestWinsOverTag` | mutatingwebhook.go:186-201 | `a.io/x:1@` followed by a sha256 digest of 64 hex digits (`PinnedDigest`) is matched as `a.io/x@` followed by that digest |
| `Scenarios.RewriteDropsTag` | mutatingwebhook.go:168-184 | rewriting `a.io/x:1@` followed by that 64-hex-digit sha256 digest with `a.io/` mapped to `b.io/` gives `b.io/x@` followed by the digest |
| `Scenarios.UpperCaseRejected` | mutatingwebhook.go:169-172 | `a.io/Nginx` makes `transform` fail with an invalid-reference error |
| `Scenarios.MirroredPod` | mutatingwebhook.go:82-137 | a pod with container `web` running `nginx` gets the mirrored image and `containers.mutated: web` |

## Left out

- `main.go` (flag binding, the admission server, certificates) is not part of this model. Neither is `options.BindFlags`: the filters and the mapping reach `NewDefaulter` as values.
- The JMESPath language: compiling a filter and searching a document are function parameters. Only their results (a compile error, a search error, a value) are modelled.
- JSON: `json.Marshal` followed by `json.Unmarshal` is one conversion function that either succeeds or fails. The two failure messages are the single error `ConversionFailed`. JSON numbers are integers, not `float64`; only whether a value is a boolean matters to the webhook.
- Error texts (`fmt.Errorf` messages, the two sentinel errors' wording) are modelled as error constructors with their causes, not as strings.
- Logging (`log.Info`) and the `context` argument have no observable effect on the pod; they are left out. `DeepCopy` of a container is left out because only its image field is written.
- `Default` on a pod assumes the three container lists are separate arrays (`Webhook.Pod.Valid`). Go slices that share a backing array are not modelled.
- Container fields other than `name` and `image` are left out. The webhook itself reads and writes only those two, but `json.Marshal` hands every field to the filters. In the model the other fields reach the filters only through `Webhook.Engine.marshal`, which is an arbitrary function of the pod value, so any filter outcome they could cause is covered.
- `Reference.ParseNormalizedNamed`: the library's grammar is simplified, and images the library would refuse for its finer rules are accepted here:
  - A domain is any first component that looks like a host, with no port or character-class validation.
  - A path may be any text without `:`, `@` or upper-case letters, not starting or ending with `/`. Empty components are accepted: `a.io/x//y:1` parses.
  - A tag is 1 to 128 characters with no `/`, `:` or `@`. The library's character class `[\w][\w.-]{0,127}` is not checked: `a.io/x:+` parses, with the tag `+`.
  - A digest is any text holding `:` and no `@`, with no algorithm or hex-length check. `sha256:ab` is accepted, though a sha256 digest needs 64 hex digits.
  - The 255-character limit on the name (`ErrNameTooLong`) is not modelled.
  - A 64-hex-digit repository name is not rejected.
- `transform`'s string result on error (the input image) is not modelled, because `Default` discards it and returns the error.
