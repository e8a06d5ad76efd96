/**
 * Concrete runs of `transform` and `Default` on literal images, pods and
 * mappings. Each literal fact is proved in a lemma of its own, so that the
 * verifier evaluates only a small piece of the parser at a time.
 */
module Scenarios {
  import opened Wrappers
  import opened GoStrings
  import opened Reference
  import opened Rewrite
  import opened Exemption
  import opened Webhook

  const HubPrefix: string := "docker.io/library/"
  const Internal: string := "internal.registry/"

  // ---------------------------------------------------------------------
  // The short name `nginx`

  lemma NginxPath()
    ensures ValidPath("library/nginx")
  {
  }

  lemma NginxSplits()
    ensures SplitDigest("nginx") == ("nginx", None)
    ensures SplitTag("nginx") == ("nginx", None)
  {
  }

  lemma NginxDomain()
    ensures SplitDockerDomain("nginx") == ("docker.io", "library/nginx")
  {
    assert IndexOf("nginx", '/') == -1;
    assert |DefaultDomain| != |LegacyDefaultDomain|;
    assert OfficialRepoPrefix + "nginx" == "library/nginx";
  }

  lemma NginxParses()
    ensures ParseNormalizedNamed("nginx") == Success(Named("docker.io", "library/nginx", None, None))
  {
    NginxPath();
    NginxSplits();
    NginxDomain();
  }

  lemma CanonicalOf(image: string, r: Named)
    requires ParseNormalizedNamed(image) == Success(r)
    ensures CanonicalString(image) == Success(RefString(Canonical(r)))
  {
  }

  lemma NginxLatest(r: Named)
    requires r == Named("docker.io", "library/nginx", None, None)
    ensures RefString(Canonical(r)) == "docker.io/library/nginx:latest"
  {
    assert Canonical(r) == Named("docker.io", "library/nginx", Some("latest"), None);
  }

  /** A short Docker Hub name is matched in its fully qualified, tagged form. */
  lemma ShortNameNormalizes()
    ensures CanonicalString("nginx") == Success("docker.io/library/nginx:latest")
  {
    var r := Named("docker.io", "library/nginx", None, None);
    NginxParses();
    CanonicalOf("nginx", r);
    NginxLatest(r);
  }

  lemma ReplaceAllStep(s: string, pattern: string, replacement: string)
    requires pattern != [] && HasPrefix(s, pattern)
    ensures ReplaceAll(s, pattern, replacement) == replacement + ReplaceAll(s[|pattern|..], pattern, replacement)
  {
  }

  lemma NginxHubKey()
    ensures MatchingKeys("docker.io/library/nginx:latest", map[HubPrefix := Internal]) == {HubPrefix}
  {
    assert "docker.io/library/nginx:latest"[..|HubPrefix|] == HubPrefix;
  }

  lemma NginxHubPrefix()
    ensures HasPrefix("docker.io/library/nginx:latest", "docker.io/library/")
  {
  }

  lemma NginxRest()
    ensures "docker.io/library/nginx:latest"[18..] == "nginx:latest"
  {
  }

  lemma NginxRestKept()
    ensures ReplaceAll("nginx:latest", "docker.io/library/", "internal.registry/") == "nginx:latest"
  {
    ReplaceAllMissingChar("nginx:latest", "docker.io/library/", "internal.registry/", '/');
  }

  lemma NginxInternal()
    ensures "internal.registry/" + "nginx:latest" == "internal.registry/nginx:latest"
  {
  }

  lemma NginxToInternal()
    ensures ReplaceAll("docker.io/library/nginx:latest", "docker.io/library/", "internal.registry/")
      == "internal.registry/nginx:latest"
  {
    NginxHubPrefix();
    NginxRest();
    NginxRestKept();
    NginxInternal();
    ReplaceAllStep("docker.io/library/nginx:latest", "docker.io/library/", "internal.registry/");
  }

  /** A short Docker Hub name is moved to the mirror, with the default tag made explicit. */
  lemma ShortNameRewritten(out: Result<string, RefError>)
    requires Transforms("nginx", map[HubPrefix := Internal], out)
    ensures out == Success("internal.registry/nginx:latest")
  {
    var refStr := "docker.io/library/nginx:latest";
    ShortNameNormalizes();
    TransformsValid("nginx", refStr, map[HubPrefix := Internal], out);
    NginxHubKey();
    SingleMatchRewrites("nginx", refStr, map[HubPrefix := Internal], HubPrefix, out.value);
    NginxToInternal();
  }

  lemma NginxQuayKey()
    ensures MatchingKeys("docker.io/library/nginx:latest", map["quay.io/" := "mirror.local/"]) == {}
  {
    assert "docker.io/library/nginx:latest"[..8][0] != "quay.io/"[0];
  }

  /** When no key matches, the image is returned as written, not in its normalised form. */
  lemma UnmatchedImageKeepsSpelling(out: Result<string, RefError>)
    requires Transforms("nginx", map["quay.io/" := "mirror.local/"], out)
    ensures out == Success("nginx")
  {
    ShortNameNormalizes();
    TransformsValid("nginx", "docker.io/library/nginx:latest", map["quay.io/" := "mirror.local/"], out);
    NginxQuayKey();
  }

  // ---------------------------------------------------------------------
  // Map order

  lemma BothKeysMatch()
    ensures MatchingKeys("docker.io/library/nginx:latest", map["docker.io/" := "a.io/", "docker.io/library/" := "b.io/"])
      == {"docker.io/", "docker.io/library/"}
  {
    NginxHubPrefix();
    assert "docker.io/library/nginx:latest"[..10] == "docker.io/";
  }

  lemma ShortKeyRest()
    ensures "docker.io/library/nginx:latest"[10..] == "library/nginx:latest"
    ensures HasPrefix("docker.io/library/nginx:latest", "docker.io/")
  {
  }

  lemma ShortKeyRestKept()
    ensures ReplaceAll("library/nginx:latest", "docker.io/", "a.io/") == "library/nginx:latest"
  {
    ReplaceAllMissingChar("library/nginx:latest", "docker.io/", "a.io/", '.');
  }

  lemma ShortKeyJoin()
    ensures "a.io/" + "library/nginx:latest" == "a.io/library/nginx:latest"
  {
  }

  lemma ShortKeyReplaced()
    ensures ReplaceAll("docker.io/library/nginx:latest", "docker.io/", "a.io/") == "a.io/library/nginx:latest"
  {
    ShortKeyRest();
    ShortKeyRestKept();
    ShortKeyJoin();
    ReplaceAllStep("docker.io/library/nginx:latest", "docker.io/", "a.io/");
  }

  lemma LongKeyRestKept()
    ensures ReplaceAll("nginx:latest", "docker.io/library/", "b.io/") == "nginx:latest"
  {
    ReplaceAllMissingChar("nginx:latest", "docker.io/library/", "b.io/", '/');
  }

  lemma LongKeyJoin()
    ensures "b.io/" + "nginx:latest" == "b.io/nginx:latest"
  {
  }

  lemma LongKeyReplaced()
    ensures ReplaceAll("docker.io/library/nginx:latest", "docker.io/library/", "b.io/") == "b.io/nginx:latest"
  {
    NginxHubPrefix();
    NginxRest();
    LongKeyRestKept();
    LongKeyJoin();
    ReplaceAllStep("docker.io/library/nginx:latest", "docker.io/library/", "b.io/");
  }

  /**
   * When two keys match, the order in which the Go map is iterated picks
   * the outcome: both rewrites are possible results of `transform`.
   */
  lemma MapOrderDecides()
    ensures Transforms("nginx", map["docker.io/" := "a.io/", "docker.io/library/" := "b.io/"], Success("a.io/library/nginx:latest"))
    ensures Transforms("nginx", map["docker.io/" := "a.io/", "docker.io/library/" := "b.io/"], Success("b.io/nginx:latest"))
  {
    var m := map["docker.io/" := "a.io/", "docker.io/library/" := "b.io/"];
    var refStr := "docker.io/library/nginx:latest";
    ShortNameNormalizes();
    BothKeysMatch();
    ShortKeyReplaced();
    LongKeyReplaced();
    assert "docker.io/" in MatchingKeys(refStr, m) && m["docker.io/"] == "a.io/";
    assert "docker.io/library/" in MatchingKeys(refStr, m) && m["docker.io/library/"] == "b.io/";
    RewritesAreTransforms("nginx", refStr, m, "a.io/library/nginx:latest");
    RewritesAreTransforms("nginx", refStr, m, "b.io/nginx:latest");
  }

  // ---------------------------------------------------------------------
  // Every occurrence of the key is replaced

  lemma RepeatedDomainPath()
    ensures ValidPath("docker.io/x") && '/' in "docker.io/x"
  {
    assert "docker.io/x"[9] == '/';
  }

  lemma RepeatedDomainWellFormed()
    ensures WellFormed(Named("docker.io", "docker.io/x", Some("1"), None))
  {
    DefaultDomainFacts();
    RepeatedDomainPath();
  }

  lemma RepeatedDomainString()
    ensures RefString(Named("docker.io", "docker.io/x", Some("1"), None)) == "docker.io/docker.io/x:1"
  {
  }

  lemma RepeatedDomainParses()
    ensures ParseNormalizedNamed("docker.io/docker.io/x:1") == Success(Named("docker.io", "docker.io/x", Some("1"), None))
  {
    RepeatedDomainWellFormed();
    RepeatedDomainString();
    ParseRefString(Named("docker.io", "docker.io/x", Some("1"), None));
  }

  lemma RepeatedDomainCanonical()
    ensures CanonicalString("docker.io/docker.io/x:1") == Success("docker.io/docker.io/x:1")
  {
    var r := Named("docker.io", "docker.io/x", Some("1"), None);
    RepeatedDomainParses();
    CanonicalOf("docker.io/docker.io/x:1", r);
    assert Canonical(r) == r;
    RepeatedDomainString();
  }

  lemma RepeatedDomainKey()
    ensures MatchingKeys("docker.io/docker.io/x:1", map["docker.io/" := "mirror.io/"]) == {"docker.io/"}
  {
    assert "docker.io/docker.io/x:1"[..10] == "docker.io/";
  }

  lemma RepeatedDomainSteps()
    ensures HasPrefix("docker.io/docker.io/x:1", "docker.io/")
    ensures "docker.io/docker.io/x:1"[10..] == "docker.io/x:1"
    ensures HasPrefix("docker.io/x:1", "docker.io/")
    ensures "docker.io/x:1"[10..] == "x:1"
  {
  }

  lemma RepeatedDomainTail()
    ensures ReplaceAll("x:1", "docker.io/", "mirror.io/") == "x:1"
    ensures "mirror.io/" + ("mirror.io/" + "x:1") == "mirror.io/mirror.io/x:1"
  {
    ReplaceAllMissingChar("x:1", "docker.io/", "mirror.io/", '/');
  }

  lemma RepeatedDomainReplaced()
    ensures ReplaceAll("docker.io/docker.io/x:1", "docker.io/", "mirror.io/") == "mirror.io/mirror.io/x:1"
  {
    RepeatedDomainSteps();
    RepeatedDomainTail();
    ReplaceAllStep("docker.io/docker.io/x:1", "docker.io/", "mirror.io/");
    ReplaceAllStep("docker.io/x:1", "docker.io/", "mirror.io/");
  }

  /** The key is replaced wherever it occurs, not only as the prefix that matched. */
  lemma EveryOccurrenceReplaced(out: Result<string, RefError>)
    requires Transforms("docker.io/docker.io/x:1", map["docker.io/" := "mirror.io/"], out)
    ensures out == Success("mirror.io/mirror.io/x:1")
  {
    var s := "docker.io/docker.io/x:1";
    RepeatedDomainCanonical();
    TransformsValid(s, s, map["docker.io/" := "mirror.io/"], out);
    RepeatedDomainKey();
    SingleMatchRewrites(s, s, map["docker.io/" := "mirror.io/"], "docker.io/", out.value);
    RepeatedDomainReplaced();
  }

  // ---------------------------------------------------------------------
  // A tagged and digested image

  /** Sixteen hexadecimal digits. */
  const HexDigits: string := "0123456789abcdef"

  /** A sha256 digest: the algorithm, `:`, and 64 hexadecimal digits. */
  const PinnedDigest: string := "sha256:" + (HexDigits + HexDigits + HexDigits + HexDigits)

  lemma HexDigitsNoSeparator()
    ensures '@' !in HexDigits && '/' !in HexDigits && ':' !in HexDigits
  {
  }

  lemma PinnedDigestShape()
    ensures |PinnedDigest| == 71 && PinnedDigest[6] == ':'
    ensures '@' !in PinnedDigest && '/' !in PinnedDigest
  {
    HexDigitsNoSeparator();
    assert '@' !in "sha256:" && '/' !in "sha256:";
  }

  lemma PinnedWellFormed()
    ensures WellFormed(Named("a.io", "x", Some("1"), Some(PinnedDigest)))
  {
    assert "a.io"[1] == '.';
    PinnedDigestShape();
    assert |"a.io"| != |LegacyDefaultDomain|;
  }

  lemma PinnedStrings()
    ensures RefString(Named("a.io", "x", Some("1"), Some(PinnedDigest))) == "a.io/x:1@" + PinnedDigest
    ensures RefString(Named("a.io", "x", None, Some(PinnedDigest))) == "a.io/x@" + PinnedDigest
  {
    PinnedTaggedString();
    PinnedDigestedString();
  }

  lemma PinnedTaggedString()
    ensures RefString(Named("a.io", "x", Some("1"), Some(PinnedDigest))) == "a.io/x:1@" + PinnedDigest
  {
    var d := PinnedDigest;
    assert NameString(Named("a.io", "x", Some("1"), Some(d))) + TagSuffix(Some("1")) == "a.io/x:1";
    assert DigestSuffix(Some(d)) == "@" + d;
    assert "a.io/x:1" + ("@" + d) == "a.io/x:1@" + d;
  }

  lemma PinnedDigestedString()
    ensures RefString(Named("a.io", "x", None, Some(PinnedDigest))) == "a.io/x@" + PinnedDigest
  {
    var d := PinnedDigest;
    assert NameString(Named("a.io", "x", None, Some(d))) + TagSuffix(None) == "a.io/x";
    assert DigestSuffix(Some(d)) == "@" + d;
    assert "a.io/x" + ("@" + d) == "a.io/x@" + d;
  }

  lemma PinnedParses()
    ensures ParseNormalizedNamed("a.io/x:1@" + PinnedDigest) == Success(Named("a.io", "x", Some("1"), Some(PinnedDigest)))
  {
    PinnedWellFormed();
    PinnedStrings();
    ParseRefString(Named("a.io", "x", Some("1"), Some(PinnedDigest)));
  }

  /** A reference with both a tag and a digest is matched by its digest alone. */
  lemma DigestWinsOverTag()
    ensures CanonicalString("a.io/x:1@" + PinnedDigest) == Success("a.io/x@" + PinnedDigest)
  {
    var r := Named("a.io", "x", Some("1"), Some(PinnedDigest));
    PinnedParses();
    CanonicalOf("a.io/x:1@" + PinnedDigest, r);
    assert Canonical(r) == Named("a.io", "x", None, Some(PinnedDigest));
    PinnedStrings();
  }

  lemma PinnedKey()
    ensures MatchingKeys("a.io/x@" + PinnedDigest, map["a.io/" := "b.io/"]) == {"a.io/"}
    ensures HasPrefix("a.io/x@" + PinnedDigest, "a.io/")
    ensures ("a.io/x@" + PinnedDigest)[5..] == "x@" + PinnedDigest
  {
    assert ("a.io/x@" + PinnedDigest)[..5] == "a.io/";
  }

  lemma PinnedTail()
    ensures ReplaceAll("x@" + PinnedDigest, "a.io/", "b.io/") == "x@" + PinnedDigest
  {
    PinnedDigestShape();
    assert '/' !in "x@" + PinnedDigest;
    ReplaceAllMissingChar("x@" + PinnedDigest, "a.io/", "b.io/", '/');
  }

  lemma PinnedJoin()
    ensures "b.io/" + ("x@" + PinnedDigest) == "b.io/x@" + PinnedDigest
  {
  }

  /** Rewriting a tagged and digested image drops the tag. */
  lemma RewriteDropsTag(out: Result<string, RefError>)
    requires Transforms("a.io/x:1@" + PinnedDigest, map["a.io/" := "b.io/"], out)
    ensures out == Success("b.io/x@" + PinnedDigest)
  {
    var s, refStr := "a.io/x:1@" + PinnedDigest, "a.io/x@" + PinnedDigest;
    DigestWinsOverTag();
    TransformsValid(s, refStr, map["a.io/" := "b.io/"], out);
    PinnedKey();
    SingleMatchRewrites(s, refStr, map["a.io/" := "b.io/"], "a.io/", out.value);
    PinnedTail();
    PinnedJoin();
    ReplaceAllStep(refStr, "a.io/", "b.io/");
  }

  // ---------------------------------------------------------------------
  // An invalid image

  lemma UpperDigest()
    ensures SplitDigest("a.io/Nginx") == ("a.io/Nginx", None)
  {
    assert '@' !in "a.io/Nginx";
  }

  lemma UpperTag()
    ensures SplitTag("a.io/Nginx") == ("a.io/Nginx", None)
  {
  }

  lemma UpperSlash()
    ensures IndexOf("a.io/Nginx", '/') == 4
  {
    IndexOfUnique("a.io/Nginx", '/', 4);
  }

  lemma UpperParts()
    ensures "a.io/Nginx"[..4] == "a.io" && "a.io/Nginx"[5..] == "Nginx"
    ensures LooksLikeDomain("a.io") && "a.io" != LegacyDefaultDomain && "a.io" != DefaultDomain
  {
    assert "a.io"[1] == '.';
  }

  lemma UpperDomain()
    ensures SplitDockerDomain("a.io/Nginx") == ("a.io", "Nginx")
  {
    UpperSlash();
    UpperParts();
  }

  lemma UpperPath()
    ensures !ValidPath("Nginx")
  {
    assert 'A' <= "Nginx"[0] <= 'Z';
  }

  /** Upper-case letters are not allowed in a repository path: `transform` fails. */
  lemma UpperCaseRejected(out: Result<string, RefError>)
    requires Transforms("a.io/Nginx", map["a.io/" := "b.io/"], out)
    ensures out == Failure(InvalidReference("a.io/Nginx"))
  {
    UpperDigest();
    UpperTag();
    UpperDomain();
    UpperPath();
    assert ParseNormalizedNamed("a.io/Nginx") == Failure(InvalidReference("a.io/Nginx"));
    TransformsInvalid("a.io/Nginx", InvalidReference("a.io/Nginx"), map["a.io/" := "b.io/"], out);
  }

  // ---------------------------------------------------------------------
  // A whole admission request

  lemma WebImageRewritten(c: Container)
    requires ContainerRewritten(Container("web", "nginx"), c, map[HubPrefix := Internal])
    ensures c == Container("web", "internal.registry/nginx:latest")
  {
    ShortNameRewritten(Success(c.image));
  }

  lemma WebNamesRecorded(before: seq<Container>, after: seq<Container>)
    requires before == [Container("web", "nginx")]
    requires after == [Container("web", "internal.registry/nginx:latest")]
    ensures ChangedNames(before, after) == ["web"]
  {
    assert before[..0] == [] && after[..0] == [];
  }

  lemma WebImagesValid(before: PodValue)
    requires before == PodValue([Container("web", "nginx")], [], [], None)
    ensures ImagesValid(before.containers) && ImagesValid(before.initContainers) && ImagesValid(before.ephemeralContainers)
  {
    ShortNameNormalizes();
  }

  lemma WebGroups(seen: PodValue, after: PodValue, mapping: Mapping)
    requires seen == PodValue([Container("web", "nginx")], [], [], Some(map[]))
    requires mapping == map[HubPrefix := Internal]
    requires RewriteOutcome(mapping, seen, after, None)
    ensures after.containers == [Container("web", "internal.registry/nginx:latest")]
    ensures after.initContainers == [] && after.ephemeralContainers == []
    ensures MutatedNames(seen, after) == ["web"]
  {
    assert ContainerRewritten(seen.containers[0], after.containers[0], mapping);
    WebImageRewritten(after.containers[0]);
    assert after.containers == [Container("web", "internal.registry/nginx:latest")];
    WebNamesRecorded(seen.containers, after.containers);
  }

  lemma WebAnnotation()
    ensures Annotate(map[], ["web"]) == map[MutatedAnnotation := "web"]
  {
  }

  /**
   * With no filters and the Docker Hub mirror mapping, a pod running
   * `nginx` in container `web` comes back with the mirrored image and the
   * annotation `containers.mutated: web`.
   */
  lemma MirroredPod(engine: Engine, after: PodValue, err: Option<WebhookError>)
    requires engine.marshal(PodValue([Container("web", "nginx")], [], [], Some(map[]))).Some?
    requires Defaulted(ImageSwap([], map[HubPrefix := Internal]), engine, PodValue([Container("web", "nginx")], [], [], None), after, err)
    ensures err == None
    ensures after == PodValue([Container("web", "internal.registry/nginx:latest")], [], [], Some(map[MutatedAnnotation := "web"]))
  {
    var k := ImageSwap([], map[HubPrefix := Internal]);
    var before := PodValue([Container("web", "nginx")], [], [], None);
    var seen := Seen(before);
    assert seen == PodValue([Container("web", "nginx")], [], [], Some(map[]));
    WebImagesValid(before);
    ValidImagesNeverFail(k, engine, before, after, err);
    NoFiltersNeverSkip(k, engine, before, after, err);
    WebGroups(seen, after, k.mapping);
    WebAnnotation();
  }
}
