/**
 * Container image references: the shape `[domain/]path[:tag][@digest]`,
 * normalised the way the Docker reference library normalises names
 * (`reference.ParseNormalizedNamed`, `docker.ParseReference`), and the
 * webhook's tag+digest collapse `imageNamesWithDigestOrTag`.
 *
 * The library grammar is simplified: a part is accepted when it is
 * non-empty and free of the separators that would make the string
 * ambiguous (see ValidDomain, ValidPath, ValidTag, ValidDigest).
 */
module Reference {
  import opened Wrappers
  import opened GoStrings

  const DefaultDomain: string := "docker.io"
  const LegacyDefaultDomain: string := "index.docker.io"
  const OfficialRepoPrefix: string := "library/"
  const DefaultTag: string := "latest"
  const MaxTagLength: nat := 128

  datatype RefError =
    | InvalidReference(input: string)
    | MissingSlashes(input: string)
    | TagAndDigest(input: string)
    | NameOnly(input: string)

  /** A parsed reference: `reference.Named`, possibly `NamedTagged` and/or `Canonical`. */
  datatype Named = Named(domain: string, path: string, tag: Option<string>, digest: Option<string>)

  predicate HasUpper(s: string) {
    exists i :: 0 <= i < |s| && 'A' <= s[i] <= 'Z'
  }

  /** The first path component is taken as a registry host. */
  predicate LooksLikeDomain(component: string) {
    '.' in component || ':' in component || component == "localhost" || HasUpper(component)
  }

  predicate ValidDomain(d: string) {
    LooksLikeDomain(d) && '/' !in d && '@' !in d && d != LegacyDefaultDomain
  }

  predicate ValidPath(p: string) {
    |p| > 0 && p[0] != '/' && p[|p| - 1] != '/' && ':' !in p && '@' !in p && !HasUpper(p)
  }

  predicate ValidTag(t: string) {
    0 < |t| <= MaxTagLength && '/' !in t && ':' !in t && '@' !in t
  }

  predicate ValidDigest(d: string) {
    ':' in d && '@' !in d
  }

  /** What the parser can produce: every part valid, official images under `library/`. */
  predicate WellFormed(r: Named) {
    && ValidDomain(r.domain)
    && ValidPath(r.path)
    && (r.domain == DefaultDomain ==> '/' in r.path)
    && (r.tag.Some? ==> ValidTag(r.tag.value))
    && (r.digest.Some? ==> ValidDigest(r.digest.value))
  }

  /** `Named.Name()`: domain and path. */
  function NameString(r: Named): string {
    r.domain + "/" + r.path
  }

  function TagSuffix(tag: Option<string>): string {
    if tag.Some? then ":" + tag.value else ""
  }

  function DigestSuffix(digest: Option<string>): string {
    if digest.Some? then "@" + digest.value else ""
  }

  /** `Named.String()`: the fully qualified reference. */
  function RefString(r: Named): (s: string)
    ensures NameString(r) <= s
    ensures r.digest.Some? ==> |s| > |r.digest.value| && s[|s| - |r.digest.value| - 1..] == "@" + r.digest.value
  {
    NameString(r) + TagSuffix(r.tag) + DigestSuffix(r.digest)
  }

  /** Splits off `@digest` at the first `@`. */
  function SplitDigest(s: string): (string, Option<string>) {
    var i := IndexOf(s, '@');
    if i < 0 then (s, None) else (s[..i], Some(s[i + 1..]))
  }

  /** Splits off `:tag` at the last `:` when no `/` follows it (a `:` before a `/` is a port). */
  function SplitTag(nameTag: string): (string, Option<string>) {
    var j := LastIndex(nameTag, ':');
    if j >= 0 && '/' !in nameTag[j + 1..] then (nameTag[..j], Some(nameTag[j + 1..])) else (nameTag, None)
  }

  /** `splitDockerDomain`: registry host and repository path, with Docker Hub defaulting. */
  function SplitDockerDomain(name: string): (string, string) {
    var i := IndexOf(name, '/');
    var (domain, remainder) :=
      if i < 0 || !LooksLikeDomain(name[..i]) then (DefaultDomain, name) else (name[..i], name[i + 1..]);
    var domain' := if domain == LegacyDefaultDomain then DefaultDomain else domain;
    var remainder' := if domain' == DefaultDomain && '/' !in remainder then OfficialRepoPrefix + remainder else remainder;
    (domain', remainder')
  }

  /** `reference.ParseNormalizedNamed`. */
  function ParseNormalizedNamed(s: string): (p: Result<Named, RefError>)
    ensures p.Failure? ==> p.error == InvalidReference(s)
  {
    var (nameTag, digest) := SplitDigest(s);
    var (name, tag) := SplitTag(nameTag);
    var (domain, path) := SplitDockerDomain(name);
    if digest.Some? && !ValidDigest(digest.value) then Failure(InvalidReference(s))
    else if tag.Some? && !ValidTag(tag.value) then Failure(InvalidReference(s))
    else if !ValidPath(path) then Failure(InvalidReference(s))
    else Success(Named(domain, path, tag, digest))
  }

  /** `reference.TrimNamed`: the name without tag and digest. */
  function TrimNamed(r: Named): (t: Named)
    ensures t.tag.None? && t.digest.None?
    ensures RefString(t) == NameString(r)
  {
    Named(r.domain, r.path, None, None)
  }

  /** `reference.WithDigest`: attaches a digest, which must be valid. */
  function WithDigest(r: Named, digest: string): (w: Result<Named, RefError>)
    ensures w.Success? <==> ValidDigest(digest)
    ensures w.Success? ==> RefString(w.value) == NameString(r) + TagSuffix(r.tag) + "@" + digest
  {
    if ValidDigest(digest) then Success(r.(digest := Some(digest)))
    else Failure(InvalidReference(digest))
  }

  /** `reference.TagNameOnly`: a reference with neither tag nor digest gets `:latest`. */
  function TagNameOnly(r: Named): (t: Named)
    ensures TrimNamed(t) == TrimNamed(r) && t.digest == r.digest
    ensures t.tag.Some? || t.digest.Some?
    ensures r.tag.Some? || r.digest.Some? ==> t == r
  {
    if r.tag.None? && r.digest.None? then r.(tag := Some(DefaultTag)) else r
  }

  /**
   * `imageNamesWithDigestOrTag`: a reference that is both tagged and
   * digested is rebuilt as `name@digest`; any other reference is returned
   * exactly as it was written.
   */
  function ImageNamesWithDigestOrTag(imageName: string): (n: Result<string, RefError>)
    ensures ParseNormalizedNamed(imageName).Failure? ==> n == Failure(ParseNormalizedNamed(imageName).error)
    ensures n.Success? ==> ParseNormalizedNamed(imageName).Success?
  {
    match ParseNormalizedNamed(imageName)
    case Failure(e) => Failure(e)
    case Success(r) =>
      if r.tag.Some? && r.digest.Some? then
        match WithDigest(TrimNamed(r), r.digest.value)
        case Failure(e) => Failure(e)
        case Success(canonical) => Success(RefString(canonical))
      else Success(imageName)
  }

  /**
   * `docker.ParseReference` on a `//`-prefixed string: parse, default the
   * tag, and refuse a reference with both a tag and a digest.
   */
  function DockerParseReference(refString: string): (d: Result<Named, RefError>)
    ensures !HasPrefix(refString, "//") ==> d == Failure(MissingSlashes(refString))
    ensures d.Success? ==> d.value.tag.Some? != d.value.digest.Some?
  {
    if !HasPrefix(refString, "//") then Failure(MissingSlashes(refString))
    else match ParseNormalizedNamed(refString[2..])
      case Failure(e) => Failure(e)
      case Success(r) => DockerChecked(refString, r)
  }

  /** What `docker.ParseReference` keeps of a parsed name: `:latest` is added, and exactly one of tag and digest must remain. */
  function DockerChecked(refString: string, r: Named): (d: Result<Named, RefError>)
    ensures d.Success? ==> d.value.tag.Some? != d.value.digest.Some?
  {
    var t := TagNameOnly(r);
    if t.tag.None? && t.digest.None? then Failure(NameOnly(refString))
    else if t.tag.Some? && t.digest.Some? then Failure(TagAndDigest(refString))
    else Success(t)
  }

  /**
   * The string `transform` matches mapping keys against:
   * `ref.DockerReference().String()` of the collapsed name.
   */
  function ReferenceString(image: string): (r: Result<string, RefError>)
    ensures ParseNormalizedNamed(image).Failure? ==> r == Failure(ParseNormalizedNamed(image).error)
    ensures r.Success? ==> ParseNormalizedNamed(image).Success?
  {
    match ImageNamesWithDigestOrTag(image)
    case Failure(e) => Failure(e)
    case Success(normalized) =>
      match DockerParseReference("//" + normalized)
      case Failure(e) => Failure(e)
      case Success(ref) => Success(RefString(ref))
  }

  /** The reference string, stated on the parsed reference. */
  function CanonicalString(image: string): Result<string, RefError> {
    match ParseNormalizedNamed(image)
    case Failure(e) => Failure(e)
    case Success(r) => Success(RefString(Canonical(r)))
  }

  /** The reference `transform` works with: digest wins over tag, and `latest` when neither is given. */
  function Canonical(r: Named): Named {
    if r.digest.Some? then r.(tag := None)
    else if r.tag.None? then r.(tag := Some(DefaultTag))
    else r
  }

  // ---------------------------------------------------------------------
  // What the parser produces

  lemma DefaultDomainFacts()
    ensures ValidDomain(DefaultDomain)
    ensures '/' in OfficialRepoPrefix
  {
    assert DefaultDomain[6] == '.';
    assert |DefaultDomain| != |LegacyDefaultDomain|;
    assert OfficialRepoPrefix[7] == '/';
  }

  lemma SplitDockerDomainValid(name: string)
    requires '@' !in name
    ensures var (domain, path) := SplitDockerDomain(name);
      ValidDomain(domain) && (domain == DefaultDomain ==> '/' in path)
  {
    DefaultDomainFacts();
    var i := IndexOf(name, '/');
    if i >= 0 {
      assert forall c :: c in name[..i] ==> c in name;
    }
  }

  lemma SplitTagParts(nameTag: string)
    ensures var (name, tag) := SplitTag(nameTag);
      && (forall c :: c in name ==> c in nameTag)
      && (tag.Some? ==> '/' !in tag.value && ':' !in tag.value && forall c :: c in tag.value ==> c in nameTag)
  {
  }

  /** Every reference the parser returns is well formed. */
  lemma ParseWellFormed(s: string)
    requires ParseNormalizedNamed(s).Success?
    ensures WellFormed(ParseNormalizedNamed(s).value)
  {
    var (nameTag, digest) := SplitDigest(s);
    assert '@' !in nameTag;
    SplitTagParts(nameTag);
    var (name, tag) := SplitTag(nameTag);
    SplitDockerDomainValid(name);
  }

  // ---------------------------------------------------------------------
  // Round trip of the grammar

  lemma NameTagHasNoAt(r: Named)
    requires WellFormed(r)
    ensures '@' !in NameString(r) + TagSuffix(r.tag)
  {
  }

  lemma SplitDigestOf(r: Named)
    requires WellFormed(r)
    ensures SplitDigest(RefString(r)) == (NameString(r) + TagSuffix(r.tag), r.digest)
  {
    var nt := NameString(r) + TagSuffix(r.tag);
    var s := RefString(r);
    NameTagHasNoAt(r);
    if r.digest.Some? {
      assert s == nt + ("@" + r.digest.value);
      assert s[|nt|] == '@' && s[..|nt|] == nt;
      IndexOfUnique(s, '@', |nt|);
      assert s[|nt| + 1..] == r.digest.value;
    } else {
      assert s == nt;
    }
  }

  lemma SplitTagOfTagged(r: Named)
    requires WellFormed(r) && r.tag.Some?
    ensures SplitTag(NameString(r) + TagSuffix(r.tag)) == (NameString(r), r.tag)
  {
    var name, t := NameString(r), r.tag.value;
    var nt := name + TagSuffix(r.tag);
    assert nt == name + [':'] + t;
    assert nt[|name|] == ':' && nt[|name| + 1..] == t && nt[..|name|] == name;
    LastIndexUnique(nt, ':', |name|);
  }

  lemma SplitTagOfUntagged(r: Named)
    requires WellFormed(r)
    ensures SplitTag(NameString(r)) == (NameString(r), None)
  {
    var name := NameString(r);
    var j := LastIndex(name, ':');
    if j >= 0 {
      assert j < |r.domain| by {
        forall k | |r.domain| < k < |name| ensures name[k] != ':' {
          assert name[k] == r.path[k - |r.domain| - 1];
        }
      }
      assert name[j + 1..][|r.domain| - j - 1] == '/';
    }
  }

  lemma SplitTagOf(r: Named)
    requires WellFormed(r)
    ensures SplitTag(NameString(r) + TagSuffix(r.tag)) == (NameString(r), r.tag)
  {
    if r.tag.Some? {
      SplitTagOfTagged(r);
    } else {
      assert NameString(r) + TagSuffix(r.tag) == NameString(r);
      SplitTagOfUntagged(r);
    }
  }

  lemma SplitDockerDomainOf(r: Named)
    requires WellFormed(r)
    ensures SplitDockerDomain(NameString(r)) == (r.domain, r.path)
  {
    var name := NameString(r);
    assert name[|r.domain|] == '/' && name[..|r.domain|] == r.domain;
    IndexOfUnique(name, '/', |r.domain|);
    assert name[|r.domain| + 1..] == r.path;
  }

  /** Parsing the string form of a well-formed reference gives it back. */
  lemma ParseRefString(r: Named)
    requires WellFormed(r)
    ensures ParseNormalizedNamed(RefString(r)) == Success(r)
  {
    SplitDigestOf(r);
    SplitTagOf(r);
    SplitDockerDomainOf(r);
  }

  // ---------------------------------------------------------------------
  // Properties of the collapse and of the reference string

  /** `imageNamesWithDigestOrTag` fails exactly when parsing fails. */
  lemma CollapseFailsIffParseFails(image: string)
    ensures ImageNamesWithDigestOrTag(image).Failure? <==> ParseNormalizedNamed(image).Failure?
  {
  }

  /**
   * `imageNamesWithDigestOrTag` returns its input unless the reference is
   * tagged and digested; then it returns `name@digest`, which parses to the
   * same reference without its tag.
   */
  lemma CollapseSpec(image: string, r: Named)
    requires ParseNormalizedNamed(image) == Success(r)
    ensures !(r.tag.Some? && r.digest.Some?) ==> ImageNamesWithDigestOrTag(image) == Success(image)
    ensures r.tag.Some? && r.digest.Some? ==>
      && ImageNamesWithDigestOrTag(image) == Success(NameString(r) + "@" + r.digest.value)
      && ParseNormalizedNamed(NameString(r) + "@" + r.digest.value) == Success(r.(tag := None))
  {
    if r.tag.Some? && r.digest.Some? {
      var c := r.(tag := None);
      assert TrimNamed(r).(digest := Some(r.digest.value)) == c;
      assert RefString(c) == NameString(r) + "@" + r.digest.value by {
        assert TagSuffix(c.tag) == [];
        assert NameString(c) == NameString(r);
      }
      ParseWellFormed(image);
      ParseRefString(c);
    }
  }

  /** What `docker.ParseReference` makes of a `//`-prefixed string. */
  lemma DockerParseOf(n: string, r: Named)
    requires ParseNormalizedNamed(n) == Success(r)
    ensures r.tag.Some? && r.digest.Some? ==> DockerParseReference("//" + n) == Failure(TagAndDigest("//" + n))
    ensures !(r.tag.Some? && r.digest.Some?) ==> DockerParseReference("//" + n) == Success(TagNameOnly(r))
  {
    SlashesPrefix(n);
    DockerParseSlashed("//" + n, r);
  }

  /** Prepending `//` gives a string that starts with `//` and whose rest is the original. */
  lemma SlashesPrefix(n: string)
    ensures HasPrefix("//" + n, "//") && ("//" + n)[2..] == n
  {
  }

  /** `docker.ParseReference` on a string that starts with `//` and whose rest parses. */
  lemma DockerParseSlashed(s: string, r: Named)
    requires HasPrefix(s, "//")
    requires ParseNormalizedNamed(s[2..]) == Success(r)
    ensures r.tag.Some? && r.digest.Some? ==> DockerParseReference(s) == Failure(TagAndDigest(s))
    ensures !(r.tag.Some? && r.digest.Some?) ==> DockerParseReference(s) == Success(TagNameOnly(r))
  {
    DockerParseChecks(s, r);
    DockerCheckedOf(s, r);
  }

  /** Past the `//` prefix and a successful parse, only the tag and digest checks remain. */
  lemma DockerParseChecks(s: string, r: Named)
    requires HasPrefix(s, "//")
    requires ParseNormalizedNamed(s[2..]) == Success(r)
    ensures DockerParseReference(s) == DockerChecked(s, r)
  {
  }

  /** A parsed name keeps exactly one of tag and digest, `latest` filling in for neither. */
  lemma DockerCheckedOf(s: string, r: Named)
    ensures r.tag.Some? && r.digest.Some? ==> DockerChecked(s, r) == Failure(TagAndDigest(s))
    ensures !(r.tag.Some? && r.digest.Some?) ==> DockerChecked(s, r) == Success(TagNameOnly(r))
  {
  }

  /** The reference string fails exactly when the image does not parse. */
  lemma ReferenceStringFailsIffParseFails(image: string)
    ensures ReferenceString(image).Failure? <==> ParseNormalizedNamed(image).Failure?
  {
    var p := ParseNormalizedNamed(image);
    if p.Success? {
      ReferenceStringSpec(image, p.value);
    }
  }

  /**
   * The reference string is the string form of the canonical reference:
   * the digest replaces the tag, and `latest` is added when neither is present.
   */
  lemma ReferenceStringSpec(image: string, r: Named)
    requires ParseNormalizedNamed(image) == Success(r)
    ensures ReferenceString(image) == Success(RefString(Canonical(r)))
  {
    CollapseSpec(image, r);
    var n := ImageNamesWithDigestOrTag(image).value;
    var r' := if r.tag.Some? && r.digest.Some? then r.(tag := None) else r;
    assert ParseNormalizedNamed(n) == Success(r');
    DockerParseOf(n, r');
    assert TagNameOnly(r') == Canonical(r);
    assert DockerParseReference("//" + n) == Success(Canonical(r));
  }

  /** The two-step computation of the reference string agrees with its statement on the parsed reference. */
  lemma ReferenceStringIsCanonical(image: string)
    ensures ReferenceString(image) == CanonicalString(image)
  {
    var p := ParseNormalizedNamed(image);
    if p.Success? {
      ReferenceStringSpec(image, p.value);
    }
  }

  /** The canonical reference is well formed and already canonical. */
  lemma CanonicalIsFixedPoint(r: Named)
    requires WellFormed(r)
    ensures WellFormed(Canonical(r))
    ensures Canonical(Canonical(r)) == Canonical(r)
  {
    assert ValidTag(DefaultTag) by {
      assert DefaultTag == ['l', 'a', 't', 'e', 's', 't'];
    }
  }

  /** Normalising a reference string that is already normalised changes nothing. */
  lemma ReferenceStringIdempotent(image: string, refStr: string)
    requires ReferenceString(image) == Success(refStr)
    ensures ReferenceString(refStr) == Success(refStr)
  {
    ReferenceStringFailsIffParseFails(image);
    var r := ParseNormalizedNamed(image).value;
    ReferenceStringSpec(image, r);
    ParseWellFormed(image);
    var c := Canonical(r);
    CanonicalIsFixedPoint(r);
    ParseRefString(c);
    ReferenceStringSpec(refStr, c);
  }

  /** The reference string never carries both a tag and a digest, and always one of them. */
  lemma ReferenceStringTaggedXorDigested(image: string, refStr: string)
    requires ReferenceString(image) == Success(refStr)
    ensures ParseNormalizedNamed(refStr).Success?
    ensures var c := ParseNormalizedNamed(refStr).value; c.tag.Some? != c.digest.Some?
  {
    ReferenceStringFailsIffParseFails(image);
    var r := ParseNormalizedNamed(image).value;
    ReferenceStringSpec(image, r);
    ParseWellFormed(image);
    CanonicalIsFixedPoint(r);
    ParseRefString(Canonical(r));
  }
}
