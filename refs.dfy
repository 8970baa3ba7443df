/** Image references and URLs as the modelled code sees them once parsed.

    Parsing itself (reference.ParseNormalizedNamed, reference.ParseAnyReference, url.Parse,
    ParseSchemelessURL) and the path helpers filepath.Base and filepath.Dir are library code outside
    the model: they are the fields of a `Parsers` value handed to every operation that needs them.
    What the modelled code does with a parsed value (tag defaulting, tagging, rendering) is defined
    here, following docker/distribution's reference package. */
module Refs {
  import opened Outcomes
  import Text

  /** A normalised named reference: domain, repository path, optional tag and digest. */
  datatype Named = Named(domain: string, path: string, tag: Option<string>, digest: Option<string>)

  /** What reference.ParseAnyReference yields: a name, or a bare image ID. */
  datatype AnyRef = NamedRef(named: Named) | IdRef(id: string)

  /** A parsed URL, reduced to the parts the modelled code reads or writes. */
  datatype Url = Url(scheme: string, host: string, path: string)

  datatype Parsers = Parsers(
    parseNormalizedNamed: string -> Result<Named>,
    parseAnyReference: string -> Result<AnyRef>,
    parseUrl: string -> Result<Url>,
    parseSchemelessUrl: string -> Result<Url>,
    base: string -> string,
    dir: string -> string)

  const DefaultDomain: string := "docker.io"
  const OfficialRepoName: string := "library"
  const DefaultTag: string := "latest"

  /** Named.Name(): domain and path. */
  function Name(n: Named): string {
    n.domain + "/" + n.path
  }

  function Suffix(n: Named): string {
    (if n.tag.Some? then ":" + n.tag.value else "") + (if n.digest.Some? then "@" + n.digest.value else "")
  }

  /** Named.String(): the fully qualified form. */
  function RefString(n: Named): (r: string)
    ensures Text.HasPrefix(r, n.domain + "/")
  {
    Name(n) + Suffix(n)
  }

  /** reference.IsNameOnly */
  predicate IsNameOnly(n: Named) {
    n.tag.None? && n.digest.None?
  }

  /** reference.TagNameOnly: a reference with neither tag nor digest gets the tag "latest". */
  function TagNameOnly(n: Named): (r: Named)
    ensures !IsNameOnly(r)
    ensures r.domain == n.domain && r.path == n.path && r.digest == n.digest
    ensures n.tag.Some? ==> r.tag == n.tag
  {
    if IsNameOnly(n) then n.(tag := Some(DefaultTag)) else n
  }

  /** Defaulting the tag twice is the same as defaulting it once, and a reference that is not
      name-only is left alone. */
  lemma TagNameOnlyIdempotent(n: Named)
    ensures TagNameOnly(TagNameOnly(n)) == TagNameOnly(n)
    ensures !IsNameOnly(n) ==> TagNameOnly(n) == n
  {
  }

  predicate WordChar(c: char) {
    'a' <= c <= 'z' || 'A' <= c <= 'Z' || '0' <= c <= '9' || c == '_'
  }

  /** The tag grammar `[\w][\w.-]{0,127}`. */
  predicate ValidTag(t: string) {
    1 <= |t| <= 128 && WordChar(t[0]) && forall i | 1 <= i < |t| :: WordChar(t[i]) || t[i] == '.' || t[i] == '-'
  }

  /** reference.WithTag: fails on a malformed tag, otherwise sets the tag and keeps any digest. */
  function WithTag(n: Named, t: string): (r: Result<Named>)
    ensures r.Ok? <==> ValidTag(t)
    ensures r.Ok? ==> r.value.tag == Some(t) && r.value.domain == n.domain && r.value.path == n.path
                      && r.value.digest == n.digest
  {
    if ValidTag(t) then Ok(n.(tag := Some(t))) else Err(Message("invalid tag format"))
  }

  /** The familiar name: the default domain is dropped, and so is "library/" in front of a one-part
      official repository name. */
  function FamiliarName(n: Named): string {
    if n.domain != DefaultDomain then Name(n)
    else
      var parts := Text.Split(n.path, "/");
      if |parts| == 2 && parts[0] == OfficialRepoName then parts[1] else n.path
  }

  /** reference.FamiliarString */
  function FamiliarString(n: Named): string {
    FamiliarName(n) + Suffix(n)
  }

  /** A tagged reference without digest renders as its familiar name, ':' and the tag; off the
      default domain the familiar form is the full form. */
  lemma FamiliarTagged(n: Named, t: string)
    requires n.tag == Some(t) && n.digest.None?
    ensures FamiliarString(n) == FamiliarName(n) + ":" + t
    ensures n.domain != DefaultDomain ==> FamiliarString(n) == RefString(n)
  {
  }

  /** url.URL.String() for the parts kept. */
  function UrlString(u: Url): (r: string)
    ensures u.scheme != "" ==> Text.HasPrefix(r, u.scheme + ":")
    ensures Text.HasSuffix(r, u.path)
  {
    (if u.scheme != "" then u.scheme + ":" else "")
    + (if u.host != "" then "//" + u.host else "")
    + (if u.host != "" && u.path != "" && u.path[0] != '/' then "/" else "")
    + u.path
  }
}
