/** The agent's configuration and its image defaulting (pkg/server/config.go). */
module ServerConfig {
  import opened Outcomes
  import opened Refs
  import Text

  const DefaultAgentPort: int := 1233
  const DefaultAgentImage: string := "docker.io/rancher/kim"
  const DefaultBuildkitImage: string := "docker.io/moby/buildkit:v0.8.1"

  /** The version tag kim appends to its default image: every '+' of the build version becomes '-'. */
  function VersionTag(version: string): (t: string)
    ensures |t| == |version| && '+' !in t
    ensures forall i | 0 <= i < |version| && version[i] != '+' :: t[i] == version[i]
  {
    Text.ReplaceChar(version, '+', '-')
  }

  /** The image GetAgentImage reports for the (already defaulted) stored value, with its error. */
  function AgentImage(p: Parsers, stored: string, version: string): (r: (string, Option<Error>))
    ensures stored != DefaultAgentImage ==> r == (stored, None)
    ensures r.1.Some? ==> r.0 == stored
    ensures stored == DefaultAgentImage && p.parseAnyReference(stored).Err? ==>
      r == (stored, Some(Wrapped("failed to parse agent image", p.parseAnyReference(stored).error)))
  {
    if stored != DefaultAgentImage then (stored, None)
    else
      match p.parseAnyReference(stored)
      case Err(e) => (stored, Some(Wrapped("failed to parse agent image", e)))
      case Ok(IdRef(_)) => (stored, None)
      case Ok(NamedRef(named)) =>
        if !IsNameOnly(named) then (stored, None)
        else
          match WithTag(named, VersionTag(version))
          case Err(e) => (stored, Some(Wrapped("failed to append version tag", e)))
          case Ok(tagged) => (FamiliarString(tagged), None)
  }

  /** When the default image parses as a bare name and the version is a valid tag, the reported image is
      the familiar name tagged with the version, '+' replaced by '-'; with an invalid tag it is the stored
      image and a wrapped error. */
  lemma AgentImageTagged(p: Parsers, version: string, named: Named)
    requires p.parseAnyReference(DefaultAgentImage) == Ok(NamedRef(named)) && IsNameOnly(named)
    ensures ValidTag(VersionTag(version)) ==>
      AgentImage(p, DefaultAgentImage, version) == (FamiliarName(named) + ":" + VersionTag(version), None)
    ensures !ValidTag(VersionTag(version)) ==>
      AgentImage(p, DefaultAgentImage, version).0 == DefaultAgentImage
      && AgentImage(p, DefaultAgentImage, version).1.Some?
  {
    if ValidTag(VersionTag(version)) {
      var tagged := WithTag(named, VersionTag(version)).value;
      FamiliarTagged(tagged, VersionTag(version));
      assert FamiliarName(tagged) == FamiliarName(named);
    }
  }

  class Config {
    var agentImage: string
    var agentPort: int
    var buildkitImage: string
    var buildkitNamespace: string
    var buildkitPort: int
    var buildkitSocket: string
    var containerdSocket: string
    /** Read and written by the installer; the field is not declared in config.go itself. */
    var containerdVolume: string

    constructor (agentImage: string, agentPort: int, buildkitImage: string, buildkitNamespace: string,
                 buildkitPort: int, buildkitSocket: string, containerdSocket: string, containerdVolume: string)
      ensures this.agentImage == agentImage && this.agentPort == agentPort && this.buildkitImage == buildkitImage
      ensures this.buildkitNamespace == buildkitNamespace && this.buildkitPort == buildkitPort
      ensures this.buildkitSocket == buildkitSocket && this.containerdSocket == containerdSocket
      ensures this.containerdVolume == containerdVolume
    {
      this.agentImage := agentImage;
      this.agentPort := agentPort;
      this.buildkitImage := buildkitImage;
      this.buildkitNamespace := buildkitNamespace;
      this.buildkitPort := buildkitPort;
      this.buildkitSocket := buildkitSocket;
      this.containerdSocket := containerdSocket;
      this.containerdVolume := containerdVolume;
    }

    /** GetAgentImage (config.go:41-61): an empty AgentImage is first set to the default. */
    method GetAgentImage(p: Parsers, version: string) returns (image: string, err: Option<Error>)
      modifies this`agentImage
      ensures agentImage == if old(agentImage) == "" then DefaultAgentImage else old(agentImage)
      ensures (image, err) == AgentImage(p, agentImage, version)
      ensures old(agentImage) != "" && old(agentImage) != DefaultAgentImage ==> image == old(agentImage) && err.None?
    {
      if agentImage == "" {
        agentImage := DefaultAgentImage;
      }
      if agentImage == DefaultAgentImage {
        var ref := p.parseAnyReference(agentImage);
        if ref.Err? {
          return agentImage, Some(Wrapped("failed to parse agent image", ref.error));
        }
        if ref.value.NamedRef? {
          var named := ref.value.named;
          if IsNameOnly(named) {
            var tagged := WithTag(named, VersionTag(version));
            if tagged.Err? {
              return agentImage, Some(Wrapped("failed to append version tag", tagged.error));
            }
            return FamiliarString(tagged.value), None;
          }
        }
      }
      return agentImage, None;
    }

    /** GetBuildkitImage (config.go:63-68): never fails. */
    method GetBuildkitImage() returns (image: string, err: Option<Error>)
      modifies this`buildkitImage
      ensures buildkitImage == if old(buildkitImage) == "" then DefaultBuildkitImage else old(buildkitImage)
      ensures image == buildkitImage && err.None?
    {
      if buildkitImage == "" {
        buildkitImage := DefaultBuildkitImage;
      }
      return buildkitImage, None;
    }
  }
}
