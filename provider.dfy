/** The docker credential helper provider (pkg/credential/provider/provider.go): registry credentials
    looked up through a `docker-credential-<name>` program. Finding the program on the PATH and running
    it are inputs. */
module CredentialProvider {
  import opened Outcomes
  import opened Refs
  import Text

  const DefaultRepositoryUrl: string := "https://index.docker.io/v1/"
  const HelperPrefix: string := "docker-credential-"

  /** The program a helper of this name runs. */
  function HelperProgram(name: string): string { HelperPrefix + name }

  /** imageToRepositoryURL (provider.go:48-58): Docker Hub's legacy endpoint for an image that does not
      parse or lives on docker.io, otherwise the https URL of the image's registry. */
  function ImageToRepositoryUrl(p: Parsers, image: string): (r: string)
    ensures p.parseNormalizedNamed(image).Err? ==> r == DefaultRepositoryUrl
    ensures p.parseNormalizedNamed(image).Ok? && p.parseNormalizedNamed(image).value.domain == DefaultDomain ==>
      r == DefaultRepositoryUrl
    ensures p.parseNormalizedNamed(image).Ok? && p.parseNormalizedNamed(image).value.domain != DefaultDomain ==>
      r == "https://" + p.parseNormalizedNamed(image).value.domain
  {
    var parsed := p.parseNormalizedNamed(image);
    if parsed.Err? then DefaultRepositoryUrl
    else if parsed.value.domain == DefaultDomain then DefaultRepositoryUrl
    else "https://" + parsed.value.domain
  }

  /** Every repository URL is an https URL, and two images of the same registry share one. */
  lemma RepositoryUrlIsHttps(p: Parsers, image: string, other: string)
    ensures Text.HasPrefix(ImageToRepositoryUrl(p, image), "https://")
    ensures p.parseNormalizedNamed(image).Ok? && p.parseNormalizedNamed(other).Ok?
            && p.parseNormalizedNamed(image).value.domain == p.parseNormalizedNamed(other).value.domain ==>
      ImageToRepositoryUrl(p, image) == ImageToRepositoryUrl(p, other)
  {
    var r := ImageToRepositoryUrl(p, image);
    if r == DefaultRepositoryUrl {
      assert DefaultRepositoryUrl[..8] == "https://";
    } else {
      assert r[..8] == "https://";
    }
  }

  /** What a helper returns for a server. */
  datatype Credentials = Credentials(serverUrl: string, username: string, secret: string)

  /** An entry of a credentialprovider.DockerConfig, without the back-pointer to its provider. */
  datatype DockerConfigEntry = DockerConfigEntry(username: string, password: string)

  class DockerCredentialHelper {
    const name: string
    /** Whether the `once` guard has fired, and the answer it stored. */
    var probed: bool
    var enabled: bool

    constructor (name: string)
      ensures this.name == name && !probed && !enabled
    {
      this.name := name;
      probed, enabled := false, false;
    }

    /** Enabled (provider.go:23-29): the helper program is looked up on the first call only, and every
        call answers what that lookup found. `onPath` says whether a program is found at the time of
        this call. */
    method Enabled(onPath: string -> bool) returns (b: bool)
      modifies this
      ensures probed && b == enabled
      ensures !old(probed) ==> b == onPath(HelperProgram(name))
      ensures old(probed) ==> b == old(enabled)
    {
      if !probed {
        enabled := onPath(HelperProgram(name));
        probed := true;
      }
      return enabled;
    }

    /** Provide (provider.go:31-44): one entry for the image, holding the helper's username and secret,
        when the helper answers with credentials for the image's repository URL; no entries otherwise.
        `helper` stands for running a program on a server URL. */
    function Provide(p: Parsers, image: string, helper: (string, string) -> Result<Option<Credentials>>): (config: map<string, DockerConfigEntry>)
      ensures var answer := helper(HelperProgram(name), ImageToRepositoryUrl(p, image));
        && (image in config <==> answer.Ok? && answer.value.Some?)
        && (image in config ==> config[image] == DockerConfigEntry(answer.value.value.username, answer.value.value.secret))
      ensures forall k | k in config :: k == image
    {
      var answer := helper(HelperProgram(name), ImageToRepositoryUrl(p, image));
      if answer.Ok? && answer.value.Some? then
        map[image := DockerConfigEntry(answer.value.value.username, answer.value.value.secret)]
      else map[]
    }
  }
}
