/** The `kim builder login` command (pkg/cli/command/builder/login/login.go): how the credentials are
    gathered from flags, standard input and the terminal, and how the server argument is rewritten
    before the docker config secret is updated. */
module LoginCommand {
  import opened Outcomes
  import opened Refs
  import opened Kube
  import Text
  import BuilderLogin

  const ExclusiveMessage: string := "--password and --password-stdin are mutually exclusive"
  const StdinUsernameMessage: string := "must provide --username with --password-stdin"
  const NonTtyMessage: string := "cannot perform interactive login from non tty device"
  const PasswordRequiredMessage: string := "password is required"

  /** What the process environment answers: all of standard input, whether stdout is a terminal, the
      username line, saving the terminal state, and the password line. */
  datatype Console = Console(stdin: Result<string>, isTerminal: bool, usernameLine: Result<string>,
                             saveState: Option<Error>, passwordLine: Result<string>)

  /** A password read from standard input loses one trailing "\n", then one trailing "\r". */
  function StdinPassword(input: string): (r: string)
    ensures Text.HasSuffix(input, "\r\n") ==> r + "\r\n" == input
    ensures !Text.HasSuffix(input, "\n") && !Text.HasSuffix(input, "\r") ==> r == input
  {
    Text.TrimSuffix(Text.TrimSuffix(input, "\n"), "\r")
  }

  /** Only one line ending is removed: a password ending in two newlines keeps one. */
  lemma StdinPasswordTrimsOnce()
    ensures StdinPassword("pw\n\n") == "pw\n" && StdinPassword("pw\r\n") == "pw" && StdinPassword("pw\r") == "pw"
  {
    assert Text.HasSuffix("pw\n\n", "\n");
    assert !Text.HasSuffix("pw\n", "\r");
    assert Text.HasSuffix("pw\r\n", "\n");
    assert Text.HasSuffix("pw\r", "\r");
    assert !Text.HasSuffix("pw\r", "\n");
  }

  function IsDockerHub(u: Url): bool {
    Text.HasSuffix(u.host, "docker.io")
  }

  /** The credential key for the server argument: Docker Hub hosts, including any host ending in
      "docker.io", become the full https://index.docker.io URL (path /v1/ when none is given); any
      other server is keyed by its host alone. */
  function ServerKey(p: Parsers, arg: string): (r: Result<string>)
    ensures p.parseSchemelessUrl(arg).Err? && p.parseUrl(arg).Err? ==> r == Err(p.parseUrl(arg).error)
    ensures p.parseSchemelessUrl(arg).Ok? ==> r.Ok?
  {
    var parsed := if p.parseSchemelessUrl(arg).Ok? then p.parseSchemelessUrl(arg) else p.parseUrl(arg);
    match parsed
    case Err(e) => Err(e)
    case Ok(u) =>
      if IsDockerHub(u) then Ok(UrlString(Url("https", "index.docker.io", if u.path == "" then "/v1/" else u.path)))
      else Ok(u.host)
  }

  /** Docker Hub servers are keyed by an https URL on index.docker.io, /v1/ when no path was given;
      other servers by their host. */
  lemma ServerKeyCases(p: Parsers, arg: string, u: Url)
    requires p.parseSchemelessUrl(arg) == Ok(u)
    ensures IsDockerHub(u) && u.path == "" ==> ServerKey(p, arg) == Ok("https://index.docker.io/v1/")
    ensures IsDockerHub(u) && |u.path| > 0 && u.path[0] == '/' ==> ServerKey(p, arg) == Ok("https://index.docker.io" + u.path)
    ensures !IsDockerHub(u) ==> ServerKey(p, arg) == Ok(u.host)
  {
    if IsDockerHub(u) {
      var path := if u.path == "" then "/v1/" else u.path;
      if path[0] == '/' {
        calc {
          UrlString(Url("https", "index.docker.io", path));
          "https" + ":" + ("//" + "index.docker.io") + "" + path;
          { assert "https" + ":" + ("//" + "index.docker.io") + "" == "https://index.docker.io"; }
          "https://index.docker.io" + path;
        }
        if u.path == "" {
          assert "https://index.docker.io" + "/v1/" == "https://index.docker.io/v1/";
        }
      }
    }
  }

  class CommandSpec {
    var password: string
    const passwordStdin: bool
    var username: string

    constructor (password: string, passwordStdin: bool, username: string)
      ensures this.password == password && this.passwordStdin == passwordStdin && this.username == username
    {
      this.password := password;
      this.passwordStdin := passwordStdin;
      this.username := username;
    }

    /** The credential-gathering part of Run: on success the password is non-empty; the username is
        the one given, or the prompted one trimmed of spaces, which may be empty. */
    method Credentials(console: Console) returns (err: Option<Error>)
      modifies this`password, this`username
      ensures err.None? ==> password != ""
      ensures passwordStdin && old(password) != "" ==> err == Some(Message(ExclusiveMessage))
      ensures passwordStdin && old(password) == "" && old(username) == "" ==> err == Some(Message(StdinUsernameMessage))
      ensures passwordStdin && old(password) == "" && old(username) != "" && console.stdin.Err? ==> err == Some(console.stdin.error)
      // A password from standard input that survives trimming is used as it is, with no prompt.
      ensures passwordStdin && old(password) == "" && old(username) != "" && console.stdin.Ok?
              && StdinPassword(console.stdin.value) != "" ==>
        err.None? && password == StdinPassword(console.stdin.value) && username == old(username)
      // Given on the command line, both are used as they are.
      ensures !passwordStdin && old(password) != "" && old(username) != "" ==>
        err.None? && password == old(password) && username == old(username)
      // Anything still missing needs a terminal; nothing is read from it otherwise.
      ensures !passwordStdin && (old(username) == "" || old(password) == "") && !console.isTerminal ==>
        err == Some(Message(NonTtyMessage))
      // A prompted username or password is trimmed of surrounding white space.
      ensures err.None? && old(username) == "" ==> console.usernameLine.Ok? && username == Text.TrimSpace(console.usernameLine.value)
      ensures err.None? && !passwordStdin && old(password) == "" ==>
        console.passwordLine.Ok? && password == Text.TrimSpace(console.passwordLine.value)
      ensures !passwordStdin && old(password) == "" && old(username) != "" && console.isTerminal && console.saveState.None?
              && console.passwordLine.Ok? && Text.TrimSpace(console.passwordLine.value) == "" ==>
        err == Some(Message(PasswordRequiredMessage))
    {
      if passwordStdin {
        if password != "" {
          return Some(Message(ExclusiveMessage));
        }
        if username == "" {
          return Some(Message(StdinUsernameMessage));
        }
        if console.stdin.Err? {
          return Some(console.stdin.error);
        }
        password := StdinPassword(console.stdin.value);
      }
      if (username == "" || password == "") && !console.isTerminal {
        return Some(Message(NonTtyMessage));
      }
      if username == "" {
        if console.usernameLine.Err? {
          return Some(console.usernameLine.error);
        }
        username := Text.TrimSpace(console.usernameLine.value);
      }
      if password == "" {
        if console.saveState.Some? {
          return console.saveState;
        }
        if console.passwordLine.Err? {
          return Some(console.passwordLine.error);
        }
        password := Text.TrimSpace(console.passwordLine.value);
        if password == "" {
          return Some(Message(PasswordRequiredMessage));
        }
      }
      err := None;
    }

    /** Run: the client configuration error comes first; then the credentials; then the server key;
        then the login itself. `server` is the key handed to the login, if it is reached. */
    method Run(k: Cluster, iface: Option<Error>, console: Console, p: Parsers, arg: string)
      returns (err: Option<Error>, ghost server: Option<string>)
      requires k.Valid()
      modifies this`password, this`username, k.secrets`objects
      ensures k.Valid()
      ensures iface.Some? ==> err == iface && server.None?
      ensures server.None? ==> err.Some? && k.secrets.objects == old(k.secrets.objects)
      ensures server.Some? ==> ServerKey(p, arg) == Ok(server.value) && password != ""
      ensures ServerKey(p, arg).Err? ==> server.None?
      ensures err.None? ==> server.Some? && BuilderLogin.HasCredentials(k.secrets.objects, k.namespace, server.value, AuthEntry(username, password))
    {
      server := None;
      if iface.Some? {
        return iface, server;
      }
      err := Credentials(console);
      if err.Some? {
        return err, server;
      }
      var key := ServerKey(p, arg);
      if key.Err? {
        return Some(key.error), server;
      }
      server := Some(key.value);
      var login := new BuilderLogin.Login(password, passwordStdin, username);
      err := login.Do(k, key.value);
    }
  }
}
