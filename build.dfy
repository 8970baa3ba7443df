/** The client's image build (pkg/client/image/build.go): how the command's flags become BuildKit solve
    options — frontend attributes, local directories, cache imports, the image exporter — and the
    choice of progress display. */
module ImageBuild {
  import opened Outcomes
  import opened Refs
  import Text

  const BuildArgPrefix: string := "build-arg:"
  const LabelPrefix: string := "label:"
  const DefaultDockerfile: string := "Dockerfile"
  const ExporterImage: string := "image"
  const ConfigDigestKey: string := "containerimage.config.digest"

  /** The key of a `k=v` setting: everything before the first '='. */
  function SettingKey(s: string): string { Text.Cut(s, '=').before }
  /** Its value: everything after the first '=', or "" without one. */
  function SettingValue(s: string): string { Text.Cut(s, '=').after }

  /** The attributes a list of `k=v` settings contributes under a prefix, each setting in turn. */
  function Settings(settings: seq<string>, prefix: string): map<string, string>
    decreases |settings|
  {
    if |settings| == 0 then map[]
    else
      var last := settings[|settings| - 1];
      Settings(settings[..|settings| - 1], prefix)[prefix + SettingKey(last) := SettingValue(last)]
  }

  /** A key is set exactly when some setting names it, to the value of the last one that does. */
  lemma {:induction false} SettingsLastWins(settings: seq<string>, prefix: string, key: string)
    ensures prefix + key in Settings(settings, prefix) <==> exists i | 0 <= i < |settings| :: SettingKey(settings[i]) == key
    ensures forall i | 0 <= i < |settings| && SettingKey(settings[i]) == key
                       && (forall j | i < j < |settings| :: SettingKey(settings[j]) != key) ::
      prefix + key in Settings(settings, prefix) && Settings(settings, prefix)[prefix + key] == SettingValue(settings[i])
    decreases |settings|
  {
    if |settings| > 0 {
      var n := |settings| - 1;
      var init := settings[..n];
      SettingsLastWins(init, prefix, key);
      assert forall i | 0 <= i < n :: init[i] == settings[i];
      var m := Settings(settings, prefix);
      assert m == Settings(init, prefix)[prefix + SettingKey(settings[n]) := SettingValue(settings[n])];
      if SettingKey(settings[n]) == key {
        assert prefix + key in m && m[prefix + key] == SettingValue(settings[n]);
      } else {
        assert prefix + SettingKey(settings[n]) != prefix + key by {
          assert (prefix + SettingKey(settings[n]))[|prefix|..] == SettingKey(settings[n]);
          assert (prefix + key)[|prefix|..] == key;
        }
      }
    }
  }

  /** The attribute names frontendAttrs sets itself. */
  predicate FixedKey(k: string) {
    k == "target" || k == "add-hosts" || k == "filename" || k == "no-cache" || k == "image-resolve-mode"
  }

  /** The fixed attribute names are distinct: they begin with different letters. */
  lemma FixedKeysDistinct()
    ensures "target" != "add-hosts" && "target" != "filename" && "target" != "no-cache" && "target" != "image-resolve-mode"
    ensures "add-hosts" != "filename" && "add-hosts" != "no-cache" && "add-hosts" != "image-resolve-mode"
    ensures "filename" != "no-cache" && "filename" != "image-resolve-mode" && "no-cache" != "image-resolve-mode"
  {
    assert "target"[0] == 't' && "add-hosts"[0] == 'a' && "filename"[0] == 'f';
    assert "no-cache"[0] == 'n' && "image-resolve-mode"[0] == 'i';
  }

  /** The fixed attributes of frontendAttrs (build.go:117-135): the hosts when there are any, the Dockerfile's name, and the
      no-cache and pull switches when they are on. */
  function FixedAttrs(hosts: string, filename: string, noCache: bool, pull: bool): (r: map<string, string>)
    ensures forall k | k in r :: FixedKey(k) && k != "target"
    ensures ("add-hosts" in r <==> hosts != "") && "filename" in r && ("no-cache" in r <==> noCache)
    ensures "image-resolve-mode" in r <==> pull
    ensures "add-hosts" in r ==> r["add-hosts"] == hosts
    ensures r["filename"] == filename
    ensures "no-cache" in r ==> r["no-cache"] == ""
    ensures "image-resolve-mode" in r ==> r["image-resolve-mode"] == "pull"
  {
    FixedKeysDistinct();
    (if hosts != "" then map["add-hosts" := hosts] else map[])
    + map["filename" := filename]
    + (if noCache then map["no-cache" := ""] else map[])
    + (if pull then map["image-resolve-mode" := "pull"] else map[])
  }

  /** A cache import entry. */
  datatype CacheOptionsEntry = CacheOptionsEntry(kind: string, attrs: map<string, string>)

  function RegistryCache(ref: string): CacheOptionsEntry {
    CacheOptionsEntry("registry", map["ref" := ref])
  }

  /** The distinct values of a list, each at its first occurrence. */
  function Dedup(xs: seq<string>): seq<string>
    decreases |xs|
  {
    if |xs| == 0 then []
    else
      var d := Dedup(xs[..|xs| - 1]);
      if xs[|xs| - 1] in d then d else d + [xs[|xs| - 1]]
  }

  /** The position of the first occurrence of a value. */
  function FirstIndex(xs: seq<string>, x: string): (i: nat)
    requires x in xs
    ensures i < |xs| && xs[i] == x && forall j | 0 <= j < i :: xs[j] != x
  {
    if xs[0] == x then 0 else 1 + FirstIndex(xs[1..], x)
  }

  lemma FirstIndexPrefix(xs: seq<string>, n: nat, x: string)
    requires n <= |xs| && x in xs[..n]
    ensures x in xs && FirstIndex(xs, x) == FirstIndex(xs[..n], x)
  {
    var i := FirstIndex(xs[..n], x);
    assert xs[i] == x;
    var k := FirstIndex(xs, x);
    assert k <= i;
    assert xs[..n][k] == x;
  }

  /** Dedup keeps exactly the values of the list, once each, ordered by first occurrence. */
  lemma {:induction false} DedupSpec(xs: seq<string>)
    ensures forall x :: x in Dedup(xs) <==> x in xs
    ensures forall i, j | 0 <= i < j < |Dedup(xs)| :: Dedup(xs)[i] != Dedup(xs)[j]
    ensures forall i, j | 0 <= i < j < |Dedup(xs)| :: FirstIndex(xs, Dedup(xs)[i]) < FirstIndex(xs, Dedup(xs)[j])
    decreases |xs|
  {
    if |xs| > 0 {
      var n := |xs| - 1;
      var init := xs[..n];
      DedupSpec(init);
      assert xs == init + [xs[n]];
      var d := Dedup(init);
      forall i | 0 <= i < |d| ensures FirstIndex(xs, d[i]) == FirstIndex(init, d[i]) && FirstIndex(xs, d[i]) < n {
        FirstIndexPrefix(xs, n, d[i]);
      }
      if xs[n] !in d {
        assert xs[n] !in init;
        assert FirstIndex(xs, xs[n]) == n;
        assert Dedup(xs) == d + [xs[n]];
      }
    }
  }

  /** An export entry of the solve. */
  datatype ExportEntry = ExportEntry(kind: string, attrs: map<string, string>)

  /** What the progress display writes to: nothing, or a channel displayed on a console if there is one. */
  datatype ProgressSink = NoChannel | Channel(console: bool)

  /** progress (build.go:170-192): "none" makes no channel; "plain" displays without a console; any other
      mode uses the terminal when there is one. */
  function ProgressSinkFor(mode: string, consoleAvailable: bool): (r: ProgressSink)
    ensures r == NoChannel <==> mode == "none"
    ensures mode == "plain" ==> r == Channel(false)
    ensures mode != "none" && mode != "plain" ==> r == Channel(consoleAvailable)
  {
    if mode == "none" then NoChannel else if mode == "plain" then Channel(false) else Channel(consoleAvailable)
  }

  /** The normalised form of a tag, or the tag itself when it does not parse. */
  function NormalizeTag(p: Parsers, tag: string): string {
    if p.parseNormalizedNamed(tag).Ok? then RefString(p.parseNormalizedNamed(tag).value) else tag
  }

  /** The image exporter named by a list of tags (build.go:194-213): "name" is the tags joined by ",",
      and without tags there are no attributes. */
  function ImageExporter(tags: seq<string>): ExportEntry {
    ExportEntry(ExporterImage, if |tags| == 0 then map[] else map["name" := Text.Join(tags, ","), "name-canonical" := ""])
  }

  /** The exports Do starts from: the image exporter when there are tags, and none otherwise. */
  function TagExports(tags: seq<string>): seq<ExportEntry> {
    if |tags| == 0 then [] else [ImageExporter(tags)]
  }

  /** The solve options build.go assembles, without the session attachables. */
  datatype SolveOpt = SolveOpt(frontend: string, frontendAttrs: map<string, string>, cacheImports: seq<CacheOptionsEntry>,
                               localDirs: map<string, string>, exports: seq<ExportEntry>)

  class Build {
    const addHost: seq<string>
    const buildArg: seq<string>
    const cacheFrom: seq<string>
    const file: string
    const labels: seq<string>
    const noCache: bool
    const output: seq<string>
    var progress: string
    const quiet: bool
    var tag: seq<string>
    const target: string
    const pull: bool
    const secret: seq<string>
    const ssh: seq<string>

    constructor (addHost: seq<string>, buildArg: seq<string>, cacheFrom: seq<string>, file: string, labels: seq<string>,
                 noCache: bool, output: seq<string>, progress: string, quiet: bool, tag: seq<string>, target: string,
                 pull: bool, secret: seq<string>, ssh: seq<string>)
      ensures this.addHost == addHost && this.buildArg == buildArg && this.cacheFrom == cacheFrom && this.file == file
      ensures this.labels == labels && this.noCache == noCache && this.output == output && this.progress == progress
      ensures this.quiet == quiet && this.tag == tag && this.target == target && this.pull == pull
      ensures this.secret == secret && this.ssh == ssh
    {
      this.addHost, this.buildArg, this.cacheFrom, this.file, this.labels := addHost, buildArg, cacheFrom, file, labels;
      this.noCache, this.output, this.progress, this.quiet := noCache, output, progress, quiet;
      this.tag, this.target, this.pull, this.secret, this.ssh := tag, target, pull, secret, ssh;
    }

    /** Inserting the settings of a list under a prefix (build.go:104-116). */
    static method AddSettings(m: map<string, string>, settings: seq<string>, prefix: string) returns (r: map<string, string>)
      ensures r == m + Settings(settings, prefix)
    {
      r := m;
      for i := 0 to |settings|
        invariant r == m + Settings(settings[..i], prefix)
      {
        var kv := Text.Cut(settings[i], '=');
        assert settings[..i + 1][..i] == settings[..i];
        r := r[prefix + kv.before := kv.after];
      }
      assert settings[..|settings|] == settings;
    }

    /** The attributes frontendAttrs promises: the target and the Dockerfile's base name always, the
        hosts, no-cache and pull switches only when set, and otherwise exactly the build-arg and label
        settings, the last setting of a key winning. */
    ghost predicate IsFrontendAttrs(m: map<string, string>, base: string -> string) {
      && "target" in m && m["target"] == target
      && "filename" in m && m["filename"] == (if file == "" then DefaultDockerfile else base(file))
      && ("add-hosts" in m <==> Text.Join(addHost, ",") != "")
      && ("add-hosts" in m ==> m["add-hosts"] == Text.Join(addHost, ","))
      && ("no-cache" in m <==> noCache) && ("no-cache" in m ==> m["no-cache"] == "")
      && ("image-resolve-mode" in m <==> pull) && ("image-resolve-mode" in m ==> m["image-resolve-mode"] == "pull")
      && (forall k | !FixedKey(k) :: (k in m <==> k in Settings(buildArg, BuildArgPrefix) || k in Settings(labels, LabelPrefix)))
      && (forall k | k in Settings(buildArg, BuildArgPrefix) :: k in m && m[k] == Settings(buildArg, BuildArgPrefix)[k])
      && (forall k | k in Settings(labels, LabelPrefix) :: k in m && m[k] == Settings(labels, LabelPrefix)[k])
    }

    /** frontendAttrs (build.go:98-137). */
    method FrontendAttrs(base: string -> string) returns (m: map<string, string>)
      ensures IsFrontendAttrs(m, base)
    {
      m := map["target" := target];
      m := AddSettings(m, buildArg, BuildArgPrefix);
      m := AddSettings(m, labels, LabelPrefix);
      var hosts := Text.Join(addHost, ",");
      m := m + FixedAttrs(hosts, if file == "" then DefaultDockerfile else base(file), noCache, pull);
      FixedKeysDistinct();
      ghost var args, labelAttrs := Settings(buildArg, BuildArgPrefix), Settings(labels, LabelPrefix);
      ghost var fixed := FixedAttrs(hosts, if file == "" then DefaultDockerfile else base(file), noCache, pull);
      assert m == map["target" := target] + args + labelAttrs + fixed;
      SettingsInitial(buildArg, BuildArgPrefix);
      SettingsInitial(labels, LabelPrefix);
      AttrsLayout(target, args, labelAttrs, fixed);
    }

    /** localDirs (build.go:139-149). */
    function LocalDirs(path: string, dir: string -> string): (m: map<string, string>)
      reads this
      ensures m.Keys == {"context", "dockerfile"} && m["context"] == path
      ensures m["dockerfile"] == if file == "" then path else dir(file)
    {
      map["context" := path, "dockerfile" := if file == "" then path else dir(file)]
    }

    /** cacheImports (build.go:151-168): one registry entry per distinct CacheFrom value, in order of
        first occurrence. */
    method CacheImports() returns (result: seq<CacheOptionsEntry>)
      ensures |result| == |Dedup(cacheFrom)|
      ensures forall i | 0 <= i < |result| :: result[i] == RegistryCache(Dedup(cacheFrom)[i])
    {
      var exists_: set<string> := {};
      ghost var seen: seq<string> := [];
      result := [];
      for i := 0 to |cacheFrom|
        invariant seen == Dedup(cacheFrom[..i])
        invariant forall x :: x in exists_ <==> x in seen
        invariant |result| == |seen| && forall k | 0 <= k < |result| :: result[k] == RegistryCache(seen[k])
      {
        assert cacheFrom[..i + 1][..i] == cacheFrom[..i];
        var s := cacheFrom[i];
        if s in exists_ {
          continue;
        }
        exists_ := exists_ + {s};
        seen := seen + [s];
        result := result + [RegistryCache(s)];
      }
      assert cacheFrom[..|cacheFrom|] == cacheFrom;
    }

    /** defaultExporter (build.go:194-213): the image exporter named by the tags, which are rewritten in
        place to their normalised forms; a tag that does not parse is kept as it is. */
    method DefaultExporter(p: Parsers) returns (exports: seq<ExportEntry>)
      modifies this`tag
      ensures |tag| == |old(tag)| && forall i | 0 <= i < |tag| :: tag[i] == NormalizeTag(p, old(tag)[i])
      ensures exports == [ImageExporter(tag)]
    {
      var attrs: map<string, string> := map[];
      if |tag| > 0 {
        var i := 0;
        while i < |tag|
          invariant 0 <= i <= |tag| && |tag| == |old(tag)|
          invariant forall k | 0 <= k < i :: tag[k] == NormalizeTag(p, old(tag)[k])
          invariant forall k | i <= k < |tag| :: tag[k] == old(tag)[k]
        {
          var ref := p.parseNormalizedNamed(tag[i]);
          if ref.Ok? {
            tag := tag[i := RefString(ref.value)];
          }
          i := i + 1;
        }
        attrs := attrs["name" := Text.Join(tag, ",")]["name-canonical" := ""];
      }
      exports := [ExportEntry(ExporterImage, attrs)];
    }

    /** The solve options before the output flags are parsed (build.go:42-52). */
    method BaseOptions(p: Parsers, path: string) returns (opt: SolveOpt)
      modifies this`tag
      ensures opt.frontend == "dockerfile.v0" && opt.localDirs == LocalDirs(path, p.dir)
      ensures |opt.cacheImports| == |Dedup(cacheFrom)|
      ensures forall i | 0 <= i < |opt.cacheImports| :: opt.cacheImports[i] == RegistryCache(Dedup(cacheFrom)[i])
      ensures IsFrontendAttrs(opt.frontendAttrs, p.base)
      ensures |tag| == |old(tag)| && forall i | 0 <= i < |tag| :: tag[i] == NormalizeTag(p, old(tag)[i])
      ensures opt.exports == TagExports(tag)
    {
      var attrs := FrontendAttrs(p.base);
      var caches := CacheImports();
      var exports: seq<ExportEntry> := [];
      if |tag| > 0 {
        exports := DefaultExporter(p);
      }
      opt := SolveOpt("dockerfile.v0", attrs, caches, LocalDirs(path, p.dir), exports);
    }

    /** Do (build.go:40-96) up to the solve: the options, the progress sink, and the image ID printed in
        quiet mode. `parsedOutput` is the outcome of parsing the output flags, `secretErr` and `sshErr`
        the errors, if any, of turning the secret and ssh flags into session attachables, and `solve`
        the outcome of the solve and of its progress display, with the exporter's response. */
    method Do(p: Parsers, path: string, consoleAvailable: bool, parsedOutput: Result<seq<ExportEntry>>,
              secretErr: Option<Error>, sshErr: Option<Error>, solve: Result<Option<map<string, string>>>)
      returns (err: Option<Error>, opt: SolveOpt, sink: Option<ProgressSink>, printed: Option<string>)
      modifies this`progress, this`tag
      ensures opt.frontend == "dockerfile.v0" && opt.localDirs == LocalDirs(path, p.dir)
      ensures |opt.cacheImports| == |Dedup(cacheFrom)|
      ensures forall i | 0 <= i < |opt.cacheImports| :: opt.cacheImports[i] == RegistryCache(Dedup(cacheFrom)[i])
      ensures IsFrontendAttrs(opt.frontendAttrs, p.base)
      ensures |tag| == |old(tag)| && forall i | 0 <= i < |tag| :: tag[i] == NormalizeTag(p, old(tag)[i])
      // The default image exporter comes first, then the exports parsed from the output flags.
      ensures opt.exports == TagExports(tag) + (if |output| > 0 && parsedOutput.Ok? then parsedOutput.value else [])
      // The errors of the flags, in the order they are parsed, then the solve's.
      ensures |output| > 0 && parsedOutput.Err? ==> err == Some(parsedOutput.error)
      ensures err.None? <==> (|output| == 0 || parsedOutput.Ok?) && (|secret| == 0 || secretErr.None?)
                             && (|ssh| == 0 || sshErr.None?) && solve.Ok?
      // Quiet output forces the "none" mode, which has no progress channel.
      ensures sink.Some? ==> progress == (if quiet then "none" else old(progress))
      ensures sink.Some? ==> sink.value == ProgressSinkFor(progress, consoleAvailable)
      ensures quiet && sink.Some? ==> sink.value == NoChannel
      ensures err.None? ==> sink.Some?
      ensures printed.Some? <==> quiet && err.None? && solve.value.Some? && ConfigDigestKey in solve.value.value
                                 && solve.value.value[ConfigDigestKey] != ""
      ensures printed.Some? ==> printed.value == solve.value.value[ConfigDigestKey]
    {
      opt := BaseOptions(p, path);
      sink, printed := None, None;
      if |output| > 0 {
        if parsedOutput.Err? {
          return Some(parsedOutput.error), opt, sink, printed;
        }
        opt := opt.(exports := opt.exports + parsedOutput.value);
      }
      if |secret| > 0 && secretErr.Some? {
        return secretErr, opt, sink, printed;
      }
      if |ssh| > 0 && sshErr.Some? {
        return sshErr, opt, sink, printed;
      }
      if quiet {
        progress := "none";
      }
      sink := Some(ProgressSinkFor(progress, consoleAvailable));
      if solve.Err? {
        return Some(solve.error), opt, sink, printed;
      }
      if quiet && solve.value.Some? && ConfigDigestKey in solve.value.value && solve.value.value[ConfigDigestKey] != "" {
        printed := Some(solve.value.value[ConfigDigestKey]);
      }
      err := None;
    }
  }

  /** The attribute map is the target, the settings and the fixed attributes laid side by side: their keys
      never collide, since they begin differently. */
  lemma AttrsLayout(target: string, args: map<string, string>, labelAttrs: map<string, string>, fixed: map<string, string>)
    requires forall k | k in args :: |k| > 0 && k[0] == 'b'
    requires forall k | k in labelAttrs :: |k| > 0 && k[0] == 'l'
    requires forall k | k in fixed :: FixedKey(k) && k != "target"
    ensures var m := map["target" := target] + args + labelAttrs + fixed;
      && "target" in m && m["target"] == target
      && (forall k | FixedKey(k) && k != "target" :: (k in m <==> k in fixed) && (k in fixed ==> m[k] == fixed[k]))
      && (forall k | !FixedKey(k) :: (k in m <==> k in args || k in labelAttrs))
      && (forall k | k in args :: k in m && m[k] == args[k])
      && (forall k | k in labelAttrs :: k in m && m[k] == labelAttrs[k])
  {
    var m := map["target" := target] + args + labelAttrs + fixed;
    forall k | FixedKey(k) ensures k !in args && k !in labelAttrs {
      assert k[0] != 'b' && k[0] != 'l';
    }
  }

  /** Every attribute a setting under a prefix contributes begins with the prefix's first letter. */
  lemma SettingsInitial(settings: seq<string>, prefix: string)
    requires |prefix| > 0
    ensures forall k | k in Settings(settings, prefix) :: |k| > 0 && k[0] == prefix[0]
  {
    SettingsKeys(settings, prefix);
    forall k | k in Settings(settings, prefix) ensures |k| > 0 && k[0] == prefix[0] {
      assert k[..|prefix|] == prefix;
    }
  }

  /** Every attribute a list of settings contributes carries the prefix. */
  lemma {:induction false} SettingsKeys(settings: seq<string>, prefix: string)
    ensures forall k | k in Settings(settings, prefix) :: Text.HasPrefix(k, prefix)
    decreases |settings|
  {
    if |settings| > 0 {
      var n := |settings| - 1;
      SettingsKeys(settings[..n], prefix);
      var k := prefix + SettingKey(settings[n]);
      assert k[..|prefix|] == prefix;
    }
  }
}
