/** lib/config.ts: the write-permission check, the default-path fallback
    chain and the memoised configuration object. The process environment,
    the file system's existence test and `path.resolve` are inputs: `Host`
    carries what the code reads from the process, and `resolve` stands for
    `path.resolve` against the process's working directory. */
module Config {
  import opened Common

  /** What the code reads from the running process: `DEFAULT_FILE_PATH`,
      `os.homedir()`, `process.cwd()`, and the paths `existsSync` accepts. */
  datatype Host = Host(envPath: Option<string>, home: string, cwd: string, existing: set<string>)

  const TmpDir := "/tmp"
  const RootDir := "/"

  /** The test `isWriteAllowed` applies to an already resolved path: a plain
      string prefix of the home directory, `/tmp` or the working directory. */
  predicate AllowedResolved(host: Host, resolved: string)
  {
    StartsWith(resolved, host.home) || StartsWith(resolved, TmpDir) || StartsWith(resolved, host.cwd)
  }

  /** `isWriteAllowed(targetPath)`. */
  predicate IsWriteAllowed(host: Host, resolve: string -> string, target: string)
  {
    AllowedResolved(host, resolve(target))
  }

  /** The test is on characters, not on path segments: a sibling of `/tmp`
      whose name merely starts with `tmp` is writable, and so is a sibling of
      the home directory that shares its name as a prefix. */
  lemma PrefixNotSegment(host: Host)
    requires host.home == "/home/ann" && host.cwd == "/srv/app"
    ensures AllowedResolved(host, "/tmpx")
    ensures AllowedResolved(host, "/home/anna/notes")
    ensures !AllowedResolved(host, "/tm")
    ensures !AllowedResolved(host, "/srv")
  {
    assert "/tmpx"[..4] == TmpDir;
    assert "/home/anna/notes"[..9] == host.home;
    assert "/srv"[1] != TmpDir[1];
  }

  /** Whatever is allowed stays allowed for every path below it (and every
      path that only extends its name). */
  lemma AllowedUpward(host: Host, p: string, q: string)
    requires AllowedResolved(host, p) && StartsWith(q, p)
    ensures AllowedResolved(host, q)
  {
    var roots := [host.home, TmpDir, host.cwd];
    forall r | r in roots && StartsWith(p, r) ensures StartsWith(q, r) {
      assert q[..|r|] == q[..|p|][..|r|];
    }
  }

  /** A home directory or working directory reported as the empty string, or
      as `/`, allows writes anywhere. */
  lemma EmptyOrRootDirAllowsAll(host: Host, resolved: string)
    requires host.home == "" || host.cwd == "" || ((host.home == RootDir || host.cwd == RootDir) && StartsWith(resolved, RootDir))
    ensures AllowedResolved(host, resolved)
  {
  }

  /** `getDefaultFilePath()`: the resolved configured path when it is set,
      non-empty and exists; otherwise the home directory when it exists;
      otherwise `/`. */
  function DefaultFilePath(host: Host, resolve: string -> string): string
  {
    if host.envPath.Some? && host.envPath.value != "" && resolve(host.envPath.value) in host.existing then
      resolve(host.envPath.value)
    else if host.home in host.existing then host.home
    else RootDir
  }

  /** The default path is always an existing path, or the root as the last
      resort. */
  lemma DefaultPathExists(host: Host, resolve: string -> string)
    ensures DefaultFilePath(host, resolve) in host.existing || DefaultFilePath(host, resolve) == RootDir
  {
  }

  /** A configured path that is set and exists wins over the home directory;
      one that is unset, empty or missing is as good as no configuration, and
      then an existing home directory wins over the root. */
  lemma DefaultPathPriority(host: Host, resolve: string -> string)
    ensures host.envPath.Some? && host.envPath.value != "" && resolve(host.envPath.value) in host.existing ==>
      DefaultFilePath(host, resolve) == resolve(host.envPath.value)
    ensures !(host.envPath.Some? && host.envPath.value != "" && resolve(host.envPath.value) in host.existing) ==>
      DefaultFilePath(host, resolve) == DefaultFilePath(host.(envPath := None), resolve)
    ensures host.envPath.None? && host.home in host.existing ==> DefaultFilePath(host, resolve) == host.home
    ensures host.envPath.None? && host.home !in host.existing ==> DefaultFilePath(host, resolve) == RootDir
  {
  }

  /** `AppConfig`. */
  datatype AppConfig = AppConfig(defaultFilePath: string)

  /** `loadConfig()`. */
  function LoadConfig(host: Host, resolve: string -> string): AppConfig
  {
    AppConfig(DefaultFilePath(host, resolve))
  }

  /** The module-level `configInstance` cell, with a count of `loadConfig`
      calls so the memoisation can be stated. */
  class ConfigCache {
    var instance: Option<AppConfig>
    ghost var loads: nat

    ghost predicate Valid()
      reads this
    {
      (instance.None? <==> loads == 0) && loads <= 1
    }

    constructor ()
      ensures Valid() && instance == None
    {
      instance := None;
      loads := 0;
    }

    /** `getConfig()`: the first call loads the configuration from the
        current host; every later call returns that same object, whatever the
        host looks like by then. */
    method GetConfig(host: Host, resolve: string -> string) returns (c: AppConfig)
      requires Valid()
      modifies this
      ensures Valid()
      ensures old(instance).Some? ==> c == old(instance).value && instance == old(instance) && loads == old(loads)
      ensures old(instance).None? ==> c == LoadConfig(host, resolve) && instance == Some(c) && loads == 1
    {
      if instance.None? {
        instance := Some(LoadConfig(host, resolve));
        loads := loads + 1;
      }
      c := instance.value;
    }
  }

  /** Two calls, even on different hosts, load once and agree. */
  method GetConfigTwice(cache: ConfigCache, h1: Host, h2: Host, resolve: string -> string)
    returns (c1: AppConfig, c2: AppConfig)
    requires cache.Valid()
    modifies cache
    ensures cache.Valid() && c1 == c2 && cache.loads == 1
  {
    c1 := cache.GetConfig(h1, resolve);
    c2 := cache.GetConfig(h2, resolve);
  }
}
