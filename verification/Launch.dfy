/** From policy, key constraints and a start request to the process that is run. */
module Launch {
  import opened Types
  import opened StartCodec
  import opened KeyOptions

  // ----- text

  function TrimLeft(s: string): string {
    if s != "" && IsSpace(s[0]) then TrimLeft(s[1..]) else s
  }

  function TrimRight(s: string): string {
    if s != "" && IsSpace(s[|s| - 1]) then TrimRight(s[..|s| - 1]) else s
  }

  /** strings.TrimSpace */
  function Trim(s: string): string {
    TrimRight(TrimLeft(s))
  }

  lemma {:induction false} TrimLeftBlank(s: string)
    ensures if Blank(s) then TrimLeft(s) == "" else TrimLeft(s) != "" && !IsSpace(TrimLeft(s)[0])
  {
    if s != "" && IsSpace(s[0]) {
      TrimLeftBlank(s[1..]);
      assert Blank(s) <==> Blank(s[1..]) by {
        assert s == [s[0]] + s[1..];
      }
    }
  }

  lemma {:induction false} TrimRightKeeps(s: string)
    requires s != "" && !IsSpace(s[0])
    ensures TrimRight(s) != ""
  {
    if IsSpace(s[|s| - 1]) {
      TrimRightKeeps(s[..|s| - 1]);
    }
  }

  /** Trimming leaves nothing exactly of blank text. */
  lemma TrimBlank(s: string)
    ensures Trim(s) == "" <==> Blank(s)
  {
    TrimLeftBlank(s);
    if !Blank(s) {
      TrimRightKeeps(TrimLeft(s));
    }
  }

  lemma {:induction false} TrimLeftExact(s: string) returns (a: string)
    ensures s == a + TrimLeft(s) && Blank(a)
  {
    if s != "" && IsSpace(s[0]) {
      a := TrimLeftExact(s[1..]);
      assert s == [s[0]] + a + TrimLeft(s);
      a := [s[0]] + a;
    } else {
      a := "";
    }
  }

  lemma {:induction false} TrimRightExact(s: string) returns (b: string)
    ensures s == TrimRight(s) + b && Blank(b)
    ensures TrimRight(s) == "" || !IsSpace(TrimRight(s)[|TrimRight(s)| - 1])
    ensures TrimRight(s) == "" || TrimRight(s)[0] == s[0]
  {
    if s != "" && IsSpace(s[|s| - 1]) {
      var last := s[|s| - 1];
      b := TrimRightExact(s[..|s| - 1]);
      assert s == TrimRight(s) + (b + [last]);
      b := b + [last];
    } else {
      b := "";
    }
  }

  /** Trimming takes blanks off both ends, and all of them. */
  lemma TrimExact(s: string) returns (a: string, b: string)
    ensures s == a + Trim(s) + b && Blank(a) && Blank(b)
    ensures Trim(s) != "" ==> !IsSpace(Trim(s)[0]) && !IsSpace(Trim(s)[|Trim(s)| - 1])
  {
    a := TrimLeftExact(s);
    b := TrimRightExact(TrimLeft(s));
    TrimLeftBlank(s);
    assert s == a + (Trim(s) + b);
  }

  predicate IsAbs(path: string) {
    path != "" && path[0] == '/'
  }

  function StripSlashes(path: string): string {
    if path != "" && path[|path| - 1] == '/' then StripSlashes(path[..|path| - 1]) else path
  }

  function AfterSlash(path: string): string {
    if path == "" || path[|path| - 1] == '/' then "" else AfterSlash(path[..|path| - 1]) + [path[|path| - 1]]
  }

  /** filepath.Base */
  function Base(path: string): string {
    if path == "" then "." else if StripSlashes(path) == "" then "/" else AfterSlash(StripSlashes(path))
  }

  lemma {:induction false} StripExact(path: string)
    ensures StripSlashes(path) <= path && (StripSlashes(path) == "" || StripSlashes(path)[|StripSlashes(path)| - 1] != '/')
    ensures forall i :: |StripSlashes(path)| <= i < |path| ==> path[i] == '/'
  {
    if path != "" && path[|path| - 1] == '/' {
      StripExact(path[..|path| - 1]);
    }
  }

  lemma {:induction false} AfterExact(path: string) returns (dir: string)
    ensures path == dir + AfterSlash(path) && '/' !in AfterSlash(path) && (dir == "" || dir[|dir| - 1] == '/')
  {
    if path == "" || path[|path| - 1] == '/' {
      dir := path;
    } else {
      dir := AfterExact(path[..|path| - 1]);
      assert path == path[..|path| - 1] + [path[|path| - 1]];
    }
  }

  /** The base name is what follows the last slash, trailing slashes aside, and is never empty. */
  lemma BaseExact(path: string) returns (dir: string, slashes: string)
    requires path != "" && StripSlashes(path) != ""
    ensures path == dir + Base(path) + slashes && Base(path) != "" && '/' !in Base(path)
    ensures (dir == "" || dir[|dir| - 1] == '/') && forall i :: 0 <= i < |slashes| ==> slashes[i] == '/'
  {
    var stripped := StripSlashes(path);
    StripExact(path);
    dir := AfterExact(stripped);
    slashes := path[|stripped|..];
    assert path == stripped + slashes;
  }

  // ----- permissions

  datatype Decision = Decision(
    allowCommand: bool,
    allowShell: bool,
    allowExec: bool,
    allowPty: bool,
    forcedCommand: string,
    allowedEnvironment: seq<string>)

  /** applyMatchedKeyConstraints */
  function Narrowed(d: Decision, k: KeyConstraints): Result<Decision> {
    if (k.restricted && !k.noPty) || ByteLength(k.forcedCommand) > MAX_COMMAND then Err
    else
      var d := if k.noPty then d.(allowPty := false) else d;
      if k.forcedCommand == "" then Ok(d)
      else if d.forcedCommand != "" && d.forcedCommand != k.forcedCommand then Err
      else Ok(d.(forcedCommand := k.forcedCommand))
  }

  datatype Permissions = Permissions(
    allowCommand: bool,
    allowShell: bool,
    allowExec: bool,
    allowPty: bool,
    forcedCommand: string,
    allowedEnvironment: seq<string>)

  /** validateEnvironmentName */
  predicate EnvNameOk(name: string) {
    name != "" && NameOk(name) && ByteLength(name) <= 256
  }

  predicate DecisionOk(d: Decision) {
    var forced := Trim(d.forcedCommand);
    && '\0' !in forced && ByteLength(forced) <= MAX_COMMAND
    && (d.allowShell || d.allowExec || d.allowPty || forced != "" ==> d.allowCommand)
    && (forced != "" || d.allowPty ==> d.allowShell || d.allowExec)
    && |d.allowedEnvironment| <= 128
    && forall i :: 0 <= i < |d.allowedEnvironment| ==> EnvNameOk(Trim(d.allowedEnvironment[i]))
  }

  /** The snapshot grants what the decision grants; names are trimmed, sorted and listed once. */
  ghost predicate Snapshot(d: Decision, p: Permissions) {
    && p.allowCommand == d.allowCommand && p.allowShell == d.allowShell && p.allowExec == d.allowExec && p.allowPty == d.allowPty
    && p.forcedCommand == Trim(d.forcedCommand)
    && Ascending(p.allowedEnvironment)
    && forall name :: name in p.allowedEnvironment <==> Listed(d.allowedEnvironment, name)
  }

  predicate Listed(names: seq<string>, name: string) {
    exists i :: 0 <= i < |names| && Trim(names[i]) == name
  }

  /** newConnectionPermissions */
  method NewConnectionPermissions(d: Decision) returns (r: Result<Permissions>)
    ensures r.Ok? <==> DecisionOk(d)
    ensures r.Ok? ==> Snapshot(d, r.value)
  {
    var forced := Trim(d.forcedCommand);
    if '\0' in forced || ByteLength(forced) > MAX_COMMAND {
      return Err;
    }
    if (d.allowShell || d.allowExec || d.allowPty || forced != "") && !d.allowCommand {
      return Err;
    }
    if (forced != "" || d.allowPty) && !d.allowShell && !d.allowExec {
      return Err;
    }
    if |d.allowedEnvironment| > 128 {
      return Err;
    }
    var allowed := AllowedNames(d.allowedEnvironment);
    if allowed.Err? {
      return Err;
    }
    return Ok(Permissions(d.allowCommand, d.allowShell, d.allowExec, d.allowPty, forced, allowed.value));
  }

  /** The loop over the allowed names, with its set of names already seen; the result is sorted. */
  method AllowedNames(names: seq<string>) returns (r: Result<seq<string>>)
    ensures r.Ok? <==> forall i :: 0 <= i < |names| ==> EnvNameOk(Trim(names[i]))
    ensures r.Ok? ==> Ascending(r.value) && forall name :: name in r.value <==> Listed(names, name)
  {
    var allowed: seq<string> := [];
    var seen: set<string> := {};
    for i := 0 to |names|
      invariant Distinct(allowed) && (forall name :: name in seen <==> name in allowed)
      invariant forall name :: name in allowed <==> Listed(names[..i], name)
      invariant forall k :: 0 <= k < i ==> EnvNameOk(Trim(names[k]))
    {
      var name := Trim(names[i]);
      if !EnvNameOk(name) {
        return Err;
      }
      ListedMore(names, i);
      if name !in seen {
        seen := seen + {name};
        allowed := allowed + [name];
      }
    }
    assert names[..|names|] == names;
    var sorted := SortNames(allowed);
    assert forall name :: name in sorted <==> name in multiset(sorted);
    assert forall name :: name in allowed <==> name in multiset(allowed);
    return Ok(sorted);
  }

  lemma ListedMore(names: seq<string>, i: nat)
    requires i < |names|
    ensures forall name :: Listed(names[..i + 1], name) <==> Listed(names[..i], name) || name == Trim(names[i])
  {
    var longer, shorter := names[..i + 1], names[..i];
    forall name ensures Listed(longer, name) <==> Listed(shorter, name) || name == Trim(names[i]) {
      if Listed(shorter, name) {
        var k :| 0 <= k < |shorter| && Trim(shorter[k]) == name;
        assert Trim(longer[k]) == name;
      }
      if name == Trim(names[i]) {
        assert Trim(longer[i]) == name;
      }
      if Listed(longer, name) {
        var k :| 0 <= k < |longer| && Trim(longer[k]) == name;
        if k < i {
          assert Trim(shorter[k]) == name;
        }
      }
    }
  }

  // ----- the launch

  datatype Account = Account(id: nat, username: string, homeDir: string, loginShell: string, primaryGroup: nat, groups: seq<nat>)

  datatype LaunchRequest = LaunchRequest(kind: Kind, command: string, pty: Option<Pty>, environment: map<string, string>)

  /** toLaunchRequest: the terminal of a PTY is asked for as TERM as well. */
  function ToLaunchRequest(r: StartRequest): Result<LaunchRequest> {
    if r.kind.Unknown? then Err
    else if r.pty.None? || r.pty.value.terminal == "" then Ok(LaunchRequest(r.kind, r.command, r.pty, r.environment))
    else if "TERM" in r.environment && r.environment["TERM"] != r.pty.value.terminal then Err
    else Ok(LaunchRequest(r.kind, r.command, r.pty, r.environment["TERM" := r.pty.value.terminal]))
  }

  datatype LaunchSpec = LaunchSpec(kind: Kind, command: string, pty: Option<Pty>, environment: map<string, string>, account: Account)

  predicate EntryAllowed(name: string, value: string, allowed: seq<string>) {
    EnvNameOk(name) && name in allowed && '\0' !in value && ByteLength(value) <= 16384
  }

  predicate EnvironmentAllowed(requested: map<string, string>, allowed: seq<string>) {
    |requested| <= 128 && forall name :: name in requested ==> Granted(requested, allowed, name)
  }

  /** authorizeEnvironment; `order` is the order in which the map happens to be iterated. */
  method AuthorizeEnvironment(requested: map<string, string>, allowed: seq<string>, order: seq<string>) returns (r: Result<map<string, string>>)
    requires Distinct(order) && forall name :: name in order <==> name in requested
    ensures r == if EnvironmentAllowed(requested, allowed) then Ok(requested) else Err
  {
    if |requested| > 128 {
      return Err;
    }
    var names := SortNames(order);
    SameNames(names, order);
    r := AllowAll(requested, allowed, names);
  }

  lemma SameNames(names: seq<string>, order: seq<string>)
    requires multiset(names) == multiset(order)
    ensures forall name :: name in names <==> name in order
  {
    forall name ensures name in names <==> name in order {
      assert name in names <==> name in multiset(names);
      assert name in order <==> name in multiset(order);
    }
  }

  /** The loop over the sorted names. */
  method AllowAll(requested: map<string, string>, allowed: seq<string>, names: seq<string>) returns (r: Result<map<string, string>>)
    requires |requested| <= 128 && forall name :: name in names <==> name in requested
    ensures r == if EnvironmentAllowed(requested, allowed) then Ok(requested) else Err
  {
    var environment: map<string, string> := map[];
    for i := 0 to |names|
      invariant forall name :: name in environment <==> name in names[..i]
      invariant forall name :: name in environment ==> Granted(requested, allowed, name) && environment[name] == requested[name]
    {
      var name := names[i];
      assert name in names;
      if !Granted(requested, allowed, name) {
        return Err;
      }
      assert names[..i + 1] == names[..i] + [name];
      environment := environment[name := requested[name]];
    }
    assert names[..|names|] == names;
    assert environment == requested;
    return Ok(environment);
  }

  predicate Granted(requested: map<string, string>, allowed: seq<string>, name: string) {
    name in requested && EntryAllowed(name, requested[name], allowed)
  }

  predicate KindAllowed(p: Permissions, r: LaunchRequest) {
    match r.kind
    case Shell => p.allowShell && Trim(r.command) == ""
    case Exec => p.allowExec && (Trim(r.command) != "" || p.forcedCommand != "")
    case Unknown(_) => false
  }

  predicate PtyAllowed(p: Permissions, pty: Option<Pty>) {
    pty.Some? ==> p.allowPty && pty.value.rows != 0 && pty.value.columns != 0 && '\0' !in pty.value.terminal
  }

  /** AuthorizeLaunch on the channel's own credentials. */
  function AuthorizeLaunch(p: Permissions, account: Account, r: LaunchRequest): Result<LaunchSpec> {
    var command := Trim(r.command);
    if !KindAllowed(p, r) || !PtyAllowed(p, r.pty) || !EnvironmentAllowed(r.environment, p.allowedEnvironment) then Err
    else if !IsAbs(account.homeDir) || !IsAbs(account.loginShell) || '\0' in command || ByteLength(command) > MAX_COMMAND then Err
    else if p.forcedCommand != "" then Ok(LaunchSpec(Exec, p.forcedCommand, r.pty, r.environment, account))
    else Ok(LaunchSpec(r.kind, command, r.pty, r.environment, account))
  }

  // ----- the process

  const TRUSTED_PATH := "/usr/local/bin:/usr/bin:/bin"

  datatype Spec = Spec(
    executable: string,
    argv: seq<string>,
    workingDirectory: string,
    trusted: map<string, string>,
    requested: map<string, string>,
    uid: nat,
    gid: nat,
    groups: seq<nat>,
    pty: Option<Pty>)

  function Trusted(a: Account): map<string, string> {
    map["HOME" := a.homeDir, "USER" := a.username, "LOGNAME" := a.username, "SHELL" := a.loginShell, "PATH" := TRUSTED_PATH]
  }

  const PROTECTED: set<string> := {"HOME", "USER", "LOGNAME", "SHELL", "PATH"}

  /** toProcessSpec */
  function ToProcessSpec(l: LaunchSpec): Result<Spec> {
    if l.kind.Unknown? then Err
    else
      var shell := l.account.loginShell;
      var argv := if l.kind.Shell? then ["-" + Base(shell)] else [Base(shell), "-c", l.command];
      Ok(Spec(shell, argv, l.account.homeDir, Trusted(l.account), l.environment, l.account.id, l.account.primaryGroup, l.account.groups, l.pty))
  }

  predicate EntryOk(name: string, value: string) {
    name != "" && NameOk(name) && '\0' !in value
  }

  predicate GroupsOk(groups: seq<nat>, gid: nat) {
    gid !in groups && forall i, j :: 0 <= i < j < |groups| ==> groups[i] != groups[j]
  }

  predicate PtySizeOk(pty: Option<Pty>) {
    pty.Some? ==> 0 < pty.value.rows <= 65535 && 0 < pty.value.columns <= 65535 && '\0' !in pty.value.terminal
  }

  /** Spec.validate */
  predicate SpecOk(s: Spec) {
    && IsAbs(s.executable) && s.argv != [] && s.argv[0] != "" && IsAbs(s.workingDirectory)
    && |s.trusted| + |s.requested| <= 256
    && (forall name :: name in s.trusted ==> EntryOk(name, s.trusted[name]))
    && (forall name :: name in s.requested ==> EntryOk(name, s.requested[name]) && name !in PROTECTED)
    && GroupsOk(s.groups, s.gid) && PtySizeOk(s.pty)
  }

  /** The check of the supplementary groups, as a loop with its set of groups already seen. */
  method CheckGroups(groups: seq<nat>, gid: nat) returns (ok: bool)
    ensures ok <==> GroupsOk(groups, gid)
  {
    var seen: set<nat> := {};
    for i := 0 to |groups|
      invariant forall g :: g in seen <==> g in groups[..i]
      invariant GroupsOk(groups[..i], gid)
    {
      if groups[i] == gid || groups[i] in seen {
        RepeatedGroup(groups, gid, i);
        return false;
      }
      assert groups[..i + 1] == groups[..i] + [groups[i]];
      seen := seen + {groups[i]};
    }
    assert groups[..|groups|] == groups;
    return true;
  }

  lemma RepeatedGroup(groups: seq<nat>, gid: nat, i: nat)
    requires i < |groups| && (groups[i] == gid || groups[i] in groups[..i])
    ensures !GroupsOk(groups, gid)
  {
    if groups[i] in groups[..i] {
      var k :| 0 <= k < i && groups[..i][k] == groups[i];
      assert groups[k] == groups[i];
    }
  }

  function Combined(s: Spec): map<string, string> {
    s.trusted + s.requested
  }

  /** Sorted by name, one entry for each name of the map. */
  ghost predicate Environ(environ: seq<string>, names: seq<string>, m: map<string, string>) {
    && Ascending(names) && (forall name :: name in names <==> name in m) && |environ| == |names|
    && forall i :: 0 <= i < |names| ==> names[i] in m && environ[i] == names[i] + "=" + m[names[i]]
  }

  /** Spec.environment; `order` is the order in which the combined map happens to be iterated. */
  method Environment(s: Spec, order: seq<string>) returns (environ: seq<string>, names: seq<string>)
    requires Distinct(order) && forall name :: name in order <==> name in Combined(s)
    ensures Environ(environ, names, Combined(s))
  {
    var combined := Combined(s);
    names := SortNames(order);
    assert forall name :: name in names <==> name in multiset(names);
    assert forall name :: name in order <==> name in multiset(order);
    environ := [];
    for i := 0 to |names|
      invariant |environ| == i
      invariant forall k :: 0 <= k < i ==> names[k] in combined && environ[k] == names[k] + "=" + combined[names[k]]
    {
      assert names[i] in names;
      environ := environ + [names[i] + "=" + combined[names[i]]];
    }
  }

  // ----- confinement through the whole pipeline

  /** The command a policy and a key force between them; empty if they force none. */
  function Forced(policy: Decision, key: KeyConstraints): string {
    Trim(if key.forcedCommand != "" then key.forcedCommand else policy.forcedCommand)
  }

  /** The policy as the configuration file gives it, with its texts trimmed. */
  function Configured(raw: Decision): Decision {
    raw.(forcedCommand := Trim(raw.forcedCommand),
         allowedEnvironment := seq(|raw.allowedEnvironment|, i requires 0 <= i < |raw.allowedEnvironment| => Trim(raw.allowedEnvironment[i])))
  }

  lemma TrimAgain(s: string)
    ensures Blank(Trim(s)) <==> Blank(s)
  {
    TrimBlank(s);
    var a, b := TrimExact(s);
  }

  /**
   A command is forced exactly if the key was accepted with a `command` option or the configuration
   names one that is not blank, and the key's comes first.
   */
  lemma ForcedExactly(raw: Decision, options: seq<KeyOption>, unquote: Unquote)
    requires OptionsOk(options, unquote)
    ensures var forced := Forced(Configured(raw), ConstraintsOf(options, unquote));
            && (forced != "" <==> Has(options, "command") || !Blank(raw.forcedCommand))
            && (Has(options, "command") ==> forced == Trim(CommandIn(options, unquote)))
  {
    CommandExact(options, unquote);
    TrimBlank(CommandIn(options, unquote));
    TrimBlank(Trim(raw.forcedCommand));
    TrimAgain(raw.forcedCommand);
  }

  /** Every stage went well. */
  ghost predicate Passes(policy: Decision, key: KeyConstraints, p: Permissions, account: Account, start: StartRequest, s: Spec) {
    && Narrowed(policy, key).Ok? && DecisionOk(Narrowed(policy, key).value) && Snapshot(Narrowed(policy, key).value, p)
    && ToLaunchRequest(start).Ok? && AuthorizeLaunch(p, account, ToLaunchRequest(start).value).Ok?
    && ToProcessSpec(AuthorizeLaunch(p, account, ToLaunchRequest(start).value).value) == Ok(s)
    && SpecOk(s)
  }

  /** The permissions never exceed the policy, and respect the key. */
  lemma PermissionsBounded(policy: Decision, key: KeyConstraints, p: Permissions)
    requires Narrowed(policy, key).Ok? && Snapshot(Narrowed(policy, key).value, p)
    ensures (p.allowCommand ==> policy.allowCommand) && (p.allowShell ==> policy.allowShell) && (p.allowExec ==> policy.allowExec)
    ensures p.allowPty ==> policy.allowPty && !key.noPty
    ensures p.forcedCommand == Forced(policy, key)
    ensures forall name :: name in p.allowedEnvironment ==> Listed(policy.allowedEnvironment, name)
  {
  }

  /** What runs is the forced command if there is one, and otherwise what was asked for and allowed. */
  lemma ArgvConfined(policy: Decision, key: KeyConstraints, p: Permissions, account: Account, start: StartRequest, s: Spec)
    requires Passes(policy, key, p, account, start, s)
    ensures s.executable == account.loginShell && s.workingDirectory == account.homeDir
    ensures s.uid == account.id && s.gid == account.primaryGroup && s.groups == account.groups
    ensures var forced := Forced(policy, key);
            if forced != "" then s.argv == [Base(account.loginShell), "-c", forced]
            else if start.kind.Shell? then policy.allowShell && s.argv == ["-" + Base(account.loginShell)]
            else policy.allowExec && s.argv == [Base(account.loginShell), "-c", Trim(start.command)]
  {
    PermissionsBounded(policy, key, p);
  }

  /** A key accepted with a `command` option runs that command and nothing else, whatever the policy and the request say. */
  lemma KeyCommandRuns(policy: Decision, options: seq<KeyOption>, unquote: Unquote, p: Permissions, account: Account, start: StartRequest, s: Spec)
    requires OptionsOk(options, unquote) && Has(options, "command")
    requires Passes(policy, ConstraintsOf(options, unquote), p, account, start, s)
    ensures Trim(CommandIn(options, unquote)) != ""
    ensures s.argv == [Base(account.loginShell), "-c", Trim(CommandIn(options, unquote))]
  {
    CommandExact(options, unquote);
    TrimBlank(CommandIn(options, unquote));
    ArgvConfined(policy, ConstraintsOf(options, unquote), p, account, start, s);
  }

  /** With a forced command, what the client asks for makes no difference to what runs. */
  lemma ForcedIndependent(policy: Decision, key: KeyConstraints, p: Permissions, account: Account,
                          start: StartRequest, s: Spec, start': StartRequest, s': Spec)
    requires Passes(policy, key, p, account, start, s) && Passes(policy, key, p, account, start', s') && Forced(policy, key) != ""
    ensures s.argv == s'.argv && s.executable == s'.executable && s.workingDirectory == s'.workingDirectory
    ensures AccountVariables(account, Combined(s)) && AccountVariables(account, Combined(s'))
  {
    ArgvConfined(policy, key, p, account, start, s);
    ArgvConfined(policy, key, p, account, start', s');
    EnvironmentConfined(policy, key, p, account, start, s);
    EnvironmentConfined(policy, key, p, account, start', s');
  }

  lemma PtyConfined(policy: Decision, key: KeyConstraints, p: Permissions, account: Account, start: StartRequest, s: Spec)
    requires Passes(policy, key, p, account, start, s)
    ensures s.pty == start.pty && (s.pty.Some? ==> policy.allowPty && !key.noPty)
  {
    PermissionsBounded(policy, key, p);
  }

  /** Where the two halves of the environment come from. */
  lemma EnvironmentParts(policy: Decision, key: KeyConstraints, p: Permissions, account: Account, start: StartRequest, s: Spec)
    requires Passes(policy, key, p, account, start, s)
    ensures s.trusted == Trusted(account) && s.requested == ToLaunchRequest(start).value.environment
    ensures forall name :: name in s.requested ==> name in p.allowedEnvironment && name !in PROTECTED
  {
    var launch := ToLaunchRequest(start).value;
    assert EnvironmentAllowed(launch.environment, p.allowedEnvironment);
    forall name | name in s.requested ensures name in p.allowedEnvironment && name !in PROTECTED {
      assert Granted(launch.environment, p.allowedEnvironment, name);
    }
  }

  /** The five variables that say who runs the process, where and with which programs. */
  predicate AccountVariables(account: Account, environment: map<string, string>) {
    && "HOME" in environment && environment["HOME"] == account.homeDir
    && "USER" in environment && environment["USER"] == account.username
    && "LOGNAME" in environment && environment["LOGNAME"] == account.username
    && "SHELL" in environment && environment["SHELL"] == account.loginShell
    && "PATH" in environment && environment["PATH"] == TRUSTED_PATH
  }

  lemma TrustedVariables(account: Account, requested: map<string, string>)
    requires forall name :: name in requested ==> name !in PROTECTED
    ensures AccountVariables(account, Trusted(account) + requested)
  {
  }

  /** Where one requested value comes from. */
  predicate AskedFor(start: StartRequest, name: string, value: string) {
    value == ValueOf(start.environment, name) || (name == "TERM" && start.pty.Some? && value == start.pty.value.terminal)
  }

  lemma LaunchEnvironment(start: StartRequest, name: string)
    requires ToLaunchRequest(start).Ok? && name in ToLaunchRequest(start).value.environment
    ensures AskedFor(start, name, ToLaunchRequest(start).value.environment[name])
  {
  }

  lemma TrustedNames(account: Account, name: string)
    ensures name in Trusted(account) <==> name in PROTECTED
  {
  }

  /** The five account variables are the server's; every other name is on the policy's list and was asked for. */
  lemma EnvironmentConfined(policy: Decision, key: KeyConstraints, p: Permissions, account: Account, start: StartRequest, s: Spec)
    requires Passes(policy, key, p, account, start, s)
    ensures AccountVariables(account, Combined(s))
    ensures forall name :: name in Combined(s) && name !in PROTECTED ==>
              Listed(policy.allowedEnvironment, name) && AskedFor(start, name, Combined(s)[name])
  {
    PermissionsBounded(policy, key, p);
    EnvironmentParts(policy, key, p, account, start, s);
    TrustedVariables(account, s.requested);
    forall name ensures name in Trusted(account) <==> name in PROTECTED { TrustedNames(account, name); }
    forall name | name in Combined(s) && name !in PROTECTED
      ensures Listed(policy.allowedEnvironment, name) && AskedFor(start, name, Combined(s)[name])
    {
      LaunchEnvironment(start, name);
    }
  }

  /** All snapshots of one decision grant the same launches. */
  lemma SameLaunch(d: Decision, p: Permissions, p': Permissions, account: Account, r: LaunchRequest)
    requires Snapshot(d, p) && Snapshot(d, p')
    ensures AuthorizeLaunch(p, account, r) == AuthorizeLaunch(p', account, r)
  {
    forall name ensures name in p.allowedEnvironment <==> name in p'.allowedEnvironment {
      assert name in p.allowedEnvironment <==> Listed(d.allowedEnvironment, name);
    }
    forall name ensures Granted(r.environment, p.allowedEnvironment, name) <==> Granted(r.environment, p'.allowedEnvironment, name) {
    }
  }

  lemma AllAlike(policy: Decision, key: KeyConstraints, p: Permissions, account: Account, start: StartRequest)
    requires Narrowed(policy, key).Ok? && Snapshot(Narrowed(policy, key).value, p)
    ensures forall p', s :: Passes(policy, key, p', account, start, s) ==> Passes(policy, key, p, account, start, s)
  {
    forall p', s | Passes(policy, key, p', account, start, s) ensures Passes(policy, key, p, account, start, s) {
      SameLaunch(Narrowed(policy, key).value, p, p', account, ToLaunchRequest(start).value);
    }
  }

  /** The pipeline as the server runs it, up to the environment handed to the new process. */
  method Start(policy: Decision, key: KeyConstraints, account: Account, start: StartRequest, asked: seq<string>, combined: seq<string>)
    returns (r: Result<(Spec, seq<string>)>)
    requires ToLaunchRequest(start).Ok? ==>
               Distinct(asked) && forall name :: name in asked <==> name in ToLaunchRequest(start).value.environment
    requires Distinct(combined)
    requires ToLaunchRequest(start).Ok? ==>
               forall name :: name in combined <==> name in Trusted(account) + ToLaunchRequest(start).value.environment
    ensures r.Ok? <==> exists p, s :: Passes(policy, key, p, account, start, s)
    ensures r.Ok? ==> exists p :: Passes(policy, key, p, account, start, r.value.0)
    ensures r.Ok? ==> exists names :: Environ(r.value.1, names, Combined(r.value.0))
  {
    var narrowed := Narrowed(policy, key);
    if narrowed.Err? {
      return Err;
    }
    var permissions := NewConnectionPermissions(narrowed.value);
    if permissions.Ok? {
      AllAlike(policy, key, permissions.value, account, start);
    }
    var launch := ToLaunchRequest(start);
    if permissions.Err? || launch.Err? {
      return Err;
    }
    var environment := AuthorizeEnvironment(launch.value.environment, permissions.value.allowedEnvironment, asked);
    var authorized := AuthorizeLaunch(permissions.value, account, launch.value);
    if environment.Err? || authorized.Err? {
      return Err;
    }
    var spec := ToProcessSpec(authorized.value);
    if spec.Err? {
      return Err;
    }
    var groupsOk := CheckGroups(spec.value.groups, spec.value.gid);
    if !groupsOk || !SpecOk(spec.value) {
      return Err;
    }
    var environ, names := Environment(spec.value, combined);
    assert Passes(policy, key, permissions.value, account, start, spec.value);
    assert Environ(environ, names, Combined(spec.value));
    r := Ok((spec.value, environ));
  }
}
