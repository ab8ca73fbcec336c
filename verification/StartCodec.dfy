/** The start request of the command protocol and its protobuf form. */
module StartCodec {
  import opened Types

  datatype Kind = Shell | Exec | Unknown(number: nat)

  datatype Pty = Pty(terminal: string, rows: nat, columns: nat)

  datatype StartRequest = StartRequest(kind: Kind, command: string, pty: Option<Pty>, environment: map<string, string>)

  datatype Target = ShellTarget | ExecTarget(command: string)

  datatype Entry = Entry(name: string, value: string)

  /** The protobuf message; a missing target or a nil message is None. */
  datatype Start = Start(version: nat, target: Option<Target>, pty: Option<Pty>, environment: seq<Entry>)

  datatype Result<+T> = Ok(value: T) | Err

  const PROTOCOL_VERSION := 1

  // ----- text

  /** unicode.IsSpace */
  predicate IsSpace(c: char) {
    || '\t' <= c <= '\r' || c == ' ' || c == '\U{0085}' || c == '\U{00A0}' || c == '\U{1680}'
    || '\U{2000}' <= c <= '\U{200A}' || c == '\U{2028}' || c == '\U{2029}' || c == '\U{202F}'
    || c == '\U{205F}' || c == '\U{3000}'
  }

  /** strings.TrimSpace leaves nothing. */
  predicate Blank(s: string) {
    forall i :: 0 <= i < |s| ==> IsSpace(s[i])
  }

  predicate Before(a: string, b: string) {
    b != [] && (a == [] || a[0] < b[0] || (a[0] == b[0] && Before(a[1..], b[1..])))
  }

  lemma {:induction false} BeforeTotal(a: string, b: string)
    ensures a == b || Before(a, b) || Before(b, a)
    ensures !(Before(a, b) && Before(b, a))
  {
    if a != [] && b != [] && a[0] == b[0] {
      BeforeTotal(a[1..], b[1..]);
      assert a == [a[0]] + a[1..] && b == [b[0]] + b[1..];
    }
  }

  lemma {:induction false} BeforeTransitive(a: string, b: string, c: string)
    requires Before(a, b) && Before(b, c)
    ensures Before(a, c)
  {
    if a != [] && a[0] == b[0] && b[0] == c[0] {
      BeforeTransitive(a[1..], b[1..], c[1..]);
    }
  }

  /** Strictly ascending, so also without repetition. */
  predicate Ascending(names: seq<string>) {
    forall i, j :: 0 <= i < j < |names| ==> Before(names[i], names[j])
  }

  /** sort.Strings, as insertion into a sorted list; equal names do not occur here. */
  function Insert(name: string, names: seq<string>): (r: seq<string>)
    requires Ascending(names) && name !in names
    ensures Ascending(r) && multiset(r) == multiset(names) + multiset{name}
  {
    if names == [] then [name]
    else
      BeforeTotal(name, names[0]);
      assert names == [names[0]] + names[1..];
      if Before(name, names[0]) then
        assert forall j :: 0 <= j < |names| ==> Before(name, names[j]) by { Smaller(name, names); }
        [name] + names
      else
        var rest := Insert(name, names[1..]);
        assert forall j :: 0 <= j < |rest| ==> Before(names[0], rest[j]) by { Above(names[0], name, names[1..], rest); }
        [names[0]] + rest
  }

  lemma Smaller(name: string, names: seq<string>)
    requires Ascending(names) && names != [] && Before(name, names[0])
    ensures forall j :: 0 <= j < |names| ==> Before(name, names[j])
  {
    forall j | 0 <= j < |names| ensures Before(name, names[j]) {
      if j > 0 {
        BeforeTransitive(name, names[0], names[j]);
      }
    }
  }

  lemma Above(least: string, name: string, names: seq<string>, rest: seq<string>)
    requires Before(least, name) && multiset(rest) == multiset(names) + multiset{name}
    requires forall j :: 0 <= j < |names| ==> Before(least, names[j])
    ensures forall j :: 0 <= j < |rest| ==> Before(least, rest[j])
  {
    forall j | 0 <= j < |rest| ensures Before(least, rest[j]) {
      assert rest[j] in multiset(rest);
    }
  }

  /** Nothing is in the list twice. */
  predicate Distinct(names: seq<string>) {
    forall i, j :: 0 <= i < j < |names| ==> names[i] != names[j]
  }

  // ----- encodeStart

  function TargetOf(request: StartRequest): Result<Target> {
    match request.kind
    case Shell => if Blank(request.command) then Ok(ShellTarget) else Err
    case Exec => if Blank(request.command) then Err else Ok(ExecTarget(request.command))
    case Unknown(_) => Err
  }

  /** The list holds exactly the map's items, in the order of their names. */
  predicate Lists(entries: seq<Entry>, environment: map<string, string>) {
    && (forall i, j :: 0 <= i < j < |entries| ==> Before(entries[i].name, entries[j].name))
    && (forall i :: 0 <= i < |entries| ==> entries[i].name in environment && environment[entries[i].name] == entries[i].value)
    && (forall name :: name in environment ==> exists i :: 0 <= i < |entries| && entries[i].name == name)
  }

  /** The names in the order the map iteration happens to give them, sorted. */
  method SortNames(order: seq<string>) returns (names: seq<string>)
    requires Distinct(order)
    ensures Ascending(names) && multiset(names) == multiset(order)
  {
    names := [];
    for i := 0 to |order|
      invariant Ascending(names) && multiset(names) == multiset(order[..i])
    {
      assert order[..i + 1] == order[..i] + [order[i]];
      assert order[i] !in multiset(order[..i]);
      assert order[i] !in names;
      names := Insert(order[i], names);
    }
    assert order[..|order|] == order;
  }

  /** encodeStart; `order` is the order in which the map happens to be iterated. */
  method EncodeStart(request: StartRequest, order: seq<string>) returns (r: Result<Start>)
    requires Distinct(order) && forall name :: name in order <==> name in request.environment
    ensures r.Ok? <==> TargetOf(request).Ok?
    ensures r.Ok? ==> Encodes(request, r.value)
  {
    var target := TargetOf(request);
    if target.Err? {
      return Err;
    }
    var names := SortNames(order);
    var entries: seq<Entry> := [];
    for i := 0 to |names|
      invariant |entries| == i
      invariant forall k :: 0 <= k < i ==> entries[k] == Entry(names[k], ValueOf(request.environment, names[k]))
    {
      entries := entries + [Entry(names[i], ValueOf(request.environment, names[i]))];
    }
    SortedLists(request.environment, order, names, entries);
    return Ok(Start(PROTOCOL_VERSION, Some(target.value), request.pty, entries));
  }

  /** A Go map read: a missing name gives the empty string. */
  function ValueOf(environment: map<string, string>, name: string): string {
    if name in environment then environment[name] else ""
  }

  predicate Encodes(request: StartRequest, start: Start) {
    && TargetOf(request).Ok?
    && start.version == PROTOCOL_VERSION && start.target == Some(TargetOf(request).value)
    && start.pty == request.pty && Lists(start.environment, request.environment)
  }

  lemma SortedLists(environment: map<string, string>, order: seq<string>, names: seq<string>, entries: seq<Entry>)
    requires forall name :: name in order <==> name in environment
    requires Ascending(names) && multiset(names) == multiset(order) && |entries| == |names|
    requires forall k :: 0 <= k < |names| ==> entries[k] == Entry(names[k], ValueOf(environment, names[k]))
    ensures Lists(entries, environment)
  {
    forall i | 0 <= i < |entries| ensures entries[i].name in environment {
      assert names[i] in multiset(names) && names[i] in multiset(order);
    }
    forall name | name in environment ensures exists i :: 0 <= i < |entries| && entries[i].name == name {
      assert name in multiset(order) && name in multiset(names);
      var i :| 0 <= i < |names| && names[i] == name;
      assert entries[i].name == name;
    }
  }

  // ----- the encoding does not depend on the iteration order

  lemma FirstIsLeast(entries: seq<Entry>, environment: map<string, string>, name: string)
    requires Lists(entries, environment) && name in environment
    ensures entries != [] && (entries[0].name == name || Before(entries[0].name, name))
  {
    var i :| 0 <= i < |entries| && entries[i].name == name;
  }

  lemma RestLists(entries: seq<Entry>, environment: map<string, string>)
    requires Lists(entries, environment) && entries != []
    ensures Lists(entries[1..], environment - {entries[0].name})
  {
    var rest := environment - {entries[0].name};
    BeforeTotal(entries[0].name, entries[0].name);
    forall i | 0 <= i < |entries[1..]| ensures entries[1..][i].name in rest && rest[entries[1..][i].name] == entries[1..][i].value {
      assert entries[1..][i] == entries[i + 1] && Before(entries[0].name, entries[i + 1].name);
    }
    forall name | name in rest ensures exists i :: 0 <= i < |entries[1..]| && entries[1..][i].name == name {
      var i :| 0 <= i < |entries| && entries[i].name == name;
      assert i > 0 && entries[1..][i - 1].name == name;
    }
  }

  /** One map has one such list. */
  lemma {:induction false} ListsUnique(a: seq<Entry>, b: seq<Entry>, environment: map<string, string>)
    requires Lists(a, environment) && Lists(b, environment)
    ensures a == b
    decreases |a|
  {
    if a != [] {
      FirstIsLeast(b, environment, a[0].name);
      FirstIsLeast(a, environment, b[0].name);
      BeforeTotal(a[0].name, b[0].name);
      assert a[0] == b[0];
      RestLists(a, environment);
      RestLists(b, environment);
      ListsUnique(a[1..], b[1..], environment - {a[0].name});
      assert a == [a[0]] + a[1..] && b == [b[0]] + b[1..];
    }
  }

  lemma EncodingUnique(request: StartRequest, a: Start, b: Start)
    requires Encodes(request, a) && Encodes(request, b)
    ensures a == b
  {
    ListsUnique(a.environment, b.environment, request.environment);
  }

  // ----- decodeStart

  predicate NameOk(name: string) {
    '=' !in name && '\0' !in name
  }

  predicate ValueOk(value: string) {
    '\0' !in value
  }

  /** The loop of decodeStart over the environment entries. */
  function Collect(entries: seq<Entry>, seen: map<string, string>): Result<map<string, string>> {
    if entries == [] then Ok(seen)
    else if !NameOk(entries[0].name) || !ValueOk(entries[0].value) || entries[0].name in seen then Err
    else Collect(entries[1..], seen[entries[0].name := entries[0].value])
  }

  method DecodeEnvironment(entries: seq<Entry>) returns (r: Result<map<string, string>>)
    ensures r == Collect(entries, map[])
  {
    var environment: map<string, string> := map[];
    for i := 0 to |entries|
      invariant Collect(entries, map[]) == Collect(entries[i..], environment)
    {
      var entry := entries[i];
      assert entries[i..][1..] == entries[i + 1..];
      if !NameOk(entry.name) || !ValueOk(entry.value) || entry.name in environment {
        return Err;
      }
      environment := environment[entry.name := entry.value];
    }
    return Ok(environment);
  }

  function Decoded(start: Option<Start>): Result<StartRequest> {
    if start.None? || start.value.target.None? then Err
    else
      match Collect(start.value.environment, map[])
      case Err => Err
      case Ok(environment) =>
        match start.value.target.value
        case ShellTarget => Ok(StartRequest(Shell, "", start.value.pty, environment))
        case ExecTarget(command) => Ok(StartRequest(Exec, command, start.value.pty, environment))
  }

  method DecodeStart(start: Option<Start>) returns (r: Result<StartRequest>)
    ensures r == Decoded(start)
  {
    if start.None? {
      return Err;
    }
    var request := StartRequest(Shell, "", None, map[]);
    match start.value.target {
      case None => return Err;
      case Some(ShellTarget) =>
      case Some(ExecTarget(command)) => request := request.(kind := Exec, command := command);
    }
    request := request.(pty := start.value.pty);
    var environment := DecodeEnvironment(start.value.environment);
    if environment.Err? {
      return Err;
    }
    return Ok(request.(environment := environment.value));
  }

  // ----- round trip

  predicate LegalEnvironment(environment: map<string, string>) {
    forall name :: name in environment ==> NameOk(name) && ValueOk(environment[name])
  }

  /** Entries of a sorted list never collide, so only an illegal entry stops the loop. */
  lemma {:induction false} CollectLists(entries: seq<Entry>, environment: map<string, string>, seen: map<string, string>)
    requires Lists(entries, environment) && seen.Keys !! environment.Keys
    ensures Collect(entries, seen) == if LegalEnvironment(environment) then Ok(seen + environment) else Err
  {
    if entries == [] {
      assert environment == map[];
      assert seen + environment == seen;
    } else {
      var e, rest := entries[0], environment - {entries[0].name};
      RestLists(entries, environment);
      if NameOk(e.name) && ValueOk(e.value) {
        CollectLists(entries[1..], rest, seen[e.name := e.value]);
        assert seen[e.name := e.value] + rest == seen + environment;
        assert forall name :: name in environment ==> name == e.name || (name in rest && rest[name] == environment[name]);
      }
    }
  }

  /** What the server reads is what the client asked for; the blank command of a shell becomes empty. */
  function Normal(request: StartRequest): StartRequest {
    if request.kind.Shell? then request.(command := "") else request
  }

  /** Decoding an encoded request gives it back exactly if its environment is legal. */
  lemma RoundTrip(request: StartRequest, start: Start)
    requires Encodes(request, start)
    ensures Decoded(Some(start)) == if LegalEnvironment(request.environment) then Ok(Normal(request)) else Err
  {
    CollectLists(start.environment, request.environment, map[]);
    assert map[] + request.environment == request.environment;
  }
}
