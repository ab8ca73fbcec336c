/** The options of an authorized_keys entry and the constraints they put on a key. */
module KeyOptions {
  import opened Types
  import opened StartCodec

  datatype KeyOption = KeyOption(name: string, value: Option<string>)

  datatype KeyConstraints = KeyConstraints(forcedCommand: string, noPty: bool, restricted: bool)

  const MAX_COMMAND := 24576

  // ----- one option

  /** strings.Cut at the first equals sign. */
  function Cut(option: string): KeyOption {
    if option == "" then KeyOption("", None)
    else if option[0] == '=' then KeyOption("", Some(option[1..]))
    else var rest := Cut(option[1..]); rest.(name := [option[0]] + rest.name)
  }

  /** The option is its name, and its value if it has one, with the first equals sign between them. */
  lemma {:induction false} CutExact(option: string)
    ensures var o := Cut(option);
            '=' !in o.name && option == o.name + (if o.value.Some? then "=" + o.value.value else "")
  {
    if option != "" && option[0] != '=' {
      CutExact(option[1..]);
      assert option == [option[0]] + option[1..];
    }
  }

  /** parseAuthorizedKeyOption */
  function ParseOption(option: string): Result<KeyOption> {
    if option == "" || Cut(option).name == "" then Err else Ok(Cut(option))
  }

  // ----- the constraints

  predicate CommandOk(command: string) {
    !Blank(command) && '\0' !in command && ByteLength(command) <= MAX_COMMAND
  }

  /** What strconv.Unquote makes of an option's value. */
  type Unquote = string -> Result<string>

  predicate OptionOk(o: KeyOption, unquote: Unquote) {
    if o.name == "command" then o.value.Some? && unquote(o.value.value).Ok? && CommandOk(unquote(o.value.value).value)
    else (o.name == "no-pty" || o.name == "restrict") && o.value.None?
  }

  predicate OptionsOk(options: seq<KeyOption>, unquote: Unquote) {
    && (forall i :: 0 <= i < |options| ==> OptionOk(options[i], unquote))
    && (forall i, j :: 0 <= i < j < |options| ==> options[i].name != options[j].name)
  }

  predicate Has(options: seq<KeyOption>, name: string) {
    exists i :: 0 <= i < |options| && options[i].name == name
  }

  /** The command that the options force; empty if there is none. */
  function CommandIn(options: seq<KeyOption>, unquote: Unquote): string
    requires forall i :: 0 <= i < |options| ==> OptionOk(options[i], unquote)
  {
    if options == [] then ""
    else
      var last := options[|options| - 1];
      assert OptionOk(last, unquote);
      if last.name == "command" then unquote(last.value.value).value else CommandIn(options[..|options| - 1], unquote)
  }

  function ConstraintsOf(options: seq<KeyOption>, unquote: Unquote): KeyConstraints
    requires OptionsOk(options, unquote)
  {
    KeyConstraints(CommandIn(options, unquote), Has(options, "no-pty") || Has(options, "restrict"), Has(options, "restrict"))
  }

  lemma HasMore(options: seq<KeyOption>, o: KeyOption, name: string)
    ensures Has(options + [o], name) <==> Has(options, name) || o.name == name
  {
    var more := options + [o];
    if Has(options, name) {
      var i :| 0 <= i < |options| && options[i].name == name;
      assert more[i].name == name;
    }
    if o.name == name {
      assert more[|options|].name == name;
    }
  }

  /** One more option that is in order. */
  lemma OneMore(options: seq<KeyOption>, o: KeyOption, unquote: Unquote)
    requires OptionsOk(options, unquote) && OptionOk(o, unquote) && !Has(options, o.name)
    ensures OptionsOk(options + [o], unquote)
    ensures CommandIn(options + [o], unquote) == if o.name == "command" then unquote(o.value.value).value else CommandIn(options, unquote)
  {
    assert (options + [o])[..|options|] == options;
  }

  /** parseAuthorizedKeyConstraints */
  method ParseConstraints(options: seq<KeyOption>, unquote: Unquote) returns (r: Result<KeyConstraints>)
    ensures r == if OptionsOk(options, unquote) then Ok(ConstraintsOf(options, unquote)) else Err
  {
    var constraints := KeyConstraints("", false, false);
    var seen: set<string> := {};
    for i := 0 to |options|
      invariant forall name :: name in seen <==> Has(options[..i], name)
      invariant OptionsOk(options[..i], unquote) && constraints == ConstraintsOf(options[..i], unquote)
    {
      var option := options[i];
      if option.name in seen {
        SeenBefore(options, unquote, i);
        return Err;
      }
      seen := seen + {option.name};
      var next := Constrain(constraints, option, unquote);
      if next.Err? {
        return Err;
      }
      NextConstraints(options, unquote, i);
      assert options[..i + 1] == options[..i] + [option];
      forall name ensures Has(options[..i + 1], name) <==> Has(options[..i], name) || option.name == name {
        HasMore(options[..i], option, name);
      }
      constraints := next.value;
    }
    assert options[..|options|] == options;
    return Ok(constraints);
  }

  lemma SeenBefore(options: seq<KeyOption>, unquote: Unquote, i: nat)
    requires i < |options| && Has(options[..i], options[i].name)
    ensures !OptionsOk(options, unquote)
  {
    var k :| 0 <= k < |options[..i]| && options[..i][k].name == options[i].name;
    assert options[k].name == options[i].name;
  }

  /** The switch over one option's name. */
  function Constrain(c: KeyConstraints, o: KeyOption, unquote: Unquote): (r: Result<KeyConstraints>)
    ensures r.Ok? <==> OptionOk(o, unquote)
  {
    if o.name == "command" then
      if o.value.None? || unquote(o.value.value).Err? || !CommandOk(unquote(o.value.value).value) then Err
      else Ok(c.(forcedCommand := unquote(o.value.value).value))
    else if o.name == "no-pty" then
      if o.value.Some? then Err else Ok(c.(noPty := true))
    else if o.name == "restrict" then
      if o.value.Some? then Err else Ok(c.(restricted := true, noPty := true))
    else Err
  }

  lemma NextConstraints(options: seq<KeyOption>, unquote: Unquote, i: nat)
    requires i < |options| && OptionsOk(options[..i], unquote) && OptionOk(options[i], unquote) && !Has(options[..i], options[i].name)
    ensures OptionsOk(options[..i + 1], unquote)
    ensures Constrain(ConstraintsOf(options[..i], unquote), options[i], unquote) == Ok(ConstraintsOf(options[..i + 1], unquote))
  {
    assert options[..i + 1] == options[..i] + [options[i]];
    OneMore(options[..i], options[i], unquote);
    HasMore(options[..i], options[i], "no-pty");
    HasMore(options[..i], options[i], "restrict");
  }

  /** A key that was accepted has a command that is not blank exactly if it has the option, and it is that option's. */
  lemma {:induction false} CommandExact(options: seq<KeyOption>, unquote: Unquote)
    requires OptionsOk(options, unquote)
    ensures Has(options, "command") <==> CommandIn(options, unquote) != ""
    ensures Has(options, "command") ==> CommandOk(CommandIn(options, unquote))
    ensures Has(options, "command") ==>
              exists i :: 0 <= i < |options| && options[i].name == "command" && CommandIn(options, unquote) == unquote(options[i].value.value).value
  {
    if options != [] {
      var n := |options| - 1;
      assert options == options[..n] + [options[n]];
      HasMore(options[..n], options[n], "command");
      if options[n].name == "command" {
        assert OptionOk(options[n], unquote);
      } else {
        CommandExact(options[..n], unquote);
        if Has(options, "command") {
          var i :| 0 <= i < n && options[..n][i].name == "command" && CommandIn(options, unquote) == unquote(options[..n][i].value.value).value;
          assert options[i].name == "command";
        }
      }
    }
  }
}
