/** ExecuteCommand: from a command and a user's parameters to a running execution. */
module Launch {
  import opened Wrappers
  import opened Parameters
  import opened Template
  import opened Rendering
  import opened Validator
  import opened EnvVar
  import opened ExecutorSpec

  datatype CommandEntry = CommandEntry(command: string, schema: Schema, mode: string, allowConcurrent: bool)

  datatype Refusal =
    | CannotResolve(error: ResolveError)
    | Invalid(errors: seq<ValidationError>)
    | CannotCount
    | AlreadyRunning
    | CannotStore

  /** What the runner is started with; `params` are those stored in the record. */
  datatype Started = Started(mode: Mode, args: seq<string>, params: Params)

  /** Any other text means create mode. */
  function ModeOf(mode: string): Mode {
    if mode == "exec" then ExecMode else if mode == "logs" then LogsMode else CreateMode
  }

  /** The parameters after the environment has filled them in, if the service was given a resolver. */
  function Filled(resolver: Option<Containers>, schema: Schema, user: Params): Result<Params, ResolveError> {
    if resolver.Some? then Resolved(resolver.value, schema, user, |schema|) else Ok(user)
  }

  predicate MayRun(cmd: CommandEntry, running: Option<nat>) { cmd.allowConcurrent || running == Some(0) }

  class LaunchService {
    const validator: ParamValidator
    const resolver: Option<Containers>

    constructor (validator: ParamValidator, resolver: Option<Containers>)
      ensures this.validator == validator && this.resolver == resolver
    {
      this.validator, this.resolver := validator, resolver;
    }

    /** `running` is the number of running executions, if it can be counted. */
    method CheckConcurrencyLock(cmd: CommandEntry, running: Option<nat>) returns (refusal: Option<Refusal>)
      ensures refusal.None? <==> MayRun(cmd, running)
      ensures MayRun(cmd, running) <==> cmd.allowConcurrent || (running.Some? && running.value == 0)
      ensures refusal.Some? ==> refusal.value == if running.None? then CannotCount else AlreadyRunning
    {
      if cmd.allowConcurrent {
        return None;
      }
      if running.None? {
        return Some(CannotCount);
      }
      if running.value > 0 {
        return Some(AlreadyRunning);
      }
      return None;
    }

    /**
     Starts a command exactly if its parameters can be filled in and then conform, it may run
     now, and the record can be stored, and otherwise names the first of these that fails.
     */
    method ExecuteCommand(cmd: CommandEntry, user: Params, running: Option<nat>, stored: bool)
      returns (r: Result<Started, Refusal>)
      ensures var filled := Filled(resolver, cmd.schema, user);
        && (r.Ok? <==>
             filled.Ok? && Conforms(validator.lib, cmd.schema, filled.value) && MayRun(cmd, running) && stored)
        && (filled.Err? ==> r == Err(CannotResolve(filled.error)))
        && (filled.Ok? ==> ((r.Err? && r.error.Invalid?) <==> !Conforms(validator.lib, cmd.schema, filled.value)))
        && (r.Ok? ==> r.value == Started(ModeOf(cmd.mode),
             if ModeOf(cmd.mode) == LogsMode then []
                 else Arguments(validator.lib, cmd.schema, filled.value, cmd.command),
             filled.value))
        && (r == Err(CannotStore) ==> !stored && MayRun(cmd, running))
    {
      var params := user;
      if resolver.Some? {
        var resolved := ResolveParams(resolver.value, cmd.schema, user);
        if resolved.Err? {
          return Err(CannotResolve(resolved.error));
        }
        params := resolved.value;
      }
      var result, _ := validator.Validate(cmd.schema, params);
      if !result.valid {
        return Err(Invalid(result.errors));
      }
      var refusal := CheckConcurrencyLock(cmd, running);
      if refusal.Some? {
        return Err(refusal.value);
      }
      var args: seq<string> := [];
      if ModeOf(cmd.mode) != LogsMode {
        args := validator.BuildCommandArgs(cmd.command, cmd.schema, params);
      }
      if !stored {
        return Err(CannotStore);
      }
      return Ok(Started(ModeOf(cmd.mode), args, params));
    }
  }

  // ----- End to end -----

  /**
   When parameters were filled in and conform, every placeholder that names a required
   parameter is replaced: by the user's value if there is one, or else by what the last
   mapping of that name found, or else by a default.
   */
  lemma RequiredEndToEnd(lib: Library, docker: Containers, schema: Schema, user: Params, i: nat)
    requires i < |schema| && schema[i].required
    requires Filled(Some(docker), schema, user).Ok?
    requires Conforms(lib, schema, Filled(Some(docker), schema, user).value)
    ensures var name := schema[i].name;
      var params := Filled(Some(docker), schema, user).value;
      var text := Fill(lib, schema, params, Hole(name));
      var last := LastMapped(schema, user, name, |schema|);
      && ValueText(lib, schema, params, name).Some?
      && (name in user ==> text == lib.show(user[name]))
      && (name in user && user[name] != Null ==> Accepts(lib, schema[i], user[name]))
      && (name !in user && last.Some? ==>
           var found := Lookup(docker, last.value, schema[last.value]);
           found.Ok? && text == lib.show(Str(found.value)) && Accepts(lib, schema[i], Str(found.value)))
      && (name !in user && last.None? ==> Some(text) == DefaultText(lib, schema, name))
  {
    RequiredIsFilled(lib, schema, Filled(Some(docker), schema, user).value, i);
    ResolvedMeaning(docker, schema, user, |schema|, schema[i].name);
  }

  /** So no placeholder that names a required parameter is left in any argument. */
  lemma NoRequiredHoleIsLeft(lib: Library, resolver: Option<Containers>, schema: Schema, user: Params,
      command: string, k: nat)
    requires Filled(resolver, schema, user).Ok?
    requires Conforms(lib, schema, Filled(resolver, schema, user).value) && k < |Fields(command)|
    ensures var params := Filled(resolver, schema, user).value;
      var left := Replaced(lib, schema, params, Segments(Fields(command)[k]));
      && Arguments(lib, schema, params, command)[k] == Unparse(left)
      && (forall i :: 0 <= i < |schema| && schema[i].required ==> Hole(schema[i].name) !in left)
  {
    var params := Filled(resolver, schema, user).value;
    var segments := Segments(Fields(command)[k]);
    ReplacedIsRendered(lib, schema, params, segments);
    forall i | 0 <= i < |schema| && schema[i].required
      ensures Hole(schema[i].name) !in Replaced(lib, schema, params, segments)
    {
      RequiredIsFilled(lib, schema, params, i);
    }
  }

  /**
   The environment only ever supplies strings, and nothing converts them: a definition is
   met by what a container supplies exactly if it is for strings or a choice, and allows it.
   A number or boolean parameter that is mapped can only get its value from the user.
   */
  lemma MappedIsMetIff(lib: Library, docker: Containers, schema: Schema, user: Params, i: nat)
    requires i < |schema| && NeedsEnv(schema[i], user)
    requires Filled(Some(docker), schema, user).Ok?
    ensures var last := LastMapped(schema, user, schema[i].name, |schema|);
      && last.Some? && Lookup(docker, last.value, schema[last.value]).Ok?
      && var v := Lookup(docker, last.value, schema[last.value]).value;
         Meets(lib, schema[i], Filled(Some(docker), schema, user).value) <==>
           || (schema[i].kind == StringKind && StringAllowed(lib, schema[i].rules, v))
           || (schema[i].kind == EnumKind && ChoiceAllowed(schema[i].rules, v))
  {
    ResolvedMeaning(docker, schema, user, |schema|, schema[i].name);
    assert Maps(schema[i], user, schema[i].name);
  }

  /** For example: a required number mapped to a variable that is set to one. */
  lemma MappedNumberExample(lib: Library) returns (docker: Containers, schema: Schema)
    ensures |schema| == 1 && schema[0].kind == NumberKind
    ensures Filled(Some(docker), schema, map[]) == Ok(map["port" := Str("5432")])
    ensures !Conforms(lib, schema, map["port" := Str("5432")])
  {
    docker := (i, container) => Some(["PORT" + "=" + "5432"]);
    var d := Definition("port", NumberKind, true, Null, None, Some(EnvMapping("db", "PORT")));
    var user: Params := map[];
    schema := [d];
    OneEntry("PORT", "5432");
    assert Lookup(docker, 0, d) == Ok("5432");
    assert Resolved(docker, schema, user, 0) == Ok(user) && NeedsEnv(d, user) && schema[0] == d;
    assert user["port" := Str("5432")] == map["port" := Str("5432")];
    assert !Meets(lib, schema[0], map["port" := Str("5432")]);
  }

  /** The two words for a mode, and what every other text means. */
  lemma ModesByWord(mode: string)
    ensures ModeOf(mode) == ExecMode <==> mode == "exec"
    ensures ModeOf(mode) == LogsMode <==> mode == "logs"
    ensures ModeOf(mode) == CreateMode <==> mode !in ["exec", "logs"]
  {
    assert "exec" != "logs" by { assert "exec"[0] != "logs"[0]; }
  }
}
