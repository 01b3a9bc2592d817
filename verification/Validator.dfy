/** The parameter validator: checking parameters, and building a command's arguments from them. */
module Validator {
  import opened Wrappers
  import opened Parameters
  import opened Sequences
  import opened Template
  import opened Rendering

  // ----- The errors a definition gives rise to -----

  datatype Code = UnknownParameter | Required | InvalidType | ValidationFailed

  datatype ValidationError = ValidationError(name: string, code: Code)

  function If(b: bool, code: Code): seq<Code> { if b then [code] else [] }

  function StringProblems(lib: Library, rules: Option<Rules>, s: string): seq<Code> {
    if rules.None? then []
    else if rules.value.pattern != "" && !lib.compiles(rules.value.pattern) then [ValidationFailed]
    else
      If(rules.value.pattern != "" && !lib.matches(rules.value.pattern, s), ValidationFailed)
      + If(rules.value.maxLength.Some? && Utf8Length(s) > rules.value.maxLength.value, ValidationFailed)
  }

  function NumberProblems(rules: Option<Rules>, n: real): seq<Code> {
    if rules.None? then []
    else
      If(rules.value.min.Some? && n < rules.value.min.value, ValidationFailed)
      + If(rules.value.max.Some? && n > rules.value.max.value, ValidationFailed)
  }

  function TypeProblems(lib: Library, d: Definition, v: Value): seq<Code> {
    match d.kind
    case StringKind => if v.Str? then StringProblems(lib, d.rules, v.s) else [InvalidType]
    case NumberKind => if v.Num? then NumberProblems(d.rules, v.n) else [InvalidType]
    case BooleanKind => If(!v.Bool?, InvalidType)
    case EnumKind => if v.Str? then If(!ChoiceAllowed(d.rules, v.s), ValidationFailed) else [InvalidType]
    case UnsupportedKind(_) => [InvalidType]
  }

  function Problems(lib: Library, d: Definition, params: Params): seq<Code> {
    if d.name !in params || params[d.name] == Null then If(d.required && d.default == Null, Required)
    else TypeProblems(lib, d, params[d.name])
  }

  function Labelled(name: string, codes: seq<Code>): seq<ValidationError> {
    seq(|codes|, i requires 0 <= i < |codes| => ValidationError(name, codes[i]))
  }

  /** Of the first `n` definitions. */
  function ErrorsUpTo(lib: Library, schema: Schema, params: Params, n: nat): seq<ValidationError>
    requires n <= |schema|
  {
    if n == 0 then []
    else ErrorsUpTo(lib, schema, params, n - 1) + Labelled(schema[n - 1].name, Problems(lib, schema[n - 1], params))
  }

  function SchemaErrors(lib: Library, schema: Schema, params: Params): seq<ValidationError> {
    ErrorsUpTo(lib, schema, params, |schema|)
  }

  function UnknownErrors(names: seq<string>): seq<ValidationError> {
    seq(|names|, i requires 0 <= i < |names| => ValidationError(names[i], UnknownParameter))
  }

  lemma ProblemsIffNotMet(lib: Library, d: Definition, params: Params)
    ensures Problems(lib, d, params) == [] <==> Meets(lib, d, params)
  {
  }

  lemma LabelledEmpty(name: string, codes: seq<Code>)
    ensures Labelled(name, codes) == [] <==> codes == []
  {
    assert |Labelled(name, codes)| == |codes|;
  }

  /** A schema gives no errors exactly when every definition in it is met. */
  lemma {:induction false} NoErrorsIffMet(lib: Library, schema: Schema, params: Params, n: nat)
    requires n <= |schema|
    ensures ErrorsUpTo(lib, schema, params, n) == [] <==> forall i :: 0 <= i < n ==> Meets(lib, schema[i], params)
  {
    if n > 0 {
      var d := schema[n - 1];
      assert (forall i :: 0 <= i < n ==> Meets(lib, schema[i], params)) <==>
             (forall i :: 0 <= i < n - 1 ==> Meets(lib, schema[i], params)) && Meets(lib, d, params);
      NoErrorsIffMet(lib, schema, params, n - 1);
      ProblemsIffNotMet(lib, d, params);
      LabelledEmpty(d.name, Problems(lib, d, params));
      BothEmpty(ErrorsUpTo(lib, schema, params, n - 1), Labelled(d.name, Problems(lib, d, params)));
    }
  }

  /** No parameter is unknown and no definition is unmet exactly when the map conforms. */
  lemma NoErrorsIffConforms(lib: Library, schema: Schema, params: Params, unknown: seq<string>)
    requires forall name :: name in unknown <==> name in params && !Defined(schema, name)
    ensures UnknownErrors(unknown) + SchemaErrors(lib, schema, params) == [] <==> Conforms(lib, schema, params)
  {
    NoErrorsIffMet(lib, schema, params, |schema|);
    assert |UnknownErrors(unknown)| == |unknown|;
    assert unknown != [] ==> unknown[0] in unknown;
  }

  class ValidationResult {
    var valid: bool
    var errors: seq<ValidationError>

    constructor ()
      ensures valid && errors == []
    {
      valid, errors := true, [];
    }

    method Add(name: string, code: Code)
      modifies this
      ensures !valid && errors == old(errors) + Labelled(name, [code])
    {
      valid := false;
      errors := errors + [ValidationError(name, code)];
    }

    /** What one check did: it added these errors, and the result stays valid if there are none. */
    twostate predicate Added(name: string, codes: seq<Code>)
      reads this
    {
      && errors == old(errors) + Labelled(name, codes)
      && valid == (old(valid) && codes == [])
    }
  }

  class ParamValidator {
    const lib: Library

    constructor (lib: Library)
      ensures this.lib == lib
    {
      this.lib := lib;
    }

    method ValidateStringConstraints(d: Definition, s: string, result: ValidationResult)
      modifies result
      ensures result.Added(d.name, StringProblems(lib, d.rules, s))
    {
      if d.rules.None? {
        return;
      }
      var rules := d.rules.value;
      if rules.pattern != "" {
        if !lib.compiles(rules.pattern) {
          result.Add(d.name, ValidationFailed);
          return;
        }
        if !lib.matches(rules.pattern, s) {
          result.Add(d.name, ValidationFailed);
        }
      }
      if rules.maxLength.Some? && Utf8Length(s) > rules.maxLength.value {
        result.Add(d.name, ValidationFailed);
      }
    }

    method ValidateNumberConstraints(d: Definition, n: real, result: ValidationResult)
      modifies result
      ensures result.Added(d.name, NumberProblems(d.rules, n))
    {
      if d.rules.None? {
        return;
      }
      if d.rules.value.min.Some? && n < d.rules.value.min.value {
        result.Add(d.name, ValidationFailed);
      }
      if d.rules.value.max.Some? && n > d.rules.value.max.value {
        result.Add(d.name, ValidationFailed);
      }
    }

    method ValidateEnumConstraints(d: Definition, s: string, result: ValidationResult)
      modifies result
      ensures result.Added(d.name, If(!ChoiceAllowed(d.rules, s), ValidationFailed))
    {
      if d.rules.None? || |d.rules.value.enumValues| == 0 {
        return;
      }
      var allowed := d.rules.value.enumValues;
      var i := 0;
      while i < |allowed|
        invariant i <= |allowed| && s !in allowed[..i]
        invariant result.valid == old(result.valid) && result.errors == old(result.errors)
      {
        if s == allowed[i] {
          return;
        }
        i := i + 1;
      }
      result.Add(d.name, ValidationFailed);
    }

    method ValidateType(d: Definition, v: Value, result: ValidationResult)
      modifies result
      ensures result.Added(d.name, TypeProblems(lib, d, v))
    {
      match d.kind {
        case StringKind =>
          if !v.Str? {
            result.Add(d.name, InvalidType);
            return;
          }
          ValidateStringConstraints(d, v.s, result);
        case NumberKind =>
          if !v.Num? {
            result.Add(d.name, InvalidType);
            return;
          }
          ValidateNumberConstraints(d, v.n, result);
        case BooleanKind =>
          if !v.Bool? {
            result.Add(d.name, InvalidType);
          }
        case EnumKind =>
          if !v.Str? {
            result.Add(d.name, InvalidType);
            return;
          }
          ValidateEnumConstraints(d, v.s, result);
        case UnsupportedKind(_) =>
          result.Add(d.name, InvalidType);
      }
    }

    /** The names the schema defines. */
    method KnownNames(schema: Schema) returns (known: set<string>)
      ensures forall name :: name in known <==> Defined(schema, name)
    {
      known := {};
      var i := 0;
      while i < |schema|
        invariant i <= |schema| && forall name :: name in known <==> exists j :: 0 <= j < i && schema[j].name == name
      {
        known := known + {schema[i].name};
        i := i + 1;
      }
    }

    /** Reports each parameter the schema does not define, in whatever order the map yields them. */
    method RejectUnknown(known: set<string>, params: Params, result: ValidationResult)
        returns (ghost unknown: seq<string>)
      requires result.valid && result.errors == []
      modifies result
      ensures result.errors == UnknownErrors(unknown) && (result.valid <==> unknown == [])
      ensures forall i, j :: 0 <= i < j < |unknown| ==> unknown[i] != unknown[j]
      ensures forall name :: name in unknown <==> name in params && name !in known
    {
      unknown := [];
      var rest := params.Keys;
      while rest != {}
        invariant rest <= params.Keys
        invariant result.errors == UnknownErrors(unknown) && (result.valid <==> unknown == [])
        invariant forall i, j :: 0 <= i < j < |unknown| ==> unknown[i] != unknown[j]
        invariant forall name :: name in unknown <==> name in params && name !in known && name !in rest
        decreases |rest|
      {
        var name :| name in rest;
        rest := rest - {name};
        if name !in known {
          result.Add(name, UnknownParameter);
          unknown := unknown + [name];
        }
      }
    }

    method CheckDefinition(d: Definition, params: Params, result: ValidationResult)
      modifies result
      ensures result.Added(d.name, Problems(lib, d, params))
    {
      if d.name !in params || params[d.name] == Null {
        if d.required && d.default == Null {
          result.Add(d.name, Required);
        }
        return;
      }
      ValidateType(d, params[d.name], result);
    }

    method CheckSchema(schema: Schema, params: Params, result: ValidationResult)
      requires result.valid <==> result.errors == []
      modifies result
      ensures result.errors == old(result.errors) + SchemaErrors(lib, schema, params)
      ensures result.valid <==> result.errors == []
    {
      ghost var base := result.errors;
      assert base + [] == base;
      var i := 0;
      while i < |schema|
        invariant i <= |schema|
        invariant result.errors == base + ErrorsUpTo(lib, schema, params, i)
        invariant result.valid <==> result.errors == []
      {
        CheckDefinition(schema[i], params, result);
        Assoc(base, ErrorsUpTo(lib, schema, params, i), Labelled(schema[i].name, Problems(lib, schema[i], params)));
        i := i + 1;
      }
    }

    /**
     Accepts exactly the maps that conform. Its errors are one for each unknown parameter, in
     some order, and then those of the definitions, in the schema's order.
     */
    method Validate(schema: Schema, params: Params) returns (result: ValidationResult, ghost unknown: seq<string>)
      ensures fresh(result)
      ensures result.valid <==> Conforms(lib, schema, params)
      ensures result.valid <==> result.errors == []
      ensures result.errors == UnknownErrors(unknown) + SchemaErrors(lib, schema, params)
      ensures forall i, j :: 0 <= i < j < |unknown| ==> unknown[i] != unknown[j]
      ensures forall name :: name in unknown <==> name in params && !Defined(schema, name)
    {
      result := new ValidationResult();
      var known := KnownNames(schema);
      unknown := RejectUnknown(known, params, result);
      CheckSchema(schema, params, result);
      NoErrorsIffConforms(lib, schema, params, unknown);
    }

    // ----- BuildCommandArgs -----

    /** Whether a placeholder occurs in the token. */
    method MatchString(token: string) returns (found: bool)
      ensures found <==> !NoHoleIn(token)
    {
      var i := 0;
      while i < |token|
        invariant i <= |token|
        invariant forall j :: 0 <= j < i ==> MatchLength(token[j..]) == 0
      {
        if MatchLength(token[i..]) > 0 {
          return true;
        }
        i := i + 1;
      }
      NoHoleAnywhere(token);
      return false;
    }

    /** What to put for a placeholder. */
    method Replacement(name: string, schema: Schema, params: Params) returns (text: string)
      ensures text == Fill(lib, schema, params, Hole(name))
    {
      if name in params {
        return lib.show(params[name]);
      }
      var i := 0;
      while i < |schema|
        invariant i <= |schema| && DefaultText(lib, schema, name) == DefaultText(lib, schema[i..], name)
      {
        if schema[i].name == name && schema[i].default != Null {
          return lib.show(schema[i].default);
        }
        assert schema[i..][1..] == schema[i + 1..];
        i := i + 1;
      }
      return Source(Hole(name));
    }

    /** Replaces the placeholders from left to right, and goes on after each. */
    method ReplaceAll(token: string, schema: Schema, params: Params) returns (out: string)
      ensures out == Argument(lib, schema, params, token)
    {
      out := "";
      var rest := token;
      ghost var all := Argument(lib, schema, params, token);
      assert "" + all == all;
      while rest != ""
        invariant out + Argument(lib, schema, params, rest) == all
        decreases |rest|
      {
        var n := MatchLength(rest);
        ghost var more := Argument(lib, schema, params, rest[if n > 0 then n else 1..]);
        if n > 0 {
          ArgumentOfHole(lib, schema, params, rest, n);
          var text := Replacement(rest[2..n - 2], schema, params);
          Assoc(out, text, more);
          out := out + text;
          rest := rest[n..];
        } else {
          ArgumentOfText(lib, schema, params, rest);
          Assoc(out, [rest[0]], more);
          out := out + [rest[0]];
          rest := rest[1..];
        }
      }
      assert out + "" == out;
    }

    /** A token in which no placeholder occurs is an argument as it is. */
    method BuildArg(token: string, schema: Schema, params: Params) returns (arg: string)
      ensures arg == Argument(lib, schema, params, token)
    {
      var found := MatchString(token);
      if found {
        arg := ReplaceAll(token, schema, params);
      } else {
        arg := token;
        RenderWithoutHoles(lib, schema, params, token);
      }
    }

    method BuildCommandArgs(command: string, schema: Schema, params: Params) returns (args: seq<string>)
      ensures args == Arguments(lib, schema, params, command)
    {
      var tokens := Fields(command);
      args := [];
      var i := 0;
      while i < |tokens|
        invariant |args| == i <= |tokens|
        invariant forall j :: 0 <= j < i ==> args[j] == Argument(lib, schema, params, tokens[j])
      {
        var arg := BuildArg(tokens[i], schema, params);
        args := args + [arg];
        i := i + 1;
      }
      ArgumentsByField(lib, schema, params, command, args);
    }
  }

  /**
   The codes: a missing required parameter is "required", a value of the wrong kind is
   "invalid type" and nothing more, a value of the right kind that its rules do not allow
   fails validation, once for each rule that it breaks.
   */
  lemma ProblemCodes(lib: Library, d: Definition, params: Params)
    ensures var problems := Problems(lib, d, params);
      if d.name !in params || params[d.name] == Null then
        problems == if d.required && d.default == Null then [Required] else []
      else if !OfKind(d.kind, params[d.name]) then problems == [InvalidType]
      else
        && |problems| == Broken(lib, d, params[d.name])
        && forall i :: 0 <= i < |problems| ==> problems[i] == ValidationFailed
  {
  }

  predicate OfKind(kind: Kind, v: Value) {
    match v
    case Str(_) => kind == StringKind || kind == EnumKind
    case Num(_) => kind == NumberKind
    case Bool(_) => kind == BooleanKind
    case _ => false
  }

  /**
   How many of its definition's rules a value of the right kind breaks; a pattern that does
   not compile hides the length.
   */
  function Broken(lib: Library, d: Definition, v: Value): nat {
    if d.rules.None? then 0
    else
      var rules := d.rules.value;
      match v
      case Num(n) =>
        (if rules.min.Some? && n < rules.min.value then 1 else 0)
        + (if rules.max.Some? && rules.max.value < n then 1 else 0)
      case Str(s) =>
        if d.kind == EnumKind then if rules.enumValues != [] && s !in rules.enumValues then 1 else 0
        else if rules.pattern != "" && !lib.compiles(rules.pattern) then 1
        else
          (if rules.pattern != "" && !lib.matches(rules.pattern, s) then 1 else 0)
          + (if rules.maxLength.Some? && rules.maxLength.value < Utf8Length(s) then 1 else 0)
      case _ => 0
  }

  /** A value that is not null is accepted exactly if it is of the right kind and breaks no rule. */
  lemma AcceptedIff(lib: Library, d: Definition, v: Value)
    ensures Accepts(lib, d, v) <==> OfKind(d.kind, v) && Broken(lib, d, v) == 0
  {
  }

  /** A map with just a parameter that no definition names gets one error, which names it as unknown. */
  lemma UnknownIsNamed(lib: Library, name: string, v: Value)
    ensures !Conforms(lib, [], map[name := v])
    ensures UnknownErrors([name]) + SchemaErrors(lib, [], map[name := v]) == [ValidationError(name, UnknownParameter)]
  {
    assert name in map[name := v] && !Defined([], name);
  }
}
