/** What a command's arguments are: its fields with values in place of the placeholders. */
module Rendering {
  import opened Wrappers
  import opened Sequences
  import opened Parameters
  import opened Template

  /** The first default that the schema gives for a name. */
  function DefaultText(lib: Library, schema: Schema, name: string): Option<string> {
    if |schema| == 0 then None
    else if schema[0].name == name && schema[0].default != Null then Some(lib.show(schema[0].default))
    else DefaultText(lib, schema[1..], name)
  }

  /** What stands for a name: its value even when that is Null, or else a default. */
  function ValueText(lib: Library, schema: Schema, params: Params, name: string): Option<string> {
    if name in params then Some(lib.show(params[name])) else DefaultText(lib, schema, name)
  }

  /** A placeholder for which there is no value stays as it is. */
  function Fill(lib: Library, schema: Schema, params: Params, segment: Segment): string {
    match segment
    case Text(text) => text
    case Hole(name) =>
      var value := ValueText(lib, schema, params, name);
      if value.Some? then value.value else Source(segment)
  }

  function Render(lib: Library, schema: Schema, params: Params, segments: seq<Segment>): string {
    if |segments| == 0 then "" else Fill(lib, schema, params, segments[0]) + Render(lib, schema, params, segments[1..])
  }

  function Argument(lib: Library, schema: Schema, params: Params, field: string): string {
    Render(lib, schema, params, Segments(field))
  }

  /** One argument for each field of the command string. */
  function Arguments(lib: Library, schema: Schema, params: Params, command: string): seq<string> {
    var fields := Fields(command);
    seq(|fields|, i requires 0 <= i < |fields| => Argument(lib, schema, params, fields[i]))
  }

  lemma ArgumentsByField(lib: Library, schema: Schema, params: Params, command: string, args: seq<string>)
    requires |args| == |Fields(command)|
    requires forall i :: 0 <= i < |args| ==> args[i] == Argument(lib, schema, params, Fields(command)[i])
    ensures args == Arguments(lib, schema, params, command)
  {
  }

  lemma RenderCons(lib: Library, schema: Schema, params: Params, segment: Segment, segments: seq<Segment>)
    ensures Render(lib, schema, params, [segment] + segments)
         == Fill(lib, schema, params, segment) + Render(lib, schema, params, segments)
  {
    assert ([segment] + segments)[1..] == segments;
  }

  lemma RenderPut(lib: Library, schema: Schema, params: Params, c: char, segments: seq<Segment>)
    ensures Render(lib, schema, params, PutText(c, segments)) == [c] + Render(lib, schema, params, segments)
  {
    if |segments| > 0 && segments[0].Text? {
      RenderCons(lib, schema, params, Text([c] + segments[0].text), segments[1..]);
      Assoc([c], segments[0].text, Render(lib, schema, params, segments[1..]));
    } else {
      RenderCons(lib, schema, params, Text([c]), segments);
    }
  }

  /** A field that begins with a placeholder. */
  lemma ArgumentOfHole(lib: Library, schema: Schema, params: Params, field: string, n: nat)
    requires n == MatchLength(field) > 0
    ensures Argument(lib, schema, params, field) ==
      Fill(lib, schema, params, Hole(field[2..n - 2])) + Argument(lib, schema, params, field[n..])
  {
    RenderCons(lib, schema, params, Hole(field[2..n - 2]), Segments(field[n..]));
  }

  /** A field that does not. */
  lemma ArgumentOfText(lib: Library, schema: Schema, params: Params, field: string)
    requires field != "" && MatchLength(field) == 0
    ensures Argument(lib, schema, params, field) == [field[0]] + Argument(lib, schema, params, field[1..])
  {
    RenderPut(lib, schema, params, field[0], Segments(field[1..]));
  }

  /** A field without placeholders is an argument as it is. */
  lemma {:induction false} RenderWithoutHoles(lib: Library, schema: Schema, params: Params, token: string)
    requires NoHoleIn(token)
    ensures Render(lib, schema, params, Segments(token)) == token
    decreases |token|
  {
    if token != "" {
      NoHoleInTail(token);
      RenderWithoutHoles(lib, schema, params, token[1..]);
      RenderPut(lib, schema, params, token[0], Segments(token[1..]));
      assert token[..1] == [token[0]];
      Halves(token, 1);
    }
  }

  function Sources(parts: seq<seq<Segment>>): seq<string> {
    seq(|parts|, i requires 0 <= i < |parts| => Unparse(parts[i]))
  }

  /**
   However a command is put together from white space and fields made of text and
   placeholders, each field becomes one argument, with every value in its place as it is:
   whatever a value contains, it is neither split at white space nor searched for
   placeholders.
   */
  lemma CommandIsRendered(lib: Library, schema: Schema, params: Params, gaps: seq<string>, parts: seq<seq<Segment>>)
    requires |gaps| == |parts| + 1 && Gaps(gaps)
    requires forall i :: 0 <= i < |parts| ==> Canonical(parts[i]) && IsField(Unparse(parts[i]))
    ensures var args := Arguments(lib, schema, params, Weave(gaps, Sources(parts)));
      |args| == |parts| && forall i :: 0 <= i < |parts| ==> args[i] == Render(lib, schema, params, parts[i])
  {
    FieldsOfWeave(gaps, Sources(parts));
    forall i | 0 <= i < |parts| ensures Segments(Sources(parts)[i]) == parts[i] {
      CanonicalUnique(parts[i]);
    }
  }

  predicate Mentions(segments: seq<Segment>, name: string) { Hole(name) in segments }

  /** An argument depends on no other values than those its own field names. */
  lemma {:induction false} ArgumentIsIsolated(lib: Library, schema: Schema, p: Params, q: Params,
      segments: seq<Segment>)
    requires forall name :: Mentions(segments, name) ==>
        (name in p <==> name in q) && (name in p ==> p[name] == q[name])
    ensures Render(lib, schema, p, segments) == Render(lib, schema, q, segments)
  {
    if |segments| > 0 {
      assert segments[0].Hole? ==> Mentions(segments, segments[0].name);
      assert forall name :: Mentions(segments[1..], name) ==> Mentions(segments, name);
      ArgumentIsIsolated(lib, schema, p, q, segments[1..]);
    }
  }

  lemma {:induction false} DefaultFound(lib: Library, schema: Schema, i: nat)
    requires i < |schema| && schema[i].default != Null
    ensures DefaultText(lib, schema, schema[i].name).Some?
  {
    if i > 0 {
      DefaultFound(lib, schema[1..], i - 1);
    }
  }

  /** With a conforming map, every placeholder that names a required parameter is replaced. */
  lemma RequiredIsFilled(lib: Library, schema: Schema, params: Params, i: nat)
    requires Conforms(lib, schema, params) && i < |schema| && schema[i].required
    ensures ValueText(lib, schema, params, schema[i].name).Some?
    ensures schema[i].name in params && params[schema[i].name] != Null ==>
      Accepts(lib, schema[i], params[schema[i].name])
      && Fill(lib, schema, params, Hole(schema[i].name)) == lib.show(params[schema[i].name])
  {
    assert Meets(lib, schema[i], params);
    if schema[i].name !in params {
      DefaultFound(lib, schema, i);
    }
  }

  /** The segments with text in place of every placeholder for which there is a value. */
  function Replaced(lib: Library, schema: Schema, params: Params, segments: seq<Segment>): (out: seq<Segment>)
    ensures forall name :: Hole(name) in out ==> ValueText(lib, schema, params, name).None?
  {
    if |segments| == 0 then []
    else
      var s := segments[0];
      [if s.Hole? && ValueText(lib, schema, params, s.name).Some? then Text(Fill(lib, schema, params, s)) else s]
      + Replaced(lib, schema, params, segments[1..])
  }

  lemma {:induction false} ReplacedIsRendered(lib: Library, schema: Schema, params: Params, segments: seq<Segment>)
    ensures Unparse(Replaced(lib, schema, params, segments)) == Render(lib, schema, params, segments)
  {
    if |segments| > 0 {
      ReplacedIsRendered(lib, schema, params, segments[1..]);
      UnparseCons(Replaced(lib, schema, params, segments)[0], Replaced(lib, schema, params, segments[1..]));
    }
  }

  /**
   A placeholder in a token of its own is replaced by the parameter's value if there is one,
   even null, or else by the first default that the schema gives for the name, or else it
   stays as it is; whether or not the parameter is required.
   */
  lemma PlaceholderMeaning(lib: Library, schema: Schema, params: Params, name: string)
    requires IsWord(name)
    ensures var argument := Argument(lib, schema, params, "{{" + name + "}}");
      && (name in params ==> argument == lib.show(params[name]))
      && (forall i :: 0 <= i < |schema| && name !in params && FirstDefault(schema, name, i) ==>
            argument == lib.show(schema[i].default))
      && (name !in params && (forall i :: 0 <= i < |schema| ==> schema[i].name != name || schema[i].default == Null) ==>
            argument == "{{" + name + "}}")
  {
    OnePlaceholder(name);
    var segments := [Hole(name)];
    assert segments[1..] == [];
    var filled := Fill(lib, schema, params, Hole(name));
    assert Render(lib, schema, params, segments) == filled + "" == filled;
    forall i | 0 <= i < |schema| && FirstDefault(schema, name, i)
      ensures DefaultText(lib, schema, name) == Some(lib.show(schema[i].default))
    {
      FirstDefaultIsTaken(lib, schema, name, i);
    }
    if forall i :: 0 <= i < |schema| ==> schema[i].name != name || schema[i].default == Null {
      NoDefault(lib, schema, name);
    }
  }

  /** The i-th definition is the first with this name and a default. */
  predicate FirstDefault(schema: Schema, name: string, i: nat)
    requires i < |schema|
  {
    && schema[i].name == name && schema[i].default != Null
    && forall j :: 0 <= j < i ==> schema[j].name != name || schema[j].default == Null
  }

  lemma {:induction false} FirstDefaultIsTaken(lib: Library, schema: Schema, name: string, i: nat)
    requires i < |schema| && FirstDefault(schema, name, i)
    ensures DefaultText(lib, schema, name) == Some(lib.show(schema[i].default))
  {
    if i > 0 {
      assert schema[0].name != name || schema[0].default == Null;
      assert forall j :: 0 <= j < i - 1 ==> schema[1..][j] == schema[j + 1];
      FirstDefaultIsTaken(lib, schema[1..], name, i - 1);
    }
  }

  lemma {:induction false} NoDefault(lib: Library, schema: Schema, name: string)
    requires forall i :: 0 <= i < |schema| ==> schema[i].name != name || schema[i].default == Null
    ensures DefaultText(lib, schema, name).None?
  {
    if |schema| > 0 {
      assert forall j :: 0 <= j < |schema| - 1 ==> schema[1..][j] == schema[j + 1];
      NoDefault(lib, schema[1..], name);
    }
  }
}
