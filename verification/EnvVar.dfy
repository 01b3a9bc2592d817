/** Filling in parameters that the user left out from the environment of running containers. */
module EnvVar {
  import opened Wrappers
  import opened Parameters

  // ----- A container's environment -----

  function IndexOfEquals(entry: string): (i: nat)
    ensures i <= |entry| && (i < |entry| ==> entry[i] == '=')
    ensures forall j :: 0 <= j < i ==> entry[j] != '='
  {
    if |entry| == 0 || entry[0] == '=' then 0 else 1 + IndexOfEquals(entry[1..])
  }

  function AddEntry(env: map<string, string>, entry: string): map<string, string> {
    var i := IndexOfEquals(entry);
    if i < |entry| then env[entry[..i] := entry[i + 1..]] else env
  }

  function EnvMap(entries: seq<string>): map<string, string> {
    if |entries| == 0 then map[] else AddEntry(EnvMap(entries[..|entries| - 1]), entries[|entries| - 1])
  }

  /** The entry reads `key=value`, for a key without an equals sign. */
  predicate Sets(entry: string, key: string, value: string) { '=' !in key && entry == key + "=" + value }

  ghost predicate Mentions(entry: string, key: string) { exists value :: Sets(entry, key, value) }

  lemma EntryMeaning(env: map<string, string>, entry: string, key: string)
    ensures Mentions(entry, key) ==> key in AddEntry(env, entry) && Sets(entry, key, AddEntry(env, entry)[key])
    ensures !Mentions(entry, key) ==>
      (key in AddEntry(env, entry) <==> key in env) && (key in env ==> AddEntry(env, entry)[key] == env[key])
  {
    var i := IndexOfEquals(entry);
    if Mentions(entry, key) {
      var value :| Sets(entry, key, value);
      assert entry[|key|] == '=' && entry[..|key|] == key && entry[|key| + 1..] == value;
      assert forall j :: 0 <= j < |key| ==> entry[j] == key[j];
      assert i == |key|;
    } else if i < |entry| {
      assert entry == entry[..i] + "=" + entry[i + 1..];
      assert Sets(entry, entry[..i], entry[i + 1..]);
    }
  }

  /** The i-th entry sets the variable to this value, and no later one mentions it. */
  ghost predicate SetsLast(entries: seq<string>, i: nat, key: string, value: string)
    requires i < |entries|
  {
    Sets(entries[i], key, value) && forall j :: i < j < |entries| ==> !Mentions(entries[j], key)
  }

  /** A variable has a value exactly if an entry sets it, and then the value the last such entry gives it. */
  lemma {:induction false} EnvMapMeaning(entries: seq<string>, key: string)
    ensures key in EnvMap(entries) <==> exists i :: 0 <= i < |entries| && Mentions(entries[i], key)
    ensures key in EnvMap(entries) ==> exists i :: 0 <= i < |entries| && SetsLast(entries, i, key, EnvMap(entries)[key])
  {
    if |entries| > 0 {
      var front, last := entries[..|entries| - 1], entries[|entries| - 1];
      EnvMapMeaning(front, key);
      EntryMeaning(EnvMap(front), last, key);
      assert entries == front + [last];
      assert EnvMap(entries) == AddEntry(EnvMap(front), last);
      hide EnvMap, AddEntry, Sets, Mentions;
      if Mentions(last, key) {
        assert SetsLast(entries, |front|, key, EnvMap(entries)[key]);
      } else if key in EnvMap(front) {
        var i :| 0 <= i < |front| && SetsLast(front, i, key, EnvMap(front)[key]);
        StillLast(front, last, i, key, EnvMap(front)[key]);
      }
    }
  }

  lemma StillLast(front: seq<string>, last: string, i: nat, key: string, value: string)
    requires i < |front| && SetsLast(front, i, key, value) && !Mentions(last, key)
    ensures SetsLast(front + [last], i, key, value) && Mentions((front + [last])[i], key)
  {
  }

  lemma OneEntry(key: string, value: string)
    requires '=' !in key
    ensures var env := EnvMap([key + "=" + value]); key in env && env[key] == value
  {
    var entry := key + "=" + value;
    assert Sets(entry, key, value) && [entry][..0] == [];
    EntryMeaning(map[], entry, key);
    var found := AddEntry(map[], entry)[key];
    assert found == (key + "=" + found)[|key| + 1..] == (key + "=" + value)[|key| + 1..] == value;
  }

  /** Docker's answer to an inspection: the container's entries, unless it fails. */
  method InspectContainerEnv(info: Option<seq<string>>) returns (env: Option<map<string, string>>)
    ensures env == if info.Some? then Some(EnvMap(info.value)) else None
  {
    if info.None? {
      return None;
    }
    var envMap: map<string, string> := map[];
    var i := 0;
    while i < |info.value|
      invariant i <= |info.value| && envMap == EnvMap(info.value[..i])
    {
      var entry := info.value[i];
      var at := IndexOfEquals(entry);
      if at < |entry| {
        envMap := envMap[entry[..at] := entry[at + 1..]];
      }
      assert info.value[..i + 1][..i] == info.value[..i];
      i := i + 1;
    }
    assert info.value[..i] == info.value;
    return Some(envMap);
  }

  // ----- Resolving -----

  datatype ResolveError =
    | InspectFailed(name: string, mapping: EnvMapping)
    | VariableNotFound(name: string, mapping: EnvMapping)

  /** What Docker answers when asked for the `i`th definition's container. */
  type Containers = (nat, string) -> Option<seq<string>>

  predicate NeedsEnv(d: Definition, user: Params) { d.mapping.Some? && d.name !in user }

  function Lookup(docker: Containers, i: nat, d: Definition): Result<string, ResolveError>
    requires d.mapping.Some?
  {
    var m := d.mapping.value;
    var info := docker(i, m.container);
    if info.None? then Err(InspectFailed(d.name, m))
    else if m.variable in EnvMap(info.value) then Ok(EnvMap(info.value)[m.variable])
    else Err(VariableNotFound(d.name, m))
  }

  /** After the first `n` definitions. */
  function Resolved(docker: Containers, schema: Schema, user: Params, n: nat): Result<Params, ResolveError>
    requires n <= |schema|
  {
    if n == 0 then Ok(user)
    else
      var before := Resolved(docker, schema, user, n - 1);
      if before.Err? || !NeedsEnv(schema[n - 1], user) then before
      else
        var found := Lookup(docker, n - 1, schema[n - 1]);
        if found.Err? then Err(found.error) else Ok(before.value[schema[n - 1].name := Str(found.value)])
  }

  ghost predicate AllFound(docker: Containers, schema: Schema, user: Params, n: nat)
    requires n <= |schema|
  {
    forall i :: 0 <= i < n && NeedsEnv(schema[i], user) ==> Lookup(docker, i, schema[i]).Ok?
  }

  predicate Maps(d: Definition, user: Params, name: string) { NeedsEnv(d, user) && d.name == name }

  /** The last of the first `n` definitions that takes this name's value from a container. */
  function LastMapped(schema: Schema, user: Params, name: string, n: nat): (last: Option<nat>)
    requires n <= |schema|
    ensures last.Some? ==> last.value < n && Maps(schema[last.value], user, name)
    ensures forall j :: 0 <= j < n && (last.Some? ==> last.value < j) ==> !Maps(schema[j], user, name)
  {
    if n == 0 then None
    else if Maps(schema[n - 1], user, name) then Some(n - 1)
    else LastMapped(schema, user, name, n - 1)
  }

  /** It fails exactly when a variable it needs is not found, and reports the first such. */
  lemma {:induction false} ResolvedFails(docker: Containers, schema: Schema, user: Params, n: nat)
    requires n <= |schema|
    ensures var r := Resolved(docker, schema, user, n);
      && (r.Ok? <==> AllFound(docker, schema, user, n))
      && (r.Err? ==>
           exists i :: 0 <= i < n && NeedsEnv(schema[i], user) && Lookup(docker, i, schema[i]) == Err(r.error)
                       && AllFound(docker, schema, user, i))
  {
    if n > 0 {
      ResolvedFails(docker, schema, user, n - 1);
      if AllFound(docker, schema, user, n - 1) && NeedsEnv(schema[n - 1], user)
          && Lookup(docker, n - 1, schema[n - 1]).Err? {
        assert Lookup(docker, n - 1, schema[n - 1]) == Err(Resolved(docker, schema, user, n).error);
      }
    }
  }

  /** When it succeeds, what the user gave is kept, and just the mapped names are added, each from its last mapping. */
  lemma {:induction false} ResolvedMeaning(docker: Containers, schema: Schema, user: Params, n: nat, name: string)
    requires n <= |schema| && Resolved(docker, schema, user, n).Ok?
    ensures var r := Resolved(docker, schema, user, n).value;
      var last := LastMapped(schema, user, name, n);
      && (name in user ==> name in r && r[name] == user[name])
      && (name !in user && last.None? ==> name !in r)
      && (name !in user && last.Some? ==>
           var found := Lookup(docker, last.value, schema[last.value]);
           found.Ok? && name in r && r[name] == Str(found.value))
  {
    if n > 0 {
      ResolvedMeaning(docker, schema, user, n - 1, name);
    }
  }

  method ResolveParams(docker: Containers, schema: Schema, user: Params) returns (r: Result<Params, ResolveError>)
    ensures r == Resolved(docker, schema, user, |schema|)
  {
    var resolved := user;
    var i := 0;
    while i < |schema|
      invariant i <= |schema| && Resolved(docker, schema, user, i) == Ok(resolved)
    {
      var d := schema[i];
      if d.mapping.Some? && d.name !in user {
        var env := InspectContainerEnv(docker(i, d.mapping.value.container));
        if env.None? {
          ResolvedStops(docker, schema, user, i + 1, |schema|);
          return Err(InspectFailed(d.name, d.mapping.value));
        }
        if d.mapping.value.variable !in env.value {
          ResolvedStops(docker, schema, user, i + 1, |schema|);
          return Err(VariableNotFound(d.name, d.mapping.value));
        }
        resolved := resolved[d.name := Str(env.value[d.mapping.value.variable])];
      }
      i := i + 1;
    }
    return Ok(resolved);
  }

  lemma {:induction false} ResolvedStops(docker: Containers, schema: Schema, user: Params, m: nat, n: nat)
    requires m <= n <= |schema| && Resolved(docker, schema, user, m).Err?
    ensures Resolved(docker, schema, user, n) == Resolved(docker, schema, user, m)
  {
    if m < n {
      ResolvedStops(docker, schema, user, m, n - 1);
    }
  }

  /**
   What is looked up is the variable in the container that the mapping names, as its last
   entry sets it; it fails if Docker does, or if no entry sets it.
   */
  lemma LookupMeaning(docker: Containers, i: nat, d: Definition)
    requires d.mapping.Some?
    ensures var m, found := d.mapping.value, Lookup(docker, i, d);
      var info := docker(i, m.container);
      if info.None? then found == Err(InspectFailed(d.name, m))
      else if forall k :: 0 <= k < |info.value| ==> !Mentions(info.value[k], m.variable) then
        found == Err(VariableNotFound(d.name, m))
      else
        && found.Ok?
        && exists k :: 0 <= k < |info.value| && SetsLast(info.value, k, m.variable, found.value)
  {
    var m := d.mapping.value;
    var info := docker(i, m.container);
    if info.Some? {
      EnvMapMeaning(info.value, m.variable);
      if m.variable in EnvMap(info.value) {
        var k :| 0 <= k < |info.value| && SetsLast(info.value, k, m.variable, EnvMap(info.value)[m.variable]);
      }
    }
  }
}
