/** Parameters of a command: their definitions, their values, and when values conform. */
module Parameters {
  import opened Wrappers

  /** A JSON value; arrays and objects are not told apart. */
  datatype Value = Null | Str(s: string) | Num(n: real) | Bool(b: bool) | Other(json: string)

  datatype Kind = StringKind | NumberKind | BooleanKind | EnumKind | UnsupportedKind(name: string)

  datatype Rules = Rules(
    pattern: string,
    maxLength: Option<int>,
    min: Option<real>,
    max: Option<real>,
    enumValues: seq<string>)

  datatype EnvMapping = EnvMapping(container: string, variable: string)

  /** A definition in a schema; `default` is Null if it has none. */
  datatype Definition = Definition(
    name: string,
    kind: Kind,
    required: bool,
    default: Value,
    rules: Option<Rules>,
    mapping: Option<EnvMapping>)

  type Schema = seq<Definition>

  type Params = map<string, Value>

  /** The regular expression library, and how `fmt` prints a value with %v. */
  datatype Library = Library(compiles: string -> bool, matches: (string, string) -> bool, show: Value -> string)

  // ----- Length of a string as the program counts it -----

  /** Bytes of a character in UTF-8. */
  function Utf8Size(c: char): nat {
    var n := c as int;
    if n < 0x80 then 1 else if n < 0x800 then 2 else if n < 0x1_0000 then 3 else 4
  }

  function Utf8Length(s: string): nat {
    if |s| == 0 then 0 else Utf8Length(s[..|s| - 1]) + Utf8Size(s[|s| - 1])
  }

  predicate Ascii(s: string) { forall i :: 0 <= i < |s| ==> s[i] as int < 0x80 }

  lemma {:induction false} LengthIsBytes(s: string)
    ensures |s| <= Utf8Length(s) <= 4 * |s|
    ensures Utf8Length(s) == |s| <==> Ascii(s)
  {
    if |s| > 0 {
      var front := s[..|s| - 1];
      LengthIsBytes(front);
      assert forall i :: 0 <= i < |front| ==> front[i] == s[i];
    }
  }

  // ----- Conformance -----

  predicate StringAllowed(lib: Library, rules: Option<Rules>, s: string) {
    rules.None? || (
      && (rules.value.pattern != "" ==> lib.compiles(rules.value.pattern) && lib.matches(rules.value.pattern, s))
      && (rules.value.maxLength.Some? ==> Utf8Length(s) <= rules.value.maxLength.value))
  }

  function OnlyMaxLength(n: int): Option<Rules> { Some(Rules("", Some(n), None, None, [])) }

  /** A maximum length means what a reader expects, a number of characters, exactly for texts in ASCII. */
  lemma MaxLengthIsCharactersIff(lib: Library, s: string)
    ensures (forall n :: StringAllowed(lib, OnlyMaxLength(n), s) <==> |s| <= n) <==> Ascii(s)
  {
    LengthIsBytes(s);
    if !Ascii(s) {
      assert !StringAllowed(lib, OnlyMaxLength(|s|), s);
    }
  }

  predicate NumberAllowed(rules: Option<Rules>, n: real) {
    rules.None? || (
      && (rules.value.min.Some? ==> rules.value.min.value <= n)
      && (rules.value.max.Some? ==> n <= rules.value.max.value))
  }

  predicate ChoiceAllowed(rules: Option<Rules>, s: string) {
    rules.None? || rules.value.enumValues == [] || s in rules.value.enumValues
  }

  predicate Accepts(lib: Library, d: Definition, v: Value) {
    match d.kind
    case StringKind => v.Str? && StringAllowed(lib, d.rules, v.s)
    case NumberKind => v.Num? && NumberAllowed(d.rules, v.n)
    case BooleanKind => v.Bool?
    case EnumKind => v.Str? && ChoiceAllowed(d.rules, v.s)
    case UnsupportedKind(_) => false
  }

  /** A value that is there fits its definition; one that is missing is optional or has a default. */
  predicate Meets(lib: Library, d: Definition, params: Params) {
    if d.name in params && params[d.name] != Null then Accepts(lib, d, params[d.name])
    else d.required ==> d.default != Null
  }

  ghost predicate Defined(schema: Schema, name: string) { exists i :: 0 <= i < |schema| && schema[i].name == name }

  /** What a parameter map must be, whatever order its entries come in. */
  ghost predicate Conforms(lib: Library, schema: Schema, params: Params) {
    && (forall name :: name in params ==> Defined(schema, name))
    && (forall i :: 0 <= i < |schema| ==> Meets(lib, schema[i], params))
  }

  /** For example: six characters where six are allowed, one of them not ASCII. */
  lemma SixCharactersRefused(lib: Library)
    ensures var d := Definition("city", StringKind, true, Null, OnlyMaxLength(6), None);
      var params := map["city" := Str("Z\U{FC}rich")];
      |params["city"].s| == 6 && !Conforms(lib, [d], params)
  {
    var d := Definition("city", StringKind, true, Null, OnlyMaxLength(6), None);
    var params: Params := map["city" := Str("Z\U{FC}rich")];
    LengthIsBytes("Z\U{FC}rich");
    assert "Z\U{FC}rich"[1] == '\U{FC}';
    assert !Meets(lib, [d][0], params);
  }

  // ----- The encoding that is counted -----

  type Octet = n: int | 0 <= n < 0x100

  /** A code point in UTF-8, by section 3 of RFC 3629. */
  function Encode(n: nat): (bytes: seq<Octet>)
    requires n < 0x11_0000
  {
    if n < 0x80 then [n]
    else if n < 0x800 then [0xC0 + n / 0x40, 0x80 + n % 0x40]
    else if n < 0x1_0000 then [0xE0 + n / 0x40 / 0x40, 0x80 + n / 0x40 % 0x40, 0x80 + n % 0x40]
    else
      [0xF0 + n / 0x40 / 0x40 / 0x40, 0x80 + n / 0x40 / 0x40 % 0x40, 0x80 + n / 0x40 % 0x40, 0x80 + n % 0x40]
  }

  /** How many bytes the first one announces. */
  function Announced(first: Octet): nat {
    if first < 0x80 then 1 else if first < 0xE0 then 2 else if first < 0xF0 then 3 else 4
  }

  /** The code point of so many bytes. */
  function Decoded(bytes: seq<Octet>): int
    requires 1 <= |bytes| <= 4
  {
    var first: int := bytes[0];
    if |bytes| == 1 then first
    else
      var own := if |bytes| == 2 then first - 0xC0 else if |bytes| == 3 then first - 0xE0 else first - 0xF0;
      Continued(own, bytes[1..])
  }

  /** Each further byte adds six bits. */
  function Continued(bits: int, rest: seq<Octet>): int
    decreases |rest|
  {
    if |rest| == 0 then bits else Continued(bits * 0x40 + (rest[0] as int - 0x80), rest[1..])
  }

  /** The size counted for a character is the number of bytes of its encoding, which tells it and can be read back. */
  lemma Utf8SizeIsEncoding(c: char)
    ensures var bytes := Encode(c as int);
      |bytes| == Utf8Size(c) == Announced(bytes[0]) && Decoded(bytes) == c as int
  {
    var n, bytes := c as int, Encode(c as int);
    if n >= 0x80 {
      var rest := bytes[1..];
      var a, b := n / 0x40, n / 0x40 / 0x40;
      SixBits(n);
      SixBits(a);
      SixBits(b);
      if |rest| == 1 {
        assert Continued(a, rest) == Continued(a * 0x40 + n % 0x40, rest[1..]);
      } else if |rest| == 2 {
        assert Continued(b, rest) == Continued(b * 0x40 + a % 0x40, rest[1..]);
        assert Continued(a, rest[1..]) == Continued(a * 0x40 + n % 0x40, rest[1..][1..]);
      } else {
        assert Continued(b / 0x40, rest) == Continued(b / 0x40 * 0x40 + b % 0x40, rest[1..]);
        assert Continued(b, rest[1..]) == Continued(b * 0x40 + a % 0x40, rest[1..][1..]);
        assert Continued(a, rest[1..][1..]) == Continued(a * 0x40 + n % 0x40, rest[1..][1..][1..]);
      }
    }
  }

  lemma SixBits(n: nat)
    ensures n == n / 0x40 * 0x40 + n % 0x40
  {
  }
}
