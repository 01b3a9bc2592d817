/**
 Command templates: splitting a command string into fields, and a field into literal text
 and {{name}} placeholders.
 */
module Template {
  import opened Sequences

  // ----- Fields, as strings.Fields splits -----

  /** White space as Unicode defines it (property White_Space). */
  predicate IsSpace(c: char) {
    var n := c as int;
    9 <= n <= 13 || n == 32 || n == 0x85 || n == 0xA0 || n == 0x1680 || 0x2000 <= n <= 0x200A
    || n == 0x2028 || n == 0x2029 || n == 0x202F || n == 0x205F || n == 0x3000
  }

  /** How many characters up to the first that is, or is not, white space. */
  function SpanLength(s: string, space: bool): (n: nat)
    ensures n <= |s| && (forall i :: 0 <= i < n ==> IsSpace(s[i]) == space)
    ensures n < |s| ==> IsSpace(s[n]) != space
  {
    if |s| == 0 || IsSpace(s[0]) != space then 0 else 1 + SpanLength(s[1..], space)
  }

  function Fields(s: string): seq<string>
    decreases |s|
  {
    if |s| == 0 then []
    else if IsSpace(s[0]) then Fields(s[SpanLength(s, true)..])
    else [s[..SpanLength(s, false)]] + Fields(s[SpanLength(s, false)..])
  }

  predicate AllSpace(s: string) { forall i :: 0 <= i < |s| ==> IsSpace(s[i]) }

  predicate IsField(s: string) { s != "" && forall i :: 0 <= i < |s| ==> !IsSpace(s[i]) }

  /** `gaps[0] fields[0] gaps[1] ... fields[n-1] gaps[n]` */
  function Weave(gaps: seq<string>, fields: seq<string>): string
    requires |gaps| == |fields| + 1
  {
    if |fields| == 0 then gaps[0] else gaps[0] + fields[0] + Weave(gaps[1..], fields[1..])
  }

  /** White space around and between the fields, and at least one character of it between two. */
  predicate Gaps(gaps: seq<string>) {
    && (forall i :: 0 <= i < |gaps| ==> AllSpace(gaps[i]))
    && (forall i :: 0 < i < |gaps| - 1 ==> gaps[i] != "")
  }

  lemma {:induction false} SpanUnique(s: string, space: bool, n: nat)
    requires n <= |s| && (forall i :: 0 <= i < n ==> IsSpace(s[i]) == space) && (n < |s| ==> IsSpace(s[n]) != space)
    ensures SpanLength(s, space) == n
  {
    if n > 0 {
      SpanUnique(s[1..], space, n - 1);
    }
  }

  lemma GapFirst(gap: string, tail: string)
    requires AllSpace(gap) && (|tail| > 0 ==> !IsSpace(tail[0]))
    ensures Fields(gap + tail) == Fields(tail)
  {
    if gap != "" {
      SpanUnique(gap + tail, true, |gap|);
      assert (gap + tail)[|gap|..] == tail;
    } else {
      assert gap + tail == tail;
    }
  }

  lemma FieldFirst(field: string, rest: string)
    requires IsField(field) && (|rest| > 0 ==> IsSpace(rest[0]))
    ensures Fields(field + rest) == [field] + Fields(rest)
  {
    SpanUnique(field + rest, false, |field|);
    assert (field + rest)[..|field|] == field && (field + rest)[|field|..] == rest;
  }

  /** However a text is made of fields and white space, Fields gives back the fields. */
  lemma {:induction false} FieldsOfWeave(gaps: seq<string>, fields: seq<string>)
    requires |gaps| == |fields| + 1 && Gaps(gaps) && forall i :: 0 <= i < |fields| ==> IsField(fields[i])
    ensures Fields(Weave(gaps, fields)) == fields
    decreases |fields|
  {
    if |fields| == 0 {
      assert gaps[0] + "" == gaps[0];
      GapFirst(gaps[0], "");
    } else {
      var rest := Weave(gaps[1..], fields[1..]);
      assert Weave(gaps, fields) == gaps[0] + (fields[0] + rest);
      FieldsOfWeave(gaps[1..], fields[1..]);
      FieldFirst(fields[0], rest);
      GapFirst(gaps[0], fields[0] + rest);
    }
  }

  lemma WeavePrefix(gap: string, gaps: seq<string>, fields: seq<string>)
    requires |gaps| == |fields| + 1
    ensures Weave([gap + gaps[0]] + gaps[1..], fields) == gap + Weave(gaps, fields)
  {
    assert ([gap + gaps[0]] + gaps[1..])[1..] == gaps[1..];
    if |fields| > 0 {
      var more := Weave(gaps[1..], fields[1..]);
      assert gap + gaps[0] + fields[0] + more == gap + (gaps[0] + fields[0] + more);
    }
  }

  lemma WeaveCons(field: string, gaps: seq<string>, fields: seq<string>)
    requires |gaps| == |fields| + 1
    ensures Weave([""] + gaps, [field] + fields) == field + Weave(gaps, fields)
  {
    var g, f := [""] + gaps, [field] + fields;
    assert g[0] == "" && f[0] == field && g[1..] == gaps && f[1..] == fields;
    assert "" + field == field;
    assert Weave(g, f) == "" + field + Weave(gaps, fields);
  }

  lemma GapsPrefix(gap: string, gaps: seq<string>)
    requires Gaps(gaps) && |gaps| > 0 && AllSpace(gap)
    ensures Gaps([gap + gaps[0]] + gaps[1..])
  {
    var all := [gap + gaps[0]] + gaps[1..];
    forall i | 0 < i < |all| ensures all[i] == gaps[i] {}
  }

  lemma GapsCons(gaps: seq<string>)
    requires Gaps(gaps) && |gaps| > 0 && (|gaps| > 1 ==> gaps[0] != "")
    ensures Gaps([""] + gaps)
  {
    forall i | 0 < i < |[""] + gaps| ensures ([""] + gaps)[i] == gaps[i - 1] {}
  }

  /** Text that begins with white space has some before its first field. */
  lemma GapBeforeNext(s: string, gaps: seq<string>, fields: seq<string>)
    requires s != "" && IsSpace(s[0]) && |gaps| == |fields| + 1 && Weave(gaps, fields) == s
    requires |fields| > 0 && IsField(fields[0])
    ensures gaps[0] != ""
  {
    assert s == gaps[0] + (fields[0] + Weave(gaps[1..], fields[1..]));
    assert !IsSpace(fields[0][0]);
  }

  ghost predicate Woven(s: string, gaps: seq<string>, fields: seq<string>) {
    && |gaps| == |fields| + 1 && Gaps(gaps)
    && (forall i :: 0 <= i < |fields| ==> IsField(fields[i]))
    && Weave(gaps, fields) == s
  }

  lemma WovenAfterSpace(head: string, tail: string, gaps: seq<string>, fields: seq<string>)
    requires Woven(tail, gaps, fields) && AllSpace(head)
    ensures Woven(head + tail, [head + gaps[0]] + gaps[1..], fields)
  {
    WeavePrefix(head, gaps, fields);
    GapsPrefix(head, gaps);
  }

  lemma WovenAfterField(head: string, tail: string, gaps: seq<string>, fields: seq<string>)
    requires Woven(tail, gaps, fields) && IsField(head) && (tail != "" ==> IsSpace(tail[0]))
    ensures Woven(head + tail, [""] + gaps, [head] + fields)
  {
    WeaveCons(head, gaps, fields);
    if |fields| > 0 {
      assert tail != "" by { assert |Weave(gaps, fields)| >= |fields[0]|; }
      GapBeforeNext(tail, gaps, fields);
    }
    GapsCons(gaps);
  }

  lemma FieldsUnfold(s: string, n: nat)
    requires s != "" && n == SpanLength(s, IsSpace(s[0]))
    ensures n > 0 && Fields(s) == if IsSpace(s[0]) then Fields(s[n..]) else [s[..n]] + Fields(s[n..])
  {
  }

  /** And every text is made like that, of its fields. */
  lemma {:induction false} WeaveOfFields(s: string) returns (gaps: seq<string>)
    ensures Woven(s, gaps, Fields(s))
    decreases |s|
  {
    if |s| == 0 {
      gaps := [""];
    } else {
      var n := SpanLength(s, IsSpace(s[0]));
      var head, tail := s[..n], s[n..];
      FieldsUnfold(s, n);
      Halves(s, n);
      var rest := WeaveOfFields(tail);
      if IsSpace(s[0]) {
        gaps := [head + rest[0]] + rest[1..];
        WovenAfterSpace(head, tail, rest, Fields(tail));
      } else {
        gaps := [""] + rest;
        WovenAfterField(head, tail, rest, Fields(tail));
      }
    }
  }

  // ----- Placeholders -----

  /** \w of Go's regular expressions. */
  predicate IsWordChar(c: char) { '0' <= c <= '9' || 'A' <= c <= 'Z' || 'a' <= c <= 'z' || c == '_' }

  predicate IsWord(s: string) { s != "" && forall i :: 0 <= i < |s| ==> IsWordChar(s[i]) }

  datatype Segment = Text(text: string) | Hole(name: string)

  function Source(segment: Segment): string {
    match segment
    case Text(text) => text
    case Hole(name) => "{{" + name + "}}"
  }

  function Unparse(segments: seq<Segment>): string {
    if |segments| == 0 then "" else Source(segments[0]) + Unparse(segments[1..])
  }

  function WordLength(s: string): (n: nat)
    ensures n <= |s| && forall i :: 0 <= i < n ==> IsWordChar(s[i])
    ensures n < |s| ==> !IsWordChar(s[n])
  {
    if |s| == 0 || !IsWordChar(s[0]) then 0 else 1 + WordLength(s[1..])
  }

  predicate StartsWith(s: string, prefix: string) { |prefix| <= |s| && s[..|prefix|] == prefix }

  lemma Bracketed(s: string, w: nat)
    requires StartsWith(s, "{{") && 2 + w <= |s| && StartsWith(s[2 + w..], "}}")
    ensures w + 4 <= |s| && s[..w + 4] == "{{" + s[2..w + 2] + "}}" && s[2..w + 2] == s[2..][..w]
  {
    assert s[2 + w..][..2] == s[2 + w..w + 4] && s[..w + 4] == s[..2] + s[2..w + 2] + s[2 + w..w + 4];
  }

  /** Length of the placeholder that `s` begins with; 0 if it begins with none. */
  function MatchLength(s: string): (n: nat)
    ensures n <= |s| && (n > 0 ==> n > 4 && s[..n] == Source(Hole(s[2..n - 2])) && IsWord(s[2..n - 2]))
  {
    if !StartsWith(s, "{{") then 0
    else
      var w := WordLength(s[2..]);
      if w > 0 && StartsWith(s[2 + w..], "}}") then
        Bracketed(s, w);
        w + 4
      else 0
  }

  /** Literal text in front of what follows. */
  function PutText(c: char, segments: seq<Segment>): seq<Segment> {
    if |segments| > 0 && segments[0].Text? then [Text([c] + segments[0].text)] + segments[1..]
        else [Text([c])] + segments
  }

  /** The leftmost placeholders of a token, one after the other, and the text around them. */
  function Segments(token: string): seq<Segment>
    decreases |token|
  {
    if token == "" then []
    else
      var n := MatchLength(token);
      if n > 0 then [Hole(token[2..n - 2])] + Segments(token[n..]) else PutText(token[0], Segments(token[1..]))
  }

  /** No placeholder occurs anywhere in the text. */
  ghost predicate NoHoleIn(text: string) { forall i :: 0 <= i <= |text| ==> MatchLength(text[i..]) == 0 }

  ghost predicate SegmentOk(segment: Segment) {
    match segment
    case Text(text) => text != "" && NoHoleIn(text)
    case Hole(name) => IsWord(name)
  }

  /** A way to read a token: names are words, literal text is maximal and has no placeholder in it. */
  ghost predicate Canonical(segments: seq<Segment>) {
    |segments| == 0
    || (SegmentOk(segments[0]) && (segments[0].Text? && |segments| > 1 ==> segments[1].Hole?)
        && Canonical(segments[1..]))
  }

  lemma UnparseCons(segment: Segment, segments: seq<Segment>)
    ensures Unparse([segment] + segments) == Source(segment) + Unparse(segments)
  {
    assert ([segment] + segments)[1..] == segments;
  }

  lemma UnparsePut(c: char, segments: seq<Segment>)
    ensures Unparse(PutText(c, segments)) == [c] + Unparse(segments)
  {
    if |segments| > 0 && segments[0].Text? {
      UnparseCons(Text([c] + segments[0].text), segments[1..]);
      Assoc([c], segments[0].text, Unparse(segments[1..]));
    } else {
      UnparseCons(Text([c]), segments);
    }
  }

  /** Put together again, the segments of a token are the token. */
  lemma {:induction false} UnparseSegments(token: string)
    ensures Unparse(Segments(token)) == token
    decreases |token|
  {
    if token != "" {
      var n := MatchLength(token);
      if n > 0 {
        UnparseSegments(token[n..]);
        UnparseCons(Hole(token[2..n - 2]), Segments(token[n..]));
        Halves(token, n);
      } else {
        UnparseSegments(token[1..]);
        UnparsePut(token[0], Segments(token[1..]));
        assert token[..1] == [token[0]];
        Halves(token, 1);
      }
    }
  }

  lemma {:induction false} WordLengthUnique(s: string, n: nat)
    requires n <= |s| && (forall i :: 0 <= i < n ==> IsWordChar(s[i])) && (n < |s| ==> !IsWordChar(s[n]))
    ensures WordLength(s) == n
  {
    if n > 0 {
      WordLengthUnique(s[1..], n - 1);
    }
  }

  /** A text begins with a placeholder exactly when it looks like one. */
  lemma MatchOfHole(name: string, rest: string)
    requires IsWord(name)
    ensures MatchLength(Source(Hole(name)) + rest) == |name| + 4
  {
    var s := Source(Hole(name)) + rest;
    assert s[2..] == name + ("}}" + rest);
    assert s[..2] == "{{";
    WordLengthUnique(s[2..], |name|);
    assert s[2 + |name|..] == "}}" + rest;
    assert ("}}" + rest)[..2] == "}}";
  }

  /** Whether a text begins with a placeholder shows in that many characters. */
  lemma MatchExtends(a: string, b: string)
    requires MatchLength(a) > 0
    ensures MatchLength(a + b) == MatchLength(a)
  {
    var n := MatchLength(a);
    assert a + b == a[..n] + (a[n..] + b);
    MatchOfHole(a[2..n - 2], a[n..] + b);
  }

  lemma MatchRestricts(a: string, b: string)
    requires 0 < MatchLength(a + b) <= |a|
    ensures MatchLength(a) > 0
  {
    var n := MatchLength(a + b);
    assert (a + b)[..n] == a[..n] && (a + b)[2..n - 2] == a[2..n - 2];
    assert a == a[..n] + a[n..];
    MatchOfHole(a[2..n - 2], a[n..]);
  }

  lemma NoHoleInMore(c: char, text: string)
    requires MatchLength([c] + text) == 0 && NoHoleIn(text)
    ensures NoHoleIn([c] + text)
  {
    var more := [c] + text;
    forall i | 0 <= i <= |more| ensures MatchLength(more[i..]) == 0 {
      if i == 0 { assert more[0..] == more; } else { assert more[i..] == text[i - 1..]; }
    }
  }

  lemma MoreTextCanonical(c: char, text: string, more: seq<Segment>)
    requires Canonical([Text(text)] + more) && MatchLength([c] + text) == 0
    ensures Canonical([Text([c] + text)] + more)
  {
    var before, after := [Text(text)] + more, [Text([c] + text)] + more;
    assert before[1..] == more && after[1..] == more;
    NoHoleInMore(c, text);
  }

  lemma NewTextCanonical(c: char, segments: seq<Segment>)
    requires Canonical(segments) && (|segments| > 0 ==> segments[0].Hole?)
    ensures Canonical([Text([c])] + segments)
  {
    assert ([Text([c])] + segments)[1..] == segments;
    assert [c] + "" == [c] && NoHoleIn("");
    NoHoleInMore(c, "");
  }

  lemma PutCanonical(c: char, segments: seq<Segment>)
    requires Canonical(segments)
    requires MatchLength([c] + Unparse(segments)) == 0
    ensures Canonical(PutText(c, segments))
  {
    if |segments| > 0 && segments[0].Text? {
      var text := segments[0].text;
      Assoc([c], text, Unparse(segments[1..]));
      if MatchLength([c] + text) > 0 { MatchExtends([c] + text, Unparse(segments[1..])); }
      assert segments == [Text(text)] + segments[1..];
      MoreTextCanonical(c, text, segments[1..]);
    } else {
      NewTextCanonical(c, segments);
    }
  }

  /** The segments of a token are a canonical reading of it. */
  lemma {:induction false} SegmentsCanonical(token: string)
    ensures Canonical(Segments(token))
    decreases |token|
  {
    if token != "" {
      var n := MatchLength(token);
      if n > 0 {
        SegmentsCanonical(token[n..]);
        assert Segments(token)[1..] == Segments(token[n..]);
      } else {
        SegmentsCanonical(token[1..]);
        UnparseSegments(token[1..]);
        assert token == [token[0]] + token[1..];
        PutCanonical(token[0], Segments(token[1..]));
      }
    }
  }

  lemma StartsWithBraces(rest: string)
    requires MatchLength(rest) > 0
    ensures |rest| > 4 && rest[0] == '{' && rest[1] == '{'
  {
    assert rest[..2] == "{{";
  }

  /** No placeholder begins in literal text and ends in the placeholder after it. */
  lemma NoStraddle(text: string, rest: string)
    requires text != "" && MatchLength(text) == 0 && (rest == "" || MatchLength(rest) > 0)
    ensures MatchLength(text + rest) == 0
  {
    var n, k := MatchLength(text + rest), |text|;
    if n > 0 {
      if n <= k {
        MatchRestricts(text, rest);
      } else {
        StartsWithBraces(rest);
        assert (text + rest)[k] == rest[0] && (text + rest)[k + 1] == rest[1];
        StraddleChars(text + rest, n, k);
      }
    }
  }

  lemma StraddleChars(s: string, n: nat, k: nat)
    requires n == MatchLength(s) && 0 < k < n && k + 1 < |s|
    ensures !(s[k] == '{' && s[k + 1] == '{')
  {
    assert s[..n][k] == s[k];
    if k == 1 { assert s[..n][2] == s[2..n - 2][0]; }
    if 2 <= k < n - 2 { assert s[..n][k] == s[2..n - 2][k - 2]; }
  }

  lemma NoHoleAnywhere(text: string)
    requires forall i :: 0 <= i < |text| ==> MatchLength(text[i..]) == 0
    ensures NoHoleIn(text)
  {
    assert text[|text|..] == "";
  }

  lemma NoHoleInTail(text: string)
    requires text != "" && NoHoleIn(text)
    ensures MatchLength(text) == 0 && NoHoleIn(text[1..])
  {
    assert text[0..] == text;
    forall i | 0 <= i <= |text[1..]| ensures MatchLength(text[1..][i..]) == 0 {
      assert text[1..][i..] == text[i + 1..];
    }
  }

  lemma SegmentsPut(token: string)
    requires token != "" && MatchLength(token) == 0
    ensures Segments(token) == PutText(token[0], Segments(token[1..]))
  {
  }

  lemma PutBeforeHole(c: char, segments: seq<Segment>)
    requires |segments| > 0 ==> segments[0].Hole?
    ensures PutText(c, segments) == [Text([c])] + segments
  {
  }

  lemma PutBeforeText(c: char, text: string, segments: seq<Segment>)
    ensures PutText(c, [Text(text)] + segments) == [Text([c] + text)] + segments
  {
    assert ([Text(text)] + segments)[1..] == segments;
  }

  lemma TailOfConcat(a: string, b: string)
    requires a != ""
    ensures (a + b)[0] == a[0] && (a + b)[1..] == a[1..] + b && [a[0]] + a[1..] == a
  {
  }

  lemma HoleFirst(rest: string)
    requires rest == "" || MatchLength(rest) > 0
    ensures |Segments(rest)| > 0 ==> Segments(rest)[0].Hole?
  {
  }

  lemma {:induction false} SegmentsOfText(text: string, rest: string)
    requires text != "" && NoHoleIn(text) && (rest == "" || MatchLength(rest) > 0)
    ensures Segments(text + rest) == [Text(text)] + Segments(rest)
    decreases |text|
  {
    NoHoleInTail(text);
    NoStraddle(text, rest);
    TailOfConcat(text, rest);
    SegmentsPut(text + rest);
    if text[1..] == "" {
      assert "" + rest == rest && [text[0]] + "" == [text[0]];
      HoleFirst(rest);
      PutBeforeHole(text[0], Segments(rest));
    } else {
      SegmentsOfText(text[1..], rest);
      PutBeforeText(text[0], text[1..], Segments(rest));
    }
  }

  lemma HoleParts(name: string, rest: string)
    ensures var token := Source(Hole(name)) + rest; token[2..|name| + 2] == name && token[|name| + 4..] == rest
  {
  }

  lemma SegmentsOfHole(name: string, rest: string)
    requires IsWord(name)
    ensures Segments(Source(Hole(name)) + rest) == [Hole(name)] + Segments(rest)
  {
    MatchOfHole(name, rest);
    HoleParts(name, rest);
  }

  lemma CanonicalMatches(segments: seq<Segment>)
    requires Canonical(segments) && (|segments| > 0 ==> segments[0].Hole?)
    ensures Unparse(segments) == "" || MatchLength(Unparse(segments)) > 0
  {
    if |segments| > 0 { MatchOfHole(segments[0].name, Unparse(segments[1..])); }
  }

  /** A token has only one canonical reading: whatever canonical segments it is made of are its segments. */
  lemma {:induction false} CanonicalUnique(segments: seq<Segment>)
    requires Canonical(segments)
    ensures Segments(Unparse(segments)) == segments
  {
    if |segments| > 0 {
      CanonicalUnique(segments[1..]);
      match segments[0]
      case Text(text) =>
        CanonicalMatches(segments[1..]);
        SegmentsOfText(text, Unparse(segments[1..]));
      case Hole(name) => SegmentsOfHole(name, Unparse(segments[1..]));
    }
  }

  /** The names of placeholders are made of ASCII letters, digits and the underscore, told by their code points. */
  lemma WordChars(c: char)
    ensures IsWordChar(c) <==>
      var n := c as int; 48 <= n < 48 + 10 || 65 <= n < 65 + 26 || 97 <= n < 97 + 26 || n == 95
  {
  }

  /** A name in double braces is a placeholder, and nothing else of that token. */
  lemma OnePlaceholder(name: string)
    requires IsWord(name)
    ensures Segments("{{" + name + "}}") == [Hole(name)]
  {
    var segments := [Hole(name)];
    assert segments[1..] == [];
    CanonicalUnique(segments);
    assert Unparse(segments) == "{{" + name + "}}" + "" == "{{" + name + "}}";
  }

  /** The white space characters, by code point, as property White_Space of Unicode lists them. */
  lemma SpaceChars(c: char)
    ensures IsSpace(c) <==> c as int in {
      0x9, 0xA, 0xB, 0xC, 0xD, 0x20, 0x85, 0xA0, 0x1680, 0x2000, 0x2001, 0x2002, 0x2003, 0x2004, 0x2005, 0x2006,
      0x2007, 0x2008, 0x2009, 0x200A, 0x2028, 0x2029, 0x202F, 0x205F, 0x3000}
  {
  }
}
