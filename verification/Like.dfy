/** PostgreSQL's ILIKE, and the search text that the catalog wraps in percent signs. */
module Like {

  /** How a database folds case, one character at a time; no other character turns into a wildcard or an escape. */
  ghost predicate FoldsWell(fold: char -> char) {
    && (forall c :: IsSpecial(fold(c)) || IsSpecial(c) ==> fold(c) == c)
  }

  /** Characters that mean something in a pattern. */
  predicate IsSpecial(c: char) { c == '%' || c == '_' || c == '\\' }

  predicate Plain(s: string) { forall i :: 0 <= i < |s| ==> !IsSpecial(s[i]) }

  predicate SameLetter(fold: char -> char, a: char, b: char) { fold(a) == fold(b) }

  /** Percent matches any text, underscore any character, and a backslash makes the next character ordinary. */
  predicate ILike(fold: char -> char, pattern: string, text: string)
    decreases |pattern|
  {
    if pattern == "" then text == ""
    else if pattern[0] == '%' then exists k :: 0 <= k <= |text| && ILike(fold, pattern[1..], text[k..])
    else if pattern[0] == '_' then text != "" && ILike(fold, pattern[1..], text[1..])
    else if pattern[0] == '\\' then
      |pattern| > 1 && text != "" && SameLetter(fold, pattern[1], text[0]) && ILike(fold, pattern[2..], text[1..])
    else text != "" && SameLetter(fold, pattern[0], text[0]) && ILike(fold, pattern[1..], text[1..])
  }

  predicate StartsWith(fold: char -> char, text: string, s: string) {
    |s| <= |text| && forall i :: 0 <= i < |s| ==> SameLetter(fold, s[i], text[i])
  }

  /** `s` occurs in the text, whatever the case of its letters. */
  ghost predicate Contains(fold: char -> char, text: string, s: string) {
    exists k :: 0 <= k <= |text| && StartsWith(fold, text[k..], s)
  }

  /** What the catalog asks for when it searches for `s`. */
  function Pattern(s: string): string { "%" + s + "%" }

  lemma AnyTextMatches(fold: char -> char, text: string)
    ensures ILike(fold, "%", text)
  {
    assert ILike(fold, "%"[1..], text[|text|..]);
  }

  lemma {:induction false} PlainPrefix(fold: char -> char, s: string, text: string)
    requires Plain(s)
    ensures ILike(fold, s + "%", text) <==> StartsWith(fold, text, s)
  {
    if s == "" {
      assert s + "%" == "%";
      AnyTextMatches(fold, text);
    } else {
      assert (s + "%")[1..] == s[1..] + "%" && (s + "%")[0] == s[0];
      if text != "" {
        PlainPrefix(fold, s[1..], text[1..]);
        assert StartsWith(fold, text, s) <==>
            SameLetter(fold, s[0], text[0]) && StartsWith(fold, text[1..], s[1..]) by {
          assert forall i :: 0 < i < |s| ==> s[i] == s[1..][i - 1];
          assert forall i :: 0 < i < |text| ==> text[i] == text[1..][i - 1];
          assert forall i :: 0 <= i < |s| - 1 ==> s[1..][i] == s[i + 1];
        }
      }
    }
  }

  /** For a text without special characters, the search is a search for that text. */
  lemma PlainSearch(fold: char -> char, s: string, text: string)
    requires Plain(s)
    ensures ILike(fold, Pattern(s), text) <==> Contains(fold, text, s)
  {
    assert Pattern(s)[1..] == s + "%";
    forall k | 0 <= k <= |text| ensures ILike(fold, s + "%", text[k..]) <==> StartsWith(fold, text[k..], s) {
      PlainPrefix(fold, s, text[k..]);
    }
  }

  /** A text that a pattern matches: nothing for each percent sign, an x for each underscore. */
  function Instance(pattern: string): string
    decreases |pattern|
  {
    if pattern == "" then ""
    else if pattern[0] == '%' then Instance(pattern[1..])
    else if pattern[0] == '_' then "x" + Instance(pattern[1..])
    else if pattern[0] == '\\' then if |pattern| > 1 then [pattern[1]] + Instance(pattern[2..]) else ""
    else [pattern[0]] + Instance(pattern[1..])
  }

  lemma {:induction false} InstanceMatches(fold: char -> char, pattern: string)
    requires |pattern| > 0 && pattern[|pattern| - 1] == '%'
    ensures ILike(fold, pattern, Instance(pattern))
    decreases |pattern|
  {
    var text := Instance(pattern);
    if |pattern| == 1 {
      AnyTextMatches(fold, text);
    } else if pattern[0] == '%' {
      InstanceMatches(fold, pattern[1..]);
      assert text[0..] == text;
    } else if pattern[0] == '\\' {
      assert text[1..] == Instance(pattern[2..]);
      if |pattern| > 2 { InstanceMatches(fold, pattern[2..]); }
    } else {
      assert text[1..] == Instance(pattern[1..]);
      InstanceMatches(fold, pattern[1..]);
    }
  }

  /** That text is no longer than the search text, and differs from it. */
  lemma {:induction false} InstanceDiffers(fold: char -> char, s: string)
    requires FoldsWell(fold) && !Plain(s)
    ensures !StartsWith(fold, Instance(s + "%"), s)
    decreases |s|
  {
    var p := s + "%";
    assert p[1..] == s[1..] + "%";
    InstanceLength(s[1..]);
    if s[0] == '\\' {
      if |s| == 1 {
        assert p[2..] == "" && Instance(p) == "%";
        assert fold('%') == '%' && fold('\\') == '\\';
        assert !SameLetter(fold, s[0], Instance(p)[0]);
      } else {
        assert p[2..] == s[2..] + "%";
        InstanceLength(s[2..]);
      }
    } else if s[0] == '_' {
      assert fold('_') == '_' && fold('x') != '_';
      assert !SameLetter(fold, s[0], Instance(p)[0]);
    } else if s[0] != '%' {
      assert !Plain(s[1..]) by {
        var i :| 0 <= i < |s| && IsSpecial(s[i]);
        assert s[1..][i - 1] == s[i];
      }
      InstanceDiffers(fold, s[1..]);
      var t := Instance(s[1..] + "%");
      if |s[1..]| <= |t| {
        var i :| 0 <= i < |s[1..]| && !SameLetter(fold, s[1..][i], t[i]);
        assert s[i + 1] == s[1..][i] && Instance(p)[i + 1] == t[i];
      }
    }
  }

  lemma {:induction false} InstanceLength(s: string)
    ensures |Instance(s + "%")| <= |s|
    decreases |s|
  {
    if s == "" {
      assert s + "%" == "%" && "%"[1..] == "";
    } else {
      assert (s + "%")[1..] == s[1..] + "%";
      InstanceLength(s[1..]);
      if s[0] == '\\' {
        if |s| == 1 {
          assert (s + "%")[2..] == "";
        } else {
          assert (s + "%")[2..] == s[2..] + "%";
          InstanceLength(s[2..]);
        }
      }
    }
  }

  /**
   The search is a search for the text itself, as promised, exactly when the text contains
   no percent sign, underscore or backslash.
   */
  lemma SearchIsSubstringIff(fold: char -> char, s: string)
    requires FoldsWell(fold)
    ensures (forall text :: ILike(fold, Pattern(s), text) <==> Contains(fold, text, s)) <==> Plain(s)
  {
    if Plain(s) {
      forall text ensures ILike(fold, Pattern(s), text) <==> Contains(fold, text, s) {
        PlainSearch(fold, s, text);
      }
    } else {
      var text := Instance(s + "%");
      assert Pattern(s)[0] == '%' && Pattern(s)[1..] == s + "%" && text[0..] == text;
      InstanceMatches(fold, s + "%");
      assert ILike(fold, Pattern(s), text);
      InstanceDiffers(fold, s);
      InstanceLength(s);
      assert !Contains(fold, text, s);
    }
  }

  /** The same text but for the case of its letters. */
  predicate SameButCase(fold: char -> char, text: string, other: string) {
    |text| == |other| && forall i :: 0 <= i < |text| ==> fold(text[i]) == fold(other[i])
  }

  /** A pattern matches a text exactly if it matches the text with the case of letters changed. */
  lemma {:induction false} CaseIsIgnored(fold: char -> char, pattern: string, text: string, other: string)
    requires SameButCase(fold, text, other)
    ensures ILike(fold, pattern, text) <==> ILike(fold, pattern, other)
    decreases |pattern|
  {
    if pattern != "" {
      if pattern[0] == '%' {
        forall k | 0 <= k <= |text|
          ensures ILike(fold, pattern[1..], text[k..]) <==> ILike(fold, pattern[1..], other[k..])
        {
          CaseIsIgnored(fold, pattern[1..], text[k..], other[k..]);
        }
      } else if text != "" {
        CaseIsIgnored(fold, pattern[1..], text[1..], other[1..]);
        if |pattern| > 1 { CaseIsIgnored(fold, pattern[2..], text[1..], other[1..]); }
      }
    }
  }

  /** And a search text in other letters finds the same. */
  lemma CaseOfSearchIsIgnored(fold: char -> char, s: string, t: string, text: string)
    requires SameButCase(fold, s, t)
    ensures Contains(fold, text, s) <==> Contains(fold, text, t)
  {
    assert forall k :: 0 <= k <= |text| ==> (StartsWith(fold, text[k..], s) <==> StartsWith(fold, text[k..], t));
  }
}
