/** Search terms as LIKE patterns.  `Matches` is the meaning of `text LIKE pattern ESCAPE '\'`,
  * up to case; a pattern that ends in a lone escape character matches nothing here.
  */
module LikePattern {

  predicate Special(c: char) {
    c == '%' || c == '_' || c == '\\'
  }

  predicate Matches(pattern: string, text: string)
    decreases |pattern| + |text|
  {
    if pattern == "" then text == ""
    else if pattern[0] == '%' then Matches(pattern[1..], text) || (text != "" && Matches(pattern, text[1..]))
    else if pattern[0] == '_' then text != "" && Matches(pattern[1..], text[1..])
    else if pattern[0] == '\\' then
      |pattern| >= 2 && text != "" && text[0] == pattern[1] && Matches(pattern[2..], text[1..])
    else text != "" && text[0] == pattern[0] && Matches(pattern[1..], text[1..])
  }

  function Escape(s: string): string {
    if s == "" then ""
    else (if Special(s[0]) then ['\\', s[0]] else [s[0]]) + Escape(s[1..])
  }

  lemma {:induction false} EscapeOfAppend(s: string, c: char)
    ensures Escape(s + [c]) == Escape(s) + if Special(c) then ['\\', c] else [c]
  {
    if s == "" {
      assert s + [c] == [c];
      assert [c][1..] == "";
    } else {
      assert (s + [c])[1..] == s[1..] + [c];
      EscapeOfAppend(s[1..], c);
    }
  }

  /** `like_pattern_literal`. */
  method LikePatternLiteral(value: string) returns (escaped: string)
    ensures escaped == Escape(value)
  {
    escaped := "";
    for i := 0 to |value|
      invariant escaped == Escape(value[..i])
    {
      assert value[..i + 1] == value[..i] + [value[i]];
      EscapeOfAppend(value[..i], value[i]);
      if value[i] == '%' || value[i] == '_' || value[i] == '\\' {
        escaped := escaped + ['\\'];
      }
      escaped := escaped + [value[i]];
    }
    assert value[..|value|] == value;
  }

  predicate OccursAt(text: string, s: string, i: int) {
    0 <= i <= |text| - |s| && text[i..i + |s|] == s
  }

  ghost predicate Contains(text: string, s: string) {
    exists i: int :: OccursAt(text, s, i)
  }

  /** A trailing wildcard matches any rest. */
  lemma {:induction false} WildcardMatchesAll(text: string)
    ensures Matches("%", text)
  {
    if text != "" {
      WildcardMatchesAll(text[1..]);
    } else {
      assert Matches("", "");
    }
  }

  /** An escaped term followed by a wildcard matches exactly the texts that start with the term. */
  lemma {:induction false} EscapedMatchesPrefix(s: string, text: string)
    ensures Matches(Escape(s) + "%", text) <==> s <= text
  {
    var pattern := Escape(s) + "%";
    if s == "" {
      assert pattern == "%";
      WildcardMatchesAll(text);
    } else {
      var rest := Escape(s[1..]) + "%";
      if Special(s[0]) {
        assert pattern[0] == '\\' && pattern[1] == s[0] && pattern[2..] == rest;
      } else {
        assert pattern[0] == s[0] && pattern[1..] == rest;
      }
      if text != "" {
        EscapedMatchesPrefix(s[1..], text[1..]);
        assert s <= text <==> s[0] == text[0] && s[1..] <= text[1..] by {
          PrefixStep(s, text);
        }
      }
    }
  }

  lemma {:induction false} PrefixStep(s: string, text: string)
    requires s != "" && text != ""
    ensures s <= text <==> s[0] == text[0] && s[1..] <= text[1..]
  {
    if s[0] == text[0] && s[1..] <= text[1..] {
      assert s == [s[0]] + s[1..];
      assert text == [text[0]] + text[1..];
    }
  }

  /** The search pattern built from a term matches a text exactly when the text contains the term,
    * whatever wildcards or escape characters the term holds. */
  lemma {:induction false} SearchMatchesLiterally(s: string, text: string)
    ensures Matches("%" + Escape(s) + "%", text) <==> Contains(text, s)
    decreases |text|
  {
    var pattern := "%" + Escape(s) + "%";
    assert pattern[1..] == Escape(s) + "%";
    EscapedMatchesPrefix(s, text);
    if text != "" {
      SearchMatchesLiterally(s, text[1..]);
      ContainsStep(text, s);
    } else {
      ContainsInEmpty(s);
    }
  }

  lemma {:induction false} ContainsInEmpty(s: string)
    ensures Contains("", s) <==> s == ""
  {
    if s == "" {
      assert OccursAt("", s, 0);
    }
  }

  lemma {:induction false} ContainsStep(text: string, s: string)
    requires text != ""
    ensures Contains(text, s) <==> s <= text || Contains(text[1..], s)
  {
    if Contains(text, s) {
      var i: int :| OccursAt(text, s, i);
      if i > 0 {
        assert text[1..][i - 1..i - 1 + |s|] == text[i..i + |s|];
        assert OccursAt(text[1..], s, i - 1);
      }
    }
    if s <= text {
      assert OccursAt(text, s, 0);
    }
    if Contains(text[1..], s) {
      var i: int :| OccursAt(text[1..], s, i);
      assert text[i + 1..i + 1 + |s|] == text[1..][i..i + |s|];
      assert OccursAt(text, s, i + 1);
    }
  }
}
