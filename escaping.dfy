/**
 * The escaping codec of CQ-code parameter values. Four characters are reserved
 * inside a tag: `&`, `,`, `[` and `]`. The builder escapes them with a chain of four
 * `str.replace` calls (ampersand first) and the parser undoes them with the mirror
 * chain (ampersand last).
 */
module Escaping {
  import opened PyStr

  /**
   * The escape chain of `create_emoji_cq`. Text without reserved characters passes
   * unchanged; `EscapeIsEntitywise` and `EscapeRoundTrip` characterise the rest.
   */
  function Escape(s: string): (r: string)
    ensures '&' !in s && '[' !in s && ']' !in s && ',' !in s ==> r == s
  {
    EscapeAbsent(s);
    Replace(Replace(Replace(Replace(s, "&", "&amp;"), "[", "&#91;"), "]", "&#93;"), ",", "&#44;")
  }

  /** `CQCode.unescape`: every entity starts with `&`, so text without `&` passes unchanged. */
  function Unescape(s: string): (r: string)
    ensures '&' !in s ==> r == s
  {
    UnescapeAbsent(s);
    Replace(Replace(Replace(Replace(s, "&#44;", ","), "&#91;", "["), "&#93;", "]"), "&amp;", "&")
  }

  lemma EscapeAbsent(s: string)
    ensures '&' !in s && '[' !in s && ']' !in s && ',' !in s ==>
      Replace(Replace(Replace(Replace(s, "&", "&amp;"), "[", "&#91;"), "]", "&#93;"), ",", "&#44;") == s
  {
    if '&' !in s && '[' !in s && ']' !in s && ',' !in s {
      ReplaceAbsent(s, "&", "&amp;");
      ReplaceAbsent(s, "[", "&#91;");
      ReplaceAbsent(s, "]", "&#93;");
      ReplaceAbsent(s, ",", "&#44;");
    }
  }

  lemma UnescapeAbsent(s: string)
    ensures '&' !in s ==>
      Replace(Replace(Replace(Replace(s, "&#44;", ","), "&#91;", "["), "&#93;", "]"), "&amp;", "&") == s
  {
    if '&' !in s {
      ReplaceAbsent(s, "&#44;", ",");
      ReplaceAbsent(s, "&#91;", "[");
      ReplaceAbsent(s, "&#93;", "]");
      ReplaceAbsent(s, "&amp;", "&");
    }
  }

  predicate Reserved(c: char)
  {
    c == '&' || c == ',' || c == '[' || c == ']'
  }

  const AllReserved: set<char> := {'&', ',', '[', ']'}

  /** The entity that stands for a reserved character. */
  function Entity(c: char): (e: string)
    requires Reserved(c)
    ensures |e| == 5 && e[0] == '&' && '&' !in e[1..]
    ensures forall i :: 0 <= i < |e| ==> e[i] !in {',', '[', ']'}
  {
    match c
    case '&' => "&amp;"
    case ',' => "&#44;"
    case '[' => "&#91;"
    case ']' => "&#93;"
  }

  /**
   * A string half-way through escaping or unescaping: the reserved characters in
   * `literal` appear as themselves, every other reserved character as its entity.
   */
  function PartialEscape(s: string, literal: set<char>): string
  {
    if s == [] then []
    else (if Reserved(s[0]) && s[0] !in literal then Entity(s[0]) else [s[0]]) + PartialEscape(s[1..], literal)
  }

  lemma {:induction false} PartialEscapeIdentity(s: string)
    ensures PartialEscape(s, AllReserved) == s
  {
    if s != [] {
      PartialEscapeIdentity(s[1..]);
      assert s == [s[0]] + s[1..];
    }
  }

  /** One escape step: replacing `c` by its entity takes `c` out of the literal set. */
  lemma {:induction false} EscapeStep(s: string, literal: set<char>, c: char)
    requires Reserved(c) && c in literal
    requires c == '&' ==> AllReserved <= literal
    ensures Replace(PartialEscape(s, literal), [c], Entity(c)) == PartialEscape(s, literal - {c})
  {
    if s == [] {
    } else {
      var x := s[0];
      var head := if Reserved(x) && x !in literal then Entity(x) else [x];
      var rest := PartialEscape(s[1..], literal);
      ReplaceCharConcat(head, rest, c, Entity(c));
      EscapeStep(s[1..], literal, c);
      if Reserved(x) && x !in literal {
        assert c !in head;
        ReplaceSkip(head, [], [c], Entity(c));
        assert head + [] == head;
      } else if x == c {
        assert Replace([c], [c], Entity(c)) == Entity(c) + Replace([], [c], Entity(c));
      } else {
        ReplaceSkip(head, [], [c], Entity(c));
        assert head + [] == head;
      }
    }
  }

  /** Unescaping one entity leaves another entity in place. */
  lemma EntityNotMatched(x: char, c: char, rest: string)
    requires Reserved(x) && Reserved(c) && x != c
    ensures Replace(Entity(x) + rest, Entity(c), [c]) == Entity(x) + Replace(rest, Entity(c), [c])
  {
    var e := Entity(x);
    var pat := Entity(c);
    assert e != pat;
    var t := e + rest;
    assert t[..|pat|] == e;
    assert Replace(t, pat, [c]) == [t[0]] + Replace(t[1..], pat, [c]);
    assert t[1..] == e[1..] + rest;
    ReplaceSkip(e[1..], rest, pat, [c]);
    assert e == [e[0]] + e[1..];
  }

  /** One unescape step: replacing the entity of `c` by `c` adds `c` to the literal set. */
  lemma {:induction false} UnescapeStep(s: string, literal: set<char>, c: char)
    requires Reserved(c) && c !in literal && '&' !in literal
    ensures Replace(PartialEscape(s, literal), Entity(c), [c]) == PartialEscape(s, literal + {c})
  {
    if s == [] {
    } else {
      var x := s[0];
      var rest := PartialEscape(s[1..], literal);
      UnescapeStep(s[1..], literal, c);
      var pat := Entity(c);
      if Reserved(x) && x !in literal {
        if x == c {
          ReplaceMatch(pat, rest, [c]);
        } else {
          EntityNotMatched(x, c, rest);
        }
      } else {
        assert x != '&';
        ReplaceSkip([x], rest, pat, [c]);
      }
    }
  }

  /** The escape chain replaces every reserved character by its entity. */
  lemma EscapeIsEntitywise(s: string)
    ensures Escape(s) == PartialEscape(s, {})
  {
    PartialEscapeIdentity(s);
    EscapeStep(s, AllReserved, '&');
    assert AllReserved - {'&'} == {',', '[', ']'};
    EscapeStep(s, {',', '[', ']'}, '[');
    assert {',', '[', ']'} - {'['} == {',', ']'};
    EscapeStep(s, {',', ']'}, ']');
    assert {',', ']'} - {']'} == {','};
    EscapeStep(s, {','}, ',');
    assert {','} - {','} == {};
  }

  /** Round trip: unescaping an escaped string gives the original back. */
  lemma EscapeRoundTrip(s: string)
    ensures Unescape(Escape(s)) == s
  {
    EscapeIsEntitywise(s);
    UnescapeStep(s, {}, ',');
    assert {} + {','} == {','};
    UnescapeStep(s, {','}, '[');
    assert {','} + {'['} == {',', '['};
    UnescapeStep(s, {',', '['}, ']');
    assert {',', '['} + {']'} == {',', '[', ']'};
    UnescapeStep(s, {',', '[', ']'}, '&');
    assert {',', '[', ']'} + {'&'} == AllReserved;
    PartialEscapeIdentity(s);
  }

  lemma {:induction false} FullyEscapedHasNoSeparators(s: string)
    ensures forall i :: 0 <= i < |PartialEscape(s, {})| ==> PartialEscape(s, {})[i] !in {',', '[', ']'}
  {
    if s != [] {
      FullyEscapedHasNoSeparators(s[1..]);
    }
  }

  /** An escaped value holds no `,`, `[` or `]`, so it cannot end a parameter or a tag. */
  lemma EscapeHasNoSeparators(s: string)
    ensures ',' !in Escape(s) && '[' !in Escape(s) && ']' !in Escape(s)
  {
    EscapeIsEntitywise(s);
    FullyEscapedHasNoSeparators(s);
  }

  /** Escaping loses nothing: distinct strings escape to distinct strings. */
  lemma EscapeInjective(s: string, t: string)
    requires Escape(s) == Escape(t)
    ensures s == t
  {
    EscapeRoundTrip(s);
    EscapeRoundTrip(t);
  }

  /** Unescaping leaves a prefix without `&` untouched. */
  lemma UnescapeSkip(y: string, rest: string)
    requires '&' !in y
    ensures Unescape(y + rest) == y + Unescape(rest)
  {
    var s1 := Replace(rest, "&#44;", ",");
    ReplaceSkip(y, rest, "&#44;", ",");
    var s2 := Replace(s1, "&#91;", "[");
    ReplaceSkip(y, s1, "&#91;", "[");
    var s3 := Replace(s2, "&#93;", "]");
    ReplaceSkip(y, s2, "&#93;", "]");
    ReplaceSkip(y, s3, "&amp;", "&");
  }

  /** The comma entity alone unescapes to a comma. */
  lemma UnescapeCommaEntity()
    ensures Unescape("&#44;") == ","
  {
    ReplaceMatch("&#44;", [], ",");
    assert "&#44;" + [] == "&#44;";
    var once := Replace("&#44;", "&#44;", ",");
    assert once == ",";
    assert '&' !in once;
  }

  /** Unescaping is not idempotent: a value whose text is an entity loses it on a second pass. */
  lemma UnescapeTwiceCorrupts()
    ensures Unescape(Escape("&#44;")) == "&#44;"
    ensures Unescape(Unescape(Escape("&#44;"))) == ","
  {
    EscapeRoundTrip("&#44;");
    UnescapeCommaEntity();
  }
}
