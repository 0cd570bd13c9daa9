/**
  The string helpers of RootDescriptor<T>: the open and close tags it writes
  around an element, and Sanitize, which escapes the two angle brackets of a
  leaf value by two chained String.Replace calls.
 */
module Markup {

  /** The line terminator that TextWriter.WriteLine appends. */
  const NewLine: string := "\n"

  /** `<tagName>`: the tag name between an opening and a closing bracket. */
  function OpenTag(tagName: string): (r: string)
    ensures |r| == |tagName| + 2
    ensures r[0] == '<' && r[|r| - 1] == '>' && r[1..|r| - 1] == tagName
  {
    "<" + tagName + ">"
  }

  /** `</tagName>`: the tag name between `</` and a closing bracket. */
  function CloseTag(tagName: string): (r: string)
    ensures |r| == |tagName| + 3
    ensures r[..2] == "</" && r[|r| - 1] == '>' && r[2..|r| - 1] == tagName
  {
    "</" + tagName + ">"
  }

  /** Concatenation of strings is associative. */
  lemma AppendAssoc(a: string, b: string, c: string)
    ensures a + b + c == a + (b + c)
  {
  }

  /**
    String.Replace with a one-character search string: every occurrence of
    `target` in `s` is replaced by `replacement`, left to right, and nothing
    else changes.
   */
  function Replace(s: string, target: char, replacement: string): (r: string)
    ensures forall c :: c in r ==> (c in s && c != target) || c in replacement
    ensures forall c :: c in s && c != target ==> c in r
  {
    if s == [] then []
    else (if s[0] == target then replacement else [s[0]]) + Replace(s[1..], target, replacement)
  }

  /** Escapes a leaf value: `<` first, then `>`, as the source chains them. */
  function Sanitize(value: string): (r: string)
    ensures '<' !in r && '>' !in r
    ensures forall c :: c in value && c != '<' && c != '>' ==> c in r
  {
    Replace(Replace(value, '<', "&lt;"), '>', "&gt;")
  }

  /** The escaping of one character, on its own. */
  function EscapeChar(c: char): string
  {
    if c == '<' then "&lt;" else if c == '>' then "&gt;" else [c]
  }

  /** Reference definition of the escaping: one character at a time. */
  function Escape(s: string): string
  {
    if s == [] then [] else EscapeChar(s[0]) + Escape(s[1..])
  }

  /** Undoes the two escapes, reading `&lt;` and `&gt;` back as brackets. */
  function Unescape(s: string): string
  {
    if s == [] then []
    else if |s| >= 4 && s[..4] == "&lt;" then "<" + Unescape(s[4..])
    else if |s| >= 4 && s[..4] == "&gt;" then ">" + Unescape(s[4..])
    else [s[0]] + Unescape(s[1..])
  }

  lemma {:induction false} ReplaceAppend(a: string, b: string, target: char, replacement: string)
    ensures Replace(a + b, target, replacement) == Replace(a, target, replacement) + Replace(b, target, replacement)
  {
    if a == [] {
      assert a + b == b;
    } else {
      assert (a + b)[0] == a[0];
      assert (a + b)[1..] == a[1..] + b;
      ReplaceAppend(a[1..], b, target, replacement);
    }
  }

  /** Replacing a character that does not occur changes nothing. */
  lemma {:induction false} ReplaceAbsent(s: string, target: char, replacement: string)
    requires target !in s
    ensures Replace(s, target, replacement) == s
  {
    if s != [] {
      ReplaceAbsent(s[1..], target, replacement);
    }
  }

  /**
    The two chained replacements amount to one per-character mapping,
    because neither replacement text contains the other bracket.
   */
  lemma {:induction false} SanitizeIsPerCharacter(s: string)
    ensures Sanitize(s) == Escape(s)
  {
    if s != [] {
      var once := Replace(s, '<', "&lt;");
      var head := if s[0] == '<' then "&lt;" else [s[0]];
      assert once == head + Replace(s[1..], '<', "&lt;");
      ReplaceAppend(head, Replace(s[1..], '<', "&lt;"), '>', "&gt;");
      if s[0] == '<' {
        ReplaceAbsent("&lt;", '>', "&gt;");
      } else {
        assert Replace(head, '>', "&gt;") == EscapeChar(s[0]) by {
          assert head[1..] == [];
        }
      }
      SanitizeIsPerCharacter(s[1..]);
    }
  }

  /** A value with no angle bracket is written as it is. */
  lemma {:induction false} SanitizeLeavesPlainText(s: string)
    requires '<' !in s && '>' !in s
    ensures Sanitize(s) == s
  {
    ReplaceAbsent(s, '<', "&lt;");
    ReplaceAbsent(s, '>', "&gt;");
  }

  /** Unescaping reads an escaped character back, whatever follows it. */
  lemma {:induction false} UnescapeEscapeChar(c: char, rest: string)
    requires c != '&'
    ensures Unescape(EscapeChar(c) + rest) == [c] + Unescape(rest)
  {
    var s := EscapeChar(c) + rest;
    if c == '<' {
      assert s[..4] == "&lt;" && s[4..] == rest;
    } else if c == '>' {
      assert s[..4] == "&gt;" && s[4..] == rest;
    } else {
      assert s[0] == c && s[1..] == rest;
    }
  }

  lemma {:induction false} UnescapeEscape(s: string)
    requires '&' !in s
    ensures Unescape(Escape(s)) == s
  {
    if s != [] {
      UnescapeEscapeChar(s[0], Escape(s[1..]));
      UnescapeEscape(s[1..]);
    }
  }

  /** A value without `&` is recovered from its escaped form. */
  lemma {:induction false} SanitizeRoundTrip(s: string)
    requires '&' !in s
    ensures Unescape(Sanitize(s)) == s
  {
    SanitizeIsPerCharacter(s);
    UnescapeEscape(s);
  }

  /**
    Without the `&` condition the round trip fails: `&` is never escaped, so
    the literal text `&lt;` and the bracket `<` are written identically.
   */
  lemma {:induction false} SanitizeConflatesAmpersand()
    ensures Sanitize("&lt;") == Sanitize("<") == "&lt;"
  {
    SanitizeIsPerCharacter("&lt;");
    SanitizeIsPerCharacter("<");
  }

  lemma {:induction false} EscapeCons(c: char, s: string)
    ensures Escape([c] + s) == EscapeChar(c) + Escape(s)
  {
    assert ([c] + s)[1..] == s;
  }

  lemma {:induction false} EscapeExample()
    ensures Escape("<x>&y") == "&lt;x&gt;&y"
  {
    EscapeCons('y', []);
    EscapeCons('&', "y");
    EscapeCons('>', "&y");
    EscapeCons('x', ">&y");
    EscapeCons('<', "x>&y");
  }

  /** The escaping example: only the brackets change, the `&` stays. */
  lemma {:induction false} SanitizeExample()
    ensures Sanitize("<x>&y") == "&lt;x&gt;&y"
  {
    SanitizeIsPerCharacter("<x>&y");
    EscapeExample();
  }
}
