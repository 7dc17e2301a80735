/** `xml_escape` of `src/main.rs`: five replacements in a row. */
module XmlText {

  /** `str::replace` with a one-character pattern. */
  function Replace(s: string, c: char, entity: string): string {
    if s == "" then "" else (if s[0] == c then entity else [s[0]]) + Replace(s[1..], c, entity)
  }

  function XmlEscape(s: string): string {
    Replace(Replace(Replace(Replace(Replace(s, '&', "&amp;"), '<', "&lt;"), '>', "&gt;"),
        '"', "&quot;"), '\'', "&apos;")
  }

  /** What one character stands for in the escaped text. */
  function Entity(c: char): string {
    if c == '&' then "&amp;"
    else if c == '<' then "&lt;"
    else if c == '>' then "&gt;"
    else if c == '"' then "&quot;"
    else if c == '\'' then "&apos;"
    else [c]
  }

  function Substituted(s: string): string {
    if s == "" then "" else Entity(s[0]) + Substituted(s[1..])
  }

  lemma {:induction false} ReplaceAppend(a: string, b: string, c: char, entity: string)
    ensures Replace(a + b, c, entity) == Replace(a, c, entity) + Replace(b, c, entity)
  {
    if a == "" {
      assert a + b == b;
    } else {
      ReplaceAppend(a[1..], b, c, entity);
      var head := if a[0] == c then entity else [a[0]];
      var front, back := Replace(a[1..], c, entity), Replace(b, c, entity);
      assert (a + b)[0] == a[0] && (a + b)[1..] == a[1..] + b;
      assert Replace(a + b, c, entity) == head + Replace(a[1..] + b, c, entity);
      assert head + (front + back) == (head + front) + back;
    }
  }

  lemma {:induction false} ReplaceNothing(s: string, c: char, entity: string)
    requires c !in s
    ensures Replace(s, c, entity) == s
  {
    if s != "" {
      ReplaceNothing(s[1..], c, entity);
      assert s == [s[0]] + s[1..];
    }
  }

  lemma EscapeAppend(a: string, b: string)
    ensures XmlEscape(a + b) == XmlEscape(a) + XmlEscape(b)
  {
    var a1, b1 := Replace(a, '&', "&amp;"), Replace(b, '&', "&amp;");
    var a2, b2 := Replace(a1, '<', "&lt;"), Replace(b1, '<', "&lt;");
    var a3, b3 := Replace(a2, '>', "&gt;"), Replace(b2, '>', "&gt;");
    var a4, b4 := Replace(a3, '"', "&quot;"), Replace(b3, '"', "&quot;");
    ReplaceAppend(a, b, '&', "&amp;");
    ReplaceAppend(a1, b1, '<', "&lt;");
    ReplaceAppend(a2, b2, '>', "&gt;");
    ReplaceAppend(a3, b3, '"', "&quot;");
    ReplaceAppend(a4, b4, '\'', "&apos;");
  }

  lemma ReplaceOne(x: char, c: char, entity: string)
    ensures Replace([x], c, entity) == if x == c then entity else [x]
  {
    assert [x][1..] == "";
  }

  lemma EntityIsPlain(x: char, c: char)
    requires x != c && (c == '<' || c == '>' || c == '"' || c == '\'')
    ensures c !in Entity(x)
  {
  }

  /** A later replacement leaves the entity an earlier one wrote alone. */
  lemma Pass(x: char, done: bool, c: char)
    requires c == '<' || c == '>' || c == '"' || c == '\''
    requires done ==> x != c
    ensures Replace(if done then Entity(x) else [x], c, Entity(c)) == if done || x == c then Entity(x) else [x]
  {
    hide Entity, Replace;
    if done {
      EntityIsPlain(x, c);
      ReplaceNothing(Entity(x), c, Entity(c));
    } else {
      ReplaceOne(x, c, Entity(c));
    }
  }

  lemma EscapeOne(x: char)
    ensures XmlEscape([x]) == Entity(x)
  {
    hide Replace;
    ReplaceOne(x, '&', "&amp;");
    Pass(x, x == '&', '<');
    Pass(x, x == '&' || x == '<', '>');
    Pass(x, x == '&' || x == '<' || x == '>', '"');
    Pass(x, x == '&' || x == '<' || x == '>' || x == '"', '\'');
  }

  /** The five passes amount to one substitution, character by character: no entity is escaped twice. */
  lemma {:induction false} EscapeIsSubstitution(s: string)
    ensures XmlEscape(s) == Substituted(s)
  {
    if s != "" {
      assert s == [s[0]] + s[1..];
      EscapeAppend([s[0]], s[1..]);
      EscapeOne(s[0]);
      EscapeIsSubstitution(s[1..]);
    }
  }

  /** What a reader of the escaped text makes of it. */
  function Unescape(s: string): string {
    if s == "" then ""
    else if "&amp;" <= s then "&" + Unescape(s[5..])
    else if "&lt;" <= s then "<" + Unescape(s[4..])
    else if "&gt;" <= s then ">" + Unescape(s[4..])
    else if "&quot;" <= s then "\"" + Unescape(s[6..])
    else if "&apos;" <= s then "'" + Unescape(s[6..])
    else [s[0]] + Unescape(s[1..])
  }

  lemma UnescapeStep(c: char, rest: string)
    ensures Unescape(Entity(c) + rest) == [c] + Unescape(rest)
  {
    var e := Entity(c);
    var s := e + rest;
    assert e <= s && s[|e|..] == rest && s[0] == e[0];
    if c == '<' || c == '>' || c == '"' || c == '\'' { assert s[1] == e[1]; }
    if c == '"' || c == '\'' { assert s[2] == e[2]; }
  }

  lemma {:induction false} UnescapeUndoes(s: string)
    ensures Unescape(Substituted(s)) == s
  {
    if s != "" {
      UnescapeStep(s[0], Substituted(s[1..]));
      UnescapeUndoes(s[1..]);
      assert s == [s[0]] + s[1..];
    }
  }

  lemma OneRaw(x: char)
    ensures '<' !in Entity(x) && '>' !in Entity(x) && '"' !in Entity(x) && '\'' !in Entity(x)
  {
  }

  lemma {:induction false} NothingRaw(s: string)
    ensures '<' !in Substituted(s) && '>' !in Substituted(s) && '"' !in Substituted(s) && '\'' !in Substituted(s)
  {
    hide Entity;
    if s != "" {
      NothingRaw(s[1..]);
      OneRaw(s[0]);
    }
  }

  /** Escaped text holds no markup and unescapes to the original, so two texts never escape alike. */
  lemma EscapeIsInvertible(s: string, t: string)
    ensures Unescape(XmlEscape(s)) == s
    ensures forall c | c in XmlEscape(s) :: c !in "<>\"'"
    ensures XmlEscape(s) == XmlEscape(t) ==> s == t
  {
    EscapeIsSubstitution(s);
    EscapeIsSubstitution(t);
    UnescapeUndoes(s);
    UnescapeUndoes(t);
    NothingRaw(s);
  }
}
