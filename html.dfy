/** HTML escaping of the sender id placed in front of a formatted body.
    `Escape` follows Go's `html.EscapeString`, which rewrites exactly five
    characters; `Unescape` decodes exactly the five entities it produces. */
module Html {

  /** The replacement `html.EscapeString` uses for one character. */
  function Entity(c: char): (e: string)
    ensures |e| >= 1
    ensures (c == '&' || c == '\'' || c == '<' || c == '>' || c == '"') <==> e[0] == '&'
  {
    if c == '&' then "&amp;"
    else if c == '\'' then "&#39;"
    else if c == '<' then "&lt;"
    else if c == '>' then "&gt;"
    else if c == '"' then "&#34;"
    else [c]
  }

  predicate Markup(c: char) {
    c == '<' || c == '>' || c == '"' || c == '\''
  }

  /** `html.EscapeString`: the escaped text never contains a character that
      could open or close a tag or an attribute value. */
  function Escape(s: string): (r: string)
    ensures |r| >= |s|
    ensures forall k :: 0 <= k < |r| ==> !Markup(r[k])
  {
    if s == [] then [] else Entity(s[0]) + Escape(s[1..])
  }

  /** Decodes the five entities `Escape` produces; every other character is
      kept as it is. */
  function Unescape(t: string): string
    decreases |t|
  {
    if t == [] then []
    else if |t| >= 5 && t[..5] == "&amp;" then "&" + Unescape(t[5..])
    else if |t| >= 5 && t[..5] == "&#39;" then "'" + Unescape(t[5..])
    else if |t| >= 5 && t[..5] == "&#34;" then "\"" + Unescape(t[5..])
    else if |t| >= 4 && t[..4] == "&lt;" then "<" + Unescape(t[4..])
    else if |t| >= 4 && t[..4] == "&gt;" then ">" + Unescape(t[4..])
    else [t[0]] + Unescape(t[1..])
  }

  lemma UnescapeEntity(c: char, rest: string)
    ensures Unescape(Entity(c) + rest) == [c] + Unescape(rest)
  {
    var t := Entity(c) + rest;
    var e := Entity(c);
    assert t[..|e|] == e;
    assert t[|e|..] == rest;
    if e[0] != '&' {
      assert t[0] == c && c != '&';
      assert |t| >= 5 ==> t[..5][0] == c;
      assert |t| >= 4 ==> t[..4][0] == c;
      assert t[1..] == rest;
    } else if c == '<' || c == '>' {
      if |t| >= 5 { assert t[..5][3] == t[3] == ';'; }
    }
  }

  /** Escaping loses nothing: decoding the escaped text gives the original. */
  lemma {:induction false} EscapeRoundTrip(s: string)
    ensures Unescape(Escape(s)) == s
  {
    if s != [] {
      UnescapeEntity(s[0], Escape(s[1..]));
      EscapeRoundTrip(s[1..]);
      assert [s[0]] + s[1..] == s;
    }
  }
}
