/**
 * Strings as the coordinator's JSON library prints them: besides what JSON requires, it escapes the characters
 * that matter in HTML and two line separators. Strings that are not valid Unicode are not part of this model.
 */
module GoJson {
  import opened Common
  import opened JsonText

  function HexDigit(d: nat): (c: char)
    requires d < 16
    ensures c > ' ' && c != QUOTE && c != BACKSLASH
  {
    if d < 10 then DigitChar(d) else (d - 10 + 'a' as int) as char
  }

  function GoEscapeChar(c: char): string {
    if c == QUOTE || c == BACKSLASH then [BACKSLASH, c]
    else if c == '\n' then [BACKSLASH, 'n']
    else if c == '\r' then [BACKSLASH, 'r']
    else if c == '\t' then [BACKSLASH, 't']
    else if c == 8 as char then [BACKSLASH, 'b']
    else if c == 12 as char then [BACKSLASH, 'f']
    else if c < ' ' || c == '<' || c == '>' || c == '&' then
      [BACKSLASH, 'u', '0', '0', HexDigit(c as int / 16), HexDigit(c as int % 16)]
    else if c == 0x2028 as char || c == 0x2029 as char then
      [BACKSLASH, 'u', '2', '0', '2', HexDigit(c as int % 16)]
    else [c]
  }

  function GoEscape(s: string): string {
    if s == [] then [] else GoEscapeChar(s[0]) + GoEscape(s[1..])
  }

  /** Nothing in it needs escaping, and it can be a key. */
  predicate Simple(s: string) {
    PlainChars(s) && forall i | 0 <= i < |s| :: s[i] < 127 as char && s[i] != '<' && s[i] != '>' && s[i] != '&'
  }

  lemma PieceOfEscaped(c: char)
    ensures Piece(c, GoEscapeChar(c))
    ensures Simple([c]) ==> GoEscapeChar(c) == [c]
  {
    var e := GoEscapeChar(c);
    if |e| == 1 {
      assert e[1..] == [];
    } else if |e| == 2 {
      assert e[2..] == [];
    } else {
      InsideSimple(e[2..]);
    }
    assert Simple([c]) ==> [c][0] > ' ' && [c][0] < 127 as char;
  }

  lemma {:induction false} InsideSimple(s: string)
    requires PlainChars(s)
    ensures WellEscaped(s)
    decreases |s|
  {
    if s != [] {
      InsideSimple(s[1..]);
    }
  }

  lemma {:induction false} EscapedSimple(s: string)
    requires Simple(s)
    ensures GoEscape(s) == s
    decreases s
  {
    if s != [] {
      assert [s[0]][0] == s[0];
      PieceOfEscaped(s[0]);
      EscapedSimple(s[1..]);
      assert s == [s[0]] + s[1..];
    }
  }

  /** A printed string passes for a key exactly when the string does. */
  lemma HitsOfEscaped(s: string, key: string)
    requires Simple(key)
    ensures WellEscaped(GoEscape(s))
    ensures Hits(GoEscape(s), key) <==> Hits(s, key)
  {
    hide EndsQuoted, WellEscaped;
    EndsOfEscaped(s, key);
  }

  lemma {:induction false} EndsOfEscaped(s: string, key: string)
    requires Simple(key)
    ensures WellEscaped(GoEscape(s))
    ensures GoEscape(s) == key <==> s == key
    ensures EndsQuoted(GoEscape(s), key) <==> EndsQuoted(s, key)
    decreases s
  {
    if s != [] {
      hide GoEscapeChar, WellEscaped;
      PieceOfEscaped(s[0]);
      EndsOfEscaped(s[1..], key);
      if key != [] {
        assert [key[0]][0] == key[0];
        EndsOfEscaped(s[1..], key[1..]);
        assert key == [key[0]] + key[1..] && s == [s[0]] + s[1..];
      }
      PieceInFront(s[0], GoEscapeChar(s[0]), GoEscape(s[1..]), key);
    }
  }

  /** Characters whose escapes the client's reader understands. */
  predicate Understood(c: char) {
    (c >= ' ' || c == '\n' || c == '\r' || c == '\t') && c != '<' && c != '>' && c != '&'
    && c != 0x2028 as char && c != 0x2029 as char
  }

  /** What the coordinator's library escapes, the client's reader takes back, for text of such characters. */
  lemma {:induction false} ReadUndoesGoEscape(s: string, rest: string)
    requires forall i | 0 <= i < |s| :: Understood(s[i])
    ensures ReadString(GoEscape(s) + [QUOTE] + rest) == Some(s)
    decreases s
  {
    var text := GoEscape(s) + [QUOTE] + rest;
    if s == [] {
      assert text == [QUOTE] + rest;
    } else {
      var tail := GoEscape(s[1..]) + [QUOTE] + rest;
      var e := GoEscapeChar(s[0]);
      assert text == e + tail && text[|e|..] == tail && text[0] == e[0];
      if |e| == 2 {
        assert text[1] == e[1];
      }
      ReadUndoesGoEscape(s[1..], rest);
      assert s == [s[0]] + s[1..];
    }
  }
}
