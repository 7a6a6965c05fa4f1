/**
What the two actor-key codecs share: escaping by global replacement, joining, and
the character loop that splits and unescapes
(packages/rivetkit/src/drivers/engine/keys.ts and
packages/cloudflare-workers/src/util.ts).
*/
module KeyEscaping {
  const BACKSLASH := '\\'

  /** `s.replace(/c/g, replacement)`. */
  function ReplaceAll(s: string, c: char, replacement: string): string {
    if s == "" then ""
    else (if s[0] == c then replacement else [s[0]]) + ReplaceAll(s[1..], c, replacement)
  }

  /** The escaping as the source writes it: backslashes first, then separators. */
  function EscapeInTwoPasses(s: string, separator: char): string {
    ReplaceAll(ReplaceAll(s, BACKSLASH, "\\\\"), separator, [BACKSLASH, separator])
  }

  /** The escaping it amounts to: one pass that puts a backslash before each of the two characters. */
  function EscapeInOnePass(s: string, separator: char): string {
    if s == "" then ""
    else (if s[0] == BACKSLASH || s[0] == separator then [BACKSLASH, s[0]] else [s[0]])
         + EscapeInOnePass(s[1..], separator)
  }

  lemma {:induction false} ReplaceAllOfConcat(a: string, b: string, c: char, replacement: string)
    ensures ReplaceAll(a + b, c, replacement) == ReplaceAll(a, c, replacement) + ReplaceAll(b, c, replacement)
    decreases |a|
  {
    if a == "" {
      assert a + b == b;
    } else {
      assert (a + b)[1..] == a[1..] + b;
      ReplaceAllOfConcat(a[1..], b, c, replacement);
    }
  }

  /** The second pass does not touch what the first one inserted. */
  lemma {:induction false} TwoPassesAreOne(s: string, separator: char)
    requires separator != BACKSLASH
    ensures EscapeInTwoPasses(s, separator) == EscapeInOnePass(s, separator)
    decreases |s|
  {
    if s != "" {
      var first := if s[0] == BACKSLASH then "\\\\" else [s[0]];
      var rest := ReplaceAll(s[1..], BACKSLASH, "\\\\");
      ReplaceAllOfConcat(first, rest, separator, [BACKSLASH, separator]);
      TwoPassesAreOne(s[1..], separator);
      if s[0] == BACKSLASH {
        assert first[1..] == "\\" && first[1..][1..] == "";
      } else {
        assert first[1..] == "";
      }
    }
  }

  /** `parts.join(separator)`. */
  function Join(parts: seq<string>, separator: char): string {
    if parts == [] then ""
    else if |parts| == 1 then parts[0]
    else parts[0] + [separator] + Join(parts[1..], separator)
  }

  lemma JoinOfTwo(a: string, b: string, separator: char)
    ensures Join([a, b], separator) == a + [separator] + b
    ensures Join([a], separator) == a
  {
    assert [a, b][1..] == [b];
  }

  // MARK: The character loop

  /** The variables of the loop; only the engine's codec uses `marker`. */
  datatype Parser = Parser(parts: seq<string>, current: string, escaping: bool, marker: bool)

  /** How a codec reads: its separator, and whether backslash zero marks an empty part. */
  datatype Syntax = Syntax(separator: char, zeroMarks: bool)

  predicate Proper(syn: Syntax) {
    syn.separator != BACKSLASH && syn.separator != '0'
  }

  function ReadChar(p: Parser, c: char, syn: Syntax): Parser {
    if p.escaping then
      if syn.zeroMarks && c == '0' then p.(marker := true, escaping := false)
      else p.(current := p.current + [c], escaping := false)
    else if c == BACKSLASH then
      p.(escaping := true)
    else if c == syn.separator then
      Parser(p.parts + [if p.marker then "" else p.current], "", false, false)
    else
      p.(current := p.current + [c])
  }

  function Read(p: Parser, s: string, syn: Syntax): Parser
    decreases |s|
  {
    if s == "" then p else Read(ReadChar(p, s[0], syn), s[1..], syn)
  }

  lemma {:induction false} ReadConcat(p: Parser, a: string, b: string, syn: Syntax)
    ensures Read(p, a + b, syn) == Read(Read(p, a, syn), b, syn)
    decreases |a|
  {
    if a == "" {
      assert a + b == b;
    } else {
      assert (a + b)[1..] == a[1..] + b;
      ReadConcat(ReadChar(p, a[0], syn), a[1..], b, syn);
    }
  }

  function Between(parts: seq<string>): Parser {
    Parser(parts, "", false, false)
  }

  /** The loop has just read one whole part. */
  function AfterPart(parts: seq<string>, part: string, syn: Syntax): Parser {
    Parser(parts, part, false, syn.zeroMarks && part == "")
  }

  ghost predicate Encodes(written: string, part: string, syn: Syntax) {
    forall parts :: Read(Between(parts), written, syn) == AfterPart(parts, part, syn)
  }

  lemma {:induction false} EscapedIsReadBack(p: Parser, s: string, syn: Syntax)
    requires Proper(syn) && !p.escaping && !p.marker
    ensures Read(p, EscapeInOnePass(s, syn.separator), syn) == p.(current := p.current + s)
    decreases |s|
  {
    if s == "" {
      assert p.current + s == p.current;
    } else {
      var written := EscapeInOnePass(s, syn.separator);
      var p' := p.(current := p.current + [s[0]]);
      if s[0] == BACKSLASH || s[0] == syn.separator {
        assert written[1..][1..] == EscapeInOnePass(s[1..], syn.separator);
        assert ReadChar(ReadChar(p, written[0], syn), written[1..][0], syn) == p';
      } else {
        assert written[1..] == EscapeInOnePass(s[1..], syn.separator);
      }
      EscapedIsReadBack(p', s[1..], syn);
      assert p.current + [s[0]] + s[1..] == p.current + s;
    }
  }

  lemma EscapedEncodes(s: string, syn: Syntax)
    requires Proper(syn) && (syn.zeroMarks ==> s != "")
    ensures Encodes(EscapeInTwoPasses(s, syn.separator), s, syn)
  {
    TwoPassesAreOne(s, syn.separator);
    forall parts ensures Read(Between(parts), EscapeInTwoPasses(s, syn.separator), syn) == AfterPart(parts, s, syn) {
      EscapedIsReadBack(Between(parts), s, syn);
      assert "" + s == s;
    }
  }

  /** Parts that are each read back are read back when joined. */
  lemma {:induction false} JoinedIsReadBack(done: seq<string>, written: seq<string>, key: seq<string>, syn: Syntax)
    requires Proper(syn) && |written| == |key| > 0
    requires forall i | 0 <= i < |key| :: Encodes(written[i], key[i], syn)
    ensures Read(Between(done), Join(written, syn.separator), syn)
         == AfterPart(done + key[..|key| - 1], key[|key| - 1], syn)
    decreases |key|
  {
    assert Encodes(written[0], key[0], syn);
    if |key| == 1 {
      assert done + key[..0] == done;
    } else {
      var rest := Join(written[1..], syn.separator);
      var p := AfterPart(done, key[0], syn);
      assert Join(written, syn.separator) == written[0] + ([syn.separator] + rest);
      ReadConcat(Between(done), written[0], [syn.separator] + rest, syn);
      assert ([syn.separator] + rest)[1..] == rest;
      assert ReadChar(p, syn.separator, syn) == Between(done + [key[0]]);
      JoinedIsReadBack(done + [key[0]], written[1..], key[1..], syn);
      assert done + [key[0]] + key[1..][..|key| - 2] == done + key[..|key| - 1];
    }
  }
}
