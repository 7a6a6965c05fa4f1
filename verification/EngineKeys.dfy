/** The engine driver's key codec: packages/rivetkit/src/drivers/engine/keys.ts. */
module EngineKeys {
  import opened Options
  import opened KeyEscaping

  const EMPTY_KEY := "/"
  const KEY_SEPARATOR := '/'

  const SYNTAX := Syntax(KEY_SEPARATOR, true)

  function EscapePart(part: string): string {
    if part == "" then "\\0" else EscapeInTwoPasses(part, KEY_SEPARATOR)
  }

  function EscapeParts(key: seq<string>): seq<string> {
    seq(|key|, i requires 0 <= i < |key| => EscapePart(key[i]))
  }

  function SerializeActorKey(key: seq<string>): string {
    if |key| == 0 then EMPTY_KEY else Join(EscapeParts(key), KEY_SEPARATOR)
  }

  /** What the loop's variables give at the end of the string. */
  function FinishKey(p: Parser): seq<string> {
    if p.escaping then p.parts + [p.current + "\\"]
    else if p.marker then p.parts + [""]
    else if p.current != "" || |p.parts| > 0 then p.parts + [p.current]
    else p.parts
  }

  function Parsed(keyString: Option<string>): seq<string> {
    if keyString.None? || keyString.value == EMPTY_KEY then []
    else FinishKey(Read(Between([]), keyString.value, SYNTAX))
  }

  /** The deserialiser, as a loop over the characters. */
  method DeserializeActorKey(keyString: Option<string>) returns (key: seq<string>)
    ensures key == Parsed(keyString)
  {
    if keyString.None? || keyString.value == EMPTY_KEY {
      return [];
    }
    var s := keyString.value;
    var parts: seq<string>, currentPart, escaping, isEmptyStringMarker := [], "", false, false;
    for i := 0 to |s|
      invariant Read(Parser(parts, currentPart, escaping, isEmptyStringMarker), s[i..], SYNTAX)
             == Read(Between([]), s, SYNTAX)
    {
      var c := s[i];
      assert s[i..][1..] == s[i + 1..];
      if escaping {
        if c == '0' {
          isEmptyStringMarker := true;
        } else {
          currentPart := currentPart + [c];
        }
        escaping := false;
      } else if c == BACKSLASH {
        escaping := true;
      } else if c == KEY_SEPARATOR {
        if isEmptyStringMarker {
          parts := parts + [""];
          isEmptyStringMarker := false;
        } else {
          parts := parts + [currentPart];
        }
        currentPart := "";
      } else {
        currentPart := currentPart + [c];
      }
    }
    if escaping {
      parts := parts + [currentPart + "\\"];
    } else if isEmptyStringMarker {
      parts := parts + [""];
    } else if currentPart != "" || |parts| > 0 {
      parts := parts + [currentPart];
    }
    return parts;
  }

  lemma PartIsReadBack(part: string)
    ensures Encodes(EscapePart(part), part, SYNTAX)
    ensures EscapePart(part) != "" && EscapePart(part)[0] != KEY_SEPARATOR
  {
    if part == "" {
      forall parts ensures Read(Between(parts), "\\0", SYNTAX) == AfterPart(parts, "", SYNTAX) {
        var p1 := ReadChar(Between(parts), '\\', SYNTAX);
        assert "\\0"[1..] == "0" && "0"[1..] == "";
        assert Read(p1, "0", SYNTAX) == Read(ReadChar(p1, '0', SYNTAX), "", SYNTAX);
      }
    } else {
      EscapedEncodes(part, SYNTAX);
      TwoPassesAreOne(part, KEY_SEPARATOR);
    }
  }

  lemma NotTheEmptyMarker(key: seq<string>)
    requires key != []
    ensures SerializeActorKey(key) != EMPTY_KEY
  {
    PartIsReadBack(key[0]);
    var written := EscapeParts(key);
    assert Join(written, KEY_SEPARATOR)[0] == written[0][0];
  }

  lemma PartsAreReadBack(key: seq<string>)
    requires key != []
    ensures Read(Between([]), SerializeActorKey(key), SYNTAX) == AfterPart(key[..|key| - 1], key[|key| - 1], SYNTAX)
  {
    var written := EscapeParts(key);
    forall i | 0 <= i < |key| ensures Encodes(written[i], key[i], SYNTAX) {
      PartIsReadBack(key[i]);
    }
    JoinedIsReadBack([], written, key, SYNTAX);
    assert [] + key[..|key| - 1] == key[..|key| - 1];
  }

  /** Serialising and deserialising gives every key back, also empty keys, empty parts and separators. */
  lemma KeyRoundTrip(key: seq<string>)
    ensures Parsed(Some(SerializeActorKey(key))) == key
  {
    if key != [] {
      NotTheEmptyMarker(key);
      PartsAreReadBack(key);
      assert key[..|key| - 1] + [key[|key| - 1]] == key;
    }
  }

  lemma SerializationIsInjective(a: seq<string>, b: seq<string>)
    requires a != b
    ensures SerializeActorKey(a) != SerializeActorKey(b)
  {
    KeyRoundTrip(a);
    KeyRoundTrip(b);
  }

  // MARK: The written form

  lemma WrittenAsOnePass(part: string)
    requires part != ""
    ensures EscapePart(part) == EscapeInOnePass(part, '/')
  {
    TwoPassesAreOne(part, KEY_SEPARATOR);
  }

  lemma EscapedExamples()
    ensures EscapePart("a/b") == "a\\/b" && EscapePart("c\\") == "c\\\\" && EscapePart("") == "\\0"
  {
    WrittenAsOnePass("a/b");
    WrittenAsOnePass("c\\");
    assert "a/b"[1..] == "/b" && "/b"[1..] == "b" && "b"[1..] == "";
    assert EscapeInOnePass("b", '/') == "b" + "" && EscapeInOnePass("/b", '/') == "\\/" + "b";
    assert "c\\"[1..] == "\\" && "\\"[1..] == "";
    assert EscapeInOnePass("\\", '/') == "\\\\" + "" && EscapePart("c\\") == "c" + "\\\\";
  }

  /** The marker of the empty key, the separator, the escapes and the marker of an empty part. */
  lemma WrittenForms()
    ensures SerializeActorKey([]) == "/"
    ensures SerializeActorKey(["c\\"]) == "c\\\\"
    ensures SerializeActorKey(["a/b", ""]) == "a\\/b" + "/" + "\\0"
  {
    EscapedExamples();
    assert EscapeParts(["c\\"]) == [EscapePart("c\\")];
    assert EscapeParts(["a/b", ""]) == [EscapePart("a/b"), EscapePart("")];
    JoinOfTwo(EscapePart("a/b"), EscapePart(""), '/');
  }

  // MARK: Texts that no key is written as

  lemma NoKeyIsEmpty()
    ensures Parsed(None) == [] && Parsed(Some("")) == [] && Parsed(Some("/")) == []
  {
  }

  /** An escape that is cut off at the end stands for a backslash. */
  lemma TrailingBackslashIsKept(key: seq<string>)
    requires key != []
    ensures Parsed(Some(SerializeActorKey(key) + "\\"))
         == key[..|key| - 1] + [key[|key| - 1] + "\\"]
  {
    var text := SerializeActorKey(key);
    PartsAreReadBack(key);
    ReadConcat(Between([]), text, "\\", SYNTAX);
    var p := AfterPart(key[..|key| - 1], key[|key| - 1], SYNTAX);
    assert "\\"[1..] == "" && Read(p, "\\", SYNTAX) == ReadChar(p, '\\', SYNTAX);
    PartIsReadBack(key[0]);
    assert (text + "\\")[|text|] == '\\' && text + "\\" != EMPTY_KEY;
  }

  /** An escape of any other character stands for the character. */
  lemma StrayEscape()
    ensures Parsed(Some("\\x")) == ["x"]
  {
    var p1 := ReadChar(Between([]), '\\', SYNTAX);
    assert "\\x"[1..] == "x" && "x"[1..] == "";
    assert Read(p1, "x", SYNTAX) == ReadChar(p1, 'x', SYNTAX) == Parser([], "x", false, false);
  }

  lemma MarkerEmptiesLastPart()
    ensures Parsed(Some("a\\0")) == [""]
  {
    var q1 := ReadChar(Between([]), 'a', SYNTAX);
    var q2 := ReadChar(q1, '\\', SYNTAX);
    var q3 := ReadChar(q2, '0', SYNTAX);
    assert q3 == Parser([], "a", false, true);
    assert "a\\0"[1..] == "\\0" && "\\0"[1..] == "0" && "0"[1..] == "";
    assert Read(q1, "\\0", SYNTAX) == Read(q2, "0", SYNTAX) == q3;
  }

  /** A marker empties its part, whatever else the part holds. */
  lemma MarkerEmptiesPart()
    ensures Parsed(Some("a\\0b/c")) == ["", "c"]
    ensures Parsed(Some("a\\0")) == [""]
  {
    MarkerEmptiesLastPart();
    var q1 := ReadChar(Between([]), 'a', SYNTAX);
    var q2 := ReadChar(q1, '\\', SYNTAX);
    var q3 := ReadChar(q2, '0', SYNTAX);
    var q4 := ReadChar(q3, 'b', SYNTAX);
    assert q4 == Parser([], "ab", false, true);
    var q5 := ReadChar(q4, '/', SYNTAX);
    var q6 := ReadChar(q5, 'c', SYNTAX);
    assert q6 == Parser([""], "c", false, false);
    var text := "a\\0b/c";
    assert text[1..] == "\\0b/c" && text[1..][1..] == "0b/c" && "0b/c"[1..] == "b/c" && "b/c"[1..] == "/c";
    assert "/c"[1..] == "c" && "c"[1..] == "";
    assert Read(q5, "c", SYNTAX) == q6;
    assert Read(q3, "b/c", SYNTAX) == Read(q4, "/c", SYNTAX) == q6;
    assert Read(q1, "\\0b/c", SYNTAX) == Read(q2, "0b/c", SYNTAX) == q6;
  }
}
