/** The Cloudflare driver's name and key codec: packages/cloudflare-workers/src/util.ts. */
module CloudflareKeys {
  import opened KeyEscaping

  const EMPTY_KEY := "(none)"
  const KEY_SEPARATOR := ','

  const SYNTAX := Syntax(KEY_SEPARATOR, false)

  function EscapePart(part: string): string {
    if part == EMPTY_KEY then "\\" + EMPTY_KEY else EscapeInTwoPasses(part, KEY_SEPARATOR)
  }

  function EscapeParts(key: seq<string>): seq<string> {
    seq(|key|, i requires 0 <= i < |key| => EscapePart(key[i]))
  }

  function SerializeKey(key: seq<string>): string {
    if |key| == 0 then EMPTY_KEY else Join(EscapeParts(key), KEY_SEPARATOR)
  }

  function FinishKey(p: Parser): seq<string> {
    if p.current != "" || |p.parts| > 0 then p.parts + [p.current] else p.parts
  }

  function Parsed(keyString: string): seq<string> {
    if keyString == "" || keyString == EMPTY_KEY then []
    else FinishKey(Read(Between([]), keyString, SYNTAX))
  }

  /** The deserialiser, as a loop over the characters. */
  method DeserializeKey(keyString: string) returns (key: seq<string>)
    ensures key == Parsed(keyString)
  {
    if keyString == "" || keyString == EMPTY_KEY {
      return [];
    }
    var parts: seq<string>, currentPart, escaping := [], "", false;
    for i := 0 to |keyString|
      invariant Read(Parser(parts, currentPart, escaping, false), keyString[i..], SYNTAX)
             == Read(Between([]), keyString, SYNTAX)
    {
      var c := keyString[i];
      assert keyString[i..][1..] == keyString[i + 1..];
      if escaping {
        currentPart := currentPart + [c];
        escaping := false;
      } else if c == BACKSLASH {
        escaping := true;
      } else if c == KEY_SEPARATOR {
        parts := parts + [currentPart];
        currentPart := "";
      } else {
        currentPart := currentPart + [c];
      }
    }
    if currentPart != "" || |parts| > 0 {
      parts := parts + [currentPart];
    }
    return parts;
  }

  // MARK: Keys

  /** Text without special characters is read as it stands. */
  lemma {:induction false} PlainIsReadBack(p: Parser, s: string)
    requires !p.escaping && BACKSLASH !in s && KEY_SEPARATOR !in s
    ensures Read(p, s, SYNTAX) == p.(current := p.current + s)
    decreases |s|
  {
    if s == "" {
      assert p.current + s == p.current;
    } else {
      PlainIsReadBack(p.(current := p.current + [s[0]]), s[1..]);
      assert p.current + [s[0]] + s[1..] == p.current + s;
    }
  }

  lemma MarkerPartIsReadBack(parts: seq<string>)
    ensures Read(Between(parts), "\\" + EMPTY_KEY, SYNTAX) == AfterPart(parts, EMPTY_KEY, SYNTAX)
  {
    var p1 := ReadChar(Between(parts), '\\', SYNTAX);
    var p2 := ReadChar(p1, '(', SYNTAX);
    assert ("\\" + EMPTY_KEY)[1..] == EMPTY_KEY && EMPTY_KEY[1..] == "none)";
    PlainIsReadBack(p2, "none)");
    assert p2.current == "(" && "(" + "none)" == EMPTY_KEY;
    assert Read(p1, EMPTY_KEY, SYNTAX) == Read(p2, "none)", SYNTAX);
  }

  lemma PartIsReadBack(part: string)
    ensures Encodes(EscapePart(part), part, SYNTAX)
  {
    if part == EMPTY_KEY {
      forall parts ensures Read(Between(parts), EscapePart(part), SYNTAX) == AfterPart(parts, part, SYNTAX) {
        MarkerPartIsReadBack(parts);
      }
    } else {
      EscapedEncodes(part, SYNTAX);
    }
  }

  lemma PartsAreReadBack(key: seq<string>)
    requires key != []
    ensures Read(Between([]), SerializeKey(key), SYNTAX) == AfterPart(key[..|key| - 1], key[|key| - 1], SYNTAX)
  {
    var written := EscapeParts(key);
    forall i | 0 <= i < |key| ensures Encodes(written[i], key[i], SYNTAX) {
      PartIsReadBack(key[i]);
    }
    JoinedIsReadBack([], written, key, SYNTAX);
    assert [] + key[..|key| - 1] == key[..|key| - 1];
  }

  /** Only the key with one empty part is written as the empty string. */
  lemma EmptyStringIsOneEmptyPart(key: seq<string>)
    ensures SerializeKey(key) == "" <==> key == [""]
  {
    if key != [] && SerializeKey(key) == "" {
      PartsAreReadBack(key);
      assert key == key[..|key| - 1] + [key[|key| - 1]];
    }
    if key == [""] {
      assert EscapeParts(key) == [EscapePart("")];
      assert EscapePart("") == "";
    }
  }

  lemma MarkerReads()
    ensures Read(Between([]), EMPTY_KEY, SYNTAX) == AfterPart([], EMPTY_KEY, SYNTAX)
  {
    PlainIsReadBack(Between([]), EMPTY_KEY);
    assert "" + EMPTY_KEY == EMPTY_KEY;
  }

  lemma MarkerAsPartIsEscaped()
    ensures SerializeKey([EMPTY_KEY]) != EMPTY_KEY
  {
    assert EscapeParts([EMPTY_KEY]) == [EscapePart(EMPTY_KEY)];
    assert SerializeKey([EMPTY_KEY])[0] == '\\';
  }

  lemma OnlyMarkerReadsAsMarker(key: seq<string>)
    requires key != [] && key != [EMPTY_KEY]
    ensures AfterPart(key[..|key| - 1], key[|key| - 1], SYNTAX) != AfterPart([], EMPTY_KEY, SYNTAX)
  {
    assert key == key[..|key| - 1] + [key[|key| - 1]];
  }

  lemma NotTheEmptyMarker(key: seq<string>)
    requires key != []
    ensures SerializeKey(key) != EMPTY_KEY
  {
    if key == [EMPTY_KEY] {
      MarkerAsPartIsEscaped();
    } else {
      PartsAreReadBack(key);
      MarkerReads();
      OnlyMarkerReadsAsMarker(key);
    }
  }

  /** Every key but `[""]` is given back. */
  lemma KeyRoundTripIff(key: seq<string>)
    ensures Parsed(SerializeKey(key)) == key <==> key != [""]
  {
    EmptyStringIsOneEmptyPart(key);
    if key != [] && key != [""] {
      NotTheEmptyMarker(key);
      PartsAreReadBack(key);
      assert key[..|key| - 1] + [key[|key| - 1]] == key;
    }
  }

  lemma SerializeKeyIsInjective(a: seq<string>, b: seq<string>)
    requires a != b
    ensures SerializeKey(a) != SerializeKey(b)
  {
    EmptyStringIsOneEmptyPart(a);
    EmptyStringIsOneEmptyPart(b);
    KeyRoundTripIff(a);
    KeyRoundTripIff(b);
  }

  // MARK: Texts that no key is written as

  lemma NoKeyIsEmpty()
    ensures Parsed("") == [] && Parsed("(none)") == []
  {
  }

  /** A lone backslash is no part, and an escaped zero is a zero. */
  lemma StrayEscapes()
    ensures Parsed("\\") == []
    ensures Parsed("\\0") == ["0"]
  {
    var p1 := ReadChar(Between([]), '\\', SYNTAX);
    assert "\\"[1..] == "" && "\\0"[1..] == "0" && "0"[1..] == "";
    assert Read(p1, "0", SYNTAX) == ReadChar(p1, '0', SYNTAX) == Parser([], "0", false, false);
  }

  /** An escape that is cut off at the end is dropped. */
  lemma TrailingBackslashIsDropped(key: seq<string>)
    requires key != [] && key != [""]
    ensures Parsed(SerializeKey(key) + "\\") == key
  {
    var text := SerializeKey(key);
    PartsAreReadBack(key);
    ReadConcat(Between([]), text, "\\", SYNTAX);
    var p := AfterPart(key[..|key| - 1], key[|key| - 1], SYNTAX);
    assert "\\"[1..] == "" && Read(p, "\\", SYNTAX) == ReadChar(p, '\\', SYNTAX);
    assert (text + "\\")[|text|] == '\\' && EMPTY_KEY[|EMPTY_KEY| - 1] == ')';
    assert key[..|key| - 1] + [key[|key| - 1]] == key;
  }

  // MARK: Names

  function EscapeName(name: string): string {
    ReplaceAll(name, ':', "\\:")
  }

  function SerializeNameAndKey(name: string, key: seq<string>): string {
    if |key| == 0 then EscapeName(name) + ":" + EMPTY_KEY
    else EscapeName(name) + ":" + SerializeKey(key)
  }

  predicate EndsWithBackslash(name: string) {
    name != "" && name[|name| - 1] == BACKSLASH
  }

  /** In an escaped name every colon follows a backslash, and the last character is the name's own. */
  lemma {:induction false} EscapedNameShape(name: string)
    ensures var e := EscapeName(name);
            && (forall i | 0 <= i < |e| && e[i] == ':' :: i > 0 && e[i - 1] == BACKSLASH)
            && (name == "" <==> e == "")
            && (name != "" ==> e[|e| - 1] == name[|name| - 1])
    decreases |name|
  {
    if name != "" {
      EscapedNameShape(name[1..]);
    }
  }

  lemma ColonOrNotDiffer(a: string, b: string)
    requires a != "" && b != "" && a[0] == ':' && b[0] != ':'
    ensures EscapeName(a) != EscapeName(b)
  {
    EscapedNameShape(b[1..]);
    var eb := EscapeName(b[1..]);
    assert EscapeName(a)[1] == ':';
    assert EscapeName(b) == [b[0]] + eb;
    if |eb| > 0 {
      assert EscapeName(b)[1] == eb[0] && eb[0] != ':';
    }
  }

  lemma {:induction false} EscapeNameIsInjective(a: string, b: string)
    requires a != b
    ensures EscapeName(a) != EscapeName(b)
    decreases |a|
  {
    if a == "" || b == "" {
      EscapedNameShape(a);
      EscapedNameShape(b);
    } else if a[0] == b[0] {
      assert a == [a[0]] + a[1..] && b == [b[0]] + b[1..];
      EscapeNameIsInjective(a[1..], b[1..]);
      var n := if a[0] == ':' then 2 else 1;
      assert EscapeName(a)[n..] == EscapeName(a[1..]) && EscapeName(b)[n..] == EscapeName(b[1..]);
    } else if a[0] == ':' {
      ColonOrNotDiffer(a, b);
    } else if b[0] == ':' {
      ColonOrNotDiffer(b, a);
    } else {
      assert EscapeName(a)[0] == a[0] && EscapeName(b)[0] == b[0];
    }
  }

  /** The colon after a name that does not end in a backslash is the first unescaped one. */
  lemma NameEndsFirst(a: string, b: string, ra: string, rb: string)
    requires !EndsWithBackslash(a)
    requires |EscapeName(a)| < |EscapeName(b)|
    ensures EscapeName(a) + ":" + ra != EscapeName(b) + ":" + rb
  {
    EscapedNameShape(a);
    EscapedNameShape(b);
    var ea, eb := EscapeName(a), EscapeName(b);
    var wa, wb := ea + ":" + ra, eb + ":" + rb;
    assert wa[|ea|] == ':' && wb[|ea|] == eb[|ea|];
    if eb[|ea|] == ':' {
      assert wb[|ea| - 1] == eb[|ea| - 1] && wa[|ea| - 1] == ea[|ea| - 1];
    }
  }

  /** No two names that do not end in a backslash are confused, whatever their keys. */
  lemma NameAndKeyIsInjective(a: string, ka: seq<string>, b: string, kb: seq<string>)
    requires !EndsWithBackslash(a) && !EndsWithBackslash(b)
    requires a != b || ka != kb
    ensures SerializeNameAndKey(a, ka) != SerializeNameAndKey(b, kb)
  {
    var ra, rb := SerializeKey(ka), SerializeKey(kb);
    var ea, eb := EscapeName(a), EscapeName(b);
    if |ea| < |eb| {
      NameEndsFirst(a, b, ra, rb);
    } else if |eb| < |ea| {
      NameEndsFirst(b, a, rb, ra);
    } else {
      var wa, wb := ea + ":" + ra, eb + ":" + rb;
      assert ea == wa[..|ea|] && eb == wb[..|eb|];
      assert ra == wa[|ea| + 1..] && rb == wb[|eb| + 1..];
      if a != b {
        EscapeNameIsInjective(a, b);
      } else {
        SerializeKeyIsInjective(ka, kb);
      }
    }
  }

  ghost predicate Collision(name: string, key: seq<string>, other: string, otherKey: seq<string>) {
    && !EndsWithBackslash(other)
    && (name, key) != (other, otherKey)
    && SerializeNameAndKey(name, key) == SerializeNameAndKey(other, otherKey)
  }

  lemma EscapeNameWithSuffix(stem: string)
    ensures EscapeName(stem + "\\") == EscapeName(stem) + "\\"
    ensures EscapeName(stem + ":x") == EscapeName(stem) + "\\:x"
  {
    ReplaceAllOfConcat(stem, "\\", ':', "\\:");
    ReplaceAllOfConcat(stem, ":x", ':', "\\:");
    assert ":x"[1..] == "x" && "x"[1..] == "" && "\\"[1..] == "";
    assert ReplaceAll("x", ':', "\\:") == "x" + ReplaceAll("", ':', "\\:");
    assert "\\:" + "x" == "\\:x";
  }

  lemma BackslashedNameCollides(stem: string)
    ensures Collision(stem + "\\", ["x:y"], stem + ":x", ["y"])
  {
    EscapeNameWithSuffix(stem);
    PlainKey("x:y");
    PlainKey("y");
    SamePicture(EscapeName(stem));
    assert (stem + "\\")[|stem|] == '\\' && (stem + ":x")[|stem|] == ':';
  }

  lemma SamePicture(e: string)
    ensures e + "\\" + ":" + "x:y" == e + "\\:x" + ":" + "y"
  {
    assert "\\" + ":" + "x:y" == "\\:x" + ":" + "y";
    assert e + "\\" + ":" + "x:y" == e + ("\\" + ":" + "x:y");
    assert e + "\\:x" + ":" + "y" == e + ("\\:x" + ":" + "y");
  }

  lemma {:induction false} PlainIsWrittenAsIs(s: string)
    requires BACKSLASH !in s && KEY_SEPARATOR !in s
    ensures EscapeInOnePass(s, KEY_SEPARATOR) == s
    decreases |s|
  {
    if s != "" {
      PlainIsWrittenAsIs(s[1..]);
    }
  }

  lemma PlainKey(s: string)
    requires BACKSLASH !in s && KEY_SEPARATOR !in s && s != EMPTY_KEY
    ensures SerializeKey([s]) == s
  {
    TwoPassesAreOne(s, KEY_SEPARATOR);
    PlainIsWrittenAsIs(s);
    assert EscapeParts([s]) == [EscapePart(s)];
  }

  /**
  A name is confused with some other pair, whose name does not end in a
  backslash, exactly if it ends in a backslash: the code escapes the colons of a
  name but not its backslashes.
  */
  lemma NameCollidesIff(name: string)
    ensures EndsWithBackslash(name)
            <==> exists key, other, otherKey :: Collision(name, key, other, otherKey)
  {
    if EndsWithBackslash(name) {
      var stem := name[..|name| - 1];
      assert name == stem + "\\";
      BackslashedNameCollides(stem);
    } else {
      forall key, other, otherKey ensures !Collision(name, key, other, otherKey) {
        if !EndsWithBackslash(other) && (name, key) != (other, otherKey) {
          NameAndKeyIsInjective(name, key, other, otherKey);
        }
      }
    }
  }

  // MARK: Which two names are confused

  /** The part of an escaped part up to a colon is an escaped part: no escape sequence holds a colon. */
  lemma {:induction false} CutPart(part: string, i: nat) returns (q: string)
    requires i < |EscapeInOnePass(part, KEY_SEPARATOR)| && EscapeInOnePass(part, KEY_SEPARATOR)[i] == ':'
    ensures EscapeInOnePass(q, KEY_SEPARATOR) == EscapeInOnePass(part, KEY_SEPARATOR)[..i + 1]
    ensures q != "" && q[|q| - 1] == ':'
    decreases |part|
  {
    var rest := EscapeInOnePass(part[1..], KEY_SEPARATOR);
    if part[0] == BACKSLASH || part[0] == KEY_SEPARATOR {
      assert EscapeInOnePass(part, KEY_SEPARATOR) == [BACKSLASH, part[0]] + rest;
      q := CutPart(part[1..], i - 2);
      q := [part[0]] + q;
      assert q[1..] + [] == q[1..];
    } else if i == 0 {
      q := ":";
      assert q[1..] == "";
    } else {
      assert EscapeInOnePass(part, KEY_SEPARATOR) == [part[0]] + rest;
      q := CutPart(part[1..], i - 1);
      q := [part[0]] + q;
      assert q[1..] + [] == q[1..];
    }
  }

  lemma NoColonInMarker(i: nat)
    requires i < |EMPTY_KEY| + 1
    ensures ("\\" + EMPTY_KEY)[i] != ':'
  {
  }

  lemma SerializedFromTheFront(key: seq<string>)
    requires |key| > 1
    ensures SerializeKey(key) == EscapePart(key[0]) + [KEY_SEPARATOR] + SerializeKey(key[1..])
  {
    assert EscapeParts(key)[1..] == EscapeParts(key[1..]);
  }

  lemma SerializedOne(part: string)
    ensures SerializeKey([part]) == EscapePart(part)
  {
    assert EscapeParts([part]) == [EscapePart(part)];
  }

  /** The first part of a key, cut at a colon in it. */
  lemma CutFirstPart(part: string, i: nat) returns (q: string)
    requires i < |EscapePart(part)| && EscapePart(part)[i] == ':'
    ensures EscapePart(q) == EscapePart(part)[..i + 1]
  {
    if part == EMPTY_KEY {
      NoColonInMarker(i);
    } else {
      TwoPassesAreOne(part, KEY_SEPARATOR);
      q := CutPart(part, i);
      TwoPassesAreOne(q, KEY_SEPARATOR);
      assert q != EMPTY_KEY;
    }
  }

  /** What a key is written as, cut after a colon, is again what a key is written as. */
  lemma {:induction false} CutKey(key: seq<string>, i: nat) returns (k: seq<string>)
    requires key != [] && i < |SerializeKey(key)| && SerializeKey(key)[i] == ':'
    ensures k != [] && SerializeKey(k) == SerializeKey(key)[..i + 1]
    decreases |key|
  {
    var first := EscapePart(key[0]);
    if |key| == 1 {
      assert key == [key[0]];
      SerializedOne(key[0]);
      var q := CutFirstPart(key[0], i);
      SerializedOne(q);
      k := [q];
    } else {
      SerializedFromTheFront(key);
      if i < |first| {
        var q := CutFirstPart(key[0], i);
        SerializedOne(q);
        k := [q];
      } else {
        var rest := SerializeKey(key[1..]);
        var j := i - |first| - 1;
        assert SerializeKey(key)[i] == rest[j];
        var k' := CutKey(key[1..], j);
        k := [key[0]] + k';
        assert k[1..] == k';
        SerializedFromTheFront(k);
      }
    }
  }

  /** Some key is written as `text`; the deserialiser finds it. */
  predicate IsKeyText(text: string) {
    SerializeKey(Parsed(text)) == text
  }

  /**
  The second name, escaped, goes on after the first with a colon, and what follows up
  to its own colon is the beginning of a key.
  */
  predicate Continues(a: string, b: string) {
    var ea, eb := EscapeName(a), EscapeName(b);
    && |ea| < |eb| && eb[..|ea|] == ea && eb[|ea|] == ':'
    && IsKeyText(eb[|ea| + 1..] + ":")
  }

  ghost predicate Confused(a: string, b: string) {
    exists ka, kb :: SerializeNameAndKey(a, ka) == SerializeNameAndKey(b, kb)
  }

  lemma ContinuingNamesAreConfused(a: string, b: string)
    requires Continues(a, b)
    ensures Confused(a, b) && Confused(b, a)
  {
    var ea, eb := EscapeName(a), EscapeName(b);
    var mid := eb[|ea| + 1..];
    var ka := Parsed(mid + ":");
    EmptyStringIsOneEmptyPart([""]);
    assert eb == ea + ":" + mid;
    assert SerializeNameAndKey(b, [""]) == eb + ":" + "" == ea + ":" + (mid + ":");
    assert SerializeNameAndKey(a, ka) == ea + ":" + (mid + ":");
  }

  /** Two texts that agree, split after a shorter and a longer beginning. */
  lemma SplitAfterColon(ea: string, ra: string, eb: string, rb: string)
    requires |ea| < |eb| && ea + ":" + ra == eb + ":" + rb
    ensures eb[..|ea|] == ea && eb[|ea|] == ':'
    ensures ra == eb[|ea| + 1..] + ":" + rb
  {
    var w := ea + ":" + ra;
    assert ea == w[..|ea|] == eb[..|ea|];
    assert w[|ea|] == eb[|ea|];
    assert ra == w[|ea| + 1..];
    assert (eb + ":" + rb)[|ea| + 1..] == eb[|ea| + 1..] + ":" + rb;
  }

  lemma BeginningIsKeyText(key: seq<string>, mid: string, rest: string)
    requires SerializeKey(key) == mid + ":" + rest
    ensures IsKeyText(mid + ":")
  {
    var written := mid + ":" + rest;
    assert written[|mid|] == ':' && written[..|mid| + 1] == mid + ":";
    if key == [] {
      NoColonInMarker(|mid| + 1);
    }
    var k := CutKey(key, |mid|);
    EmptyStringIsOneEmptyPart(k);
    KeyRoundTripIff(k);
  }

  lemma LongerNameContinues(a: string, ka: seq<string>, b: string, kb: seq<string>)
    requires SerializeNameAndKey(a, ka) == SerializeNameAndKey(b, kb)
    requires |EscapeName(a)| < |EscapeName(b)|
    ensures Continues(a, b)
  {
    var ea, eb := EscapeName(a), EscapeName(b);
    SplitAfterColon(ea, SerializeKey(ka), eb, SerializeKey(kb));
    BeginningIsKeyText(ka, eb[|ea| + 1..], SerializeKey(kb));
  }

  /**
  Two different names are confused, with suitable keys, exactly if one continues the
  other: a condition on the two names that can be computed from them.
  */
  lemma NamesAreConfusedIff(a: string, b: string)
    requires a != b
    ensures Confused(a, b) <==> Continues(a, b) || Continues(b, a)
  {
    if Continues(a, b) {
      ContinuingNamesAreConfused(a, b);
    } else if Continues(b, a) {
      ContinuingNamesAreConfused(b, a);
    } else if Confused(a, b) {
      var ka, kb :| SerializeNameAndKey(a, ka) == SerializeNameAndKey(b, kb);
      var ea, eb := EscapeName(a), EscapeName(b);
      if |ea| < |eb| {
        LongerNameContinues(a, ka, b, kb);
      } else if |eb| < |ea| {
        LongerNameContinues(b, kb, a, ka);
      } else {
        assert ea == SerializeNameAndKey(a, ka)[..|ea|] == eb;
        EscapeNameIsInjective(a, b);
      }
    }
  }

  lemma EscapeNameWithBackslashes(stem: string)
    ensures EscapeName(stem + ":x\\\\") == EscapeName(stem) + "\\:x\\\\"
  {
    ReplaceAllOfConcat(stem, ":x\\\\", ':', "\\:");
    assert ":x\\\\"[1..] == "x\\\\" && "x\\\\"[1..] == "\\\\" && "\\\\"[1..] == "\\" && "\\"[1..] == "";
    assert ReplaceAll("\\\\", ':', "\\:") == "\\" + ReplaceAll("\\", ':', "\\:") == "\\\\";
    assert ReplaceAll("x\\\\", ':', "\\:") == "x" + "\\\\";
    assert "\\:" + "x\\\\" == "\\:x\\\\";
  }

  lemma BackslashedKey()
    ensures SerializeKey(["x\\:y"]) == "x\\\\:y"
  {
    TwoPassesAreOne("x\\:y", KEY_SEPARATOR);
    PlainIsWrittenAsIs(":y");
    assert "x\\:y"[1..] == "\\:y" && "\\:y"[1..] == ":y";
    assert EscapeInOnePass("\\:y", KEY_SEPARATOR) == "\\\\" + ":y";
    SerializedOne("x\\:y");
  }

  /** Two names that both end in a backslash can be confused, too. */
  lemma BackslashedNamesAreConfused(stem: string)
    ensures SerializeNameAndKey(stem + "\\", ["x\\:y"]) == SerializeNameAndKey(stem + ":x\\\\", ["y"])
  {
    EscapeNameWithSuffix(stem);
    EscapeNameWithBackslashes(stem);
    BackslashedKey();
    PlainKey("y");
    SamePictureWithBackslashes(EscapeName(stem));
  }

  lemma SamePictureWithBackslashes(e: string)
    ensures e + "\\" + ":" + "x\\\\:y" == e + "\\:x\\\\" + ":" + "y"
  {
    assert "\\" + ":" + "x\\\\:y" == "\\:x\\\\" + ":" + "y";
    assert e + "\\" + ":" + "x\\\\:y" == e + ("\\" + ":" + "x\\\\:y");
    assert e + "\\:x\\\\" + ":" + "y" == e + ("\\:x\\\\" + ":" + "y");
  }

  /** Keys never make a name confused with itself. */
  lemma OneNameIsNeverConfused(name: string, ka: seq<string>, kb: seq<string>)
    requires ka != kb
    ensures SerializeNameAndKey(name, ka) != SerializeNameAndKey(name, kb)
  {
    var e := EscapeName(name);
    SerializeKeyIsInjective(ka, kb);
    assert SerializeNameAndKey(name, ka)[|e| + 1..] == SerializeKey(ka);
    assert SerializeNameAndKey(name, kb)[|e| + 1..] == SerializeKey(kb);
  }

  // MARK: The written form

  lemma WrittenAsOnePass(part: string)
    requires part != "(none)"
    ensures EscapePart(part) == EscapeInOnePass(part, ',')
  {
    TwoPassesAreOne(part, KEY_SEPARATOR);
  }

  lemma EscapedExamples()
    ensures EscapePart("a,b") == "a\\,b" && EscapePart("c\\") == "c\\\\" && EscapePart("(none)") == "\\(none)"
  {
    WrittenAsOnePass("a,b");
    WrittenAsOnePass("c\\");
    assert "a,b"[1..] == ",b" && ",b"[1..] == "b" && "b"[1..] == "";
    assert EscapeInOnePass("b", ',') == "b" + "" && EscapeInOnePass(",b", ',') == "\\," + "b";
    assert "c\\"[1..] == "\\" && "\\"[1..] == "";
    assert EscapeInOnePass("\\", ',') == "\\\\" + "" && EscapePart("c\\") == "c" + "\\\\";
  }

  /** The marker of the empty key, the separator, and the escapes. */
  lemma WrittenForms()
    ensures SerializeKey([]) == "(none)"
    ensures SerializeKey(["c\\"]) == "c\\\\"
    ensures SerializeKey(["a,b", "(none)"]) == "a\\,b" + "," + "\\(none)"
  {
    EscapedExamples();
    assert EscapeParts(["c\\"]) == [EscapePart("c\\")];
    assert EscapeParts(["a,b", "(none)"]) == [EscapePart("a,b"), EscapePart("(none)")];
    JoinOfTwo(EscapePart("a,b"), EscapePart("(none)"), ',');
  }

  lemma WrittenNames()
    ensures SerializeNameAndKey("test", []) == "test:(none)"
    ensures SerializeNameAndKey("a:b", ["x"]) == "a\\:b:x"
  {
    assert "test"[1..] == "est" && "est"[1..] == "st" && "st"[1..] == "t" && "t"[1..] == "";
    assert EscapeName("st") == "s" + "t" && EscapeName("est") == "e" + "st" && EscapeName("test") == "t" + "est";
    assert "a:b"[1..] == ":b" && ":b"[1..] == "b" && "b"[1..] == "";
    assert EscapeName(":b") == "\\:" + "b" && EscapeName("a:b") == "a" + "\\:b";
    PlainKey("x");
  }
}
