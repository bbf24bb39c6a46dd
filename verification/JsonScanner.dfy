/**
 The scanner that cuts the first JSON object out of a model's answer
 (evolution/reviewer.go:406-443), and the object texts of RFC 8259 it must find.
 */
module JsonScanner {
  import opened Prelude

  newtype Byte = b: int | 0 <= b < 256

  type Text = seq<Byte>

  const QUOTE: Byte := 0x22
  const BACKSLASH: Byte := 0x5C
  const OPEN: Byte := 0x7B
  const CLOSE: Byte := 0x7D
  const OPEN_ARRAY: Byte := 0x5B
  const CLOSE_ARRAY: Byte := 0x5D
  const COMMA: Byte := 0x2C
  const COLON: Byte := 0x3A

  // ----- The scan -----

  datatype Mode = Outside | InString | Escaped

  datatype Scan = Scan(depth: int, mode: Mode)

  /** What one byte does to the scan. */
  function Next(c: Scan, ch: Byte): Scan {
    match c.mode
    case Escaped => c.(mode := InString)
    case InString => c.(mode := if ch == BACKSLASH then Escaped else if ch == QUOTE then Outside else InString)
    case Outside =>
      if ch == QUOTE then c.(mode := InString)
      else if ch == OPEN then c.(depth := c.depth + 1)
      else if ch == CLOSE then c.(depth := c.depth - 1)
      else c
  }

  predicate Closes(c: Scan, ch: Byte) {
    c == Scan(1, Outside) && ch == CLOSE
  }

  /** How many bytes are read until the depth returns to zero; None when the text ends first. */
  function Span(text: Text, c: Scan): (n: Option<nat>)
    ensures n.Some? ==> n.value <= |text|
  {
    if text == [] then None
    else if Closes(c, text[0]) then Some(1)
    else Shift(Span(text[1..], Next(c, text[0])), 1)
  }

  function Shift(n: Option<nat>, k: nat): Option<nat> {
    if n.None? then None else Some(n.value + k)
  }

  /** strings.IndexByte of '{'. */
  function FirstOpen(text: Text): (n: Option<nat>)
    ensures match n
            case Some(i) => i < |text| && text[i] == OPEN && OPEN !in text[..i]
            case None => OPEN !in text
  {
    if text == [] then None
    else if text[0] == OPEN then Some(0)
    else
      var rest := FirstOpen(text[1..]);
      assert rest.Some? ==> text[..rest.value + 1] == [text[0]] + text[1..][..rest.value];
      Shift(rest, 1)
  }

  const START: Scan := Scan(0, Outside)

  function Extract(text: Text): Option<Text> {
    var start := FirstOpen(text);
    if start.None? then None
    else
      var n := Span(text[start.value..], START);
      if n.None? then None else Some(text[start.value..][..n.value])
  }

  /** extractFirstJSONObject. */
  method ExtractFirstJSONObject(text: Text) returns (json: Text, found: bool)
    ensures Extract(text) == if found then Some(json) else None
  {
    var start := 0;
    while start < |text| && text[start] != OPEN
      invariant 0 <= start <= |text|
      invariant OPEN !in text[..start]
    {
      start := start + 1;
    }
    if start == |text| {
      return [], false;
    }
    FirstOpenIs(text, start);
    var i := ScanObject(text, start);
    if i == |text| {
      return [], false;
    }
    assert text[start..][..i + 1 - start] == text[start..i + 1];
    return text[start..i + 1], true;
  }

  /** The scanning loop: the index of the closing byte, or the length of the text. */
  method ScanObject(text: Text, start: nat) returns (i: nat)
    requires start < |text|
    ensures start <= i <= |text|
    ensures Span(text[start..], START) == if i < |text| then Some(i + 1 - start) else None
  {
    var depth, inString, escaped := 0, false, false;
    i := start;
    ghost var c := START;
    while i < |text|
      invariant start <= i <= |text| && (escaped ==> inString)
      invariant c == Scan(depth, if escaped then Escaped else if inString then InString else Outside)
      invariant Span(text[start..], START) == Shift(Span(text[i..], c), i - start)
    {
      var ch := text[i];
      assert text[i..][1..] == text[i + 1..];
      if inString {
        if escaped {
          escaped := false;
        } else if ch == BACKSLASH {
          escaped := true;
        } else if ch == QUOTE {
          inString := false;
        }
      } else if ch == QUOTE {
        inString := true;
      } else if ch == OPEN {
        depth := depth + 1;
      } else if ch == CLOSE {
        depth := depth - 1;
        if depth == 0 {
          return;
        }
      }
      c := Next(c, ch);
      i := i + 1;
    }
  }

  lemma {:induction false} FirstOpenIs(text: Text, i: nat)
    requires i < |text| && text[i] == OPEN && OPEN !in text[..i]
    ensures FirstOpen(text) == Some(i)
  {
    var n := FirstOpen(text);
    assert text[i] in text;
  }

  // ----- JSON texts: sections 2 to 7 of RFC 8259 -----

  /** One character of a string; a multi-byte character is the run of its bytes. */
  datatype Char = Unescaped(b: Byte) | ShortEscape(b: Byte) | UnicodeEscape(digits: Text)

  datatype LiteralName = False | Null | True

  datatype Value =
    | Name(name: LiteralName)
    | Number(minus: bool, whole: Text, frac: Option<Text>, exp: Option<Exponent>)
    | Str(chars: seq<Char>)
    | Arr(blank: Text, elements: seq<Element>)
    | Obj(space: Text, members: seq<Member>)

  datatype Exponent = Exponent(e: Byte, sign: Option<Byte>, digits: Text)

  /** A value with the white space around it. */
  datatype Element = Element(before: Text, value: Value, after: Text)

  datatype Member = Member(before: Text, name: seq<Char>, between: Text, element: Element)

  predicate Blank(ws: Text) {
    forall b :: b in ws ==> b == 0x20 || b == 0x09 || b == 0x0A || b == 0x0D
  }

  predicate Digit(b: Byte) {
    0x30 <= b <= 0x39
  }

  predicate HexDigit(b: Byte) {
    Digit(b) || 0x41 <= b <= 0x46 || 0x61 <= b <= 0x66
  }

  predicate Digits(t: Text) {
    t != [] && forall b :: b in t ==> Digit(b)
  }

  predicate ValidChar(c: Char) {
    match c
    case Unescaped(b) => b >= 0x20 && b != QUOTE && b != BACKSLASH
    case ShortEscape(b) => b in {QUOTE, BACKSLASH, 0x2F, 0x62, 0x66, 0x6E, 0x72, 0x74}
    case UnicodeEscape(digits) => |digits| == 4 && forall b :: b in digits ==> HexDigit(b)
  }

  predicate ValidString(chars: seq<Char>) {
    forall c :: c in chars ==> ValidChar(c)
  }

  predicate ValidExponent(e: Exponent) {
    e.e in {0x65, 0x45} && (e.sign.Some? ==> e.sign.value in {0x2B, 0x2D}) && Digits(e.digits)
  }

  predicate ValidValue(v: Value) {
    match v
    case Name(_) => true
    case Number(_, whole, frac, exp) =>
      Digits(whole) && (whole[0] == 0x30 ==> |whole| == 1) &&
      (frac.Some? ==> Digits(frac.value)) && (exp.Some? ==> ValidExponent(exp.value))
    case Str(chars) => ValidString(chars)
    case Arr(blank, elements) => Blank(blank) && forall i :: 0 <= i < |elements| ==> ValidElement(elements[i])
    case Obj(space, members) => Blank(space) && forall i :: 0 <= i < |members| ==> ValidMember(members[i])
  }

  predicate ValidElement(e: Element) {
    Blank(e.before) && Blank(e.after) && ValidValue(e.value)
  }

  predicate ValidMember(m: Member) {
    Blank(m.before) && Blank(m.between) && ValidString(m.name) && ValidElement(m.element)
  }

  function CharText(c: Char): Text {
    match c
    case Unescaped(b) => [b]
    case ShortEscape(b) => [BACKSLASH, b]
    case UnicodeEscape(digits) => [BACKSLASH, 0x75] + digits
  }

  function CharsText(chars: seq<Char>): Text {
    if chars == [] then [] else CharText(chars[0]) + CharsText(chars[1..])
  }

  function StringText(chars: seq<Char>): Text {
    [QUOTE] + CharsText(chars) + [QUOTE]
  }

  function NameText(n: LiteralName): Text {
    match n
    case False => [0x66, 0x61, 0x6C, 0x73, 0x65]
    case Null => [0x6E, 0x75, 0x6C, 0x6C]
    case True => [0x74, 0x72, 0x75, 0x65]
  }

  function ExponentText(e: Exponent): Text {
    [e.e] + (if e.sign.Some? then [e.sign.value] else []) + e.digits
  }

  function ValueText(v: Value): Text
    decreases v, 0
  {
    match v
    case Name(n) => NameText(n)
    case Number(minus, whole, frac, exp) =>
      (if minus then [0x2D] else []) + whole +
      (if frac.Some? then [0x2E] + frac.value else []) +
      (if exp.Some? then ExponentText(exp.value) else [])
    case Str(chars) => StringText(chars)
    case Arr(blank, elements) => [OPEN_ARRAY] + blank + ElementsText(elements) + [CLOSE_ARRAY]
    case Obj(space, members) => [OPEN] + space + MembersText(members) + [CLOSE]
  }

  function ElementText(e: Element): Text {
    e.before + ValueText(e.value) + e.after
  }

  function ElementsText(es: seq<Element>): Text {
    if es == [] then []
    else if |es| == 1 then ElementText(es[0])
    else ElementText(es[0]) + [COMMA] + ElementsText(es[1..])
  }

  function MemberText(m: Member): Text {
    m.before + StringText(m.name) + m.between + [COLON] + ElementText(m.element)
  }

  function MembersText(ms: seq<Member>): Text {
    if ms == [] then []
    else if |ms| == 1 then MemberText(ms[0])
    else MemberText(ms[0]) + [COMMA] + MembersText(ms[1..])
  }

  lemma SpanCons(ch: Byte, rest: Text, c: Scan)
    ensures Span([ch] + rest, c) == if Closes(c, ch) then Some(1) else Shift(Span(rest, Next(c, ch)), 1)
  {
    assert ([ch] + rest)[1..] == rest;
  }

  // ----- Scanning over complete texts -----

  /** Bytes that the scan passes over without noticing. */
  predicate Inert(t: Text) {
    forall b :: b in t ==> b != QUOTE && b != OPEN && b != CLOSE
  }

  /** From depth d outside strings, t is passed over as a whole: what follows it decides. */
  ghost predicate Skipped(t: Text, d: int) {
    forall rest: Text :: Passed(t, rest, d)
  }

  /** At depth d outside strings, t before `rest` is passed over. */
  ghost predicate Passed(t: Text, rest: Text, d: int) {
    Span(t + rest, Scan(d, Outside)) == Shift(Span(rest, Scan(d, Outside)), |t|)
  }

  lemma SkippedConcat(s: Text, t: Text, d: int)
    requires Skipped(s, d) && Skipped(t, d)
    ensures Skipped(s + t, d)
  {
    forall rest: Text ensures Passed(s + t, rest, d) {
      PassedConcat(s, t, d, rest);
    }
  }

  lemma PassedConcat(s: Text, t: Text, d: int, rest: Text)
    requires Passed(s, t + rest, d) && Passed(t, rest, d)
    ensures Passed(s + t, rest, d)
  {
    assert s + t + rest == s + (t + rest);
  }

  lemma InertSkipped(t: Text, d: int)
    requires Inert(t)
    ensures Skipped(t, d)
  {
    forall rest: Text ensures Passed(t, rest, d) {
      InertPassed(t, d, rest);
    }
  }

  lemma {:induction false} InertPassed(t: Text, d: int, rest: Text)
    requires Inert(t)
    ensures Passed(t, rest, d)
  {
    if t == [] {
      assert t + rest == rest;
    } else {
      assert t[0] in t && forall b :: b in t[1..] ==> b in t;
      InertPassed(t[1..], d, rest);
      assert (t + rest)[1..] == t[1..] + rest;
    }
  }

  /** Inside a string, every character is passed over, whatever it escapes. */
  lemma CharPassed(c: Char, d: int, rest: Text)
    requires ValidChar(c)
    ensures Span(CharText(c) + rest, Scan(d, InString)) == Shift(Span(rest, Scan(d, InString)), |CharText(c)|)
  {
    var t := CharText(c) + rest;
    match c {
      case Unescaped(b) => assert t[1..] == rest;
      case ShortEscape(b) =>
        assert t[1..] == [b] + rest;
        assert t[1..][1..] == rest;
      case UnicodeEscape(ds) =>
        assert t[1..] == [0x75] + ds + rest;
        assert t[1..][1..] == ds + rest;
        HexPassed(ds, d, rest);
    }
  }

  lemma {:induction false} HexPassed(ds: Text, d: int, rest: Text)
    requires forall b :: b in ds ==> HexDigit(b)
    ensures Span(ds + rest, Scan(d, InString)) == Shift(Span(rest, Scan(d, InString)), |ds|)
  {
    if ds == [] {
      assert ds + rest == rest;
    } else {
      HexPassed(ds[1..], d, rest);
      assert (ds + rest)[1..] == ds[1..] + rest;
      assert ds[0] in ds;
    }
  }

  lemma {:induction false} CharsPassed(cs: seq<Char>, d: int, rest: Text)
    requires ValidString(cs)
    ensures Span(CharsText(cs) + rest, Scan(d, InString)) == Shift(Span(rest, Scan(d, InString)), |CharsText(cs)|)
  {
    if cs == [] {
      assert CharsText(cs) + rest == rest;
    } else {
      CharsPassed(cs[1..], d, rest);
      CharPassed(cs[0], d, CharsText(cs[1..]) + rest);
      assert CharsText(cs) + rest == CharText(cs[0]) + (CharsText(cs[1..]) + rest);
    }
  }

  lemma StringSkipped(cs: seq<Char>, d: int)
    requires ValidString(cs)
    ensures Skipped(StringText(cs), d)
  {
    forall rest: Text ensures Passed(StringText(cs), rest, d) {
      var t := StringText(cs) + rest;
      assert t[1..] == CharsText(cs) + ([QUOTE] + rest);
      CharsPassed(cs, d, [QUOTE] + rest);
      assert ([QUOTE] + rest)[1..] == rest;
    }
  }

  lemma NumberSkipped(v: Value, d: int)
    requires v.Number? && ValidValue(v)
    ensures Skipped(ValueText(v), d)
  {
    assert Inert(v.whole);
    assert v.frac.Some? ==> Inert(v.frac.value);
    assert v.exp.Some? ==> Inert(ExponentText(v.exp.value));
    InertSkipped(ValueText(v), d);
  }

  /** Within an object, a complete value is passed over and the depth is as before. */
  lemma {:induction false} ValueSkipped(v: Value, d: int)
    requires ValidValue(v) && d >= 1
    ensures Skipped(ValueText(v), d)
    decreases v, 2
  {
    match v {
      case Name(n) => InertSkipped(ValueText(v), d);
      case Number(_, _, _, _) => NumberSkipped(v, d);
      case Str(chars) => StringSkipped(chars, d);
      case Arr(blank, elements) =>
        ElementsSkipped(elements, d);
        BracketsSkipped(blank, ElementsText(elements), d);
      case Obj(space, members) =>
        forall rest: Text ensures Passed(ValueText(v), rest, d) {
          ObjectSpan(v, d, rest);
          assert ([CLOSE] + rest)[1..] == rest;
        }
    }
  }

  lemma BracketsSkipped(blank: Text, body: Text, d: int)
    requires Blank(blank) && Skipped(body, d)
    ensures Skipped([OPEN_ARRAY] + blank + body + [CLOSE_ARRAY], d)
  {
    InertSkipped([OPEN_ARRAY], d);
    InertSkipped(blank, d);
    InertSkipped([CLOSE_ARRAY], d);
    SkippedConcat([OPEN_ARRAY], blank, d);
    SkippedConcat([OPEN_ARRAY] + blank, body, d);
    SkippedConcat([OPEN_ARRAY] + blank + body, [CLOSE_ARRAY], d);
  }

  /** Up to its closing brace an object is one level deeper. */
  lemma {:induction false} ObjectSpan(v: Value, d: int, rest: Text)
    requires v.Obj? && ValidValue(v) && d >= 0
    ensures Span(ValueText(v) + rest, Scan(d, Outside)) ==
            Shift(Span([CLOSE] + rest, Scan(d + 1, Outside)), |v.space + MembersText(v.members)| + 1)
    decreases v, 1
  {
    var body, after := v.space + MembersText(v.members), [CLOSE] + rest;
    Regroup([OPEN], v.space, MembersText(v.members), [CLOSE], rest);
    SpanCons(OPEN, body + after, Scan(d, Outside));
    BodyPassed(v, d + 1, after);
  }

  lemma Regroup(a: Text, b: Text, c: Text, d: Text, e: Text)
    ensures a + b + c + d + e == a + ((b + c) + (d + e))
  {
  }

  lemma {:induction false} BodyPassed(v: Value, d: int, rest: Text)
    requires v.Obj? && ValidValue(v) && d >= 1
    ensures Passed(v.space + MembersText(v.members), rest, d)
    decreases v, 0
  {
    MembersSkipped(v.members, d);
    InertSkipped(v.space, d);
    SkippedConcat(v.space, MembersText(v.members), d);
  }

  lemma {:induction false} ElementSkipped(e: Element, d: int)
    requires ValidElement(e) && d >= 1
    ensures Skipped(ElementText(e), d)
    decreases e
  {
    ValueSkipped(e.value, d);
    InertSkipped(e.before, d);
    InertSkipped(e.after, d);
    SkippedConcat(e.before, ValueText(e.value), d);
    SkippedConcat(e.before + ValueText(e.value), e.after, d);
  }

  lemma {:induction false} ElementsSkipped(es: seq<Element>, d: int)
    requires d >= 1 && forall i :: 0 <= i < |es| ==> ValidElement(es[i])
    ensures Skipped(ElementsText(es), d)
    decreases es
  {
    if es == [] {
      InertSkipped([], d);
    } else {
      ElementSkipped(es[0], d);
      if |es| > 1 {
        ElementsSkipped(es[1..], d);
        InertSkipped([COMMA], d);
        SkippedConcat(ElementText(es[0]), [COMMA], d);
        SkippedConcat(ElementText(es[0]) + [COMMA], ElementsText(es[1..]), d);
      }
    }
  }

  lemma {:induction false} MemberSkipped(m: Member, d: int)
    requires ValidMember(m) && d >= 1
    ensures Skipped(MemberText(m), d)
    decreases m
  {
    ElementSkipped(m.element, d);
    StringSkipped(m.name, d);
    InertSkipped(m.before, d);
    InertSkipped(m.between, d);
    InertSkipped([COLON], d);
    SkippedConcat(m.before, StringText(m.name), d);
    SkippedConcat(m.before + StringText(m.name), m.between, d);
    SkippedConcat(m.before + StringText(m.name) + m.between, [COLON], d);
    SkippedConcat(m.before + StringText(m.name) + m.between + [COLON], ElementText(m.element), d);
  }

  lemma {:induction false} MembersSkipped(ms: seq<Member>, d: int)
    requires d >= 1 && forall i :: 0 <= i < |ms| ==> ValidMember(ms[i])
    ensures Skipped(MembersText(ms), d)
    decreases ms
  {
    if ms == [] {
      InertSkipped([], d);
    } else {
      MemberSkipped(ms[0], d);
      if |ms| > 1 {
        MembersSkipped(ms[1..], d);
        InertSkipped([COMMA], d);
        SkippedConcat(MemberText(ms[0]), [COMMA], d);
        SkippedConcat(MemberText(ms[0]) + [COMMA], MembersText(ms[1..]), d);
      }
    }
  }

  // ----- What the scanner finds -----

  /** Any object text, after a prefix without '{' and before any suffix, is found exactly. */
  lemma FindsTheObject(prefix: Text, v: Value, suffix: Text)
    requires v.Obj? && ValidValue(v) && OPEN !in prefix
    ensures Extract(prefix + ValueText(v) + suffix) == Some(ValueText(v))
  {
    var text := prefix + ValueText(v) + suffix;
    assert text[..|prefix|] == prefix;
    FirstOpenIs(text, |prefix|);
    assert text[|prefix|..] == ValueText(v) + suffix;
    ObjectSpan(v, 0, suffix);
    assert (ValueText(v) + suffix)[..|ValueText(v)|] == ValueText(v);
  }

  /** The extraction of text is t, and starts at position i. */
  predicate FoundAt(text: Text, i: nat, t: Text) {
    FirstOpen(text) == Some(i) && Extract(text) == Some(t)
  }

  /** An object is found in its place, whatever follows it, if and only if no '{' precedes it. */
  lemma FoundInPlaceIff(prefix: Text, v: Value, suffix: Text)
    requires v.Obj? && ValidValue(v)
    ensures FoundAt(prefix + ValueText(v) + suffix, |prefix|, ValueText(v)) <==> OPEN !in prefix
  {
    var text := prefix + ValueText(v) + suffix;
    assert text[..|prefix|] == prefix;
    assert text[|prefix|] == OPEN;
    if OPEN !in prefix {
      FindsTheObject(prefix, v, suffix);
      FirstOpenIs(text, |prefix|);
    }
  }

  /** A '{' in the prefix can make the extraction yield nothing at all: "{ {}". */
  lemma StrayBraceHidesTheObject() returns (prefix: Text, v: Value)
    ensures v.Obj? && ValidValue(v) && Extract(prefix + ValueText(v)) == None
  {
    prefix, v := [OPEN], Obj([], []);
    var text := prefix + ValueText(v);
    assert text == [OPEN, OPEN, CLOSE];
    FirstOpenIs(text, 0);
    assert text[0..] == text && text[1..] == [OPEN, CLOSE] && text[1..][1..] == [CLOSE] && [CLOSE][1..] == [];
    assert Span([CLOSE], Scan(2, Outside)) == None;
    assert Span(text[1..], Scan(1, Outside)) == None;
  }
}
