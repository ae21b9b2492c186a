/** Why the byte scanner agrees with JSON: the reference semantics of a captured
  * `usage` object on a JSON tree, and the proof that scanning the text of any
  * tree captures exactly the objects the tree semantics names.
  *
  * The grammar follows sections 2 to 7 of RFC 8259.  It is a little wider than the
  * RFC (any bytes may follow a backslash or make up a number), which only makes
  * the theorems cover more texts.
  */
module JsonUsage {
  import opened Usage

  // ---- Texts ----

  predicate IsSpace(b: Byte) { b == 9 || b == 10 || b == 13 || b == 32 }

  /** Bytes which can stand alone inside a string. */
  type PlainByte = b: Byte | b != QUOTE && b != BACKSLASH witness 0

  /** Bytes of `true`, `false` and numbers. */
  predicate IsScalarByte(b: Byte) {
    && !IsAsciiWhitespace(b)
    && b != QUOTE && b != COLON && b != COMMA
    && b != OPEN_BRACE && b != CLOSE_BRACE && b != OPEN_BRACKET && b != CLOSE_BRACKET
  }

  type SpaceByte = b: Byte | IsSpace(b) witness 32
  type ScalarByte = b: Byte | IsScalarByte(b) witness 48
  type Spaces = seq<SpaceByte>

  /** One string character: a plain byte, or a backslash and the byte after it. */
  datatype Item = Plain(b: PlainByte) | Escape(e: Byte)

  datatype Value =
    | Null
    | Scalar(first: ScalarByte, more: seq<ScalarByte>)
    | String(items: seq<Item>)
    | Array(inner: Spaces, elements: Elements)
    | Object(gap: Spaces, members: Members)
  datatype Elements =
    | NoElements
    | Element(before: Spaces, value: Value, after: Spaces, rest: Elements)
  datatype Members =
    | NoMembers
    | Member(before: Spaces, key: seq<Item>, beforeColon: Spaces, afterColon: Spaces,
             value: Value, after: Spaces, rest: Members)

  /** `null` is its own constructor, so a scalar never starts with `n`. */
  predicate WellFormed(v: Value) {
    match v
    case Scalar(first, _) => first != LOWER_N
    case Array(_, elements) => WellFormedElements(elements)
    case Object(_, members) => WellFormedMembers(members)
    case _ => true
  }

  predicate WellFormedElements(es: Elements) {
    es.Element? ==> WellFormed(es.value) && WellFormedElements(es.rest)
  }

  predicate WellFormedMembers(ms: Members) {
    ms.Member? ==> WellFormed(ms.value) && WellFormedMembers(ms.rest)
  }

  function ItemText(item: Item): seq<Byte> {
    match item case Plain(b) => [b] case Escape(e) => [92, e]
  }

  function Raw(items: seq<Item>): seq<Byte> {
    if items == [] then [] else ItemText(items[0]) + Raw(items[1..])
  }

  function StringText(items: seq<Item>): seq<Byte> {
    [34] + Raw(items) + [34]
  }

  function Text(v: Value): seq<Byte> {
    match v
    case Null => [110, 117, 108, 108]
    case Scalar(first, more) => [first] + more
    case String(items) => StringText(items)
    case Array(inner, elements) => [OPEN_BRACKET] + inner + ElementsText(elements) + [CLOSE_BRACKET]
    case Object(gap, members) => [OPEN_BRACE] + gap + MembersText(members) + [CLOSE_BRACE]
  }

  function ElementsText(es: Elements): seq<Byte> {
    match es
    case NoElements => []
    case Element(before, value, after, rest) =>
      before + Text(value) + after + (if rest.NoElements? then [] else [44]) + ElementsText(rest)
  }

  function MembersText(ms: Members): seq<Byte> {
    match ms
    case NoMembers => []
    case Member(before, key, beforeColon, afterColon, value, after, rest) =>
      before + StringText(key) + beforeColon + [58] + afterColon + Text(value) + after
      + (if rest.NoMembers? then [] else [44]) + MembersText(rest)
  }

  // ---- The reference: which objects a tree offers ----

  const USAGE: seq<Byte> := [117, 115, 97, 103, 101]

  predicate SpellsUsage(key: seq<Item>) { Raw(key) == USAGE }

  /** `"usage` without its closing quote. */
  const OPENED: seq<Byte> := [34, 117, 115, 97, 103, 101]

  predicate EndsWith(text: seq<Byte>, suffix: seq<Byte>) {
    |suffix| <= |text| && text[|text| - |suffix|..] == suffix
  }

  /** The keys the scanner reacts to: those whose opening quote and raw text end
    * in `"usage`. */
  predicate Reacts(key: seq<Item>) { EndsWith([QUOTE] + Raw(key), OPENED) }

  /** The objects which are values of members whose key satisfies `isKey`,
    * outermost only, in document order. */
  function Outermost(v: Value, isKey: seq<Item> -> bool): seq<seq<Byte>>
    decreases v
  {
    match v
    case Array(_, elements) => OutermostOfElements(elements, isKey)
    case Object(_, members) => OutermostOfMembers(members, isKey)
    case _ => []
  }

  function OutermostOfElements(es: Elements, isKey: seq<Item> -> bool): seq<seq<Byte>>
    decreases es
  {
    match es
    case NoElements => []
    case Element(_, value, _, rest) => Outermost(value, isKey) + OutermostOfElements(rest, isKey)
  }

  function OutermostOfMembers(ms: Members, isKey: seq<Item> -> bool): seq<seq<Byte>>
    decreases ms
  {
    match ms
    case NoMembers => []
    case Member(_, key, _, _, value, _, rest) =>
      (if isKey(key) && value.Object? then [Text(value)] else Outermost(value, isKey))
      + OutermostOfMembers(rest, isKey)
  }

  predicate AllFit(objects: seq<seq<Byte>>) {
    forall o <- objects :: |o| <= 4096
  }

  lemma AllFitParts(a: seq<seq<Byte>>, b: seq<seq<Byte>>)
    requires AllFit(a + b)
    ensures AllFit(a) && AllFit(b)
  {
    forall o | o in a ensures o in a + b {}
    forall o | o in b ensures o in a + b {}
  }

  /** Every object on offer is short enough to buffer. */
  predicate Fits(v: Value, isKey: seq<Item> -> bool) {
    AllFit(Outermost(v, isKey))
  }

  // ---- Inside a captured object ----

  function Track(t: Nesting, bytes: seq<Byte>): Nesting
    decreases |bytes|
  {
    if bytes == [] then t else Track(TrackByte(t, bytes[0]), bytes[1..])
  }

  /** No prefix of `bytes` closes the object. */
  predicate StaysOpen(t: Nesting, bytes: seq<Byte>)
    decreases |bytes|
  {
    t.depth > 0 && (bytes != [] ==> StaysOpen(TrackByte(t, bytes[0]), bytes[1..]))
  }

  lemma {:induction false} TrackConcat(t: Nesting, a: seq<Byte>, b: seq<Byte>)
    ensures Track(t, a + b) == Track(Track(t, a), b)
    ensures StaysOpen(t, a + b) <==> StaysOpen(t, a) && StaysOpen(Track(t, a), b)
    decreases |a|
  {
    if a == [] {
      assert a + b == b;
    } else {
      assert (a + b)[0] == a[0] && (a + b)[1..] == a[1..] + b;
      TrackConcat(TrackByte(t, a[0]), a[1..], b);
    }
  }

  /** `bytes` is balanced: it leaves the nesting as it was and never closes it. */
  predicate Balanced(depth: nat, bytes: seq<Byte>) {
    var t := Nesting(depth, false, false);
    Track(t, bytes) == t && StaysOpen(t, bytes)
  }

  lemma BalancedConcat(depth: nat, a: seq<Byte>, b: seq<Byte>)
    requires Balanced(depth, a) && Balanced(depth, b)
    ensures Balanced(depth, a + b)
  {
    TrackConcat(Nesting(depth, false, false), a, b);
  }

  predicate IsNeutral(b: Byte) { b != QUOTE && b != OPEN_BRACE && b != CLOSE_BRACE }

  lemma {:induction false} BalancedNeutral(depth: nat, bytes: seq<Byte>)
    requires depth > 0 && forall b <- bytes :: IsNeutral(b)
    ensures Balanced(depth, bytes)
    decreases |bytes|
  {
    if bytes != [] {
      assert IsNeutral(bytes[0]);
      BalancedNeutral(depth, bytes[1..]);
    }
  }

  lemma {:induction false} TrackRaw(depth: nat, items: seq<Item>)
    requires depth > 0
    ensures Track(Nesting(depth, true, false), Raw(items)) == Nesting(depth, true, false)
    ensures StaysOpen(Nesting(depth, true, false), Raw(items))
    decreases |items|
  {
    if items != [] {
      var head := ItemText(items[0]);
      var t := Nesting(depth, true, false);
      TrackRaw(depth, items[1..]);
      TrackConcat(t, head, Raw(items[1..]));
      if items[0].Escape? {
        var e := items[0].e;
        TrackConcat(t, [BACKSLASH], [e]);
        assert [BACKSLASH][1..] == [] && [e][1..] == [] && head == [BACKSLASH] + [e];
        assert Track(t, [BACKSLASH]) == t.(escaped := true);
        assert StaysOpen(t.(escaped := true), [e]);
      } else {
        assert head[1..] == [];
      }
    }
  }

  lemma BalancedString(depth: nat, items: seq<Item>)
    requires depth > 0
    ensures Balanced(depth, StringText(items))
  {
    var t := Nesting(depth, false, false);
    TrackConcat(t, [QUOTE] + Raw(items), [QUOTE]);
    TrackConcat(t, [QUOTE], Raw(items));
    TrackRaw(depth, items);
    assert [QUOTE][1..] == [];
  }

  lemma {:induction false} BalancedValue(depth: nat, v: Value)
    requires depth > 0
    ensures Balanced(depth, Text(v))
    decreases v, 0
  {
    match v
    case Null => BalancedNeutral(depth, NULL);
    case Scalar(first, more) =>
      forall b | b in Text(v) ensures IsNeutral(b) {
        assert IsScalarByte(b);
      }
      BalancedNeutral(depth, Text(v));
    case String(items) => BalancedString(depth, items);
    case Array(inner, elements) =>
      BalancedNeutral(depth, [OPEN_BRACKET]);
      BalancedNeutral(depth, inner);
      BalancedElements(depth, elements);
      BalancedNeutral(depth, [CLOSE_BRACKET]);
      BalancedConcat(depth, [OPEN_BRACKET], inner);
      BalancedConcat(depth, [OPEN_BRACKET] + inner, ElementsText(elements));
      BalancedConcat(depth, [OPEN_BRACKET] + inner + ElementsText(elements), [CLOSE_BRACKET]);
    case Object(gap, members) =>
      ObjectClosesAtItsEnd(depth, v);
      TrackConcat(Nesting(depth, false, false), Text(v)[..|Text(v)| - 1], [CLOSE_BRACE]);
      assert Text(v) == Text(v)[..|Text(v)| - 1] + [CLOSE_BRACE];
      assert [CLOSE_BRACE][1..] == [];
  }

  /** One level down, an object's text stays open until its last byte. */
  lemma {:induction false} ObjectClosesAtItsEnd(depth: nat, v: Value)
    requires v.Object?
    ensures var t := Nesting(depth, false, false);
            var body := Text(v)[1..|Text(v)| - 1];
            && Text(v) == [OPEN_BRACE] + body + [CLOSE_BRACE]
            && Balanced(depth + 1, body)
            && Track(t, Text(v)[..|Text(v)| - 1]) == t.(depth := depth + 1)
            && (depth > 0 ==> StaysOpen(t, Text(v)[..|Text(v)| - 1]))
    decreases v.members, 2
  {
    var t := Nesting(depth, false, false);
    var body := v.gap + MembersText(v.members);
    assert Text(v)[1..|Text(v)| - 1] == body;
    BalancedNeutral(depth + 1, v.gap);
    BalancedMembers(depth + 1, v.members);
    BalancedConcat(depth + 1, v.gap, MembersText(v.members));
    TrackConcat(t, [OPEN_BRACE], body);
    assert [OPEN_BRACE][1..] == [];
    assert Text(v)[..|Text(v)| - 1] == [OPEN_BRACE] + body;
    assert Track(t, [OPEN_BRACE]) == t.(depth := depth + 1);
  }

  lemma {:induction false} BalancedElements(depth: nat, es: Elements)
    requires depth > 0
    ensures Balanced(depth, ElementsText(es))
    decreases es, 1
  {
    match es
    case NoElements =>
    case Element(before, value, after, rest) =>
      var comma := if rest.NoElements? then [] else [COMMA];
      BalancedNeutral(depth, before);
      BalancedValue(depth, value);
      BalancedNeutral(depth, after);
      BalancedNeutral(depth, comma);
      BalancedElements(depth, rest);
      BalancedConcat(depth, before, Text(value));
      BalancedConcat(depth, before + Text(value), after);
      BalancedConcat(depth, before + Text(value) + after, comma);
      BalancedConcat(depth, before + Text(value) + after + comma, ElementsText(rest));
  }

  lemma {:induction false} BalancedMembers(depth: nat, ms: Members)
    requires depth > 0
    ensures Balanced(depth, MembersText(ms))
    decreases ms, 1
  {
    match ms
    case NoMembers =>
    case Member(before, key, beforeColon, afterColon, value, after, rest) =>
      var comma := if rest.NoMembers? then [] else [COMMA];
      BalancedNeutral(depth, before);
      BalancedString(depth, key);
      BalancedNeutral(depth, beforeColon);
      BalancedNeutral(depth, [COLON]);
      BalancedNeutral(depth, afterColon);
      BalancedValue(depth, value);
      BalancedNeutral(depth, after);
      BalancedNeutral(depth, comma);
      BalancedMembers(depth, rest);
      var a := before + StringText(key);
      BalancedConcat(depth, before, StringText(key));
      BalancedConcat(depth, a, beforeColon);
      BalancedConcat(depth, a + beforeColon, [COLON]);
      BalancedConcat(depth, a + beforeColon + [COLON], afterColon);
      var b := a + beforeColon + [COLON] + afterColon;
      BalancedConcat(depth, b, Text(value));
      BalancedConcat(depth, b + Text(value), after);
      BalancedConcat(depth, b + Text(value) + after, comma);
      BalancedConcat(depth, b + Text(value) + after + comma, MembersText(rest));
  }

  function CapturingIn(t: Nesting, buffer: seq<Byte>, captured: seq<seq<Byte>>): ValidScanner
    requires t.depth > 0
  {
    Scanner(Capturing(t.depth, t.inString, t.escaped), buffer, captured)
  }

  lemma {:induction false} StaysOpenEnd(t: Nesting, bytes: seq<Byte>)
    requires StaysOpen(t, bytes)
    ensures Track(t, bytes).depth > 0
    decreases |bytes|
  {
    if bytes != [] {
      StaysOpenEnd(TrackByte(t, bytes[0]), bytes[1..]);
    }
  }

  /** Capturing follows the nesting while the buffer has room ... */
  lemma {:induction false} CaptureFollows(t: Nesting, buffer: seq<Byte>, captured: seq<seq<Byte>>, bytes: seq<Byte>)
    requires StaysOpen(t, bytes) && |buffer| + |bytes| < MAX_OBJECT_BYTES
    ensures Track(t, bytes).depth > 0
    ensures Run(CapturingIn(t, buffer, captured), bytes) == CapturingIn(Track(t, bytes), buffer + bytes, captured)
    decreases |bytes|
  {
    if bytes == [] {
      assert buffer + bytes == buffer;
    } else {
      CaptureFollows(TrackByte(t, bytes[0]), buffer + [bytes[0]], captured, bytes[1..]);
      assert buffer + [bytes[0]] + bytes[1..] == buffer + bytes;
    }
  }

  /** ... and gives up, keeping nothing, on the byte which fills it. */
  lemma {:induction false} CaptureGivesUp(t: Nesting, buffer: seq<Byte>, captured: seq<seq<Byte>>, bytes: seq<Byte>)
    requires StaysOpen(t, bytes) && |buffer| < MAX_OBJECT_BYTES && |buffer| + |bytes| == MAX_OBJECT_BYTES
    ensures Run(CapturingIn(t, buffer, captured), bytes) == Scanner(Searching(0), [], captured)
  {
    var most, last := bytes[..|bytes| - 1], bytes[|bytes| - 1];
    assert bytes == most + [last];
    TrackConcat(t, most, [last]);
    CaptureFollows(t, buffer, captured, most);
    var s := CapturingIn(t, buffer, captured);
    RunConcat(s, most, [last]);
    assert StaysOpen(Track(t, most), [last]);
    assert [last][1..] == [];
    assert Run(Run(s, most), [last]) == StepByte(Run(s, most), last);
  }

  /** An object value awaited by the scanner is captured, whole, if it fits. */
  lemma ObjectCaptured(v: Value, captured: seq<seq<Byte>>)
    requires v.Object? && |Text(v)| <= MAX_OBJECT_BYTES
    ensures Run(Scanner(AwaitingValue, [], captured), Text(v))
         == Scanner(Searching(0), [], captured + [Text(v)])
  {
    var s: ValidScanner := Scanner(AwaitingValue, [], captured);
    var body := Text(v)[1..|Text(v)| - 1];
    ObjectClosesAtItsEnd(0, v);
    RunConcat(s, [OPEN_BRACE] + body, [CLOSE_BRACE]);
    RunConcat(s, [OPEN_BRACE], body);
    assert [OPEN_BRACE][1..] == [] && [CLOSE_BRACE][1..] == [];
    var t := Nesting(1, false, false);
    assert Run(s, [OPEN_BRACE]) == CapturingIn(t, [OPEN_BRACE], captured);
    CaptureFollows(t, [OPEN_BRACE], captured, body);
    var full := CapturingIn(t, [OPEN_BRACE] + body, captured);
    assert Run(full, [CLOSE_BRACE]) == StepByte(full, CLOSE_BRACE);
  }

  lemma FrontOf(text: seq<Byte>, body: seq<Byte>)
    requires |text| > MAX_OBJECT_BYTES && text == [OPEN_BRACE] + body + [CLOSE_BRACE]
    ensures text[..MAX_OBJECT_BYTES] == [OPEN_BRACE] + body[..MAX_OBJECT_BYTES - 1]
    ensures body == body[..MAX_OBJECT_BYTES - 1] + body[MAX_OBJECT_BYTES - 1..]
    ensures text == text[..MAX_OBJECT_BYTES] + text[MAX_OBJECT_BYTES..]
  {
  }

  /** A longer one is dropped after exactly 4096 bytes, and what is left of it is
    * searched as if it were fresh text. */
  lemma OversizedObjectDropped(v: Value, captured: seq<seq<Byte>>)
    requires v.Object? && |Text(v)| > MAX_OBJECT_BYTES
    ensures Run(Scanner(AwaitingValue, [], captured), Text(v)[..MAX_OBJECT_BYTES])
         == Scanner(Searching(0), [], captured)
    ensures Run(Scanner(AwaitingValue, [], captured), Text(v))
         == Run(Scanner(Searching(0), [], captured), Text(v)[MAX_OBJECT_BYTES..])
  {
    var s: ValidScanner := Scanner(AwaitingValue, [], captured);
    var body := Text(v)[1..|Text(v)| - 1];
    var room := body[..MAX_OBJECT_BYTES - 1];
    ObjectClosesAtItsEnd(0, v);
    FrontOf(Text(v), body);
    var t := Nesting(1, false, false);
    TrackConcat(t, room, body[MAX_OBJECT_BYTES - 1..]);
    RunConcat(s, [OPEN_BRACE], room);
    assert [OPEN_BRACE][1..] == [];
    assert Run(s, [OPEN_BRACE]) == CapturingIn(t, [OPEN_BRACE], captured);
    CaptureGivesUp(t, [OPEN_BRACE], captured, room);
    RunConcat(s, Text(v)[..MAX_OBJECT_BYTES], Text(v)[MAX_OBJECT_BYTES..]);
  }

  // ---- Outside captured objects ----

  function Idle(matched: nat, captured: seq<seq<Byte>>): ValidScanner
    requires matched < |NEEDLE|
  {
    Scanner(Searching(matched), [], captured)
  }

  /** The needle's only interior quote is its first byte, so the scanner's counter is
    * the one length at which the text ends in a prefix of the needle. */
  predicate Agrees(matched: nat, text: seq<Byte>) {
    && matched <= |OPENED|
    && (matched > 0 ==> EndsWith(text, OPENED[..matched]))
    && (forall k :: 1 <= k <= |OPENED| && EndsWith(text, OPENED[..k]) ==> k == matched)
  }

  lemma EndsWithExtends(text: seq<Byte>, b: Byte, k: nat)
    requires 1 <= k <= |OPENED|
    ensures EndsWith(text + [b], OPENED[..k]) <==> EndsWith(text, OPENED[..k - 1]) && OPENED[k - 1] == b
  {
    assert OPENED[..k] == OPENED[..k - 1] + [OPENED[k - 1]];
    if k <= |text| + 1 {
      assert (text + [b])[|text| + 1 - k..] == text[|text| - (k - 1)..] + [b];
    }
  }

  /** One byte of string content, which is never a quote after a full `"usage`. */
  lemma AgreesStep(text: seq<Byte>, matched: nat, b: Byte, captured: seq<seq<Byte>>) returns (m: nat)
    requires Agrees(matched, text) && (b == QUOTE ==> matched == 0)
    ensures Agrees(m, text + [b]) && StepByte(Idle(matched, captured), b) == Idle(m, captured)
    ensures b == BACKSLASH ==> m == 0
  {
    m := if b == NEEDLE[matched] then matched + 1 else 0;
    assert StepByte(Idle(matched, captured), b) == Idle(m, captured);
    assert OPENED[..0] == [];
    if m > 0 {
      EndsWithExtends(text, b, m);
    }
    forall k | 1 <= k <= |OPENED| && EndsWith(text + [b], OPENED[..k]) ensures k == m {
      EndsWithExtends(text, b, k);
    }
    assert Agrees(m, text + [b]);
  }

  /** One string character. */
  lemma ItemAgrees(text: seq<Byte>, matched: nat, item: Item, captured: seq<seq<Byte>>) returns (m: nat)
    requires Agrees(matched, text)
    ensures Agrees(m, text + ItemText(item)) && Run(Idle(matched, captured), ItemText(item)) == Idle(m, captured)
  {
    var s := Idle(matched, captured);
    match item
    case Plain(b) =>
      assert ItemText(item) == [b] && [b][1..] == [];
      m := AgreesStep(text, matched, b, captured);
    case Escape(e) =>
      assert ItemText(item) == [BACKSLASH] + [e];
      assert [BACKSLASH][1..] == [] && [e][1..] == [];
      assert text + ([BACKSLASH] + [e]) == text + [BACKSLASH] + [e];
      RunConcat(s, [BACKSLASH], [e]);
      m := AgreesStep(text, matched, BACKSLASH, captured);
      m := AgreesStep(text + [BACKSLASH], 0, e, captured);
  }

  lemma {:induction false} RawAgrees(text: seq<Byte>, matched: nat, items: seq<Item>, captured: seq<seq<Byte>>)
    returns (m: nat)
    requires Agrees(matched, text)
    ensures Agrees(m, text + Raw(items)) && Run(Idle(matched, captured), Raw(items)) == Idle(m, captured)
    decreases |items|
  {
    if items == [] {
      assert text + Raw(items) == text;
      m := matched;
    } else {
      var head, tail := ItemText(items[0]), Raw(items[1..]);
      assert Raw(items) == head + tail;
      var m1 := ItemAgrees(text, matched, items[0], captured);
      m := RawAgrees(text + head, m1, items[1..], captured);
      assert text + head + tail == text + (head + tail);
      RunConcat(Idle(matched, captured), head, tail);
    }
  }

  /** After a string the scanner waits for a colon exactly if it reacts to the string. */
  function AfterString(items: seq<Item>, captured: seq<seq<Byte>>): ValidScanner {
    if Reacts(items) then Scanner(AwaitingColon, [], captured) else Idle(1, captured)
  }

  predicate AtValue(s: ValidScanner) {
    s.buffer == [] && (s.state == Searching(0) || s.state == AwaitingValue)
  }

  lemma RunString(s: ValidScanner, items: seq<Item>)
    requires AtValue(s)
    ensures Run(s, StringText(items)) == AfterString(items, s.captured)
  {
    var c := s.captured;
    RunConcat(s, [QUOTE] + Raw(items), [QUOTE]);
    RunConcat(s, [QUOTE], Raw(items));
    assert [QUOTE][1..] == [];
    assert Run(s, [QUOTE]) == Idle(1, c);
    assert Agrees(1, [QUOTE]) by {
      assert OPENED[..1] == [QUOTE];
      forall k | 1 <= k <= |OPENED| && EndsWith([QUOTE], OPENED[..k]) ensures k == 1 {
        assert |OPENED[..k]| == k;
      }
    }
    var m := RawAgrees([QUOTE], 1, items, c);
    assert OPENED[..6] == OPENED;
    assert Reacts(items) <==> m == 6;
    assert Run(Idle(m, c), [QUOTE]) == StepByte(Idle(m, c), QUOTE);
  }

  /** Bytes which leave the searching scanner where it is. */
  lemma {:induction false} RunQuiet(captured: seq<seq<Byte>>, bytes: seq<Byte>)
    requires QUOTE !in bytes
    ensures Run(Idle(0, captured), bytes) == Idle(0, captured)
    decreases |bytes|
  {
    if bytes != [] {
      RunQuiet(captured, bytes[1..]);
    }
  }

  lemma {:induction false} RunSpacesAwaiting(s: ValidScanner, spaces: Spaces)
    requires s.state == AwaitingColon || s.state == AwaitingValue
    ensures Run(s, spaces) == s
    decreases |spaces|
  {
    if spaces != [] {
      RunSpacesAwaiting(s, spaces[1..]);
    }
  }

  /** Where the scanner may stand after a value. */
  predicate Settled(s: ValidScanner) {
    s.buffer == [] && (s.state == Searching(0) || s.state == Searching(1) || s.state == AwaitingColon)
  }

  predicate IsDelimiter(b: Byte) { b == COMMA || b == CLOSE_BRACE || b == CLOSE_BRACKET }

  /** White space and a delimiter after a value return the scanner to searching. */
  lemma {:induction false} RunToDelimiter(s: ValidScanner, spaces: Spaces, b: Byte)
    requires Settled(s) && IsDelimiter(b)
    ensures Run(s, spaces + [b]) == Idle(0, s.captured)
    decreases |spaces|
  {
    if spaces == [] {
      assert spaces + [b] == [b] && [b][1..] == [];
    } else {
      assert (spaces + [b])[1..] == spaces[1..] + [b];
      RunToDelimiter(StepByte(s, spaces[0]), spaces[1..], b);
    }
  }

  /** White space alone leaves the scanner settled. */
  lemma {:induction false} RunSpacesSettled(s: ValidScanner, spaces: Spaces)
    requires Settled(s)
    ensures Settled(Run(s, spaces)) && Run(s, spaces).captured == s.captured
    decreases |spaces|
  {
    if spaces != [] {
      RunSpacesSettled(StepByte(s, spaces[0]), spaces[1..]);
    }
  }

  // ---- The main induction ----

  /** Feeding `text` to `s` captures `due` and settles. */
  predicate Scans(s: ValidScanner, text: seq<Byte>, due: seq<seq<Byte>>) {
    Settled(Run(s, text)) && Run(s, text).captured == s.captured + due
  }

  /** What the scanner is due to capture in a value which starts in state `s`. */
  function Due(s: ValidScanner, v: Value): seq<seq<Byte>> {
    if s.state == AwaitingValue && v.Object? then [Text(v)] else Outermost(v, Reacts)
  }

  lemma {:induction false} RunValue(s: ValidScanner, v: Value)
    requires WellFormed(v) && AtValue(s)
    requires AllFit(Due(s, v))
    ensures Scans(s, Text(v), Due(s, v))
    ensures !v.String? ==> Run(s, Text(v)).state == Searching(0)
    decreases v, 0
  {
    var c := s.captured;
    match v
    case Null =>
      assert NULL[1..][1..][1..][1..] == [];
      assert Run(s, NULL) == Idle(0, c);
    case Scalar(first, more) =>
      assert Text(v)[1..] == more;
      assert StepByte(s, first) == Idle(0, c);
      RunQuiet(c, more);
    case String(items) => RunString(s, items);
    case Array(inner, elements) =>
      RunElements(c, elements);
      RunBracketed(s, OPEN_BRACKET, inner, ElementsText(elements), CLOSE_BRACKET);
    case Object(gap, members) =>
      if s.state == AwaitingValue {
        assert Text(v) in Due(s, v);
        ObjectCaptured(v, c);
      } else {
        RunMembers(c, members);
        RunBracketed(s, OPEN_BRACE, gap, MembersText(members), CLOSE_BRACE);
      }
  }

  lemma RunFirst(s: ValidScanner, b: Byte, rest: seq<Byte>)
    ensures Run(s, [b] + rest) == Run(StepByte(s, b), rest)
  {
    assert ([b] + rest)[1..] == rest;
  }

  lemma RunFour(s: ValidScanner, b: Byte, x: seq<Byte>, y: seq<Byte>, z: seq<Byte>)
    ensures Run(s, [b] + x + y + z) == Run(Run(Run(StepByte(s, b), x), y), z)
  {
    RunConcat(s, [b] + x + y, z);
    RunConcat(s, [b] + x, y);
    RunFirst(s, b, x);
  }

  lemma RunBracketed(s: ValidScanner, open: Byte, gap: Spaces, body: seq<Byte>, close: Byte)
    requires AtValue(s) && IsDelimiter(close)
    requires open == OPEN_BRACKET || (open == OPEN_BRACE && s.state == Searching(0))
    requires Settled(Run(Idle(0, s.captured), body))
    ensures Run(s, [open] + gap + body + [close]) == Idle(0, Run(Idle(0, s.captured), body).captured)
  {
    var start := Idle(0, s.captured);
    RunFour(s, open, gap, body, [close]);
    assert StepByte(s, open) == start;
    RunQuiet(s.captured, gap);
    RunToDelimiter(Run(start, body), [], close);
    assert [] + [close] == [close];
  }

  lemma {:induction false} RunElements(c: seq<seq<Byte>>, es: Elements)
    requires WellFormedElements(es)
    requires AllFit(OutermostOfElements(es, Reacts))
    ensures Scans(Idle(0, c), ElementsText(es), OutermostOfElements(es, Reacts))
    decreases es, 1
  {
    match es
    case NoElements =>
      assert c + [] == c;
    case Element(before, value, after, rest) =>
      var due, more := Outermost(value, Reacts), OutermostOfElements(rest, Reacts);
      AllFitParts(due, more);
      RunQuiet(c, before);
      RunValue(Idle(0, c), value);
      RunElements(c + due, rest);
      RunTail(c, before, Text(value), due, after, rest.NoElements?, ElementsText(rest), more);
  }

  /** The end of an element or a member: white space and, unless it is the last, a comma. */
  lemma RunTail(c: seq<seq<Byte>>, head: seq<Byte>, value: seq<Byte>, due: seq<seq<Byte>>, after: Spaces,
                last: bool, rest: seq<Byte>, more: seq<seq<Byte>>)
    requires Run(Idle(0, c), head).captured == c && Scans(Run(Idle(0, c), head), value, due)
    requires last ==> rest == [] && more == []
    requires Scans(Idle(0, c + due), rest, more)
    ensures Scans(Idle(0, c), head + value + after + (if last then [] else [COMMA]) + rest, due + more)
  {
    var s := Idle(0, c);
    var done := head + value;
    RunConcat(s, head, value);
    var r := Run(s, done);
    assert c + due + more == c + (due + more);
    if last {
      assert done + after + [] + rest == done + after;
      RunConcat(s, done, after);
      RunSpacesSettled(r, after);
    } else {
      assert done + after + [COMMA] + rest == done + (after + [COMMA]) + rest;
      RunConcat(s, done + (after + [COMMA]), rest);
      RunConcat(s, done, after + [COMMA]);
      RunToDelimiter(r, after, COMMA);
    }
  }

  /** From a key to its value: the scanner awaits the value exactly if it reacts to the key. */
  lemma RunKey(c: seq<seq<Byte>>, before: Spaces, key: seq<Item>, beforeColon: Spaces, afterColon: Spaces)
    ensures Run(Idle(0, c), before + StringText(key) + beforeColon + [COLON] + afterColon)
         == (if Reacts(key) then Scanner(AwaitingValue, [], c) else Idle(0, c))
  {
    var s := Idle(0, c);
    var a := before + StringText(key);
    RunConcat(s, a + beforeColon + [COLON], afterColon);
    RunConcat(s, a + beforeColon, [COLON]);
    RunConcat(s, a, beforeColon);
    RunConcat(s, before, StringText(key));
    RunQuiet(c, before);
    RunString(s, key);
    assert [COLON][1..] == [];
    var t := AfterString(key, c);
    if Reacts(key) {
      RunSpacesAwaiting(t, beforeColon);
      RunSpacesAwaiting(Scanner(AwaitingValue, [], c), afterColon);
    } else {
      if beforeColon != [] {
        assert StepByte(t, beforeColon[0]) == Idle(0, c);
        RunQuiet(c, beforeColon[1..]);
      }
      RunQuiet(c, afterColon);
    }
  }

  lemma {:induction false} RunMembers(c: seq<seq<Byte>>, ms: Members)
    requires WellFormedMembers(ms)
    requires AllFit(OutermostOfMembers(ms, Reacts))
    ensures Scans(Idle(0, c), MembersText(ms), OutermostOfMembers(ms, Reacts))
    decreases ms, 1
  {
    match ms
    case NoMembers =>
      assert c + [] == c;
    case Member(before, key, beforeColon, afterColon, value, after, rest) =>
      var head := before + StringText(key) + beforeColon + [COLON] + afterColon;
      RunKey(c, before, key, beforeColon, afterColon);
      var atValue := Run(Idle(0, c), head);
      var due, more := Due(atValue, value), OutermostOfMembers(rest, Reacts);
      AllFitParts(due, more);
      RunValue(atValue, value);
      RunMembers(c + due, rest);
      RunTail(c, head, Text(value), due, after, rest.NoMembers?, MembersText(rest), more);
  }

  // ---- Main results ----

  /** Only texts of at most 4096 bytes are ever captured. */
  lemma {:induction false} CapturesAreShort(s: ValidScanner, bytes: seq<Byte>)
    requires |s.buffer| < MAX_OBJECT_BYTES
    ensures var r := Run(s, bytes);
            s.captured <= r.captured && AllFit(r.captured[|s.captured|..])
    decreases |bytes|
  {
    if bytes != [] {
      var s1 := StepByte(s, bytes[0]);
      CapturesAreShort(s1, bytes[1..]);
      var r := Run(s1, bytes[1..]);
      assert s.captured <= s1.captured;
      forall o | o in r.captured[|s.captured|..] ensures |o| <= MAX_OBJECT_BYTES {
        var i :| |s.captured| <= i < |r.captured| && r.captured[i] == o;
        if i >= |s1.captured| {
          assert o in r.captured[|s1.captured|..];
        }
      }
    }
  }

  /** What was captured since then is short, so it is not a list with a longer text. */
  lemma CapturedIsShort(s: ValidScanner, bytes: seq<Byte>, due: seq<seq<Byte>>)
    requires |s.buffer| < MAX_OBJECT_BYTES && Run(s, bytes).captured == s.captured + due
    ensures AllFit(due)
  {
    CapturesAreShort(s, bytes);
    assert Run(s, bytes).captured[|s.captured|..] == due;
  }

  lemma TreeScanned(before: Spaces, v: Value, after: Spaces)
    requires WellFormed(v) && Fits(v, Reacts)
    ensures Run(Fresh, before + Text(v) + after).captured == Outermost(v, Reacts)
  {
    RunConcat(Fresh, before + Text(v), after);
    RunConcat(Fresh, before, Text(v));
    RunQuiet([], before);
    RunValue(Fresh, v);
    RunSpacesSettled(Run(Fresh, Text(v)), after);
  }

  /** Scanning the text of any JSON value captures exactly the outermost objects under
    * the keys the scanner reacts to - if and only if each has at most 4096 bytes. */
  lemma ScannerAgreesWithTree(before: Spaces, v: Value, after: Spaces)
    requires WellFormed(v)
    ensures Run(Fresh, before + Text(v) + after).captured == Outermost(v, Reacts) <==> Fits(v, Reacts)
  {
    if Fits(v, Reacts) {
      TreeScanned(before, v, after);
    } else if Run(Fresh, before + Text(v) + after).captured == Outermost(v, Reacts) {
      assert [] + Outermost(v, Reacts) == Outermost(v, Reacts);
      CapturedIsShort(Fresh, before + Text(v) + after, Outermost(v, Reacts));
    }
  }

  /** Six items which read `\"usage`. */
  const FALSE_FRIEND: seq<Item> := [Escape(QUOTE), Plain(117), Plain(115), Plain(97), Plain(103), Plain(101)]

  predicate EndsInFalseFriend(key: seq<Item>) {
    |FALSE_FRIEND| <= |key| && key[|key| - |FALSE_FRIEND|..] == FALSE_FRIEND
  }

  lemma {:induction false} RawSplit(a: seq<Item>, b: seq<Item>)
    ensures Raw(a + b) == Raw(a) + Raw(b)
    decreases |a|
  {
    if a == [] {
      assert a + b == b;
    } else {
      assert (a + b)[0] == a[0] && (a + b)[1..] == a[1..] + b;
      RawSplit(a[1..], b);
    }
  }

  function Letters(bytes: seq<PlainByte>): seq<Item> {
    seq(|bytes|, i requires 0 <= i < |bytes| => Plain(bytes[i]))
  }

  lemma RawLast(key: seq<Item>)
    requires key != []
    ensures Raw(key) == Raw(key[..|key| - 1]) + ItemText(key[|key| - 1])
  {
    var n := |key| - 1;
    assert key == key[..n] + [key[n]];
    RawSplit(key[..n], [key[n]]);
    assert [key[n]][1..] == [];
    assert Raw([key[n]]) == ItemText(key[n]) + Raw([]);
  }

  /** A quote in the raw text is always escaped, so raw text ending in a quote and
    * plain letters comes from an escaped quote and those letters. */
  lemma {:induction false} QuotedEnding(key: seq<Item>, letters: seq<PlainByte>)
    requires EndsWith(Raw(key), [QUOTE] + letters)
    ensures |letters| + 1 <= |key| && key[|key| - |letters| - 1..] == [Escape(QUOTE)] + Letters(letters)
    decreases |letters|
  {
    assert key != [];
    if letters == [] {
      RawLast(key);
      EscapedQuoteLast(Raw(key[..|key| - 1]), key[|key| - 1]);
    } else {
      var n, m := |key| - 1, |letters| - 1;
      var front, less := key[..n], letters[..m];
      RawLast(key);
      LettersLast(letters, less);
      PeelLetter(Raw(key), Raw(front), key[n], [QUOTE] + letters, [QUOTE] + less, letters[m]);
      QuotedEnding(front, less);
      AppendLetter(key, front, letters, less);
    }
  }

  lemma LettersLast(letters: seq<PlainByte>, less: seq<PlainByte>)
    requires letters != [] && less == letters[..|letters| - 1]
    ensures [QUOTE] + letters == ([QUOTE] + less) + [letters[|letters| - 1]]
    ensures ([QUOTE] + less)[|less|] != BACKSLASH
  {
  }

  lemma EscapedQuoteLast(front: seq<Byte>, item: Item)
    requires EndsWith(front + ItemText(item), [QUOTE])
    ensures item == Escape(QUOTE)
  {
    var t := ItemText(item);
    assert front + t == (front + t[..|t| - 1]) + [t[|t| - 1]];
    EndsWithLast(front + t[..|t| - 1], t[|t| - 1], [QUOTE]);
  }

  lemma AppendLetter(key: seq<Item>, front: seq<Item>, letters: seq<PlainByte>, less: seq<PlainByte>)
    requires key != [] && letters != [] && front == key[..|key| - 1] && less == letters[..|letters| - 1]
    requires key[|key| - 1] == Plain(letters[|letters| - 1])
    requires |less| + 1 <= |front| && front[|front| - |less| - 1..] == [Escape(QUOTE)] + Letters(less)
    ensures |letters| + 1 <= |key| && key[|key| - |letters| - 1..] == [Escape(QUOTE)] + Letters(letters)
  {
    assert key[|key| - |letters| - 1..] == front[|front| - |less| - 1..] + [key[|key| - 1]];
    assert Letters(letters) == Letters(less) + [Plain(letters[|letters| - 1])];
  }

  lemma EndsWithLast(text: seq<Byte>, b: Byte, ending: seq<Byte>)
    requires ending != [] && EndsWith(text + [b], ending)
    ensures ending[|ending| - 1] == b && EndsWith(text, ending[..|ending| - 1])
  {
    var whole, n := text + [b], |ending|;
    assert whole[|whole| - n..][n - 1] == b;
    assert text[|text| - (n - 1)..] == whole[|whole| - n..][..n - 1];
  }

  lemma PeelLetter(raw: seq<Byte>, front: seq<Byte>, item: Item, whole: seq<Byte>, ending: seq<Byte>, letter: Byte)
    requires raw == front + ItemText(item) && whole == ending + [letter] && EndsWith(raw, whole)
    requires letter != QUOTE && ending != [] && ending[|ending| - 1] != BACKSLASH
    ensures item.Plain? && item.b == letter && EndsWith(front, ending)
  {
    var t := ItemText(item);
    var most := front + t[..|t| - 1];
    assert front + t == most + [t[|t| - 1]];
    assert whole[..|ending|] == ending;
    EndsWithLast(most, t[|t| - 1], whole);
    assert most[|most| - 1] == most[|most| - |ending|..][|ending| - 1];
    assert item.Plain? ==> most == front;
  }

  /** Exactly which keys the scanner takes for `usage`: that key itself, and the keys
    * which end in an escaped quote followed by it. */
  lemma ReactsExactly(key: seq<Item>)
    ensures Reacts(key) <==> SpellsUsage(key) || EndsInFalseFriend(key)
  {
    assert OPENED == [QUOTE] + USAGE;
    if Reacts(key) {
      var raw := Raw(key);
      if |raw| == |USAGE| {
        assert [QUOTE] + raw == OPENED;
        assert ([QUOTE] + raw)[1..] == raw && OPENED[1..] == USAGE;
      } else {
        assert ([QUOTE] + raw)[|raw| - 5..] == raw[|raw| - 6..];
        QuotedEnding(key, USAGE);
        assert [Escape(QUOTE)] + Letters(USAGE) == FALSE_FRIEND;
      }
    }
    if EndsInFalseFriend(key) {
      FalseFriendReacts(key);
    }
  }

  lemma FalseFriendReacts(key: seq<Item>)
    requires EndsInFalseFriend(key)
    ensures Reacts(key)
  {
    var head := key[..|key| - 6];
    assert key == head + FALSE_FRIEND;
    RawSplit(head, FALSE_FRIEND);
    FalseFriendText();
    assert [QUOTE] + Raw(key) == [QUOTE] + Raw(head) + [BACKSLASH] + OPENED;
  }

  lemma FalseFriendText()
    ensures Raw(FALSE_FRIEND) == [BACKSLASH] + OPENED
  {
    var tail := FALSE_FRIEND[1..];
    assert Raw(FALSE_FRIEND) == [BACKSLASH, QUOTE] + Raw(tail);
    assert tail[1..][1..][1..][1..][1..] == [];
    assert Raw(tail) == [117] + Raw(tail[1..]);
    assert Raw(tail[1..]) == [115] + Raw(tail[1..][1..]);
    assert Raw(tail[1..][1..]) == [97] + Raw(tail[1..][1..][1..]);
    assert Raw(tail[1..][1..][1..]) == [103] + Raw(tail[1..][1..][1..][1..]);
  }

  /** No object is the value of a falsely recognised key. */
  predicate Faithful(v: Value)
    decreases v
  {
    match v
    case Array(_, elements) => FaithfulElements(elements)
    case Object(_, members) => FaithfulMembers(members)
    case _ => true
  }

  predicate FaithfulElements(es: Elements)
    decreases es
  {
    es.Element? ==> Faithful(es.value) && FaithfulElements(es.rest)
  }

  predicate FaithfulMembers(ms: Members)
    decreases ms
  {
    ms.Member? ==>
      && (if ms.value.Object? && Reacts(ms.key) then SpellsUsage(ms.key) else Faithful(ms.value))
      && FaithfulMembers(ms.rest)
  }

  function TotalLength(objects: seq<seq<Byte>>): nat {
    if objects == [] then 0 else |objects[0]| + TotalLength(objects[1..])
  }

  lemma {:induction false} TotalLengthConcat(a: seq<seq<Byte>>, b: seq<seq<Byte>>)
    ensures TotalLength(a + b) == TotalLength(a) + TotalLength(b)
    decreases |a|
  {
    if a == [] {
      assert a + b == b;
    } else {
      assert (a + b)[0] == a[0] && (a + b)[1..] == a[1..] + b;
      TotalLengthConcat(a[1..], b);
    }
  }

  lemma {:induction false} OutermostShort(v: Value, isKey: seq<Item> -> bool)
    ensures TotalLength(Outermost(v, isKey)) <= |Text(v)|
    ensures v.Object? ==> TotalLength(Outermost(v, isKey)) < |Text(v)|
    decreases v
  {
    match v
    case Array(_, elements) => OutermostOfElementsShort(elements, isKey);
    case Object(_, members) => OutermostOfMembersShort(members, isKey);
    case _ =>
  }

  lemma {:induction false} OutermostOfElementsShort(es: Elements, isKey: seq<Item> -> bool)
    ensures TotalLength(OutermostOfElements(es, isKey)) <= |ElementsText(es)|
    decreases es
  {
    if es.Element? {
      OutermostShort(es.value, isKey);
      OutermostOfElementsShort(es.rest, isKey);
      TotalLengthConcat(Outermost(es.value, isKey), OutermostOfElements(es.rest, isKey));
    }
  }

  lemma {:induction false} OutermostOfMembersShort(ms: Members, isKey: seq<Item> -> bool)
    ensures TotalLength(OutermostOfMembers(ms, isKey)) <= |MembersText(ms)|
    decreases ms
  {
    if ms.Member? {
      OutermostShort(ms.value, isKey);
      OutermostOfMembersShort(ms.rest, isKey);
      var own := if isKey(ms.key) && ms.value.Object? then [Text(ms.value)] else Outermost(ms.value, isKey);
      assert [Text(ms.value)][1..] == [];
      TotalLengthConcat(own, OutermostOfMembers(ms.rest, isKey));
    }
  }

  /** Two readings of a tree, equal exactly if the tree is faithful.  A falsely
    * recognised object outweighs whatever it contains, so it cannot be hidden. */
  predicate SameReading(reacts: seq<seq<Byte>>, spells: seq<seq<Byte>>, faithful: bool) {
    && (faithful ==> reacts == spells)
    && TotalLength(spells) <= TotalLength(reacts)
    && (!faithful ==> TotalLength(spells) < TotalLength(reacts))
  }

  lemma SameReadingConcat(r1: seq<seq<Byte>>, s1: seq<seq<Byte>>, f1: bool, r2: seq<seq<Byte>>, s2: seq<seq<Byte>>, f2: bool)
    requires SameReading(r1, s1, f1) && SameReading(r2, s2, f2)
    ensures SameReading(r1 + r2, s1 + s2, f1 && f2)
  {
    TotalLengthConcat(r1, r2);
    TotalLengthConcat(s1, s2);
  }

  lemma {:induction false} FaithfulReading(v: Value)
    ensures SameReading(Outermost(v, Reacts), Outermost(v, SpellsUsage), Faithful(v))
    decreases v
  {
    match v
    case Array(_, elements) => FaithfulElementsReading(elements);
    case Object(_, members) => FaithfulMembersReading(members);
    case _ =>
  }

  lemma {:induction false} FaithfulElementsReading(es: Elements)
    ensures SameReading(OutermostOfElements(es, Reacts), OutermostOfElements(es, SpellsUsage), FaithfulElements(es))
    decreases es
  {
    if es.Element? {
      FaithfulReading(es.value);
      FaithfulElementsReading(es.rest);
      SameReadingConcat(Outermost(es.value, Reacts), Outermost(es.value, SpellsUsage), Faithful(es.value),
                        OutermostOfElements(es.rest, Reacts), OutermostOfElements(es.rest, SpellsUsage),
                        FaithfulElements(es.rest));
    }
  }

  lemma {:induction false} FaithfulMembersReading(ms: Members)
    ensures SameReading(OutermostOfMembers(ms, Reacts), OutermostOfMembers(ms, SpellsUsage), FaithfulMembers(ms))
    decreases ms
  {
    if ms.Member? {
      var v := ms.value;
      var whole := [Text(v)];
      assert whole[1..] == [];
      ReactsExactly(ms.key);
      OutermostShort(v, SpellsUsage);
      FaithfulReading(v);
      FaithfulMembersReading(ms.rest);
      var r := if Reacts(ms.key) && v.Object? then whole else Outermost(v, Reacts);
      var s := if SpellsUsage(ms.key) && v.Object? then whole else Outermost(v, SpellsUsage);
      var f := if v.Object? && Reacts(ms.key) then SpellsUsage(ms.key) else Faithful(v);
      assert SameReading(r, s, f);
      SameReadingConcat(r, s, f, OutermostOfMembers(ms.rest, Reacts), OutermostOfMembers(ms.rest, SpellsUsage),
                        FaithfulMembers(ms.rest));
    }
  }

  /** When the captured objects are the outermost `usage` objects: if every recognised
    * object is short enough, exactly if no key that ends in `\"usage` stands before an
    * object the scanner can reach; and without such a key, exactly if every `usage`
    * object is short enough.  A key spells `usage` by its raw text: one written with an
    * escape for a letter is another key. */
  lemma ScannerCapturesUsageExactly(before: Spaces, v: Value, after: Spaces)
    requires WellFormed(v)
    ensures var captures := Run(Fresh, before + Text(v) + after).captured == Outermost(v, SpellsUsage);
            && (Fits(v, Reacts) ==> (captures <==> Faithful(v)))
            && (Faithful(v) ==> (captures <==> Fits(v, SpellsUsage)))
  {
    ScannerAgreesWithTree(before, v, after);
    FaithfulReading(v);
  }

  /** No key anywhere contains an escaped quote. */
  predicate PlainKeys(v: Value)
    decreases v
  {
    match v
    case Array(_, elements) => PlainKeysInElements(elements)
    case Object(_, members) => PlainKeysInMembers(members)
    case _ => true
  }

  predicate PlainKeysInElements(es: Elements)
    decreases es
  {
    es.Element? ==> PlainKeys(es.value) && PlainKeysInElements(es.rest)
  }

  predicate PlainKeysInMembers(ms: Members)
    decreases ms
  {
    ms.Member? ==> Escape(QUOTE) !in ms.key && PlainKeys(ms.value) && PlainKeysInMembers(ms.rest)
  }

  lemma {:induction false} PlainKeysFaithful(v: Value)
    requires PlainKeys(v)
    ensures Faithful(v)
    decreases v
  {
    match v
    case Array(_, elements) => PlainKeysFaithfulElements(elements);
    case Object(_, members) => PlainKeysFaithfulMembers(members);
    case _ =>
  }

  lemma {:induction false} PlainKeysFaithfulElements(es: Elements)
    requires PlainKeysInElements(es)
    ensures FaithfulElements(es)
    decreases es
  {
    if es.Element? {
      PlainKeysFaithful(es.value);
      PlainKeysFaithfulElements(es.rest);
    }
  }

  lemma {:induction false} PlainKeysFaithfulMembers(ms: Members)
    requires PlainKeysInMembers(ms)
    ensures FaithfulMembers(ms)
    decreases ms
  {
    if ms.Member? {
      ReactsExactly(ms.key);
      if EndsInFalseFriend(ms.key) {
        assert ms.key[|ms.key| - |FALSE_FRIEND|..][0] == Escape(QUOTE);
      }
      PlainKeysFaithful(ms.value);
      PlainKeysFaithfulMembers(ms.rest);
    }
  }

  /** So for texts without escaped quotes in keys the length is all that matters. */
  lemma PlainKeysExactly(before: Spaces, v: Value, after: Spaces)
    requires WellFormed(v) && PlainKeys(v)
    ensures Run(Fresh, before + Text(v) + after).captured == Outermost(v, SpellsUsage)
       <==> forall o <- Outermost(v, SpellsUsage) :: |o| <= 4096
  {
    PlainKeysFaithful(v);
    ScannerCapturesUsageExactly(before, v, after);
  }

  /** So then the counts reported are those of the last outermost `usage` object with any. */
  lemma CountsReported(parse: Deserializer, before: Spaces, v: Value, after: Spaces)
    requires WellFormed(v) && PlainKeys(v) && forall o <- Outermost(v, SpellsUsage) :: |o| <= 4096
    ensures LatestCounts(parse, Outermost(v, SpellsUsage), LastInformative(parse, Run(Fresh, before + Text(v) + after).captured))
  {
    PlainKeysExactly(before, v, after);
    LatestMeans(parse, Outermost(v, SpellsUsage));
  }

  function FalseFriendTree(): Value { Object([], Member([], FALSE_FRIEND, [], [], Object([], NoMembers), [], NoMembers)) }

  lemma FalseFriendKeyText()
    ensures StringText(FALSE_FRIEND) == [34, 92, 34, 117, 115, 97, 103, 101, 34]
  {
    FalseFriendText();
  }

  lemma OneMemberText(key: seq<Item>, inner: Value, name: seq<Byte>, text: seq<Byte>)
    requires StringText(key) == name && Text(inner) == text
    ensures MembersText(Member([], key, [], [], inner, [], NoMembers)) == name + [58] + text
  {
    var none: Spaces := [];
    assert none + name + none + [58] + none + text + none + [] + [] == name + [58] + text;
  }

  lemma FalseFriendTreeText()
    ensures Text(FalseFriendTree()) == [123, 34, 92, 34, 117, 115, 97, 103, 101, 34, 58, 123, 125, 125]
    ensures Text(Object([], NoMembers)) == [123, 125]
  {
    var inner := Object([], NoMembers);
    assert Text(inner) == [123, 125];
    FalseFriendKeyText();
    OneMemberText(FALSE_FRIEND, inner, [34, 92, 34, 117, 115, 97, 103, 101, 34], [123, 125]);
  }

  /** `{"\"usage":{}}` has no `usage` member, yet its inner object is captured. */
  lemma FalseFriendCaptured() returns (v: Value)
    ensures WellFormed(v) && Outermost(v, SpellsUsage) == []
    ensures Text(v) == [123, 34, 92, 34, 117, 115, 97, 103, 101, 34, 58, 123, 125, 125]
    ensures Run(Fresh, Text(v)).captured == [[123, 125]]
  {
    v := FalseFriendTree();
    FalseFriendTreeText();
    FalseFriendOutermost();
    TreeScanned([], v, []);
    assert [] + Text(v) + [] == Text(v);
  }

  lemma FalseFriendOutermost()
    ensures var v := FalseFriendTree();
            Outermost(v, SpellsUsage) == [] && Outermost(v, Reacts) == [Text(Object([], NoMembers))]
  {
    var v, inner := FalseFriendTree(), Object([], NoMembers);
    ReactsExactly(FALSE_FRIEND);
    FalseFriendText();
    assert Raw(FALSE_FRIEND)[0] == BACKSLASH != USAGE[0];
    assert Outermost(inner, SpellsUsage) == [];
    assert Outermost(v, SpellsUsage) == OutermostOfMembers(v.members, SpellsUsage);
    assert Outermost(v, Reacts) == OutermostOfMembers(v.members, Reacts) == [Text(inner)];
  }

  /** An awaited object is captured whole if and only if it has at most 4096 bytes. */
  lemma CapturedWholeExactly(v: Value, captured: seq<seq<Byte>>)
    requires v.Object?
    ensures Run(Scanner(AwaitingValue, [], captured), Text(v)).captured == captured + [Text(v)]
       <==> |Text(v)| <= 4096
  {
    if |Text(v)| <= MAX_OBJECT_BYTES {
      ObjectCaptured(v, captured);
    } else {
      var r := Run(Scanner(AwaitingValue, [], captured), Text(v));
      CapturesAreShort(Scanner(AwaitingValue, [], captured), Text(v));
      if |r.captured| > |captured| {
        assert r.captured[|captured|] in r.captured[|captured|..];
      }
    }
  }

  function Flatten(chunks: seq<seq<Byte>>): seq<Byte> {
    if chunks == [] then [] else chunks[0] + Flatten(chunks[1..])
  }

  function RunChunks(s: ValidScanner, chunks: seq<seq<Byte>>): ValidScanner
    decreases |chunks|
  {
    if chunks == [] then s else RunChunks(Run(s, chunks[0]), chunks[1..])
  }

  /** Frame boundaries are invisible. */
  lemma {:induction false} ChunkingIrrelevant(s: ValidScanner, chunks: seq<seq<Byte>>)
    ensures RunChunks(s, chunks) == Run(s, Flatten(chunks))
    decreases |chunks|
  {
    if chunks != [] {
      RunConcat(s, chunks[0], Flatten(chunks[1..]));
      ChunkingIrrelevant(Run(s, chunks[0]), chunks[1..]);
    }
  }

  /** One server-sent event: framing bytes without quotes, then a JSON text. */
  datatype Event = Event(framing: seq<Byte>, value: Value)

  /** White space, and then something other than a colon. */
  predicate Separates(framing: seq<Byte>) { framing != [] && IsAsciiWhitespace(framing[0]) && GoesOn(framing) }

  predicate GoesOn(framing: seq<Byte>)
    decreases |framing|
  {
    framing != [] && if IsAsciiWhitespace(framing[0]) then GoesOn(framing[1..]) else framing[0] != COLON
  }

  /** Event after event, each set off from a bare string before it. */
  predicate GoodEvents(events: seq<Event>, afterString: bool)
    decreases |events|
  {
    events == [] ||
      var e := events[0];
      && QUOTE !in e.framing && WellFormed(e.value) && (afterString ==> Separates(e.framing))
      && GoodEvents(events[1..], e.value.String?)
  }

  function StreamText(events: seq<Event>): seq<Byte> {
    if events == [] then [] else events[0].framing + Text(events[0].value) + StreamText(events[1..])
  }

  function OutermostInStream(events: seq<Event>): seq<seq<Byte>> {
    if events == [] then [] else Outermost(events[0].value, Reacts) + OutermostInStream(events[1..])
  }

  lemma {:induction false} RunSeparator(s: ValidScanner, framing: seq<Byte>)
    requires s.buffer == [] && (s.state == Searching(0) || s.state == AwaitingColon) && QUOTE !in framing && GoesOn(framing)
    ensures Run(s, framing) == Idle(0, s.captured)
    decreases |framing|
  {
    if IsAsciiWhitespace(framing[0]) {
      assert StepByte(s, framing[0]) == s;
      RunSeparator(s, framing[1..]);
    } else {
      assert StepByte(s, framing[0]) == Idle(0, s.captured);
      RunQuiet(s.captured, framing[1..]);
    }
  }

  lemma RunFraming(s: ValidScanner, framing: seq<Byte>)
    requires Settled(s) && QUOTE !in framing && (s.state != Searching(0) ==> Separates(framing))
    ensures Run(s, framing) == Idle(0, s.captured)
  {
    if s.state == Searching(0) {
      RunQuiet(s.captured, framing);
    } else if s.state == AwaitingColon {
      RunSeparator(s, framing);
    } else {
      assert StepByte(s, framing[0]) == Idle(0, s.captured);
      RunQuiet(s.captured, framing[1..]);
    }
  }

  lemma EventScans(s: ValidScanner, e: Event)
    requires Settled(s) && QUOTE !in e.framing && WellFormed(e.value) && (s.state != Searching(0) ==> Separates(e.framing))
    requires AllFit(Outermost(e.value, Reacts))
    ensures Scans(s, e.framing + Text(e.value), Outermost(e.value, Reacts))
    ensures !e.value.String? ==> Run(s, e.framing + Text(e.value)).state == Searching(0)
  {
    RunConcat(s, e.framing, Text(e.value));
    RunFraming(s, e.framing);
    RunValue(Idle(0, s.captured), e.value);
  }

  lemma ScansConcat(s: ValidScanner, a: seq<Byte>, due: seq<seq<Byte>>, b: seq<Byte>, more: seq<seq<Byte>>)
    requires Scans(s, a, due) && Scans(Run(s, a), b, more)
    ensures Scans(s, a + b, due + more)
  {
    RunConcat(s, a, b);
    assert s.captured + due + more == s.captured + (due + more);
  }

  lemma {:induction false} StreamScanned(s: ValidScanner, events: seq<Event>, afterString: bool)
    requires Settled(s) && (!afterString ==> s.state == Searching(0)) && GoodEvents(events, afterString)
    requires AllFit(OutermostInStream(events))
    ensures Scans(s, StreamText(events), OutermostInStream(events))
    decreases |events|
  {
    if events == [] {
      assert s.captured + [] == s.captured;
    } else {
      var e, rest := events[0], events[1..];
      var text := e.framing + Text(e.value);
      AllFitParts(Outermost(e.value, Reacts), OutermostInStream(rest));
      EventScans(s, e);
      StreamScanned(Run(s, text), rest, e.value.String?);
      ScansConcat(s, text, Outermost(e.value, Reacts), StreamText(rest), OutermostInStream(rest));
    }
  }

  /** Over a whole event stream what is captured are the objects of its events, in order,
    * if and only if each has at most 4096 bytes. */
  lemma ScannerAgreesWithStream(c: seq<seq<Byte>>, events: seq<Event>)
    requires GoodEvents(events, false)
    ensures Run(Idle(0, c), StreamText(events)).captured == c + OutermostInStream(events)
       <==> AllFit(OutermostInStream(events))
  {
    if AllFit(OutermostInStream(events)) {
      StreamScanned(Idle(0, c), events, false);
    } else if Run(Idle(0, c), StreamText(events)).captured == c + OutermostInStream(events) {
      CapturedIsShort(Idle(0, c), StreamText(events), OutermostInStream(events));
    }
  }
}
