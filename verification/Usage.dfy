/** The token-usage scanner (src/usage.rs): a byte state machine which looks for
  * `"usage": {...}` in a response stream without buffering the stream.
  */
module Usage {
  import opened Wrappers

  type Byte = b: int | 0 <= b < 256

  const QUOTE: Byte := 34
  const BACKSLASH: Byte := 92
  const COLON: Byte := 58
  const COMMA: Byte := 44
  const OPEN_BRACE: Byte := 123
  const CLOSE_BRACE: Byte := 125
  const OPEN_BRACKET: Byte := 91
  const CLOSE_BRACKET: Byte := 93
  const LOWER_N: Byte := 110

  const MAX_OBJECT_BYTES: nat := 4096

  /** `"usage"`, quotes included. */
  const NEEDLE: seq<Byte> := [34, 117, 115, 97, 103, 101, 34]
  const NULL: seq<Byte> := [110, 117, 108, 108]

  predicate IsAsciiWhitespace(b: Byte) {
    b == 9 || b == 10 || b == 12 || b == 13 || b == 32
  }

  // ---- Token counts ----

  datatype TokensDetails = TokensDetails(cachedTokens: Option<nat>)

  /** What the JSON deserializer returns for a captured object. */
  datatype UsageFields = UsageFields(
    promptTokens: Option<nat>,
    completionTokens: Option<nat>,
    inputTokens: Option<nat>,
    outputTokens: Option<nat>,
    totalTokens: Option<nat>,
    promptTokensDetails: Option<TokensDetails>,
    inputTokensDetails: Option<TokensDetails>)

  datatype TokenCounts = TokenCounts(
    input: Option<nat>, output: Option<nat>, total: Option<nat>, cached: Option<nat>)
  {
    predicate Informative() {
      input.Some? || output.Some? || total.Some?
    }
  }

  function Or<T>(first: Option<T>, second: Option<T>): Option<T> {
    if first.Some? then first else second
  }

  function FromFields(f: UsageFields): TokenCounts {
    var details := Or(f.promptTokensDetails, f.inputTokensDetails);
    TokenCounts(Or(f.inputTokens, f.promptTokens), Or(f.outputTokens, f.completionTokens), f.totalTokens,
                if details.Some? then details.value.cachedTokens else None)
  }

  /** JSON deserialization is a library call; it enters as a function value. */
  type Deserializer = seq<Byte> -> Option<UsageFields>

  /** The counts kept after a sequence of captured objects: the last informative one wins. */
  function LastInformative(parse: Deserializer, captured: seq<seq<Byte>>): Option<TokenCounts> {
    if captured == [] then None
    else
      var fields := parse(captured[|captured| - 1]);
      if fields.Some? && FromFields(fields.value).Informative() then Some(FromFields(fields.value))
      else LastInformative(parse, captured[..|captured| - 1])
  }

  // ---- What the kept counts mean ----

  /** The fields carry a count worth reporting. */
  predicate Reports(f: UsageFields) {
    || f.inputTokens.Some? || f.promptTokens.Some? || f.outputTokens.Some? || f.completionTokens.Some? || f.totalTokens.Some?
  }

  /** These are the counts of the fields: the newer names of input and output are preferred to
    * the older ones, and cached tokens come from the details of the prompt, if there are any,
    * and else from those of the input. */
  predicate CountsOf(c: TokenCounts, f: UsageFields) {
    && c.input == (if f.inputTokens.Some? then f.inputTokens else f.promptTokens)
    && c.output == (if f.outputTokens.Some? then f.outputTokens else f.completionTokens)
    && c.total == f.totalTokens
    && (f.promptTokensDetails.Some? ==> c.cached == f.promptTokensDetails.value.cachedTokens)
    && (f.promptTokensDetails.None? && f.inputTokensDetails.Some? ==> c.cached == f.inputTokensDetails.value.cachedTokens)
    && (f.promptTokensDetails.None? && f.inputTokensDetails.None? ==> c.cached == None)
  }

  predicate ReportsAt(parse: Deserializer, captured: seq<seq<Byte>>, i: nat)
    requires i < |captured|
  {
    parse(captured[i]).Some? && Reports(parse(captured[i]).value)
  }

  /** The latest counts are those of the last captured object with any. */
  predicate LatestCounts(parse: Deserializer, captured: seq<seq<Byte>>, latest: Option<TokenCounts>) {
    match latest
    case None => forall i :: 0 <= i < |captured| ==> !ReportsAt(parse, captured, i)
    case Some(counts) => exists i :: 0 <= i < |captured| && LatestAt(parse, captured, counts, i)
  }

  predicate LatestAt(parse: Deserializer, captured: seq<seq<Byte>>, counts: TokenCounts, i: nat)
    requires i < |captured|
  {
    && ReportsAt(parse, captured, i) && CountsOf(counts, parse(captured[i]).value)
    && forall j :: i < j < |captured| ==> !ReportsAt(parse, captured, j)
  }

  lemma FrontReports(parse: Deserializer, captured: seq<seq<Byte>>)
    requires captured != []
    ensures forall i :: 0 <= i < |captured| - 1 ==> (ReportsAt(parse, captured[..|captured| - 1], i) <==> ReportsAt(parse, captured, i))
  {
  }

  lemma {:induction false} LatestMeans(parse: Deserializer, captured: seq<seq<Byte>>)
    ensures LatestCounts(parse, captured, LastInformative(parse, captured))
    decreases |captured|
  {
    if captured != [] {
      var n := |captured| - 1;
      var latest := LastInformative(parse, captured);
      if ReportsAt(parse, captured, n) {
        assert LatestAt(parse, captured, latest.value, n);
      } else {
        LatestMeans(parse, captured[..n]);
        FrontReports(parse, captured);
        if latest.Some? {
          var i :| 0 <= i < n && LatestAt(parse, captured[..n], latest.value, i);
          assert LatestAt(parse, captured, latest.value, i);
        }
      }
    }
  }

  // ---- The state machine on values ----

  datatype State =
    | Searching(matched: nat)
    | AwaitingColon
    | AwaitingValue
    | SkippingNull(nulls: nat)
    | Capturing(depth: nat, inString: bool, escaped: bool)

  predicate ValidState(s: State) {
    match s
    case Searching(matched) => matched < |NEEDLE|
    case SkippingNull(nulls) => nulls < |NULL|
    case Capturing(depth, _, _) => depth > 0
    case _ => true
  }

  /** `captured` is the history of objects handed to the deserializer. */
  datatype Scanner = Scanner(state: State, buffer: seq<Byte>, captured: seq<seq<Byte>>)

  type ValidScanner = s: Scanner | ValidState(s.state) witness Scanner(Searching(0), [], [])

  const Fresh: ValidScanner := Scanner(Searching(0), [], [])

  function Search(s: Scanner, matched: nat): (r: ValidScanner)
    requires matched < |NEEDLE|
  {
    Scanner(Searching(matched), [], s.captured)
  }

  function Restart(s: Scanner, b: Byte): ValidScanner {
    Search(s, if b == QUOTE then 1 else 0)
  }

  /** Bracket and string tracking inside a captured object. */
  datatype Nesting = Nesting(depth: nat, inString: bool, escaped: bool)

  function TrackByte(t: Nesting, b: Byte): Nesting {
    if t.inString then
      if t.escaped then t.(escaped := false)
      else if b == BACKSLASH then t.(escaped := true)
      else if b == QUOTE then t.(inString := false)
      else t
    else if b == QUOTE then t.(inString := true)
    else if b == OPEN_BRACE then t.(depth := t.depth + 1)
    else if b == CLOSE_BRACE && t.depth > 0 then t.(depth := t.depth - 1)
    else t
  }

  function StepByte(s: ValidScanner, b: Byte): ValidScanner {
    match s.state
    case Searching(matched) =>
      if b == NEEDLE[matched] then
        if matched + 1 == |NEEDLE| then s.(state := AwaitingColon)
        else s.(state := Searching(matched + 1))
      else s.(state := Searching(if b == QUOTE then 1 else 0))
    case AwaitingColon =>
      if b == COLON then s.(state := AwaitingValue)
      else if IsAsciiWhitespace(b) then s
      else Restart(s, b)
    case AwaitingValue =>
      if b == OPEN_BRACE then Scanner(Capturing(1, false, false), [OPEN_BRACE], s.captured)
      else if b == LOWER_N then s.(state := SkippingNull(1))
      else if IsAsciiWhitespace(b) then s
      else Restart(s, b)
    case SkippingNull(nulls) =>
      if b == NULL[nulls] then
        if nulls + 1 == |NULL| then s.(state := Searching(0))
        else s.(state := SkippingNull(nulls + 1))
      else Restart(s, b)
    case Capturing(depth, inString, escaped) =>
      var t := TrackByte(Nesting(depth, inString, escaped), b);
      var buffer := s.buffer + [b];
      if t.depth == 0 then Scanner(Searching(0), [], s.captured + [buffer])
      else if |buffer| >= MAX_OBJECT_BYTES then Search(s, 0)
      else Scanner(Capturing(t.depth, t.inString, t.escaped), buffer, s.captured)
  }

  function Run(s: ValidScanner, bytes: seq<Byte>): ValidScanner
    decreases |bytes|
  {
    if bytes == [] then s else Run(StepByte(s, bytes[0]), bytes[1..])
  }

  /** Feeding in any two chunks is feeding the whole. */
  lemma {:induction false} RunConcat(s: ValidScanner, a: seq<Byte>, b: seq<Byte>)
    ensures Run(s, a + b) == Run(Run(s, a), b)
    decreases |a|
  {
    if a == [] {
      assert a + b == b;
    } else {
      assert (a + b)[0] == a[0] && (a + b)[1..] == a[1..] + b;
      RunConcat(StepByte(s, a[0]), a[1..], b);
    }
  }

  // ---- The scanner object ----

  class UsageSniffer {
    var state: State
    var buffer: seq<Byte>
    var latest: Option<TokenCounts>
    ghost var captured: seq<seq<Byte>>
    const parse: Deserializer

    ghost predicate Valid()
      reads this
    {
      && ValidState(state)
      && latest == LastInformative(parse, captured)
    }

    ghost function View(): ValidScanner
      reads this
      requires Valid()
    {
      Scanner(state, buffer, captured)
    }

    constructor (parse: Deserializer)
      ensures Valid() && View() == Fresh && this.parse == parse
    {
      this.parse := parse;
      state, buffer, latest, captured := Searching(0), [], None, [];
    }

    method Feed(bytes: seq<Byte>)
      requires Valid()
      modifies this
      ensures Valid() && View() == Run(old(View()), bytes)
      ensures LatestCounts(parse, View().captured, latest)
    {
      LatestMeans(parse, captured);
      for i := 0 to |bytes|
        invariant Valid() && View() == Run(old(View()), bytes[..i])
        invariant LatestCounts(parse, captured, latest)
      {
        RunConcat(old(View()), bytes[..i], [bytes[i]]);
        assert bytes[..i + 1] == bytes[..i] + [bytes[i]];
        assert Run(View(), [bytes[i]]) == Run(StepByte(View(), bytes[i]), []);
        FeedByte(bytes[i]);
        LatestMeans(parse, captured);
      }
      assert bytes[..|bytes|] == bytes;
    }

    method FeedByte(b: Byte)
      requires Valid()
      modifies this
      ensures Valid() && View() == StepByte(old(View()), b)
    {
      match state {
        case Searching(matched) =>
          if b == NEEDLE[matched] {
            if matched + 1 == |NEEDLE| {
              state := AwaitingColon;
            } else {
              state := Searching(matched + 1);
            }
          } else {
            state := Searching(if b == QUOTE then 1 else 0);
          }
        case AwaitingColon =>
          if b == COLON {
            state := AwaitingValue;
          } else if !IsAsciiWhitespace(b) {
            RestartAt(b);
          }
        case AwaitingValue =>
          if b == OPEN_BRACE {
            buffer := [OPEN_BRACE];
            state := Capturing(1, false, false);
          } else if b == LOWER_N {
            state := SkippingNull(1);
          } else if !IsAsciiWhitespace(b) {
            RestartAt(b);
          }
        case SkippingNull(nulls) =>
          if b == NULL[nulls] {
            state := if nulls + 1 == |NULL| then Searching(0) else SkippingNull(nulls + 1);
          } else {
            RestartAt(b);
          }
        case Capturing(depth0, inString0, escaped0) =>
          var depth, inString, escaped := depth0, inString0, escaped0;
          if inString {
            if escaped {
              escaped := false;
            } else if b == BACKSLASH {
              escaped := true;
            } else if b == QUOTE {
              inString := false;
            }
          } else if b == QUOTE {
            inString := true;
          } else if b == OPEN_BRACE {
            depth := depth + 1;
          } else if b == CLOSE_BRACE {
            depth := depth - 1;
          }
          buffer := buffer + [b];
          if depth == 0 {
            FinishObject();
          } else if |buffer| >= MAX_OBJECT_BYTES {
            buffer := [];
            state := Searching(0);
          } else {
            state := Capturing(depth, inString, escaped);
          }
      }
    }

    method FinishObject()
      requires ValidState(state) && latest == LastInformative(parse, captured)
      modifies this
      ensures Valid() && View() == Scanner(Searching(0), [], old(captured) + [old(buffer)])
      ensures LatestCounts(parse, captured, latest)
    {
      var fields := parse(buffer);
      if fields.Some? {
        var usage := FromFields(fields.value);
        if usage.Informative() {
          latest := Some(usage);
        }
      }
      captured := captured + [buffer];
      assert captured[..|captured| - 1] == old(captured);
      buffer := [];
      state := Searching(0);
      LatestMeans(parse, captured);
    }

    method RestartAt(b: Byte)
      requires Valid()
      modifies this
      ensures Valid() && View() == Restart(old(View()), b)
    {
      buffer := [];
      state := Searching(if b == QUOTE then 1 else 0);
    }
  }
}
