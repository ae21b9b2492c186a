/** Backend telemetry (src/telemetry.rs): the least-pressure score and the parser
  * of the Prometheus text a backend exposes.  Floating-point numbers are reals.
  */
module Telemetry {
  import opened Wrappers

  // ---- Pressure ----

  datatype KvCache = KvCache(used: nat, total: nat)
  {
    predicate Valid() { total > 0 }

    function Ratio(): (r: real)
      requires Valid()
      ensures 0.0 <= r <= 1.0
      ensures (r == 1.0 <==> used >= total) && (r == 0.0 <==> used == 0)
    {
      if used >= total then 1.0 else used as real / total as real
    }
  }

  datatype Inputs = Inputs(running: nat, waiting: nat, capacity: nat, newSequences: nat, kvRatio: Option<real>)
  datatype Score = Score(occupancy: real, kvPenalty: real, pressure: real)
  datatype PressureError = ZeroCapacity | KvRatioOutOfRange

  function LeastPressure(inputs: Inputs, kvSoftLimit: real): Result<Score, PressureError>
    requires 0.0 <= kvSoftLimit < 1.0
  {
    if inputs.capacity == 0 then Err(ZeroCapacity)
    else if inputs.kvRatio.Some? && !(0.0 <= inputs.kvRatio.value <= 1.0) then Err(KvRatioOutOfRange)
    else
      var penalty := if inputs.kvRatio.None? then 0.0
                     else Max(0.0, (inputs.kvRatio.value - kvSoftLimit) / (1.0 - kvSoftLimit));
      var occupancy := (inputs.running + inputs.waiting + inputs.newSequences) as real / inputs.capacity as real;
      Ok(Score(occupancy, penalty, occupancy + penalty))
  }

  function Max(a: real, b: real): real { if a < b then b else a }

  /** What a score says of its inputs.  There is one exactly if the capacity is positive
    * and the cache ratio, if any, is a fraction; the occupancy is the share of all
    * sequences in the capacity; the penalty grows in proportion from 0 at the soft limit to
    * 1 at a full cache. */
  lemma PressureMeans(inputs: Inputs, kvSoftLimit: real)
    requires 0.0 <= kvSoftLimit < 1.0
    ensures LeastPressure(inputs, kvSoftLimit).Ok?
       <==> inputs.capacity > 0 && (inputs.kvRatio.Some? ==> 0.0 <= inputs.kvRatio.value <= 1.0)
    ensures LeastPressure(inputs, kvSoftLimit).Ok? ==>
              var s := LeastPressure(inputs, kvSoftLimit).value;
              && s.occupancy * inputs.capacity as real == (inputs.running + inputs.waiting + inputs.newSequences) as real
              && (inputs.kvRatio.None? || inputs.kvRatio.value <= kvSoftLimit ==> s.kvPenalty == 0.0)
              && (inputs.kvRatio.Some? && inputs.kvRatio.value >= kvSoftLimit ==>
                    s.kvPenalty * (1.0 - kvSoftLimit) == inputs.kvRatio.value - kvSoftLimit)
              && (inputs.kvRatio == Some(1.0) ==> s.kvPenalty == 1.0)
              && s.pressure == s.occupancy + s.kvPenalty
    ensures LeastPressure(inputs, kvSoftLimit).Err? ==>
              LeastPressure(inputs, kvSoftLimit).error == if inputs.capacity == 0 then ZeroCapacity else KvRatioOutOfRange
  {
    if LeastPressure(inputs, kvSoftLimit).Ok? {
      Quotient((inputs.running + inputs.waiting + inputs.newSequences) as real, inputs.capacity as real);
      if inputs.kvRatio.Some? {
        var over, range := inputs.kvRatio.value - kvSoftLimit, 1.0 - kvSoftLimit;
        Quotient(over, range);
        QuotientSign(over, range);
      }
    }
  }

  lemma Quotient(a: real, b: real)
    requires b > 0.0
    ensures a / b * b == a && (a == b ==> a / b == 1.0)
  {
  }

  lemma QuotientSign(a: real, b: real)
    requires b > 0.0
    ensures (a <= 0.0 ==> a / b <= 0.0) && (a >= 0.0 ==> a / b >= 0.0)
  {
  }

  /** One more sequence costs exactly one share of the capacity, whatever the cache does. */
  lemma OneMoreSequence(inputs: Inputs, kvSoftLimit: real)
    requires 0.0 <= kvSoftLimit < 1.0 && LeastPressure(inputs, kvSoftLimit).Ok?
    ensures var more := LeastPressure(inputs.(newSequences := inputs.newSequences + 1), kvSoftLimit);
            more.Ok? && more.value.pressure == LeastPressure(inputs, kvSoftLimit).value.pressure + 1.0 / inputs.capacity as real
  {
    var n := (inputs.running + inputs.waiting + inputs.newSequences) as real;
    var c := inputs.capacity as real;
    assert (n + 1.0) / c == n / c + 1.0 / c;
  }

  // ---- Exposition lines ----

  datatype F64 = Finite(v: real) | NonFinite

  /** Number parsing is a library call; it enters as function values. */
  datatype Numbers = Numbers(f64: string -> Option<F64>, isI64: string -> bool)

  datatype Metric =
    Running | Waiting | Capacity | KvUsed | KvTotal | Tokens | PrefillTokens | DecodeTokens | Completed

  function MetricOf(name: string): Option<Metric> {
    if name == "mistralrs_sequences_running" then Some(Running)
    else if name == "mistralrs_sequences_waiting" then Some(Waiting)
    else if name == "mistralrs_sequences_capacity" then Some(Capacity)
    else if name == "mistralrs_kv_cache_blocks_used" then Some(KvUsed)
    else if name == "mistralrs_kv_cache_blocks_total" then Some(KvTotal)
    else if name == "mistralrs_tokens_processed_total" then Some(Tokens)
    else if name == "mistralrs_prefill_tokens_processed_total" then Some(PrefillTokens)
    else if name == "mistralrs_decode_tokens_processed_total" then Some(DecodeTokens)
    else if name == "mistralrs_sequences_completed_total" then Some(Completed)
    else None
  }

  predicate IsSpace(c: char) {
    c == ' ' || c == '\t' || c == '\n' || c == '\r' || c == '\U{000C}'
  }

  predicate IsSolid(c: char) { !IsSpace(c) }

  predicate IsNameStart(c: char) {
    'a' <= c <= 'z' || 'A' <= c <= 'Z' || c == '_' || c == ':'
  }

  predicate IsNameContinue(c: char) {
    IsNameStart(c) || '0' <= c <= '9'
  }

  /** The first position from `i` on whose character fails (or passes) `p`. */
  function Span(text: string, i: nat, p: char -> bool): (end: nat)
    requires i <= |text|
    ensures i <= end <= |text| && (forall k :: i <= k < end ==> p(text[k])) && (end < |text| ==> !p(text[end]))
    decreases |text| - i
  {
    if i < |text| && p(text[i]) then Span(text, i + 1, p) else i
  }

  function TrimStart(text: string): string { text[Span(text, 0, IsSpace)..] }

  function TrimEnd(text: string): string
    decreases |text|
  {
    if text != [] && IsSpace(text[|text| - 1]) then TrimEnd(text[..|text| - 1]) else text
  }

  /** Where in a label set the reader is: inside a quoted value, after a backslash. */
  datatype Quoting = Quoting(quoted: bool, escaped: bool)

  function QuoteStep(q: Quoting, c: char): Quoting {
    if q.quoted then
      if q.escaped then q.(escaped := false)
      else if c == '\\' then q.(escaped := true)
      else if c == '"' then q.(quoted := false)
      else q
    else if c == '"' then Quoting(true, false)
    else q
  }

  /** The quoting at position `i` of a label set whose brace is at `open`. */
  function QuotingAt(text: string, open: nat, i: nat): Quoting
    requires open < i <= |text|
    decreases i
  {
    if i == open + 1 then Quoting(false, false) else QuoteStep(QuotingAt(text, open, i - 1), text[i - 1])
  }

  /** An unquoted closing brace. */
  predicate Closes(text: string, open: nat, i: nat)
    requires open < i < |text|
  {
    !QuotingAt(text, open, i).quoted && text[i] == '}'
  }

  function LabelSetEnd(text: string, open: nat, i: nat): (end: Option<nat>)
    requires open < i <= |text|
    ensures end.Some? ==> i <= end.value < |text| && Closes(text, open, end.value)
    ensures forall k :: i <= k < (if end.Some? then end.value else |text|) ==> !Closes(text, open, k)
    decreases |text| - i
  {
    if i == |text| then None else if Closes(text, open, i) then Some(i) else LabelSetEnd(text, open, i + 1)
  }

  /** The first closing brace which no quoted label value contains. */
  method FindLabelSetEnd(text: string, open: nat) returns (end: Option<nat>)
    requires open < |text|
    ensures end.Some? ==> open < end.value < |text| && Closes(text, open, end.value)
    ensures forall k :: open < k < (if end.Some? then end.value else |text|) ==> !Closes(text, open, k)
    ensures end == LabelSetEnd(text, open, open + 1)
  {
    var quoted, escaped := false, false;
    for i := open + 1 to |text|
      invariant QuotingAt(text, open, i) == Quoting(quoted, escaped) && (escaped ==> quoted)
      invariant forall k :: open < k < i ==> !Closes(text, open, k)
    {
      if quoted {
        if escaped {
          escaped := false;
        } else if text[i] == '\\' {
          escaped := true;
        } else if text[i] == '"' {
          quoted := false;
        }
      } else if text[i] == '"' {
        quoted := true;
      } else if text[i] == '}' {
        FirstCloseUnique(text, open, Some(i));
        return Some(i);
      }
    }
    FirstCloseUnique(text, open, None);
    end := None;
  }

  lemma FirstCloseUnique(text: string, open: nat, end: Option<nat>)
    requires open < |text|
    requires end.Some? ==> open < end.value < |text| && Closes(text, open, end.value)
    requires forall k :: open < k < (if end.Some? then end.value else |text|) ==> !Closes(text, open, k)
    ensures end == LabelSetEnd(text, open, open + 1)
  {
    var other := LabelSetEnd(text, open, open + 1);
    assert other.Some? ==> Closes(text, open, other.value);
  }

  datatype Sample = Sample(name: string, labels: Option<string>, value: string)

  /** After the value: nothing, a comment, or a timestamp and then nothing or a comment. */
  predicate GoodEnding(numbers: Numbers, remainder: string) {
    || remainder == [] || remainder[0] == '#'
    || var end := Span(remainder, 0, IsSolid);
       var after := TrimStart(remainder[end..]);
       numbers.isI64(remainder[..end]) && (after == [] || after[0] == '#')
  }

  function ParseSample(numbers: Numbers, line: string): Option<Sample> {
    var nameEnd := Span(line, 0, IsNameContinue);
    if nameEnd == 0 || !IsNameStart(line[0]) then None else ParseAfterName(numbers, line, nameEnd)
  }

  function ParseAfterName(numbers: Numbers, line: string, nameEnd: nat): Option<Sample>
    requires nameEnd <= |line|
  {
    if nameEnd < |line| && line[nameEnd] == '{' then
      var close := LabelSetEnd(line, nameEnd, nameEnd + 1);
      if close.None? then None else ParseLabelled(numbers, line, nameEnd, close.value)
    else ParseValue(numbers, line, line[..nameEnd], None, nameEnd)
  }

  function ParseLabelled(numbers: Numbers, line: string, open: nat, close: nat): Option<Sample>
    requires open < close < |line|
  {
    ParseValue(numbers, line, line[..open], Some(line[open..close + 1]), close + 1)
  }

  function ParseValue(numbers: Numbers, line: string, name: string, labels: Option<string>, cursor: nat): Option<Sample>
    requires cursor <= |line|
  {
    if cursor == |line| || !IsSpace(line[cursor]) then None
    else
      var start := Span(line, cursor, IsSpace);
      if start == |line| then None else ParseToken(numbers, line, name, labels, start)
  }

  function ParseToken(numbers: Numbers, line: string, name: string, labels: Option<string>, start: nat): Option<Sample>
    requires start <= |line|
  {
    var end := Span(line, start, IsSolid);
    if GoodEnding(numbers, TrimStart(line[end..])) then Some(Sample(name, labels, line[start..end])) else None
  }

  /** What one line means to the parser. */
  datatype Reading =
    | Noise
    | Broken(metric: Metric)
    | Reading(metric: Metric, labels: Option<string>, value: string)

  function NamePrefix(line: string): string {
    if line == [] || !IsNameStart(line[0]) then [] else line[..Span(line, 0, IsNameContinue)]
  }

  function Classify(numbers: Numbers, raw: string): (r: Reading)
    ensures MetricOf(NamePrefix(TrimEnd(TrimStart(raw)))).None? ==> r.Noise?
  {
    var line := TrimEnd(TrimStart(raw));
    var metric := MetricOf(NamePrefix(line));
    if line == [] || line[0] == '#' || metric.None? then Noise
    else
      match ParseSample(numbers, line)
      case None => Broken(metric.value)
      case Some(sample) => Reading(metric.value, sample.labels, sample.value)
  }

  function ReadLines(numbers: Numbers, lines: seq<string>): (rs: seq<Reading>)
    ensures |rs| == |lines|
  {
    seq(|lines|, i requires 0 <= i < |lines| => Classify(numbers, lines[i]))
  }

  // ---- Observers ----

  const MAX_EXACT_F64_INTEGER: real := 9_007_199_254_740_991.0

  function GaugeCount(numbers: Numbers, value: string, positive: bool): Option<nat> {
    match numbers.f64(value)
    case Some(Finite(v)) =>
      if v < 0.0 || (positive && v == 0.0) || v.Floor as real != v || v > MAX_EXACT_F64_INTEGER then None
      else Some(v.Floor)
    case _ => None
  }

  function CounterValue(numbers: Numbers, value: string): Option<real> {
    match numbers.f64(value)
    case Some(Finite(v)) => if v >= 0.0 then Some(v) else None
    case _ => None
  }

  datatype ParseError =
    | MissingRequired(metric: Metric)
    | DuplicateRequired(metric: Metric, firstLine: nat, duplicateLine: nat)
    | MalformedRequired(metric: Metric, line: nat)
    | IncompleteKvCache(missing: Metric)

  predicate Positive(m: Metric) { m == Capacity || m == KvTotal }

  datatype RequiredGauge = RequiredGauge(value: Option<nat>, line: Option<nat>)
  {
    function Observe(numbers: Numbers, r: Reading, line: nat): Result<RequiredGauge, ParseError>
      requires !r.Noise?
    {
      if r.Broken? then Err(MalformedRequired(r.metric, line))
      else if this.line.Some? then Err(DuplicateRequired(r.metric, this.line.value, line))
      else if r.labels.Some? then Err(MalformedRequired(r.metric, line))
      else
        var count := GaugeCount(numbers, r.value, Positive(r.metric));
        if count.None? then Err(MalformedRequired(r.metric, line)) else Ok(RequiredGauge(count, Some(line)))
    }
  }

  datatype OptionalSingleCounter = OptionalSingleCounter(value: Option<real>, invalid: bool)
  {
    function Observe(numbers: Numbers, r: Reading): OptionalSingleCounter
      requires !r.Noise?
    {
      if r.Broken? || value.Some? || r.labels.Some? then OptionalSingleCounter(None, true)
      else
        var v := CounterValue(numbers, r.value);
        if v.Some? then this.(value := v) else this.(invalid := true)
    }

    function Finish(): Option<real> { if invalid then None else value }
  }

  datatype OptionalCounterFamily = OptionalCounterFamily(total: real, seen: bool, invalid: bool, series: set<string>)
  {
    function Observe(numbers: Numbers, r: Reading): OptionalCounterFamily
      requires !r.Noise?
    {
      if r.Broken? then this.(invalid := true)
      else
        var v := CounterValue(numbers, r.value);
        if v.None? || Series(r) in series then this.(invalid := true)
        else OptionalCounterFamily(total + v.value, true, invalid, series + {Series(r)})
    }

    function Finish(): Option<real> { if seen && !invalid then Some(total) else None }
  }

  function Series(r: Reading): string
    requires r.Reading?
  {
    r.labels.GetOr("")
  }

  datatype Metrics = Metrics(
    running: nat, waiting: nat, capacity: Option<nat>, kvCache: Option<KvCache>,
    tokens: Option<real>, prefillTokens: Option<real>, decodeTokens: Option<real>, completed: Option<real>)

  // ---- The parser ----

  datatype Observers = Observers(
    running: RequiredGauge, waiting: RequiredGauge, capacity: RequiredGauge, kvUsed: RequiredGauge, kvTotal: RequiredGauge,
    tokens: OptionalSingleCounter, prefillTokens: OptionalSingleCounter, decodeTokens: OptionalSingleCounter,
    completed: OptionalCounterFamily)

  const FRESH_GAUGE := RequiredGauge(None, None)
  const FRESH_COUNTER := OptionalSingleCounter(None, false)
  const FRESH_FAMILY := OptionalCounterFamily(0.0, false, false, {})
  const FRESH := Observers(FRESH_GAUGE, FRESH_GAUGE, FRESH_GAUGE, FRESH_GAUGE, FRESH_GAUGE,
                           FRESH_COUNTER, FRESH_COUNTER, FRESH_COUNTER, FRESH_FAMILY)

  function With(o: Observers, m: Metric, g: Result<RequiredGauge, ParseError>): Result<Observers, ParseError> {
    match g
    case Err(e) => Err(e)
    case Ok(g) =>
      match m
      case Running => Ok(o.(running := g))
      case Waiting => Ok(o.(waiting := g))
      case Capacity => Ok(o.(capacity := g))
      case KvUsed => Ok(o.(kvUsed := g))
      case _ => Ok(o.(kvTotal := g))
  }

  function ObserveLine(numbers: Numbers, o: Observers, r: Reading, line: nat): Result<Observers, ParseError> {
    if r.Noise? then Ok(o)
    else
      match r.metric
      case Running => With(o, r.metric, o.running.Observe(numbers, r, line))
      case Waiting => With(o, r.metric, o.waiting.Observe(numbers, r, line))
      case Capacity => With(o, r.metric, o.capacity.Observe(numbers, r, line))
      case KvUsed => With(o, r.metric, o.kvUsed.Observe(numbers, r, line))
      case KvTotal => With(o, r.metric, o.kvTotal.Observe(numbers, r, line))
      case Tokens => Ok(o.(tokens := o.tokens.Observe(numbers, r)))
      case PrefillTokens => Ok(o.(prefillTokens := o.prefillTokens.Observe(numbers, r)))
      case DecodeTokens => Ok(o.(decodeTokens := o.decodeTokens.Observe(numbers, r)))
      case Completed => Ok(o.(completed := o.completed.Observe(numbers, r)))
  }

  function ObserveAll(numbers: Numbers, rs: seq<Reading>): Result<Observers, ParseError> {
    if rs == [] then Ok(FRESH)
    else
      match ObserveAll(numbers, rs[..|rs| - 1])
      case Err(e) => Err(e)
      case Ok(o) => ObserveLine(numbers, o, rs[|rs| - 1], |rs|)
  }

  function Finish(o: Observers): Result<Metrics, ParseError> {
    if o.running.value.None? then Err(MissingRequired(Running))
    else if o.waiting.value.None? then Err(MissingRequired(Waiting))
    else if o.kvUsed.value.None? && o.kvTotal.value.Some? then Err(IncompleteKvCache(KvUsed))
    else if o.kvUsed.value.Some? && o.kvTotal.value.None? then Err(IncompleteKvCache(KvTotal))
    else
      var kv := if o.kvUsed.value.Some? then Some(KvCache(o.kvUsed.value.value, o.kvTotal.value.value)) else None;
      Ok(Metrics(o.running.value.value, o.waiting.value.value, o.capacity.value, kv, o.tokens.Finish(),
                 o.prefillTokens.Finish(), o.decodeTokens.Finish(), o.completed.Finish()))
  }

  function ParseReadings(numbers: Numbers, rs: seq<Reading>): Result<Metrics, ParseError> {
    match ObserveAll(numbers, rs)
    case Err(e) => Err(e)
    case Ok(o) => Finish(o)
  }

  method ParseMetrics(numbers: Numbers, lines: seq<string>) returns (result: Result<Metrics, ParseError>)
    ensures result == ParseReadings(numbers, ReadLines(numbers, lines))
  {
    ghost var rs := ReadLines(numbers, lines);
    var o := FRESH;
    for i := 0 to |lines|
      invariant ObserveAll(numbers, rs[..i]) == Ok(o)
    {
      ObserveNext(numbers, rs, i, o);
      var next := ObserveLine(numbers, o, Classify(numbers, lines[i]), i + 1);
      if next.Err? {
        ErrorPersists(numbers, rs, i + 1);
        return Err(next.error);
      }
      o := next.value;
    }
    assert rs[..|lines|] == rs;
    result := Finish(o);
  }

  lemma ObserveNext(numbers: Numbers, rs: seq<Reading>, i: nat, o: Observers)
    requires i < |rs| && ObserveAll(numbers, rs[..i]) == Ok(o)
    ensures ObserveAll(numbers, rs[..i + 1]) == ObserveLine(numbers, o, rs[i], i + 1)
  {
    assert rs[..i + 1][..i] == rs[..i];
  }

  lemma {:induction false} ErrorPersists(numbers: Numbers, rs: seq<Reading>, i: nat)
    requires i <= |rs| && ObserveAll(numbers, rs[..i]).Err?
    ensures ObserveAll(numbers, rs) == ObserveAll(numbers, rs[..i])
    decreases |rs| - i
  {
    if i == |rs| {
      assert rs[..i] == rs;
    } else {
      assert rs[..i + 1][..i] == rs[..i];
      ErrorPersists(numbers, rs, i + 1);
    }
  }

  // ---- What a parse means, metric by metric ----

  function Of(rs: seq<Reading>, m: Metric): seq<Reading> {
    if rs == [] then []
    else
      var r := rs[|rs| - 1];
      Of(rs[..|rs| - 1], m) + (if !r.Noise? && r.metric == m then [r] else [])
  }

  function GaugeReading(numbers: Numbers, r: Reading): Option<nat> {
    if r.Reading? && r.labels.None? then GaugeCount(numbers, r.value, Positive(r.metric)) else None
  }

  /** At most one line, unlabelled, with a proper count. */
  predicate GaugeOk(numbers: Numbers, of: seq<Reading>) {
    of == [] || (|of| == 1 && GaugeReading(numbers, of[0]).Some?)
  }

  function GaugeValue(numbers: Numbers, of: seq<Reading>): Option<nat> {
    if of == [] then None else GaugeReading(numbers, of[0])
  }

  /** Exactly one line, unlabelled and valid, or nothing. */
  function SingleValue(numbers: Numbers, of: seq<Reading>): Option<real> {
    if |of| == 1 && of[0].Reading? && of[0].labels.None? then CounterValue(numbers, of[0].value) else None
  }

  predicate FamilyOk(numbers: Numbers, of: seq<Reading>) {
    && (forall r <- of :: r.Reading? && CounterValue(numbers, r.value).Some?)
    && |set r | r in of && r.Reading? :: Series(r)| == |of|
  }

  function Total(numbers: Numbers, of: seq<Reading>): real {
    if of == [] then 0.0
    else
      var r := of[|of| - 1];
      Total(numbers, of[..|of| - 1]) + (if r.Reading? then CounterValue(numbers, r.value).GetOr(0.0) else 0.0)
  }

  function FamilyValue(numbers: Numbers, of: seq<Reading>): Option<real> {
    if of != [] && FamilyOk(numbers, of) then Some(Total(numbers, of)) else None
  }

  predicate AllGaugesOk(numbers: Numbers, rs: seq<Reading>) {
    && GaugeOk(numbers, Of(rs, Running)) && GaugeOk(numbers, Of(rs, Waiting)) && GaugeOk(numbers, Of(rs, Capacity))
    && GaugeOk(numbers, Of(rs, KvUsed)) && GaugeOk(numbers, Of(rs, KvTotal))
  }

  function SetSeries(of: seq<Reading>): set<string> {
    set r | r in of && r.Reading? :: Series(r)
  }

  /** What the observers hold after any lines, in terms of the lines of each metric. */
  predicate Holds(numbers: Numbers, o: Observers, rs: seq<Reading>) {
    && GaugeHolds(numbers, o.running, Of(rs, Running)) && GaugeHolds(numbers, o.waiting, Of(rs, Waiting))
    && GaugeHolds(numbers, o.capacity, Of(rs, Capacity))
    && GaugeHolds(numbers, o.kvUsed, Of(rs, KvUsed)) && GaugeHolds(numbers, o.kvTotal, Of(rs, KvTotal))
    && CounterHolds(numbers, o.tokens, Of(rs, Tokens)) && CounterHolds(numbers, o.prefillTokens, Of(rs, PrefillTokens))
    && CounterHolds(numbers, o.decodeTokens, Of(rs, DecodeTokens))
    && FamilyHolds(numbers, o.completed, Of(rs, Completed))
  }

  predicate GaugeHolds(numbers: Numbers, g: RequiredGauge, of: seq<Reading>) {
    GaugeOk(numbers, of) && g.value == GaugeValue(numbers, of) && (g.line.Some? <==> of != [])
  }

  predicate CounterHolds(numbers: Numbers, c: OptionalSingleCounter, of: seq<Reading>) {
    c.Finish() == SingleValue(numbers, of) && (of == [] ==> c == FRESH_COUNTER) && (of != [] ==> c.invalid || c.value.Some?)
  }

  predicate FamilyHolds(numbers: Numbers, f: OptionalCounterFamily, of: seq<Reading>) {
    && (!f.invalid <==> FamilyOk(numbers, of))
    && (!f.invalid ==> f.total == Total(numbers, of) && f.series == SetSeries(of) && (f.seen <==> of != []))
  }

  lemma GaugeStep(numbers: Numbers, g: RequiredGauge, of: seq<Reading>, r: Reading, line: nat)
    requires GaugeHolds(numbers, g, of) && !r.Noise?
    ensures var next := g.Observe(numbers, r, line);
            && (next.Ok? <==> GaugeOk(numbers, of + [r]))
            && (next.Ok? ==> GaugeHolds(numbers, next.value, of + [r]))
  {
    assert (of + [r])[|of|] == r;
  }

  lemma CounterStep(numbers: Numbers, c: OptionalSingleCounter, of: seq<Reading>, r: Reading)
    requires CounterHolds(numbers, c, of) && !r.Noise?
    ensures CounterHolds(numbers, c.Observe(numbers, r), of + [r])
  {
    assert (of + [r])[|of|] == r;
  }

  /** A duplicated series keeps the set of series smaller than the list of lines. */
  lemma {:induction false} SeriesAtMost(of: seq<Reading>)
    ensures |SetSeries(of)| <= |of|
    decreases |of|
  {
    if of == [] {
      assert SetSeries(of) == {};
    } else {
      SeriesAtMost(of[..|of| - 1]);
      SetSeriesStep(of[..|of| - 1], of[|of| - 1]);
      assert of == of[..|of| - 1] + [of[|of| - 1]];
    }
  }

  lemma SetSeriesStep(of: seq<Reading>, r: Reading)
    ensures SetSeries(of + [r]) == SetSeries(of) + (if r.Reading? then {Series(r)} else {})
  {
    forall s | s in SetSeries(of) + (if r.Reading? then {Series(r)} else {}) ensures s in SetSeries(of + [r]) {
      if s in SetSeries(of) {
        var x :| x in of && x.Reading? && Series(x) == s;
        assert x in of + [r];
      } else {
        assert r in of + [r];
      }
    }
  }

  lemma FamilyOkStep(numbers: Numbers, of: seq<Reading>, r: Reading)
    ensures FamilyOk(numbers, of + [r]) <==>
              FamilyOk(numbers, of) && r.Reading? && CounterValue(numbers, r.value).Some? && Series(r) !in SetSeries(of)
  {
    var all := of + [r];
    assert r in all;
    SetSeriesStep(of, r);
    SeriesAtMost(of);
    if FamilyOk(numbers, all) {
      forall x | x in of ensures x.Reading? && CounterValue(numbers, x.value).Some? {
        assert x in all;
      }
    }
  }

  lemma FamilyStep(numbers: Numbers, f: OptionalCounterFamily, of: seq<Reading>, r: Reading)
    requires FamilyHolds(numbers, f, of) && !r.Noise?
    ensures FamilyHolds(numbers, f.Observe(numbers, r), of + [r])
  {
    assert (of + [r])[..|of|] == of;
    SetSeriesStep(of, r);
    FamilyOkStep(numbers, of, r);
  }

  lemma {:induction false} ObserveAllHolds(numbers: Numbers, rs: seq<Reading>)
    ensures ObserveAll(numbers, rs).Ok? <==> AllGaugesOk(numbers, rs)
    ensures ObserveAll(numbers, rs).Ok? ==> Holds(numbers, ObserveAll(numbers, rs).value, rs)
    decreases |rs|
  {
    if rs == [] {
      assert SetSeries([]) == {};
    } else {
      var front, r := rs[..|rs| - 1], rs[|rs| - 1];
      ObserveAllHolds(numbers, front);
      OfShrinks(numbers, rs);
      if ObserveAll(numbers, front).Ok? {
        HoldsStep(numbers, ObserveAll(numbers, front).value, rs);
      }
    }
  }

  lemma OfShrinks(numbers: Numbers, rs: seq<Reading>)
    requires rs != []
    ensures AllGaugesOk(numbers, rs) ==> AllGaugesOk(numbers, rs[..|rs| - 1])
  {
    forall m: Metric ensures GaugeOk(numbers, Of(rs, m)) ==> GaugeOk(numbers, Of(rs[..|rs| - 1], m)) {
      var of := Of(rs[..|rs| - 1], m);
      assert Of(rs, m)[..|of|] == of;
    }
  }

  lemma HoldsStep(numbers: Numbers, o: Observers, rs: seq<Reading>)
    requires rs != [] && Holds(numbers, o, rs[..|rs| - 1])
    ensures var next := ObserveLine(numbers, o, rs[|rs| - 1], |rs|);
            && (next.Ok? <==> AllGaugesOk(numbers, rs))
            && (next.Ok? ==> Holds(numbers, next.value, rs))
  {
    var front, r := rs[..|rs| - 1], rs[|rs| - 1];
    OfOthers(rs);
    if !r.Noise? {
      var of := Of(front, r.metric);
      match r.metric
      case Running => GaugeStep(numbers, o.running, of, r, |rs|);
      case Waiting => GaugeStep(numbers, o.waiting, of, r, |rs|);
      case Capacity => GaugeStep(numbers, o.capacity, of, r, |rs|);
      case KvUsed => GaugeStep(numbers, o.kvUsed, of, r, |rs|);
      case KvTotal => GaugeStep(numbers, o.kvTotal, of, r, |rs|);
      case Tokens => CounterStep(numbers, o.tokens, of, r);
      case PrefillTokens => CounterStep(numbers, o.prefillTokens, of, r);
      case DecodeTokens => CounterStep(numbers, o.decodeTokens, of, r);
      case Completed => FamilyStep(numbers, o.completed, of, r);
    }
  }

  lemma OfOthers(rs: seq<Reading>)
    requires rs != []
    ensures var (front, r) := (rs[..|rs| - 1], rs[|rs| - 1]);
            forall m: Metric :: r.Noise? || r.metric != m ==> Of(rs, m) == Of(front, m)
  {
    var front, r := rs[..|rs| - 1], rs[|rs| - 1];
    forall m: Metric ensures r.Noise? || r.metric != m ==> Of(rs, m) == Of(front, m) {
      assert Of(front, m) + [] == Of(front, m);
    }
  }

  /** When a scrape is accepted and what it then says, metric by metric: running and
    * waiting exactly once and unlabelled, the cache gauges both or neither, each
    * optional counter only if it is unambiguous. */
  lemma ParseMeaning(numbers: Numbers, rs: seq<Reading>)
    ensures ParseReadings(numbers, rs).Ok? <==>
              && AllGaugesOk(numbers, rs)
              && |Of(rs, Running)| == 1 && |Of(rs, Waiting)| == 1
              && (Of(rs, KvUsed) == [] <==> Of(rs, KvTotal) == [])
    ensures ParseReadings(numbers, rs).Ok? ==>
              var m := ParseReadings(numbers, rs).value;
              && Some(m.running) == GaugeValue(numbers, Of(rs, Running))
              && Some(m.waiting) == GaugeValue(numbers, Of(rs, Waiting))
              && m.capacity == GaugeValue(numbers, Of(rs, Capacity))
              && (m.kvCache.None? <==> Of(rs, KvUsed) == [])
              && (m.kvCache.Some? ==> Some(m.kvCache.value.used) == GaugeValue(numbers, Of(rs, KvUsed)))
              && (m.kvCache.Some? ==> Some(m.kvCache.value.total) == GaugeValue(numbers, Of(rs, KvTotal)))
              && m.tokens == SingleValue(numbers, Of(rs, Tokens))
              && m.prefillTokens == SingleValue(numbers, Of(rs, PrefillTokens))
              && m.decodeTokens == SingleValue(numbers, Of(rs, DecodeTokens))
              && m.completed == FamilyValue(numbers, Of(rs, Completed))
  {
    ObserveAllHolds(numbers, rs);
  }

  /** The counts of an accepted cache pair are usable: the total is positive. */
  lemma ParsedCacheValid(numbers: Numbers, rs: seq<Reading>)
    requires ParseReadings(numbers, rs).Ok?
    ensures var m := ParseReadings(numbers, rs).value;
            (m.kvCache.Some? ==> m.kvCache.value.Valid()) && (m.capacity.Some? ==> m.capacity.value > 0)
  {
    ParseMeaning(numbers, rs);
    OfMetric(rs, KvTotal);
    OfMetric(rs, Capacity);
  }

  lemma {:induction false} OfMetric(rs: seq<Reading>, m: Metric)
    ensures forall r <- Of(rs, m) :: !r.Noise? && r.metric == m
  {
    if rs != [] {
      OfMetric(rs[..|rs| - 1], m);
    }
  }

  // ---- Order and noise do not matter ----

  ghost predicate SameLines(a: seq<Reading>, b: seq<Reading>) {
    forall r: Reading :: !r.Noise? ==> multiset(a)[r] == multiset(b)[r]
  }

  lemma {:induction false} OfCounts(rs: seq<Reading>, m: Metric, r: Reading)
    ensures multiset(Of(rs, m))[r] == if !r.Noise? && r.metric == m then multiset(rs)[r] else 0
  {
    if rs != [] {
      OfCounts(rs[..|rs| - 1], m, r);
      assert rs == rs[..|rs| - 1] + [rs[|rs| - 1]];
    }
  }

  lemma SameOf(a: seq<Reading>, b: seq<Reading>, m: Metric)
    requires SameLines(a, b)
    ensures multiset(Of(a, m)) == multiset(Of(b, m))
  {
    forall r: Reading ensures multiset(Of(a, m))[r] == multiset(Of(b, m))[r] {
      OfCounts(a, m, r);
      OfCounts(b, m, r);
    }
  }

  lemma SameOne(a: seq<Reading>, b: seq<Reading>)
    requires multiset(a) == multiset(b)
    ensures |a| == |b| && (|a| == 1 ==> a == b) && forall r :: r in a <==> r in b
  {
    assert |multiset(a)| == |a| && |multiset(b)| == |b|;
    forall r ensures r in a <==> r in b {
      assert r in multiset(a) <==> r in multiset(b);
    }
    if |a| == 1 {
      assert a[0] in b;
    }
  }

  function Amount(numbers: Numbers, r: Reading): real {
    if r.Reading? then CounterValue(numbers, r.value).GetOr(0.0) else 0.0
  }

  lemma {:induction false} TotalWithout(numbers: Numbers, of: seq<Reading>, i: nat)
    requires i < |of|
    ensures Total(numbers, of) == Total(numbers, of[..i] + of[i + 1..]) + Amount(numbers, of[i])
    decreases |of|
  {
    var n := |of| - 1;
    if i == n {
      assert of[..i] + of[i + 1..] == of[..n];
    } else {
      var without := of[..i] + of[i + 1..];
      TotalWithout(numbers, of[..n], i);
      assert without[..n - 1] == of[..n][..i] + of[..n][i + 1..];
      assert without[n - 1] == of[n];
    }
  }

  lemma RemoveOne<T>(s: seq<T>, i: nat)
    requires i < |s|
    ensures multiset(s[..i] + s[i + 1..]) == multiset(s) - multiset{s[i]}
  {
    assert s == s[..i] + [s[i]] + s[i + 1..];
  }

  lemma {:induction false} TotalOrderless(numbers: Numbers, a: seq<Reading>, b: seq<Reading>)
    requires multiset(a) == multiset(b)
    ensures Total(numbers, a) == Total(numbers, b)
    decreases |a|
  {
    SameOne(a, b);
    if a != [] {
      var n := |a| - 1;
      assert a[n] in b;
      var i :| 0 <= i < |b| && b[i] == a[n];
      RemoveOne(a, n);
      RemoveOne(b, i);
      assert a[..n] + a[n + 1..] == a[..n];
      TotalOrderless(numbers, a[..n], b[..i] + b[i + 1..]);
      TotalWithout(numbers, b, i);
    }
  }

  lemma SameFamily(numbers: Numbers, a: seq<Reading>, b: seq<Reading>)
    requires multiset(a) == multiset(b)
    ensures FamilyValue(numbers, a) == FamilyValue(numbers, b)
  {
    SameOne(a, b);
    TotalOrderless(numbers, a, b);
    assert SetSeries(a) == SetSeries(b);
    assert FamilyOk(numbers, a) <==> FamilyOk(numbers, b);
  }

  /** Reordering the lines of a scrape, or adding and removing lines with
    * unrecognised names, changes neither whether it is accepted nor what it says. */
  lemma ParseInsensitive(numbers: Numbers, a: seq<Reading>, b: seq<Reading>)
    requires SameLines(a, b)
    ensures ParseReadings(numbers, a).Ok? <==> ParseReadings(numbers, b).Ok?
    ensures ParseReadings(numbers, a).Ok? ==> ParseReadings(numbers, a) == ParseReadings(numbers, b)
  {
    ParseMeaning(numbers, a);
    ParseMeaning(numbers, b);
    forall m: Metric ensures SameMeaning(numbers, Of(a, m), Of(b, m)) {
      SameOf(a, b, m);
      SameOne(Of(a, m), Of(b, m));
      SameFamily(numbers, Of(a, m), Of(b, m));
    }
    assert SameMeaning(numbers, Of(a, Running), Of(b, Running)) && SameMeaning(numbers, Of(a, Waiting), Of(b, Waiting));
    assert SameMeaning(numbers, Of(a, Capacity), Of(b, Capacity)) && SameMeaning(numbers, Of(a, KvUsed), Of(b, KvUsed));
    assert SameMeaning(numbers, Of(a, KvTotal), Of(b, KvTotal)) && SameMeaning(numbers, Of(a, Tokens), Of(b, Tokens));
    assert SameMeaning(numbers, Of(a, PrefillTokens), Of(b, PrefillTokens));
    assert SameMeaning(numbers, Of(a, DecodeTokens), Of(b, DecodeTokens));
    assert SameMeaning(numbers, Of(a, Completed), Of(b, Completed));
  }

  /** Two lists of lines of one metric which no observer tells apart. */
  predicate SameMeaning(numbers: Numbers, a: seq<Reading>, b: seq<Reading>) {
    && |a| == |b|
    && (GaugeOk(numbers, a) <==> GaugeOk(numbers, b))
    && (GaugeOk(numbers, a) ==> GaugeValue(numbers, a) == GaugeValue(numbers, b))
    && SingleValue(numbers, a) == SingleValue(numbers, b)
    && FamilyValue(numbers, a) == FamilyValue(numbers, b)
  }

  // ---- The same, on the text ----

  predicate Recognised(line: string) { MetricOf(NamePrefix(TrimEnd(TrimStart(line)))).Some? }

  /** The lines with recognised names are the same, in any order. */
  ghost predicate SameText(a: seq<string>, b: seq<string>) {
    forall line: string :: Recognised(line) ==> multiset(a)[line] == multiset(b)[line]
  }

  function Mapped<T>(f: string -> T, lines: seq<string>): seq<T> {
    seq(|lines|, i requires 0 <= i < |lines| => f(lines[i]))
  }

  function Kept(p: string -> bool, lines: seq<string>): seq<string> {
    if lines == [] then []
    else
      var line := lines[|lines| - 1];
      Kept(p, lines[..|lines| - 1]) + (if p(line) then [line] else [])
  }

  lemma {:induction false} KeptCounts(p: string -> bool, lines: seq<string>, line: string)
    ensures multiset(Kept(p, lines))[line] == if p(line) then multiset(lines)[line] else 0
    decreases |lines|
  {
    if lines != [] {
      KeptCounts(p, lines[..|lines| - 1], line);
      assert lines == lines[..|lines| - 1] + [lines[|lines| - 1]];
    }
  }

  lemma MappedAdd<T>(f: string -> T, lines: seq<string>, line: string)
    ensures Mapped(f, lines + [line]) == Mapped(f, lines) + [f(line)]
  {
  }

  /** Lines that are dropped are none of those mapped to `t`. */
  lemma {:induction false} KeptMaps<T>(f: string -> T, p: string -> bool, lines: seq<string>, t: T)
    requires forall line: string :: !p(line) ==> f(line) != t
    ensures multiset(Mapped(f, Kept(p, lines)))[t] == multiset(Mapped(f, lines))[t]
    decreases |lines|
  {
    if lines != [] {
      var front, line := lines[..|lines| - 1], lines[|lines| - 1];
      KeptMaps(f, p, front, t);
      MappedAdd(f, front, line);
      MappedAdd(f, Kept(p, front), line);
      assert lines == front + [line];
      assert Kept(p, front) + [] == Kept(p, front);
    }
  }

  lemma MappedWithout<T>(f: string -> T, lines: seq<string>, i: nat)
    requires i < |lines|
    ensures f(lines[i]) in multiset(Mapped(f, lines))
    ensures multiset(Mapped(f, lines[..i] + lines[i + 1..])) == multiset(Mapped(f, lines)) - multiset{f(lines[i])}
  {
    var all := Mapped(f, lines);
    assert all[i] == f(lines[i]);
    assert Mapped(f, lines[..i] + lines[i + 1..]) == all[..i] + all[i + 1..];
    RemoveOne(all, i);
  }

  /** The last line of one list is somewhere in any other with the same lines. */
  lemma LastElsewhere(a: seq<string>, b: seq<string>) returns (i: nat)
    requires a != [] && multiset(a) == multiset(b)
    ensures i < |b| && b[i] == a[|a| - 1] && multiset(a[..|a| - 1]) == multiset(b[..i] + b[i + 1..])
  {
    var n := |a| - 1;
    assert a[n] in multiset(a);
    assert a[n] in b;
    i :| 0 <= i < |b| && b[i] == a[n];
    RemoveOne(a, n);
    RemoveOne(b, i);
    assert a[..n] + a[n + 1..] == a[..n];
  }

  lemma {:induction false} MappedOrderless<T>(f: string -> T, a: seq<string>, b: seq<string>)
    requires multiset(a) == multiset(b)
    ensures multiset(Mapped(f, a)) == multiset(Mapped(f, b))
    decreases |a|
  {
    if a == [] {
      assert |multiset(b)| == |b|;
    } else {
      var n := |a| - 1;
      var i := LastElsewhere(a, b);
      MappedOrderless(f, a[..n], b[..i] + b[i + 1..]);
      MappedAdd(f, a[..n], a[n]);
      assert a == a[..n] + [a[n]];
      MappedWithout(f, b, i);
    }
  }

  lemma SameTextReads(numbers: Numbers, a: seq<string>, b: seq<string>)
    requires SameText(a, b)
    ensures SameLines(ReadLines(numbers, a), ReadLines(numbers, b))
  {
    var p := (line: string) => Recognised(line);
    var f := (line: string) => Classify(numbers, line);
    forall line: string ensures multiset(Kept(p, a))[line] == multiset(Kept(p, b))[line] {
      KeptCounts(p, a, line);
      KeptCounts(p, b, line);
    }
    assert multiset(Kept(p, a)) == multiset(Kept(p, b));
    MappedOrderless(f, Kept(p, a), Kept(p, b));
    assert Mapped(f, a) == ReadLines(numbers, a) && Mapped(f, b) == ReadLines(numbers, b);
    forall r: Reading | !r.Noise? ensures multiset(ReadLines(numbers, a))[r] == multiset(ReadLines(numbers, b))[r] {
      KeptMaps(f, p, a, r);
      KeptMaps(f, p, b, r);
    }
  }

  /** Whether the text of a scrape is accepted, and what it then says, depends only on its
    * lines with recognised names, in any order. */
  lemma TextInsensitive(numbers: Numbers, a: seq<string>, b: seq<string>)
    requires SameText(a, b)
    ensures ParseReadings(numbers, ReadLines(numbers, a)).Ok? <==> ParseReadings(numbers, ReadLines(numbers, b)).Ok?
    ensures ParseReadings(numbers, ReadLines(numbers, a)).Ok? ==>
              ParseReadings(numbers, ReadLines(numbers, a)) == ParseReadings(numbers, ReadLines(numbers, b))
  {
    SameTextReads(numbers, a, b);
    ParseInsensitive(numbers, ReadLines(numbers, a), ReadLines(numbers, b));
  }

  /** In particular under any permutation, and with a line of another name put in anywhere. */
  lemma PermutedOrExtended(lines: seq<string>, permuted: seq<string>, i: nat, other: string)
    requires multiset(permuted) == multiset(lines) && i <= |permuted| && !Recognised(other)
    ensures SameText(lines, permuted[..i] + [other] + permuted[i..])
  {
    assert permuted == permuted[..i] + permuted[i..];
    assert multiset(permuted[..i] + [other] + permuted[i..]) == multiset(permuted) + multiset{other};
  }
}
