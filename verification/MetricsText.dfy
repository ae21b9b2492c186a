/** The text of a scrape: which lines name which metric and what they say of it, by the
  * grammar of an exposition line and independently of the parser (src/telemetry.rs).
  */
module MetricsText {
  import opened Wrappers
  import opened Telemetry

  // ---- The grammar of a line ----

  /** The names a router listens to. */
  function NameText(m: Metric): string {
    match m
    case Running => "mistralrs_sequences_running"
    case Waiting => "mistralrs_sequences_waiting"
    case Capacity => "mistralrs_sequences_capacity"
    case KvUsed => "mistralrs_kv_cache_blocks_used"
    case KvTotal => "mistralrs_kv_cache_blocks_total"
    case Tokens => "mistralrs_tokens_processed_total"
    case PrefillTokens => "mistralrs_prefill_tokens_processed_total"
    case DecodeTokens => "mistralrs_decode_tokens_processed_total"
    case Completed => "mistralrs_sequences_completed_total"
  }

  predicate White(c: char) { c == ' ' || c == '\t' || c == '\n' || c == '\r' || c == '\U{000C}' }

  predicate NameChar(c: char) { 'a' <= c <= 'z' || 'A' <= c <= 'Z' || '0' <= c <= '9' || c == '_' || c == ':' }

  predicate AllWhite(s: string) { forall i :: 0 <= i < |s| ==> White(s[i]) }

  predicate Blanks(s: string) { s != [] && AllWhite(s) }

  /** Something without white space in it. */
  predicate Token(s: string) { s != [] && forall i :: 0 <= i < |s| ==> !White(s[i]) }

  /** Starts with `#` and does not end in white space. */
  predicate CommentText(s: string) { s != [] && s[0] == '#' && !White(s[|s| - 1]) }

  /** What a label set holds: characters outside of quotes, and quoted values in which a
    * backslash escapes the next character. */
  datatype Inner = Plain(c: char) | Escaped(c: char)
  datatype Piece = Bare(c: char) | Quoted(inners: seq<Inner>)

  predicate InnerOk(i: Inner) { i.Plain? ==> i.c != '"' && i.c != '\\' }

  predicate PieceOk(p: Piece) {
    match p
    case Bare(c) => c != '"' && c != '}'
    case Quoted(inners) => forall i <- inners :: InnerOk(i)
  }

  function InnerText(i: Inner): string { match i case Plain(c) => [c] case Escaped(c) => ['\\', c] }

  function InnersText(inners: seq<Inner>): string {
    if inners == [] then [] else InnersText(inners[..|inners| - 1]) + InnerText(inners[|inners| - 1])
  }

  function PieceText(p: Piece): string { match p case Bare(c) => [c] case Quoted(inners) => ['"'] + InnersText(inners) + ['"'] }

  function PiecesText(pieces: seq<Piece>): string {
    if pieces == [] then [] else PiecesText(pieces[..|pieces| - 1]) + PieceText(pieces[|pieces| - 1])
  }

  /** After the value: nothing, a comment, a time, or a time and a comment. */
  datatype Ending = Nothing | Comment(gap: string, text: string) | Time(gap: string, time: string) | Both(gap: string, time: string, gap2: string, text: string)

  predicate EndingOk(numbers: Numbers, e: Ending) {
    match e
    case Nothing => true
    case Comment(gap, text) => Blanks(gap) && CommentText(text)
    case Time(gap, time) => Blanks(gap) && TimeOk(numbers, time)
    case Both(gap, time, gap2, text) => Blanks(gap) && TimeOk(numbers, time) && Blanks(gap2) && CommentText(text)
  }

  predicate TimeOk(numbers: Numbers, time: string) { Token(time) && time[0] != '#' && numbers.isI64(time) }

  function EndingText(e: Ending): string {
    match e
    case Nothing => []
    case Comment(gap, text) => gap + text
    case Time(gap, time) => gap + time
    case Both(gap, time, gap2, text) => gap + (time + (gap2 + text))
  }

  /** The parts of a line beside its name. */
  datatype Parts = Parts(lead: string, labels: Option<seq<Piece>>, gap: string, value: string, ending: Ending, trail: string)

  predicate PartsOk(numbers: Numbers, p: Parts) {
    && AllWhite(p.lead) && AllWhite(p.trail) && Blanks(p.gap) && Token(p.value) && EndingOk(numbers, p.ending)
    && (p.labels.Some? ==> forall piece <- p.labels.value :: PieceOk(piece))
  }

  function LabelsText(labels: Option<seq<Piece>>): string {
    if labels.Some? then ['{'] + PiecesText(labels.value) + ['}'] else []
  }

  function CoreText(name: string, p: Parts): string {
    name + (LabelsText(p.labels) + (p.gap + (p.value + EndingText(p.ending))))
  }

  function LineText(name: string, p: Parts): string { p.lead + CoreText(name, p) + p.trail }

  function LabelsOf(p: Parts): Option<string> { if p.labels.Some? then Some(LabelsText(p.labels)) else None }

  /** A line of this metric with these labels and this value. */
  ghost predicate IsLine(numbers: Numbers, raw: string, m: Metric, labels: Option<string>, value: string) {
    exists p: Parts :: PartsOk(numbers, p) && raw == LineText(NameText(m), p) && labels == LabelsOf(p) && value == p.value
  }

  /** A line that begins with the name of this metric. */
  ghost predicate Named(raw: string, m: Metric) {
    exists lead: string, rest: string :: Begins(raw, lead, NameText(m), rest)
  }

  predicate Begins(raw: string, lead: string, name: string, rest: string) {
    AllWhite(lead) && raw == lead + name + rest && (rest == [] || !NameChar(rest[0]))
  }

  // ---- Characters and names ----

  lemma SameChars(c: char)
    ensures White(c) <==> IsSpace(c)
    ensures NameChar(c) <==> IsNameContinue(c)
    ensures White(c) ==> !NameChar(c)
  {
  }

  lemma SpanIs(text: string, i: nat, p: char -> bool, j: nat)
    requires i <= j <= |text| && (forall k :: i <= k < j ==> p(text[k])) && (j < |text| ==> !p(text[j]))
    ensures Span(text, i, p) == j
  {
  }

  predicate IsNameText(s: string) {
    |s| > 0 && IsNameStart(s[0]) && forall k :: 0 <= k < |s| ==> IsNameContinue(s[k])
  }

  lemma SequenceNames()
    ensures IsNameText(NameText(Running)) && IsNameText(NameText(Waiting)) && IsNameText(NameText(Capacity))
  {
  }

  lemma CacheNames()
    ensures IsNameText(NameText(KvUsed)) && IsNameText(NameText(KvTotal))
  {
  }

  lemma TokenNames()
    ensures IsNameText(NameText(Tokens)) && IsNameText(NameText(Completed))
  {
  }

  lemma PrefillName()
    ensures IsNameText(NameText(PrefillTokens))
  {
  }

  lemma DecodeName()
    ensures IsNameText(NameText(DecodeTokens))
  {
  }

  lemma NameChars(m: Metric)
    ensures IsNameText(NameText(m))
  {
    SequenceNames();
    CacheNames();
    TokenNames();
    PrefillName();
    DecodeName();
  }

  function Length(m: Metric): nat {
    match m
    case Running => 27 case Waiting => 27 case Capacity => 28 case KvUsed => 30 case KvTotal => 31
    case Tokens => 32 case PrefillTokens => 40 case DecodeTokens => 39 case Completed => 35
  }

  lemma NameLength(m: Metric)
    ensures |NameText(m)| == Length(m)
  {
  }

  /** No two names are the same. */
  lemma NamesDiffer(m: Metric, n: Metric)
    requires NameText(m) == NameText(n)
    ensures m == n
  {
    NameLength(m);
    NameLength(n);
    assert NameText(Running)[20] == 'r' && NameText(Waiting)[20] == 'w';
  }

  lemma MetricIsNamed(name: string)
    requires MetricOf(name).Some?
    ensures name == NameText(MetricOf(name).value)
  {
  }

  lemma NameHasMetric(m: Metric)
    ensures MetricOf(NameText(m)).Some?
  {
  }

  lemma NameOfMetric(name: string, m: Metric)
    ensures MetricOf(name) == Some(m) <==> name == NameText(m)
  {
    NameHasMetric(m);
    MetricIsNamed(NameText(m));
    NamesDiffer(MetricOf(NameText(m)).value, m);
    if MetricOf(name).Some? {
      MetricIsNamed(name);
    }
  }

  // ---- Label sets ----

  const OUTSIDE := Quoting(false, false)
  const INSIDE := Quoting(true, false)

  function Fold(q: Quoting, s: string): Quoting {
    if s == [] then q else QuoteStep(Fold(q, s[..|s| - 1]), s[|s| - 1])
  }

  /** No closing brace outside of quotes. */
  predicate NoClose(q: Quoting, s: string) {
    forall k :: 0 <= k < |s| ==> Fold(q, s[..k]).quoted || s[k] != '}'
  }

  lemma {:induction false} FoldConcat(q: Quoting, a: string, b: string)
    ensures Fold(q, a + b) == Fold(Fold(q, a), b)
    decreases |b|
  {
    if b == [] {
      assert a + b == a;
    } else {
      assert (a + b)[..|a + b| - 1] == a + b[..|b| - 1];
      FoldConcat(q, a, b[..|b| - 1]);
    }
  }

  lemma NoCloseConcat(q: Quoting, a: string, b: string)
    ensures NoClose(q, a + b) <==> NoClose(q, a) && NoClose(Fold(q, a), b)
  {
    forall k | 0 <= k < |a| ensures (a + b)[..k] == a[..k] && (a + b)[k] == a[k] {}
    forall k | 0 <= k < |b| ensures Fold(q, (a + b)[..|a| + k]) == Fold(Fold(q, a), b[..k]) && (a + b)[|a| + k] == b[k] {
      assert (a + b)[..|a| + k] == a + b[..k];
      FoldConcat(q, a, b[..k]);
    }
    if NoClose(q, a + b) {
      forall k | 0 <= k < |a| ensures Fold(q, a[..k]).quoted || a[k] != '}' {
        assert (a + b)[k] == a[k];
      }
      forall k | 0 <= k < |b| ensures Fold(Fold(q, a), b[..k]).quoted || b[k] != '}' {
        assert (a + b)[|a| + k] == b[k];
      }
    }
    if NoClose(q, a) && NoClose(Fold(q, a), b) {
      forall k | 0 <= k < |a + b| ensures Fold(q, (a + b)[..k]).quoted || (a + b)[k] != '}' {
        if k >= |a| {
          assert (a + b)[k] == b[k - |a|] && (a + b)[..|a| + (k - |a|)] == (a + b)[..k];
        }
      }
    }
  }

  lemma FoldOne(q: Quoting, c: char)
    ensures Fold(q, [c]) == QuoteStep(q, c) && (NoClose(q, [c]) <==> q.quoted || c != '}')
  {
    assert [c][..0] == [];
  }

  lemma InnerFolds(i: Inner)
    requires InnerOk(i)
    ensures Fold(INSIDE, InnerText(i)) == INSIDE && NoClose(INSIDE, InnerText(i))
  {
    match i
    case Plain(c) => FoldOne(INSIDE, c);
    case Escaped(c) =>
      FoldOne(INSIDE, '\\');
      FoldOne(Quoting(true, true), c);
      FoldConcat(INSIDE, ['\\'], [c]);
      NoCloseConcat(INSIDE, ['\\'], [c]);
      assert ['\\', c] == ['\\'] + [c];
  }

  lemma {:induction false} InnersFold(inners: seq<Inner>)
    requires forall i <- inners :: InnerOk(i)
    ensures Fold(INSIDE, InnersText(inners)) == INSIDE && NoClose(INSIDE, InnersText(inners))
    decreases |inners|
  {
    if inners != [] {
      var front, last := inners[..|inners| - 1], inners[|inners| - 1];
      InnersFold(front);
      InnerFolds(last);
      FoldConcat(INSIDE, InnersText(front), InnerText(last));
      NoCloseConcat(INSIDE, InnersText(front), InnerText(last));
    }
  }

  lemma PieceFolds(p: Piece)
    requires PieceOk(p)
    ensures Fold(OUTSIDE, PieceText(p)) == OUTSIDE && NoClose(OUTSIDE, PieceText(p))
  {
    match p
    case Bare(c) => FoldOne(OUTSIDE, c);
    case Quoted(inners) =>
      var text := InnersText(inners);
      InnersFold(inners);
      FoldOne(OUTSIDE, '"');
      FoldOne(INSIDE, '"');
      FoldConcat(OUTSIDE, ['"'], text);
      NoCloseConcat(OUTSIDE, ['"'], text);
      FoldConcat(OUTSIDE, ['"'] + text, ['"']);
      NoCloseConcat(OUTSIDE, ['"'] + text, ['"']);
  }

  lemma {:induction false} PiecesFold(pieces: seq<Piece>)
    requires forall p <- pieces :: PieceOk(p)
    ensures Fold(OUTSIDE, PiecesText(pieces)) == OUTSIDE && NoClose(OUTSIDE, PiecesText(pieces))
    decreases |pieces|
  {
    if pieces != [] {
      var front, last := pieces[..|pieces| - 1], pieces[|pieces| - 1];
      PiecesFold(front);
      PieceFolds(last);
      FoldConcat(OUTSIDE, PiecesText(front), PieceText(last));
      NoCloseConcat(OUTSIDE, PiecesText(front), PieceText(last));
    }
  }

  /** What the quoting leaves unfinished. */
  function Unfinished(q: Quoting, inners: seq<Inner>): string {
    if !q.quoted then [] else ['"'] + InnersText(inners) + (if q.escaped then ['\\'] else [])
  }

  lemma PiecesMore(pieces: seq<Piece>, p: Piece)
    ensures PiecesText(pieces + [p]) == PiecesText(pieces) + PieceText(p)
  {
    assert (pieces + [p])[..|pieces|] == pieces;
  }

  lemma InnersMore(inners: seq<Inner>, i: Inner)
    ensures InnersText(inners + [i]) == InnersText(inners) + InnerText(i)
  {
    assert (inners + [i])[..|inners|] == inners;
  }

  /** The pieces and the unfinished value that `q` stands for. */
  predicate CutInto(s: string, q: Quoting, pieces: seq<Piece>, inners: seq<Inner>) {
    && (forall p <- pieces :: PieceOk(p)) && (forall i <- inners :: InnerOk(i))
    && s == PiecesText(pieces) + Unfinished(q, inners) && (q.escaped ==> q.quoted)
  }

  lemma CutOutside(front: string, c: char, q: Quoting, pieces: seq<Piece>, inners: seq<Inner>) returns (more: seq<Piece>)
    requires CutInto(front, q, pieces, inners) && !q.quoted && c != '}'
    ensures CutInto(front + [c], QuoteStep(q, c), more, [])
  {
    assert front == PiecesText(pieces);
    if c == '"' {
      more := pieces;
      assert ['"'] + [] + [] == ['"'];
    } else {
      more := pieces + [Bare(c)];
      PiecesMore(pieces, Bare(c));
      assert front + [c] + [] == front + [c];
    }
  }

  lemma CutInside(front: string, c: char, q: Quoting, pieces: seq<Piece>, inners: seq<Inner>) returns (more: seq<Inner>)
    requires CutInto(front, q, pieces, inners) && q.quoted && (q.escaped || c != '"')
    ensures CutInto(front + [c], QuoteStep(q, c), pieces, more)
  {
    more := inners;
    if q.escaped {
      more := inners + [Escaped(c)];
      InnersMore(inners, Escaped(c));
      Appended(PiecesText(pieces), InnersText(inners), ['\\'], c);
    } else if c == '\\' {
      Appended(PiecesText(pieces), InnersText(inners), [], c);
    } else {
      more := inners + [Plain(c)];
      InnersMore(inners, Plain(c));
      Appended(PiecesText(pieces), InnersText(inners), [], c);
    }
  }

  lemma Appended(a: string, b: string, d: string, c: char)
    ensures a + (['"'] + b + d) + [c] == a + (['"'] + b + (d + [c])) == a + (['"'] + (b + (d + [c])) + [])
  {
  }

  lemma CutQuote(front: string, q: Quoting, pieces: seq<Piece>, inners: seq<Inner>)
    requires CutInto(front, q, pieces, inners) && q == INSIDE
    ensures CutInto(front + ['"'], OUTSIDE, pieces + [Quoted(inners)], [])
  {
    PiecesMore(pieces, Quoted(inners));
    assert ['"'] + InnersText(inners) + [] == ['"'] + InnersText(inners);
    assert front + ['"'] == PiecesText(pieces) + (['"'] + InnersText(inners) + ['"']);
  }

  lemma CutStep(front: string, c: char, q: Quoting, pieces: seq<Piece>, inners: seq<Inner>) returns (pieces': seq<Piece>, inners': seq<Inner>)
    requires CutInto(front, q, pieces, inners) && (q.quoted || c != '}')
    ensures CutInto(front + [c], QuoteStep(q, c), pieces', inners')
  {
    pieces', inners' := pieces, [];
    if !q.quoted {
      pieces' := CutOutside(front, c, q, pieces, inners);
    } else if q.escaped || c != '"' {
      inners' := CutInside(front, c, q, pieces, inners);
    } else {
      CutQuote(front, q, pieces, inners);
      pieces' := pieces + [Quoted(inners)];
    }
  }

  lemma FoldLast(q: Quoting, front: string, c: char)
    requires NoClose(q, front + [c])
    ensures NoClose(q, front) && Fold(q, front + [c]) == QuoteStep(Fold(q, front), c) && (Fold(q, front).quoted || c != '}')
  {
    NoCloseConcat(q, front, [c]);
    FoldConcat(q, front, [c]);
    FoldOne(Fold(q, front), c);
  }

  /** Any text without an outer closing brace is made of such pieces. */
  lemma {:induction false} CutPieces(s: string) returns (pieces: seq<Piece>, inners: seq<Inner>)
    requires NoClose(OUTSIDE, s)
    ensures CutInto(s, Fold(OUTSIDE, s), pieces, inners)
    decreases |s|
  {
    if s == [] {
      pieces, inners := [], [];
    } else {
      var front, c := s[..|s| - 1], s[|s| - 1];
      assert s == front + [c];
      FoldLast(OUTSIDE, front, c);
      pieces, inners := CutPieces(front);
      pieces, inners := CutStep(front, c, Fold(OUTSIDE, front), pieces, inners);
    }
  }

  lemma {:induction false} QuotingIsFold(text: string, open: nat, i: nat)
    requires open < i <= |text|
    ensures QuotingAt(text, open, i) == Fold(OUTSIDE, text[open + 1..i])
    decreases i
  {
    if i > open + 1 {
      QuotingIsFold(text, open, i - 1);
      assert text[open + 1..i][..i - 1 - (open + 1)] == text[open + 1..i - 1];
    }
  }

  lemma SlicePrefix(s: string, i: nat, j: nat, k: nat)
    requires i <= j <= |s| && k <= j - i
    ensures s[i..j][..k] == s[i..i + k]
  {
  }

  /** A brace is the first to close a label set exactly if such pieces are in between. */
  lemma LabelSetReads(text: string, open: nat, close: nat)
    requires open < close < |text| && text[close] == '}'
    ensures LabelSetEnd(text, open, open + 1) == Some(close) <==>
              NoClose(OUTSIDE, text[open + 1..close]) && !Fold(OUTSIDE, text[open + 1..close]).quoted
  {
    var inside := text[open + 1..close];
    QuotingIsFold(text, open, close);
    forall k | 0 <= k < |inside| ensures Closes(text, open, open + 1 + k) <==> !Fold(OUTSIDE, inside[..k]).quoted && inside[k] == '}' {
      QuotingIsFold(text, open, open + 1 + k);
      SlicePrefix(text, open + 1, close, k);
    }
    if NoClose(OUTSIDE, inside) && !Fold(OUTSIDE, inside).quoted {
      forall i | open < i < close ensures !Closes(text, open, i) {
        assert Closes(text, open, open + 1 + (i - open - 1)) <==> !Fold(OUTSIDE, inside[..i - open - 1]).quoted && inside[i - open - 1] == '}';
      }
      FirstCloseUnique(text, open, Some(close));
    }
  }

  // ---- White space ----

  lemma CutWhite(s: string) returns (k: nat)
    ensures k <= |s| && AllWhite(s[..k]) && TrimStart(s) == s[k..] && (k < |s| ==> !White(s[k]))
  {
    k := Span(s, 0, IsSpace);
  }

  lemma TrimStartIs(lead: string, s: string)
    requires AllWhite(lead) && (s == [] || !White(s[0]))
    ensures TrimStart(lead + s) == s
  {
    var text := lead + s;
    assert forall k :: 0 <= k < |lead| ==> text[k] == lead[k];
    SpanIs(text, 0, IsSpace, |lead|);
  }

  predicate Solid(s: string) { s != [] && !White(s[0]) && !White(s[|s| - 1]) }

  lemma {:induction false} TrimEndIs(s: string, trail: string)
    requires AllWhite(trail) && (s == [] || !White(s[|s| - 1]))
    ensures TrimEnd(s + trail) == s
    decreases |trail|
  {
    if trail == [] {
      assert s + trail == s;
    } else {
      var n := |trail| - 1;
      assert (s + trail)[..|s + trail| - 1] == s + trail[..n];
      TrimEndIs(s, trail[..n]);
    }
  }

  lemma {:induction false} CutTrail(s: string) returns (trail: string)
    ensures AllWhite(trail) && s == TrimEnd(s) + trail
    ensures TrimEnd(s) == [] || !White(TrimEnd(s)[|TrimEnd(s)| - 1])
    decreases |s|
  {
    if s != [] && IsSpace(s[|s| - 1]) {
      var rest := CutTrail(s[..|s| - 1]);
      trail := rest + [s[|s| - 1]];
      assert s == s[..|s| - 1] + [s[|s| - 1]];
    } else {
      trail := [];
    }
  }

  lemma TrimIs(lead: string, core: string, trail: string)
    requires AllWhite(lead) && AllWhite(trail) && Solid(core)
    ensures TrimEnd(TrimStart(lead + core + trail)) == core
  {
    assert lead + core + trail == lead + (core + trail);
    TrimStartIs(lead, core + trail);
    TrimEndIs(core, trail);
  }

  lemma CutLine(raw: string) returns (lead: string, trail: string)
    ensures var core := TrimEnd(TrimStart(raw));
            raw == lead + core + trail && AllWhite(lead) && AllWhite(trail) && (core == [] || Solid(core))
  {
    var k := CutWhite(raw);
    lead := raw[..k];
    trail := CutTrail(raw[k..]);
    var core := TrimEnd(raw[k..]);
    assert raw == lead + raw[k..] && raw[k..] == core + trail;
    assert core != [] ==> core[0] == raw[k];
  }

  // ---- Endings ----

  lemma TokenSpans(token: string, after: string)
    requires Token(token) && (after == [] || White(after[0]))
    ensures var text := token + after;
            Span(text, 0, IsSolid) == |token| && text[..|token|] == token && text[|token|..] == after
  {
    var text := token + after;
    assert forall k :: 0 <= k < |token| ==> text[k] == token[k];
    SpanIs(text, 0, IsSolid, |token|);
  }

  lemma TimeReads(numbers: Numbers, time: string, after: string, text: string)
    requires TimeOk(numbers, time) && (after == [] || White(after[0])) && TrimStart(after) == text && (text == [] || text[0] == '#')
    ensures GoodEnding(numbers, time + after)
  {
    TokenSpans(time, after);
  }

  lemma EndingReads(numbers: Numbers, e: Ending)
    requires EndingOk(numbers, e)
    ensures GoodEnding(numbers, TrimStart(EndingText(e)))
  {
    match e
    case Nothing =>
    case Comment(gap, text) => TrimStartIs(gap, text);
    case Time(gap, time) =>
      assert time + [] == time;
      TrimStartIs(gap, time);
      TimeReads(numbers, time, [], []);
    case Both(gap, time, gap2, text) =>
      TrimStartIs(gap2, text);
      TrimStartIs(gap, time + (gap2 + text));
      TimeReads(numbers, time, gap2 + text, text);
  }

  lemma EndingShape(numbers: Numbers, e: Ending)
    requires EndingOk(numbers, e)
    ensures EndingText(e) == [] || (White(EndingText(e)[0]) && !White(EndingText(e)[|EndingText(e)| - 1]))
  {
    match e
    case Nothing =>
    case Comment(gap, text) =>
    case Time(gap, time) =>
    case Both(gap, time, gap2, text) =>
  }

  lemma CutEnding(numbers: Numbers, rest: string) returns (e: Ending)
    requires GoodEnding(numbers, TrimStart(rest)) && (rest == [] || (White(rest[0]) && !White(rest[|rest| - 1])))
    ensures EndingOk(numbers, e) && EndingText(e) == rest
  {
    var k := CutWhite(rest);
    var gap, tail := rest[..k], rest[k..];
    assert rest == gap + tail;
    if rest == [] {
      e := Nothing;
    } else if tail[0] == '#' {
      e := Comment(gap, tail);
    } else {
      e := CutTime(numbers, gap, tail);
    }
  }

  lemma CutTime(numbers: Numbers, gap: string, tail: string) returns (e: Ending)
    requires Blanks(gap) && GoodEnding(numbers, tail) && Solid(tail) && tail[0] != '#'
    ensures EndingOk(numbers, e) && EndingText(e) == gap + tail
  {
    var end := Span(tail, 0, IsSolid);
    var time, after := tail[..end], tail[end..];
    assert tail == time + after;
    if after == [] {
      e := Time(gap, time);
    } else {
      assert after[|after| - 1] == tail[|tail| - 1];
      var gap2, text := CutComment(after);
      e := Both(gap, time, gap2, text);
    }
  }

  lemma CutComment(after: string) returns (gap: string, text: string)
    requires after != [] && White(after[0]) && !White(after[|after| - 1]) && (TrimStart(after) == [] || TrimStart(after)[0] == '#')
    ensures Blanks(gap) && CommentText(text) && after == gap + text
  {
    var j := CutWhite(after);
    gap, text := after[..j], after[j..];
    assert after == gap + text;
  }

  // ---- Where the parts of a line are ----

  /** The ends of the name, the labels, the blanks and the value. */
  datatype Marks = Marks(name: nat, labels: nat, gap: nat, value: nat)

  predicate NameMarked(line: string, n: nat) {
    && 0 < n < |line| && IsNameStart(line[0]) && !IsNameContinue(line[n])
    && forall k :: 0 <= k < n ==> IsNameContinue(line[k])
  }

  predicate LabelsMarked(line: string, open: nat, end: nat)
    requires open < |line|
  {
    if line[open] == '{' then open < end <= |line| && LabelSetEnd(line, open, open + 1) == Some(end - 1) else end == open
  }

  predicate ValueMarked(numbers: Numbers, line: string, from: nat, start: nat, stop: nat) {
    && from < start < stop <= |line|
    && (forall k :: from <= k < start ==> IsSpace(line[k]))
    && (forall k :: start <= k < stop ==> IsSolid(line[k]))
    && (stop < |line| ==> IsSpace(line[stop])) && GoodEnding(numbers, TrimStart(line[stop..]))
  }

  predicate Marked(numbers: Numbers, line: string, k: Marks) {
    NameMarked(line, k.name) && LabelsMarked(line, k.name, k.labels) && ValueMarked(numbers, line, k.labels, k.gap, k.value)
  }

  function SampleAt(line: string, k: Marks): Sample
    requires k.name <= k.labels <= k.gap <= k.value <= |line|
  {
    Sample(line[..k.name], if k.labels == k.name then None else Some(line[k.name..k.labels]), line[k.gap..k.value])
  }

  lemma ValueParses(numbers: Numbers, line: string, name: string, labels: Option<string>, from: nat, start: nat, stop: nat)
    requires ValueMarked(numbers, line, from, start, stop)
    ensures ParseValue(numbers, line, name, labels, from) == Some(Sample(name, labels, line[start..stop]))
  {
    SpanIs(line, from, IsSpace, start);
    SpanIs(line, start, IsSolid, stop);
  }

  lemma LabelledIs(numbers: Numbers, line: string, open: nat, end: nat)
    requires open + 1 < end <= |line|
    ensures ParseLabelled(numbers, line, open, end - 1) == ParseValue(numbers, line, line[..open], Some(line[open..end]), end)
  {
  }

  lemma AfterLabels(numbers: Numbers, line: string, n: nat, close: nat)
    requires n < |line| && line[n] == '{' && LabelSetEnd(line, n, n + 1) == Some(close)
    ensures n < close < |line| && ParseAfterName(numbers, line, n) == ParseLabelled(numbers, line, n, close)
  {
  }

  lemma AfterNameParses(numbers: Numbers, line: string, n: nat, end: nat)
    requires n < |line| && LabelsMarked(line, n, end)
    ensures n <= end <= |line|
    ensures ParseAfterName(numbers, line, n) == ParseValue(numbers, line, line[..n], if end == n then None else Some(line[n..end]), end)
  {
    if line[n] == '{' {
      AfterLabels(numbers, line, n, end - 1);
      LabelledIs(numbers, line, n, end);
    }
  }

  lemma NameParses(numbers: Numbers, line: string, n: nat, end: nat)
    requires NameMarked(line, n) && LabelsMarked(line, n, end)
    ensures n <= end <= |line| && NamePrefix(line) == line[..n]
    ensures ParseSample(numbers, line) == ParseValue(numbers, line, line[..n], if end == n then None else Some(line[n..end]), end)
  {
    SpanIs(line, 0, IsNameContinue, n);
    AfterNameParses(numbers, line, n, end);
  }

  lemma MarkedParses(numbers: Numbers, line: string, k: Marks)
    requires Marked(numbers, line, k)
    ensures ParseSample(numbers, line) == Some(SampleAt(line, k)) && NamePrefix(line) == line[..k.name]
  {
    NameParses(numbers, line, k.name, k.labels);
    ValueParses(numbers, line, line[..k.name], if k.labels == k.name then None else Some(line[k.name..k.labels]), k.labels, k.gap, k.value);
  }

  lemma ParsedName(numbers: Numbers, line: string) returns (n: nat, end: nat)
    requires ParseSample(numbers, line).Some?
    ensures NameMarked(line, n) && LabelsMarked(line, n, end)
  {
    n := Span(line, 0, IsNameContinue);
    end := if line[n] == '{' then LabelSetEnd(line, n, n + 1).value + 1 else n;
  }

  lemma ParsedValue(numbers: Numbers, line: string, name: string, labels: Option<string>, from: nat) returns (start: nat, stop: nat)
    requires from <= |line| && ParseValue(numbers, line, name, labels, from).Some?
    ensures ValueMarked(numbers, line, from, start, stop)
  {
    start := Span(line, from, IsSpace);
    stop := Span(line, start, IsSolid);
  }

  lemma FindMarks(numbers: Numbers, line: string) returns (k: Marks)
    requires ParseSample(numbers, line).Some?
    ensures Marked(numbers, line, k)
  {
    var n, end := ParsedName(numbers, line);
    NameParses(numbers, line, n, end);
    var start, stop := ParsedValue(numbers, line, line[..n], if end == n then None else Some(line[n..end]), end);
    k := Marks(n, end, start, stop);
  }

  lemma ParsedIsMarked(numbers: Numbers, line: string) returns (k: Marks)
    requires ParseSample(numbers, line).Some?
    ensures Marked(numbers, line, k) && ParseSample(numbers, line) == Some(SampleAt(line, k)) && NamePrefix(line) == line[..k.name]
  {
    k := FindMarks(numbers, line);
    MarkedParses(numbers, line, k);
  }

  // ---- The parts of a line and their marks ----

  /** The cuts of a line made of five parts. */
  predicate CutInFive(line: string, k: Marks, name: string, labels: string, gap: string, value: string, rest: string) {
    && k.name <= k.labels <= k.gap <= k.value <= |line|
    && line[..k.name] == name && line[k.name..k.labels] == labels && line[k.labels..k.gap] == gap
    && line[k.gap..k.value] == value && line[k.value..] == rest
  }

  lemma Shift(a: string, b: string, i: nat, j: nat)
    requires i <= j <= |b|
    ensures (a + b)[|a| + i..|a| + j] == b[i..j] && (a + b)[|a| + i..] == b[i..] && (a + b)[..|a|] == a
  {
  }

  lemma FiveParts(name: string, labels: string, gap: string, value: string, rest: string)
    ensures var line := name + (labels + (gap + (value + rest)));
            var k := Marks(|name|, |name| + |labels|, |name| + |labels| + |gap|, |name| + |labels| + |gap| + |value|);
            CutInFive(line, k, name, labels, gap, value, rest)
  {
    var (c, b) := (value + rest, gap + (value + rest));
    var a := labels + b;
    var i, j := |labels|, |labels| + |gap|;
    Shift(name, a, 0, i);
    Shift(name, a, i, j);
    Shift(name, a, j, j + |value|);
    Shift(labels, b, 0, |gap|);
    Shift(labels, b, |gap|, |gap| + |value|);
    Shift(gap, c, 0, |value|);
    assert a[0..i] == labels && b[0..|gap|] == gap && c[0..|value|] == value && c[|value|..] == rest;
  }

  lemma JoinFive(line: string, k: Marks, name: string, labels: string, gap: string, value: string, rest: string)
    requires CutInFive(line, k, name, labels, gap, value, rest)
    ensures line == name + (labels + (gap + (value + rest)))
  {
  }

  lemma SliceAt(line: string, i: nat, j: nat, part: string)
    requires i <= j <= |line| && line[i..j] == part
    ensures forall k :: i <= k < j ==> line[k] == part[k - i]
  {
  }

  lemma BracesOf(line: string, open: nat, end: nat, inside: string)
    requires open + 2 <= end <= |line| && line[open..end] == ['{'] + inside + ['}']
    ensures line[open] == '{' && line[end - 1] == '}' && line[open + 1..end - 1] == inside
  {
    var labels := line[open..end];
    assert labels[0] == line[open] && labels[|labels| - 1] == line[end - 1];
    forall k | 0 <= k < |inside| ensures line[open + 1..end - 1][k] == inside[k] {
      assert labels[k + 1] == inside[k];
    }
  }

  lemma SetReads(line: string, open: nat, end: nat, pieces: seq<Piece>)
    requires (forall p <- pieces :: PieceOk(p)) && open + 2 <= end <= |line| && line[open..end] == LabelsText(Some(pieces))
    ensures LabelSetEnd(line, open, open + 1) == Some(end - 1)
  {
    BracesOf(line, open, end, PiecesText(pieces));
    PiecesFold(pieces);
    LabelSetReads(line, open, end - 1);
  }

  lemma CutClosed(inside: string) returns (pieces: seq<Piece>)
    requires NoClose(OUTSIDE, inside) && !Fold(OUTSIDE, inside).quoted
    ensures (forall p <- pieces :: PieceOk(p)) && PiecesText(pieces) == inside
  {
    var inners;
    pieces, inners := CutPieces(inside);
  }

  lemma CutLabels(line: string, open: nat, close: nat) returns (pieces: seq<Piece>)
    requires open < |line| && line[open] == '{' && LabelSetEnd(line, open, open + 1) == Some(close)
    ensures open < close < |line| && (forall p <- pieces :: PieceOk(p)) && line[open..close + 1] == LabelsText(Some(pieces))
  {
    assert Closes(line, open, close);
    LabelSetReads(line, open, close);
    pieces := CutClosed(line[open + 1..close]);
    BraceSlice(line, open, close);
  }

  lemma BraceSlice(line: string, open: nat, close: nat)
    requires open < close < |line| && line[open] == '{' && line[close] == '}'
    ensures line[open..close + 1] == ['{'] + line[open + 1..close] + ['}']
  {
  }

  lemma MarksOf(numbers: Numbers, line: string, k: Marks, name: string, p: Parts)
    requires PartsOk(numbers, p) && IsNameText(name)
    requires CutInFive(line, k, name, LabelsText(p.labels), p.gap, p.value, EndingText(p.ending))
    ensures Marked(numbers, line, k) && SampleAt(line, k) == Sample(name, LabelsOf(p), p.value)
  {
    SliceAt(line, 0, k.name, name);
    ValueMarks(numbers, line, k, p);
    LabelsMark(line, k, p);
  }

  lemma ValueMarks(numbers: Numbers, line: string, k: Marks, p: Parts)
    requires PartsOk(numbers, p) && k.labels <= k.gap <= k.value <= |line|
    requires line[k.labels..k.gap] == p.gap && line[k.gap..k.value] == p.value && line[k.value..] == EndingText(p.ending)
    ensures ValueMarked(numbers, line, k.labels, k.gap, k.value) && White(line[k.labels])
  {
    SliceAt(line, k.labels, k.gap, p.gap);
    SliceAt(line, k.gap, k.value, p.value);
    EndingReads(numbers, p.ending);
    EndingShape(numbers, p.ending);
    if k.value < |line| {
      assert line[k.value] == line[k.value..][0];
    }
  }

  lemma LabelsMark(line: string, k: Marks, p: Parts)
    requires k.name <= k.labels < |line| && line[k.name..k.labels] == LabelsText(p.labels) && (p.labels.Some? ==> forall piece <- p.labels.value :: PieceOk(piece))
    requires White(line[k.labels])
    ensures LabelsMarked(line, k.name, k.labels) && !IsNameContinue(line[k.name])
    ensures (if k.labels == k.name then None else Some(line[k.name..k.labels])) == LabelsOf(p)
  {
    if p.labels.Some? {
      SetReads(line, k.name, k.labels, p.labels.value);
      BracesOf(line, k.name, k.labels, PiecesText(p.labels.value));
    }
  }

  lemma PartsOfMarks(numbers: Numbers, line: string, k: Marks) returns (p: Parts)
    requires Marked(numbers, line, k) && Solid(line)
    ensures PartsOk(numbers, p) && CutInFive(line, k, line[..k.name], LabelsText(p.labels), p.gap, p.value, EndingText(p.ending))
    ensures SampleAt(line, k) == Sample(line[..k.name], LabelsOf(p), p.value)
  {
    var e := CutEnding(numbers, line[k.value..]);
    var labels := PiecesOfMarks(line, k.name, k.labels);
    p := Parts([], labels, line[k.labels..k.gap], line[k.gap..k.value], e, []);
  }

  lemma PiecesOfMarks(line: string, open: nat, end: nat) returns (labels: Option<seq<Piece>>)
    requires open < |line| && LabelsMarked(line, open, end)
    ensures open <= end <= |line| && line[open..end] == LabelsText(labels) && (labels.Some? ==> forall piece <- labels.value :: PieceOk(piece))
    ensures labels.None? <==> open == end
  {
    if line[open] == '{' {
      var pieces := CutLabels(line, open, end - 1);
      labels := Some(pieces);
    } else {
      labels := None;
    }
  }

  lemma CoreMarks(numbers: Numbers, name: string, p: Parts)
    requires PartsOk(numbers, p) && IsNameText(name)
    ensures ParseSample(numbers, CoreText(name, p)) == Some(Sample(name, LabelsOf(p), p.value)) && NamePrefix(CoreText(name, p)) == name
  {
    var labels := LabelsText(p.labels);
    FiveParts(name, labels, p.gap, p.value, EndingText(p.ending));
    var k := Marks(|name|, |name| + |labels|, |name| + |labels| + |p.gap|, |name| + |labels| + |p.gap| + |p.value|);
    MarksOf(numbers, CoreText(name, p), k, name, p);
    MarkedParses(numbers, CoreText(name, p), k);
  }

  lemma CoreIsSolid(numbers: Numbers, name: string, p: Parts)
    requires PartsOk(numbers, p) && IsNameText(name)
    ensures Solid(CoreText(name, p)) && CoreText(name, p)[0] == name[0]
  {
    EndingShape(numbers, p.ending);
    SameChars(name[0]);
    var tail := p.value + EndingText(p.ending);
    assert !White(tail[|tail| - 1]);
    LastOf(name, LabelsText(p.labels), p.gap, tail);
  }

  lemma LastOf(a: string, b: string, c: string, d: string)
    requires a != [] && d != []
    ensures var s := a + (b + (c + d)); s != [] && s[0] == a[0] && s[|s| - 1] == d[|d| - 1]
  {
  }

  lemma CutSample(numbers: Numbers, line: string, sample: Sample) returns (p: Parts)
    requires ParseSample(numbers, line) == Some(sample) && Solid(line)
    ensures PartsOk(numbers, p) && line == CoreText(sample.name, p) && sample.name == NamePrefix(line)
    ensures sample.labels == LabelsOf(p) && sample.value == p.value
  {
    var k := ParsedIsMarked(numbers, line);
    p := PartsOfMarks(numbers, line, k);
    JoinFive(line, k, sample.name, LabelsText(p.labels), p.gap, p.value, EndingText(p.ending));
  }

  // ---- Main results ----

  lemma NameSpans(name: string, rest: string)
    requires IsNameText(name) && (rest == [] || !NameChar(rest[0]))
    ensures NamePrefix(name + rest) == name
  {
    SpanIs(name + rest, 0, IsNameContinue, |name|);
    assert (name + rest)[..|name|] == name;
  }

  lemma LineReads(numbers: Numbers, m: Metric, p: Parts)
    requires PartsOk(numbers, p)
    ensures Classify(numbers, LineText(NameText(m), p)) == Reading(m, LabelsOf(p), p.value)
  {
    var name := NameText(m);
    NameChars(m);
    CoreIsSolid(numbers, name, p);
    TrimIs(p.lead, CoreText(name, p), p.trail);
    CoreMarks(numbers, name, p);
    NameOfMetric(name, m);
  }

  lemma ReadingIsLine(numbers: Numbers, raw: string) returns (p: Parts)
    requires Classify(numbers, raw).Reading?
    ensures PartsOk(numbers, p)
    ensures var r := Classify(numbers, raw); raw == LineText(NameText(r.metric), p) && r.labels == LabelsOf(p) && r.value == p.value
  {
    var lead, trail := CutLine(raw);
    var core := TrimEnd(TrimStart(raw));
    p := CutSample(numbers, core, ParseSample(numbers, core).value);
    NameOfMetric(NamePrefix(core), Classify(numbers, raw).metric);
    p := p.(lead := lead, trail := trail);
  }

  /** Trailing white space does not cut into a name. */
  lemma NamedPrefix(name: string, rest: string)
    requires IsNameText(name) && (rest == [] || !NameChar(rest[0]))
    ensures var core := TrimEnd(name + rest);
            core != [] && core[0] == name[0] && core[0] != '#' && NamePrefix(core) == name
  {
    var text := name + rest;
    var trail := CutTrail(rest);
    var front := TrimEnd(rest);
    SameChars(name[|name| - 1]);
    assert text == (name + front) + trail;
    TrimEndIs(name + front, trail);
    NameSpans(name, front);
  }

  lemma NamedReads(numbers: Numbers, raw: string, lead: string, m: Metric, rest: string)
    requires Begins(raw, lead, NameText(m), rest)
    ensures !Classify(numbers, raw).Noise? && Classify(numbers, raw).metric == m
  {
    var name := NameText(m);
    NameChars(m);
    SameChars(name[0]);
    assert raw == lead + (name + rest);
    TrimStartIs(lead, name + rest);
    NamedPrefix(name, rest);
    NameOfMetric(name, m);
    NamedCore(numbers, raw, TrimEnd(name + rest), m);
  }

  lemma NamedCore(numbers: Numbers, raw: string, core: string, m: Metric)
    requires core == TrimEnd(TrimStart(raw)) && core != [] && core[0] != '#' && MetricOf(NamePrefix(core)) == Some(m)
    ensures !Classify(numbers, raw).Noise? && Classify(numbers, raw).metric == m
  {
  }

  lemma ReadHasName(numbers: Numbers, raw: string)
    requires !Classify(numbers, raw).Noise?
    ensures var core := TrimEnd(TrimStart(raw));
            core != [] && NamePrefix(core) == NameText(Classify(numbers, raw).metric)
  {
    NameOfMetric(NamePrefix(TrimEnd(TrimStart(raw))), Classify(numbers, raw).metric);
  }

  lemma ReadIsNamed(numbers: Numbers, raw: string, m: Metric)
    requires !Classify(numbers, raw).Noise? && m == Classify(numbers, raw).metric
    ensures Named(raw, m)
  {
    ReadHasName(numbers, raw);
    NameChars(m);
    var lead, trail := CutLine(raw);
    var rest := CutName(raw, lead, TrimEnd(TrimStart(raw)), trail, NameText(m));
  }

  lemma CutName(raw: string, lead: string, core: string, trail: string, name: string) returns (rest: string)
    requires raw == lead + core + trail && core != [] && NamePrefix(core) == name && name != [] && AllWhite(lead) && AllWhite(trail)
    ensures Begins(raw, lead, name, rest)
  {
    var n := |name|;
    var tail := core[n..];
    rest := tail + trail;
    assert core == name + tail;
    if tail != [] {
      SameChars(tail[0]);
    } else if trail != [] {
      SameChars(trail[0]);
    }
  }

  lemma IsLineReads(numbers: Numbers, raw: string, m: Metric, labels: Option<string>, value: string)
    ensures IsLine(numbers, raw, m, labels, value) <==> Classify(numbers, raw) == Reading(m, labels, value)
  {
    if IsLine(numbers, raw, m, labels, value) {
      var p: Parts :| PartsOk(numbers, p) && raw == LineText(NameText(m), p) && labels == LabelsOf(p) && value == p.value;
      LineReads(numbers, m, p);
    }
    if Classify(numbers, raw) == Reading(m, labels, value) {
      var p := ReadingIsLine(numbers, raw);
    }
  }

  lemma NamedIsRead(numbers: Numbers, raw: string, m: Metric)
    ensures Named(raw, m) <==> !Classify(numbers, raw).Noise? && Classify(numbers, raw).metric == m
  {
    if Named(raw, m) {
      var lead: string, rest: string :| Begins(raw, lead, NameText(m), rest);
      NamedReads(numbers, raw, lead, m, rest);
    }
    if !Classify(numbers, raw).Noise? {
      ReadIsNamed(numbers, raw, Classify(numbers, raw).metric);
    }
  }

  /** What each line of a scrape means for each metric.  It reads as a sample of it exactly if
    * it is a line of that metric by the grammar, with just these labels and this value; and
    * it breaks the metric exactly if it begins with its name and is of no such shape. */
  lemma ReadsExactly(numbers: Numbers, raw: string, m: Metric)
    ensures forall labels, value :: Classify(numbers, raw) == Reading(m, labels, value) <==> IsLine(numbers, raw, m, labels, value)
    ensures Classify(numbers, raw) == Broken(m) <==> Named(raw, m) && forall labels, value :: !IsLine(numbers, raw, m, labels, value)
  {
    var r := Classify(numbers, raw);
    NamedIsRead(numbers, raw, m);
    forall labels, value ensures r == Reading(m, labels, value) <==> IsLine(numbers, raw, m, labels, value) {
      IsLineReads(numbers, raw, m, labels, value);
    }
    if r.Reading? && r.metric == m {
      assert IsLine(numbers, raw, m, r.labels, r.value);
    }
  }

  /** A line is ignored exactly if it begins with none of the names. */
  lemma IgnoredExactly(numbers: Numbers, raw: string)
    ensures Classify(numbers, raw).Noise? <==> forall m :: !Named(raw, m)
  {
    forall m ensures Named(raw, m) <==> !Classify(numbers, raw).Noise? && Classify(numbers, raw).metric == m {
      NamedIsRead(numbers, raw, m);
    }
    if !Classify(numbers, raw).Noise? {
      assert Named(raw, Classify(numbers, raw).metric);
    }
  }

  // ---- A whole scrape ----

  /** The token is this count: exactly representable, and not zero where that makes no sense. */
  predicate CountIs(numbers: Numbers, token: string, m: Metric, n: nat) {
    && numbers.f64(token) == Some(Finite(n as real)) && n <= 9_007_199_254_740_991
    && ((m == Capacity || m == KvTotal) ==> n > 0)
  }

  /** Exactly one line begins with the name of the gauge, and it is unlabelled and counts `n`. */
  ghost predicate GaugeTold(numbers: Numbers, lines: seq<string>, m: Metric, n: nat) {
    exists i, token :: 0 <= i < |lines| && OnlyLine(lines, m, i) && IsLine(numbers, lines[i], m, None, token) && CountIs(numbers, token, m, n)
  }

  ghost predicate OnlyLine(lines: seq<string>, m: Metric, i: int) {
    forall j :: 0 <= j < |lines| ==> (Named(lines[j], m) <==> j == i)
  }

  ghost predicate Silent(lines: seq<string>, m: Metric) { forall j :: 0 <= j < |lines| ==> !Named(lines[j], m) }

  /** Exactly one line begins with the name of the counter, and it is unlabelled and says `v`. */
  ghost predicate CounterTold(numbers: Numbers, lines: seq<string>, m: Metric, v: real) {
    exists i, token ::
      && 0 <= i < |lines| && OnlyLine(lines, m, i) && IsLine(numbers, lines[i], m, None, token)
      && numbers.f64(token) == Some(Finite(v)) && v >= 0.0
  }

  lemma CountMeans(numbers: Numbers, token: string, m: Metric, n: nat)
    ensures GaugeCount(numbers, token, Positive(m)) == Some(n) <==> CountIs(numbers, token, m, n)
  {
  }

  predicate OfIt(r: Reading, m: Metric) { !r.Noise? && r.metric == m }

  lemma {:induction false} OfNone(rs: seq<Reading>, m: Metric)
    ensures Of(rs, m) == [] <==> forall i :: 0 <= i < |rs| ==> !OfIt(rs[i], m)
  {
    if rs != [] {
      OfNone(rs[..|rs| - 1], m);
      assert forall i :: 0 <= i < |rs| - 1 ==> rs[i] == rs[..|rs| - 1][i];
    }
  }

  lemma {:induction false} OfOnly(rs: seq<Reading>, m: Metric, i: nat)
    requires i < |rs| && forall j :: 0 <= j < |rs| ==> (OfIt(rs[j], m) <==> j == i)
    ensures Of(rs, m) == [rs[i]]
    decreases |rs|
  {
    var n := |rs| - 1;
    if i == n {
      OfNone(rs[..n], m);
    } else {
      OfOnly(rs[..n], m, i);
    }
  }

  lemma {:induction false} OnlyOf(rs: seq<Reading>, m: Metric) returns (i: nat)
    requires |Of(rs, m)| == 1
    ensures i < |rs| && Of(rs, m) == [rs[i]] && forall j :: 0 <= j < |rs| ==> (OfIt(rs[j], m) <==> j == i)
    decreases |rs|
  {
    var n := |rs| - 1;
    if OfIt(rs[n], m) {
      i := n;
      OfNone(rs[..n], m);
      assert forall j :: 0 <= j < n ==> rs[j] == rs[..n][j];
    } else {
      i := OnlyOf(rs[..n], m);
      assert forall j :: 0 <= j < n ==> rs[j] == rs[..n][j];
    }
  }

  lemma NamedOf(numbers: Numbers, lines: seq<string>, m: Metric)
    ensures forall j :: 0 <= j < |lines| ==> (OfIt(ReadLines(numbers, lines)[j], m) <==> Named(lines[j], m))
  {
    forall j | 0 <= j < |lines| ensures OfIt(ReadLines(numbers, lines)[j], m) <==> Named(lines[j], m) {
      NamedIsRead(numbers, lines[j], m);
    }
  }

  lemma SilentOf(numbers: Numbers, lines: seq<string>, m: Metric)
    ensures Of(ReadLines(numbers, lines), m) == [] <==> Silent(lines, m)
  {
    NamedOf(numbers, lines, m);
    OfNone(ReadLines(numbers, lines), m);
  }

  /** The one line of a metric, unlabelled and with this token. */
  ghost predicate OneLine(numbers: Numbers, lines: seq<string>, m: Metric, token: string) {
    exists i :: 0 <= i < |lines| && OnlyLine(lines, m, i) && IsLine(numbers, lines[i], m, None, token)
  }

  lemma OneLineOf(numbers: Numbers, lines: seq<string>, m: Metric, token: string)
    ensures Of(ReadLines(numbers, lines), m) == [Reading(m, None, token)] <==> OneLine(numbers, lines, m, token)
  {
    var rs := ReadLines(numbers, lines);
    NamedOf(numbers, lines, m);
    if OneLine(numbers, lines, m, token) {
      var i :| 0 <= i < |lines| && OnlyLine(lines, m, i) && IsLine(numbers, lines[i], m, None, token);
      OfOnly(rs, m, i);
      IsLineReads(numbers, lines[i], m, None, token);
    }
    if Of(rs, m) == [Reading(m, None, token)] {
      var i := OnlyOf(rs, m);
      IsLineReads(numbers, lines[i], m, None, token);
      assert OnlyLine(lines, m, i);
    }
  }

  lemma GaugeOf(numbers: Numbers, lines: seq<string>, m: Metric, n: nat)
    ensures GaugeTold(numbers, lines, m, n) <==>
              var of := Of(ReadLines(numbers, lines), m); |of| == 1 && GaugeReading(numbers, of[0]) == Some(n)
  {
    var of := Of(ReadLines(numbers, lines), m);
    if GaugeTold(numbers, lines, m, n) {
      var i, token :| 0 <= i < |lines| && OnlyLine(lines, m, i) && IsLine(numbers, lines[i], m, None, token) && CountIs(numbers, token, m, n);
      OneLineOf(numbers, lines, m, token);
      CountMeans(numbers, token, m, n);
    }
    if |of| == 1 && GaugeReading(numbers, of[0]) == Some(n) {
      OneReading(numbers, ReadLines(numbers, lines), m);
      GaugeIsTold(numbers, lines, m, of[0].value, n);
    }
  }

  lemma GaugeIsTold(numbers: Numbers, lines: seq<string>, m: Metric, token: string, n: nat)
    requires Of(ReadLines(numbers, lines), m) == [Reading(m, None, token)] && GaugeCount(numbers, token, Positive(m)) == Some(n)
    ensures GaugeTold(numbers, lines, m, n)
  {
    OneLineOf(numbers, lines, m, token);
    CountMeans(numbers, token, m, n);
    var i :| 0 <= i < |lines| && OnlyLine(lines, m, i) && IsLine(numbers, lines[i], m, None, token);
  }

  lemma OneReading(numbers: Numbers, rs: seq<Reading>, m: Metric)
    requires |Of(rs, m)| == 1 && Of(rs, m)[0].Reading? && Of(rs, m)[0].labels.None?
    ensures Of(rs, m) == [Reading(m, None, Of(rs, m)[0].value)]
  {
    OfMetric(rs, m);
    assert Of(rs, m)[0] in Of(rs, m);
  }

  lemma CounterOf(numbers: Numbers, lines: seq<string>, m: Metric, v: real)
    ensures CounterTold(numbers, lines, m, v) <==> SingleValue(numbers, Of(ReadLines(numbers, lines), m)) == Some(v)
  {
    if CounterTold(numbers, lines, m, v) {
      ToldCounter(numbers, lines, m, v);
    }
    if SingleValue(numbers, Of(ReadLines(numbers, lines), m)) == Some(v) {
      OneReading(numbers, ReadLines(numbers, lines), m);
      CounterIsTold(numbers, lines, m, Of(ReadLines(numbers, lines), m)[0].value, v);
    }
  }

  lemma ToldCounter(numbers: Numbers, lines: seq<string>, m: Metric, v: real)
    requires CounterTold(numbers, lines, m, v)
    ensures SingleValue(numbers, Of(ReadLines(numbers, lines), m)) == Some(v)
  {
    var i, token :| 0 <= i < |lines| && OnlyLine(lines, m, i) && IsLine(numbers, lines[i], m, None, token)
                    && numbers.f64(token) == Some(Finite(v)) && v >= 0.0;
    OneLineOf(numbers, lines, m, token);
  }

  lemma CounterIsTold(numbers: Numbers, lines: seq<string>, m: Metric, token: string, v: real)
    requires Of(ReadLines(numbers, lines), m) == [Reading(m, None, token)] && CounterValue(numbers, token) == Some(v)
    ensures CounterTold(numbers, lines, m, v)
  {
    OneLineOf(numbers, lines, m, token);
    var i :| 0 <= i < |lines| && OnlyLine(lines, m, i) && IsLine(numbers, lines[i], m, None, token);
  }

  // ---- The family of completion counters ----

  /** What a line adds to the family: its value, if it is a line of the family. */
  ghost predicate Adds(numbers: Numbers, line: string, x: real) {
    if Named(line, Completed)
    then exists labels, token :: IsLine(numbers, line, Completed, labels, token) && numbers.f64(token) == Some(Finite(x)) && x >= 0.0
    else x == 0.0
  }

  ghost predicate SameSeries(numbers: Numbers, a: string, b: string) {
    exists labels, s, t :: IsLine(numbers, a, Completed, labels, s) && IsLine(numbers, b, Completed, labels, t)
  }

  function SumOf(xs: seq<real>): real { if xs == [] then 0.0 else SumOf(xs[..|xs| - 1]) + xs[|xs| - 1] }

  /** Every line of the family is sound, no two have the same labels, and these are their values. */
  ghost predicate FamilySound(numbers: Numbers, lines: seq<string>, xs: seq<real>) {
    && |xs| == |lines| && (forall i :: 0 <= i < |lines| ==> Adds(numbers, lines[i], xs[i]))
    && forall i, j :: 0 <= i < j < |lines| ==> !SameSeries(numbers, lines[i], lines[j])
  }

  ghost predicate FamilyTold(numbers: Numbers, lines: seq<string>, v: real) {
    !Silent(lines, Completed) && exists xs :: FamilySound(numbers, lines, xs) && SumOf(xs) == v
  }

  // The same on readings.

  predicate Gives(numbers: Numbers, r: Reading, x: real) {
    if OfIt(r, Completed) then r.Reading? && CounterValue(numbers, r.value) == Some(x) else x == 0.0
  }

  predicate Repeats(r: Reading, t: Reading) {
    r.Reading? && r.metric == Completed && t.Reading? && t.metric == Completed && Series(r) == Series(t)
  }

  predicate ReadingsSound(numbers: Numbers, rs: seq<Reading>, xs: seq<real>) {
    && |xs| == |rs| && (forall i :: 0 <= i < |rs| ==> Gives(numbers, rs[i], xs[i]))
    && forall i, j :: 0 <= i < j < |rs| ==> !Repeats(rs[i], rs[j])
  }

  lemma {:induction false} SeriesIn(rs: seq<Reading>, r: Reading)
    requires r.Reading? && r.metric == Completed
    ensures Series(r) in SetSeries(Of(rs, Completed)) <==> exists i :: 0 <= i < |rs| && Repeats(rs[i], r)
    decreases |rs|
  {
    if rs != [] {
      var front, last := rs[..|rs| - 1], rs[|rs| - 1];
      SeriesIn(front, r);
      SetSeriesStep(Of(front, Completed), last);
      assert Of(rs, Completed) == Of(front, Completed) + (if OfIt(last, Completed) then [last] else []);
      assert forall i :: 0 <= i < |front| ==> front[i] == rs[i];
      if i :| 0 <= i < |rs| && Repeats(rs[i], r) {
        assert i < |front| ==> front[i] == rs[i];
      }
    }
  }

  lemma OfMore(front: seq<Reading>, r: Reading)
    ensures Of(front + [r], Completed) == Of(front, Completed) + (if OfIt(r, Completed) then [r] else [])
  {
    assert (front + [r])[..|front|] == front;
  }

  lemma ReadingsSoundMore(numbers: Numbers, front: seq<Reading>, r: Reading, xs: seq<real>, x: real)
    requires |xs| == |front|
    ensures ReadingsSound(numbers, front + [r], xs + [x]) <==>
              ReadingsSound(numbers, front, xs) && Gives(numbers, r, x) && forall i :: 0 <= i < |front| ==> !Repeats(front[i], r)
  {
    var rs, ys := front + [r], xs + [x];
    assert rs[|front|] == r && ys[|front|] == x;
    assert forall i :: 0 <= i < |front| ==> rs[i] == front[i] && ys[i] == xs[i];
    if ReadingsSound(numbers, rs, ys) {
      forall i | 0 <= i < |front| ensures Gives(numbers, front[i], xs[i]) && !Repeats(front[i], r) {
        assert Gives(numbers, rs[i], ys[i]) && !Repeats(rs[i], rs[|front|]);
      }
      forall i, j | 0 <= i < j < |front| ensures !Repeats(front[i], front[j]) {
        assert !Repeats(rs[i], rs[j]);
      }
    }
  }

  /** The reading gives nothing to the family, or a new series. */
  predicate GoodLast(numbers: Numbers, of: seq<Reading>, r: Reading) {
    OfIt(r, Completed) ==> r.Reading? && CounterValue(numbers, r.value).Some? && Series(r) !in SetSeries(of)
  }

  lemma FamilyMore(numbers: Numbers, front: seq<Reading>, r: Reading)
    ensures FamilyOk(numbers, Of(front + [r], Completed)) <==>
              FamilyOk(numbers, Of(front, Completed)) && GoodLast(numbers, Of(front, Completed), r)
  {
    var of := Of(front, Completed);
    OfMore(front, r);
    FamilyOkStep(numbers, of, r);
    assert of + [] == of;
  }

  lemma TotalMore(numbers: Numbers, front: seq<Reading>, r: Reading, x: real)
    requires Gives(numbers, r, x)
    ensures Total(numbers, Of(front + [r], Completed)) == Total(numbers, Of(front, Completed)) + x
  {
    var of := Of(front, Completed);
    OfMore(front, r);
    if OfIt(r, Completed) {
      TotalAppend(numbers, of, r);
    } else {
      assert of + [] == of;
    }
  }

  lemma TotalAppend(numbers: Numbers, of: seq<Reading>, r: Reading)
    ensures Total(numbers, of + [r]) == Total(numbers, of) + Amount(numbers, r)
  {
    assert (of + [r])[..|of|] == of;
  }

  lemma GoodLastMeans(numbers: Numbers, front: seq<Reading>, r: Reading)
    ensures GoodLast(numbers, Of(front, Completed), r) <==>
              (OfIt(r, Completed) ==> r.Reading? && CounterValue(numbers, r.value).Some?) && forall i :: 0 <= i < |front| ==> !Repeats(front[i], r)
  {
    if r.Reading? && r.metric == Completed {
      SeriesIn(front, r);
    }
  }

  lemma {:induction false} SoundIsOk(numbers: Numbers, rs: seq<Reading>, xs: seq<real>)
    requires ReadingsSound(numbers, rs, xs)
    ensures FamilyOk(numbers, Of(rs, Completed)) && Total(numbers, Of(rs, Completed)) == SumOf(xs)
    decreases |rs|
  {
    if rs == [] {
      assert SetSeries([]) == {};
    } else {
      var n := |rs| - 1;
      assert rs == rs[..n] + [rs[n]] && xs == xs[..n] + [xs[n]];
      ReadingsSoundMore(numbers, rs[..n], rs[n], xs[..n], xs[n]);
      SoundIsOk(numbers, rs[..n], xs[..n]);
      GoodLastMeans(numbers, rs[..n], rs[n]);
      FamilyMore(numbers, rs[..n], rs[n]);
      TotalMore(numbers, rs[..n], rs[n], xs[n]);
    }
  }

  lemma {:induction false} OkIsSound(numbers: Numbers, rs: seq<Reading>) returns (xs: seq<real>)
    requires FamilyOk(numbers, Of(rs, Completed))
    ensures ReadingsSound(numbers, rs, xs)
    decreases |rs|
  {
    xs := [];
    if rs != [] {
      var n := |rs| - 1;
      assert rs == rs[..n] + [rs[n]];
      FamilyMore(numbers, rs[..n], rs[n]);
      var ys := OkIsSound(numbers, rs[..n]);
      var x := if OfIt(rs[n], Completed) then CounterValue(numbers, rs[n].value).value else 0.0;
      GoodLastMeans(numbers, rs[..n], rs[n]);
      ReadingsSoundMore(numbers, rs[..n], rs[n], ys, x);
      xs := ys + [x];
    }
  }

  lemma SoundText(numbers: Numbers, lines: seq<string>, xs: seq<real>)
    ensures FamilySound(numbers, lines, xs) <==> ReadingsSound(numbers, ReadLines(numbers, lines), xs)
  {
    var rs := ReadLines(numbers, lines);
    forall i | 0 <= i < |lines| && i < |xs| ensures Adds(numbers, lines[i], xs[i]) <==> Gives(numbers, rs[i], xs[i]) {
      AddsReads(numbers, lines[i], xs[i]);
    }
    forall i, j | 0 <= i < j < |lines| ensures SameSeries(numbers, lines[i], lines[j]) <==> Repeats(rs[i], rs[j]) {
      SeriesReads(numbers, lines[i], lines[j]);
    }
  }

  lemma AddsReads(numbers: Numbers, line: string, x: real)
    ensures var r := Classify(numbers, line);
            Adds(numbers, line, x) <==> Gives(numbers, r, x)
  {
    var r := Classify(numbers, line);
    NamedIsRead(numbers, line, Completed);
    if r.Reading? {
      IsLineReads(numbers, line, r.metric, r.labels, r.value);
    }
    forall labels, token | IsLine(numbers, line, Completed, labels, token) ensures r == Reading(Completed, labels, token) {
      IsLineReads(numbers, line, Completed, labels, token);
    }
  }

  lemma SeriesReads(numbers: Numbers, a: string, b: string)
    ensures var (r, t) := (Classify(numbers, a), Classify(numbers, b));
            SameSeries(numbers, a, b) <==> Repeats(r, t)
  {
    var (r, t) := (Classify(numbers, a), Classify(numbers, b));
    if SameSeries(numbers, a, b) {
      var labels, x, y :| IsLine(numbers, a, Completed, labels, x) && IsLine(numbers, b, Completed, labels, y);
      IsLineReads(numbers, a, Completed, labels, x);
      IsLineReads(numbers, b, Completed, labels, y);
    }
    if Repeats(r, t) {
      IsLineReads(numbers, a, Completed, r.labels, r.value);
      IsLineReads(numbers, b, Completed, t.labels, t.value);
      LabelsBrace(numbers, a, r.labels, r.value);
      LabelsBrace(numbers, b, t.labels, t.value);
      assert r.labels == t.labels;
    }
  }

  lemma LabelsBrace(numbers: Numbers, raw: string, labels: Option<string>, value: string)
    requires IsLine(numbers, raw, Completed, labels, value)
    ensures labels.Some? ==> labels.value != ""
  {
  }

  lemma FamilyToldOf(numbers: Numbers, lines: seq<string>, v: real)
    ensures FamilyTold(numbers, lines, v) <==> FamilyValue(numbers, Of(ReadLines(numbers, lines), Completed)) == Some(v)
  {
    SilentOf(numbers, lines, Completed);
    if FamilyTold(numbers, lines, v) {
      var xs :| FamilySound(numbers, lines, xs) && SumOf(xs) == v;
      SoundText(numbers, lines, xs);
      SoundIsOk(numbers, ReadLines(numbers, lines), xs);
    }
    if FamilyValue(numbers, Of(ReadLines(numbers, lines), Completed)) == Some(v) {
      var xs := OkIsSound(numbers, ReadLines(numbers, lines));
      SoundText(numbers, lines, xs);
      SoundIsOk(numbers, ReadLines(numbers, lines), xs);
    }
  }

  /** What an accepted scrape says, in terms of its text. */
  ghost predicate Tells(numbers: Numbers, lines: seq<string>, s: Metrics) {
    && GaugeTold(numbers, lines, Running, s.running) && GaugeTold(numbers, lines, Waiting, s.waiting)
    && (if s.capacity.Some? then GaugeTold(numbers, lines, Capacity, s.capacity.value) else Silent(lines, Capacity))
    && (if s.kvCache.Some? then GaugeTold(numbers, lines, KvUsed, s.kvCache.value.used) && GaugeTold(numbers, lines, KvTotal, s.kvCache.value.total)
        else Silent(lines, KvUsed) && Silent(lines, KvTotal))
    && CounterSays(numbers, lines, Tokens, s.tokens) && CounterSays(numbers, lines, PrefillTokens, s.prefillTokens)
    && CounterSays(numbers, lines, DecodeTokens, s.decodeTokens)
    && (if s.completed.Some? then FamilyTold(numbers, lines, s.completed.value) else forall v :: !FamilyTold(numbers, lines, v))
  }

  ghost predicate CounterSays(numbers: Numbers, lines: seq<string>, m: Metric, v: Option<real>) {
    if v.Some? then CounterTold(numbers, lines, m, v.value) else forall x :: !CounterTold(numbers, lines, m, x)
  }

  ghost predicate Told(numbers: Numbers, lines: seq<string>, m: Metric) { exists n :: GaugeTold(numbers, lines, m, n) }

  lemma ToldOf(numbers: Numbers, lines: seq<string>, m: Metric)
    ensures var of := Of(ReadLines(numbers, lines), m);
            && (Told(numbers, lines, m) <==> |of| == 1 && GaugeOk(numbers, of)) && (Silent(lines, m) <==> of == [])
  {
    var of := Of(ReadLines(numbers, lines), m);
    SilentOf(numbers, lines, m);
    if Told(numbers, lines, m) {
      var n :| GaugeTold(numbers, lines, m, n);
      GaugeOf(numbers, lines, m, n);
    }
    if |of| == 1 && GaugeOk(numbers, of) {
      GaugeOf(numbers, lines, m, GaugeReading(numbers, of[0]).value);
    }
  }

  /** A scrape is accepted exactly if its text tells the running and the waiting sequences, and
    * tells or leaves out the capacity, and tells or leaves out both counts of the cache ... */
  lemma TextAccepted(numbers: Numbers, lines: seq<string>)
    ensures ParseReadings(numbers, ReadLines(numbers, lines)).Ok? <==>
              && Told(numbers, lines, Running) && Told(numbers, lines, Waiting)
              && (Told(numbers, lines, Capacity) || Silent(lines, Capacity))
              && ((Told(numbers, lines, KvUsed) && Told(numbers, lines, KvTotal)) || (Silent(lines, KvUsed) && Silent(lines, KvTotal)))
  {
    ParseMeaning(numbers, ReadLines(numbers, lines));
    ToldOf(numbers, lines, Running);
    ToldOf(numbers, lines, Waiting);
    ToldOf(numbers, lines, Capacity);
    ToldOf(numbers, lines, KvUsed);
    ToldOf(numbers, lines, KvTotal);
  }

  lemma CounterSaysOf(numbers: Numbers, lines: seq<string>, m: Metric)
    ensures CounterSays(numbers, lines, m, SingleValue(numbers, Of(ReadLines(numbers, lines), m)))
  {
    forall v ensures CounterTold(numbers, lines, m, v) <==> SingleValue(numbers, Of(ReadLines(numbers, lines), m)) == Some(v) {
      CounterOf(numbers, lines, m, v);
    }
  }

  lemma GaugeSaysOf(numbers: Numbers, lines: seq<string>, m: Metric, v: Option<nat>)
    requires var of := Of(ReadLines(numbers, lines), m); GaugeOk(numbers, of) && v == GaugeValue(numbers, of)
    ensures if v.Some? then GaugeTold(numbers, lines, m, v.value) else Silent(lines, m)
  {
    SilentOf(numbers, lines, m);
    if v.Some? {
      GaugeOf(numbers, lines, m, v.value);
    }
  }

  /** ... and then it says just what the text tells, each number in its own field. */
  lemma TextSays(numbers: Numbers, lines: seq<string>)
    requires ParseReadings(numbers, ReadLines(numbers, lines)).Ok?
    ensures Tells(numbers, lines, ParseReadings(numbers, ReadLines(numbers, lines)).value)
  {
    var rs := ReadLines(numbers, lines);
    var s := ParseReadings(numbers, rs).value;
    ParseMeaning(numbers, rs);
    GaugeSaysOf(numbers, lines, Running, Some(s.running));
    GaugeSaysOf(numbers, lines, Waiting, Some(s.waiting));
    GaugeSaysOf(numbers, lines, Capacity, s.capacity);
    GaugeSaysOf(numbers, lines, KvUsed, if s.kvCache.Some? then Some(s.kvCache.value.used) else None);
    GaugeSaysOf(numbers, lines, KvTotal, if s.kvCache.Some? then Some(s.kvCache.value.total) else None);
    CounterSaysOf(numbers, lines, Tokens);
    CounterSaysOf(numbers, lines, PrefillTokens);
    CounterSaysOf(numbers, lines, DecodeTokens);
    forall v ensures FamilyTold(numbers, lines, v) <==> s.completed == Some(v) {
      FamilyToldOf(numbers, lines, v);
    }
  }
}
