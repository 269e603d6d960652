/** What the stdin buffer promises about whole inputs: chunk boundaries do not matter, with one exact exception, and a
    bracketed paste survives any chunking. */
module StdinLaws {
  import opened Strings
  import opened Cutting
  import opened StdinTokens
  import opened StdinBuffers

  // ---------------------------------------------------------------- incremental equals batch

  predicate Free(text: Text) {
    IndexOf(text, PASTE_START).None?
  }

  /** Part of a text without the needle has none either. */
  lemma SliceHasNone(text: Text, needle: Text, from: nat, to: nat)
    requires from <= to <= |text| && IndexOf(text, needle).None?
    ensures IndexOf(text[from..to], needle).None?
  {
    var part := text[from..to];
    IndexOfFirst(text, needle, None);
    forall k: nat | k < |part| + 1 ensures !At(part, needle, k) {
      if k + |needle| <= |part| {
        var at := from + k;
        var piece := part[k..k + |needle|];
        assert forall j :: 0 <= j < |piece| ==> piece[j] == text[at + j];
        assert piece == text[at..at + |needle|];
        assert !At(text, needle, at);
      }
    }
    IndexOfFirst(part, needle, None);
  }

  lemma FreeParts(p: Text, q: Text)
    requires Free(p + q)
    ensures Free(p) && Free(q)
  {
    assert p == (p + q)[0..|p|] && q == (p + q)[|p|..|p + q|];
    SliceHasNone(p + q, PASTE_START, 0, |p|);
    SliceHasNone(p + q, PASTE_START, |p|, |p + q|);
  }

  lemma PlainFeed(s: Terminal, str: Text)
    requires !s.pasteMode && s.buffer + str != [] && Free(s.buffer + str)
    ensures Feed(s, str) == FeedPlain(s, s.buffer + str)
  {
  }

  /** Emitting differs as soon as one sequence does, when neither can be a dropped repetition. */
  lemma EmitDiffers(pending: Option<nat>, t: seq<Text>, x: Text, y: Text, rest: seq<Text>)
    requires x != y && |x| != 1 && Sound(pending) && (|y| == 1 ==> y[0] < 32)
    ensures var one := EmitAll(pending, t + [x]).outputs; var other := EmitAll(pending, t + [y] + rest).outputs;
            var n := |EmitAll(pending, t).outputs|;
            n < |one| && n < |other| && one[n] != other[n]
  {
    EmitSound(pending, t);
    EmitAppend(pending, t, [x]);
    EmitAppend(pending, t, [y]);
    EmitAppend(pending, t + [y], rest);
    assert [x][..0] == [] && [y][..0] == [];
  }

  predicate SameResult(one: Step, two: Step, once: Step) {
    two.state == once.state && one.outputs + two.outputs == once.outputs
  }

  lemma RemainderFree(x: Text, b: Text)
    requires Free(x + b)
    ensures Free(x) && Free(Tokenize(x).remainder + b)
  {
    var first := Tokenize(x);
    TokensConserve(x);
    FreeParts(x, b);
    assert x + b == Joined(first.sequences) + (first.remainder + b);
    FreeParts(Joined(first.sequences), first.remainder + b);
  }

  /** What feeding the parts comes to when no paste starts. */
  lemma PlainParts(s: Terminal, a: Text, b: Text)
    requires !s.pasteMode && |a| > 0 && |b| > 0 && Free(s.buffer + a + b)
    ensures Feed(s, a) == FeedPlain(s, s.buffer + a)
    ensures Feed(FeedPlain(s, s.buffer + a).state, b) ==
            FeedPlain(FeedPlain(s, s.buffer + a).state, Tokenize(s.buffer + a).remainder + b)
  {
    RemainderFree(s.buffer + a, b);
    PlainFeed(s, a);
    PlainFeed(FeedPlain(s, s.buffer + a).state, b);
  }

  lemma PlainWhole(s: Terminal, a: Text, b: Text)
    requires !s.pasteMode && |a| > 0 && Free(s.buffer + a + b)
    ensures Feed(s, a + b) == FeedPlain(s, s.buffer + a + b)
  {
    assert s.buffer + (a + b) == s.buffer + a + b;
    PlainFeed(s, a + b);
  }

  /** Feeding `a` and then `b` is feeding `a + b`, except exactly when `a` ends by emitting ESC ESC and `b` starts with an
      introducer. */
  lemma IncrementalIsBatch(s: Terminal, a: Text, b: Text)
    requires !s.pasteMode && Sound(s.pending) && |a| > 0 && |b| > 0 && Free(s.buffer + a + b)
    ensures SameResult(Feed(s, a), Feed(Feed(s, a).state, b), Feed(s, a + b)) <==>
            !SplitsEscape(Tokenize(s.buffer + a), b)
  {
    var x := s.buffer + a;
    PlainParts(s, a, b);
    PlainWhole(s, a, b);
    if SplitsEscape(Tokenize(x), b) {
      Differs(s.pending, x, b);
    } else {
      TokenizeTwice(x, b);
      EmitAppend(s.pending, Tokenize(x).sequences, Tokenize(Tokenize(x).remainder + b).sequences);
    }
  }

  lemma Differs(pending: Option<nat>, x: Text, b: Text)
    requires Sound(pending) && SplitsEscape(Tokenize(x), b)
    ensures var one := EmitAll(pending, Tokenize(x).sequences).outputs;
            var other := EmitAll(pending, Tokenize(x + b).sequences).outputs;
            exists n :: 0 <= n < |one| && n < |other| && one[n] != other[n]
  {
    SplitDiffers(x, b);
    var first, all := Tokenize(x).sequences, Tokenize(x + b).sequences;
    var n := |first| - 1;
    assert first == first[..n] + [ESC_ESC];
    assert all == first[..n] + [[ESC]] + all[n + 1..];
    EmitDiffers(pending, first[..n], ESC_ESC, [ESC], all[n + 1..]);
  }

  // ---------------------------------------------------------------- reachable states

  /** What holds between two calls. */
  predicate Valid(s: Terminal) {
    && Sound(s.pending)
    && if s.pasteMode then s.buffer == [] && !s.armed && IndexOf(s.pasteBuffer, PASTE_END).None?
       else s.pasteBuffer == [] && Unfinished(s.buffer) && (s.armed <==> s.buffer != [])
  }

  lemma {:induction false} FeedKeepsValid(s: Terminal, str: Text)
    requires Valid(s)
    ensures Valid(Feed(s, str).state)
    decreases |s.buffer| + |s.pasteBuffer| + |str|, 2
  {
    var buffer := s.buffer + str;
    if |buffer| == 0 {
      assert Sound(EmitOne(s.pending, []).pending);

    } else if s.pasteMode {
      PasteKeepsValid(s.pasteBuffer + buffer, s.pending);
    } else if IndexOf(buffer, PASTE_START).Some? {
      PasteKeepsValid(buffer[IndexOf(buffer, PASTE_START).value + |PASTE_START|..], None);
    } else {
      EmitSound(s.pending, Tokenize(buffer).sequences);
      TokensProper(buffer);
    }
  }

  lemma {:induction false} PasteKeepsValid(pasted: Text, pending: Option<nat>)
    requires Sound(pending)
    ensures Valid(FeedPaste(pasted, pending).state)
    decreases |pasted|, 0
  {
    var end := IndexOf(pasted, PASTE_END);
    if end.Some? && end.value + |PASTE_END| < |pasted| {
      FeedKeepsValid(IDLE, pasted[end.value + |PASTE_END|..]);
    }
  }

  // ---------------------------------------------------------------- bracketed paste

  function FeedAll(s: Terminal, chunks: seq<Text>): Step {
    if |chunks| == 0 then Step(s, [])
    else
      var before := FeedAll(s, chunks[..|chunks| - 1]);
      var last := Feed(before.state, chunks[|chunks| - 1]);
      Step(last.state, before.outputs + last.outputs)
  }

  function Pasted(content: Text): Text {
    PASTE_START + content + PASTE_END
  }

  /** After the first `m` units of a paste. */
  function Midway(pending: Option<nat>, content: Text, m: nat): Step
    requires m <= |Pasted(content)|
  {
    if m < |PASTE_START| then Step(Terminal(Pasted(content)[..m], false, [], pending, m > 0), [])
    else if m < |Pasted(content)| then
      Step(Terminal([], true, Pasted(content)[|PASTE_START|..m], None, false), [])
    else Step(IDLE, [Paste(content)])
  }

  lemma StartPrefix(j: nat)
    requires 0 < j < |PASTE_START|
    ensures Tokenize(PASTE_START[..j]) == Pieces([], PASTE_START[..j])
    ensures Free(PASTE_START[..j])
  {
    var p := PASTE_START[..j];
    forall k: nat | 1 <= k <= j ensures !StatusOf(p[..k]).Complete? {
      assert p[..k] == PASTE_START[..k];
      StartPrefixIncomplete(k);
    }
    IndexOfFirst(p, PASTE_START, None);
  }

  lemma StartPrefixIncomplete(k: nat)
    requires 0 < k < |PASTE_START|
    ensures StatusOf(PASTE_START[..k]) == Incomplete
  {
    var p := PASTE_START[..k];
    if k > 2 {
      assert p[2..][|p[2..]| - 1] == PASTE_START[k - 1];
    }
  }

  /** The end marker has no border: it cannot begin inside itself. */
  lemma EndOnlyAtEnd(content: Text, k: nat)
    requires IndexOf(content, PASTE_END).None? && k <= |PASTE_END|
    ensures IndexOf(content + PASTE_END[..k], PASTE_END) == if k < |PASTE_END| then None else Some(|content|)
  {
    var body := content + PASTE_END[..k];
    IndexOfFirst(content, PASTE_END, None);
    forall i: nat | i < |body| + 1 && i != |content| ensures !At(body, PASTE_END, i) {
      if i + |PASTE_END| <= |content| {
        assert body[i..i + |PASTE_END|] == content[i..i + |PASTE_END|];
        assert !At(content, PASTE_END, i);
      } else if i + |PASTE_END| <= |body| {
        assert body[i..i + |PASTE_END|][|content| - i] == body[|content|] == PASTE_END[0] != PASTE_END[|content| - i];
      }
    }
    if k == |PASTE_END| {
      assert body[|content|..|content| + |PASTE_END|] == PASTE_END;
      IndexOfFirst(body, PASTE_END, Some(|content|));
    } else {
      IndexOfFirst(body, PASTE_END, None);
    }
  }

  /** In paste mode: the end marker is recognized with its last unit and not before. */
  lemma PasteBody(content: Text, m: nat)
    requires IndexOf(content, PASTE_END).None?
    requires |PASTE_START| <= m <= |Pasted(content)|
    ensures FeedPaste(Pasted(content)[|PASTE_START|..m], None) == Midway(None, content, m)
  {
    hide IndexOf, Feed;
    var body := Pasted(content)[|PASTE_START|..m];
    var n := m - |PASTE_START|;
    if n <= |content| {
      PastedContent(content, n);
      SliceHasNone(content, PASTE_END, 0, n);
    } else {
      var k := n - |content|;
      PastedEnd(content, k);
      EndOnlyAtEnd(content, k);
      if k == |PASTE_END| { assert body[|content| + |PASTE_END|..] == [] && body[..|content|] == content; }
    }
  }

  lemma PastedContent(content: Text, n: nat)
    requires n <= |content|
    ensures Pasted(content)[|PASTE_START|..|PASTE_START| + n] == content[0..n]
  {
  }

  lemma PastedEnd(content: Text, k: nat)
    requires k <= |PASTE_END|
    ensures Pasted(content)[|PASTE_START|..|PASTE_START| + |content| + k] == content + PASTE_END[..k]
  {
  }

  predicate Steps(pending: Option<nat>, content: Text, m: nat, c: Text)
    requires m + |c| <= |Pasted(content)|
  {
    var last := Feed(Midway(pending, content, m).state, c);
    Step(last.state, Midway(pending, content, m).outputs + last.outputs) == Midway(pending, content, m + |c|)
  }

  /** Part of the start marker waits in the buffer. */
  lemma StartGrows(pending: Option<nat>, content: Text, m: nat, c: Text)
    requires |c| > 0 && m + |c| < |PASTE_START| && c == PASTE_START[m..m + |c|]
    ensures Steps(pending, content, m, c)
  {
    var to := m + |c|;
    assert Pasted(content)[..m] == PASTE_START[..m] && Pasted(content)[..to] == PASTE_START[..to];
    assert PASTE_START[..m] + c == PASTE_START[..to];
    StartPrefix(to);
    PlainFeed(Midway(pending, content, m).state, c);
  }

  /** The start marker is complete: what follows it is pasted. */
  lemma StartCompletes(pending: Option<nat>, content: Text, m: nat, c: Text)
    requires IndexOf(content, PASTE_END).None? && m + |c| <= |Pasted(content)|
    requires m < |PASTE_START| <= m + |c| && c == Pasted(content)[m..m + |c|]
    ensures Steps(pending, content, m, c)
  {
    var w, to := Pasted(content), m + |c|;
    var buffer := w[..to];
    assert w[..m] + c == buffer && buffer[0..|PASTE_START|] == PASTE_START;
    assert At(buffer, PASTE_START, 0);
    IndexOfFirst(buffer, PASTE_START, Some(0));
    assert buffer[..0] == [] && Tokenize([]) == Pieces([], []);
    assert buffer[|PASTE_START|..] == w[|PASTE_START|..to];
    PasteBody(content, to);
    var s := Midway(pending, content, m).state;
    assert Feed(s, c) == FeedBuffer(s.(buffer := buffer, armed := false));
    assert [] + ([] + Midway(None, content, to).outputs) == Midway(None, content, to).outputs;
  }

  lemma PasteGrows(pending: Option<nat>, content: Text, m: nat, c: Text)
    requires IndexOf(content, PASTE_END).None? && m + |c| <= |Pasted(content)|
    requires |PASTE_START| <= m && |c| > 0 && c == Pasted(content)[m..m + |c|]
    ensures Steps(pending, content, m, c)
  {
    var w, to := Pasted(content), m + |c|;
    assert w[|PASTE_START|..m] + c == w[|PASTE_START|..to];
    assert [] + c == c;
    PasteBody(content, to);
    var s := Midway(pending, content, m).state;
    assert Feed(s, c) == FeedBuffer(s.(buffer := c, armed := false));
  }

  lemma MidwayStep(pending: Option<nat>, content: Text, m: nat, c: Text)
    requires IndexOf(content, PASTE_END).None? && |c| > 0 && m + |c| <= |Pasted(content)|
    requires c == Pasted(content)[m..m + |c|]
    ensures Steps(pending, content, m, c)
  {
    if m + |c| < |PASTE_START| {
      assert c == PASTE_START[m..m + |c|];
      StartGrows(pending, content, m, c);
    } else if m < |PASTE_START| {
      StartCompletes(pending, content, m, c);
    } else {
      PasteGrows(pending, content, m, c);
    }
  }

  lemma {:induction false} JoinedSnoc(chunks: seq<Text>)
    requires |chunks| > 0
    ensures Joined(chunks) == Joined(chunks[..|chunks| - 1]) + chunks[|chunks| - 1]
  {
    if |chunks| > 1 {
      JoinedSnoc(chunks[1..]);
      assert chunks[1..][..|chunks| - 2] == chunks[..|chunks| - 1][1..];
    }
  }

  lemma {:induction false} ChunksReach(pending: Option<nat>, content: Text, chunks: seq<Text>)
    requires IndexOf(content, PASTE_END).None? && forall c :: c in chunks ==> |c| > 0
    requires |Joined(chunks)| <= |Pasted(content)| && Joined(chunks) == Pasted(content)[..|Joined(chunks)|]
    ensures FeedAll(IDLE.(pending := pending), chunks) == Midway(pending, content, |Joined(chunks)|)
  {
    if |chunks| == 0 {
      assert Pasted(content)[..0] == [];
    } else {
      var n := |chunks| - 1;
      JoinedSnoc(chunks);
      var before := Joined(chunks[..n]);
      assert before == Joined(chunks)[..|before|] == Pasted(content)[..|before|];
      ChunksReach(pending, content, chunks[..n]);
      assert chunks[n] == Joined(chunks)[|before|..] == Pasted(content)[|before|..|before| + |chunks[n]|];
      MidwayStep(pending, content, |before|, chunks[n]);
    }
  }

  /** Any split of a bracketed paste into non-empty chunks gives exactly one paste event with the content, no data event,
      and the idle state. */
  lemma PasteSurvivesChunking(pending: Option<nat>, content: Text, chunks: seq<Text>)
    requires IndexOf(content, PASTE_END).None? && (forall c :: c in chunks ==> |c| > 0)
    requires Joined(chunks) == Pasted(content)
    ensures FeedAll(IDLE.(pending := pending), chunks) == Step(IDLE, [Paste(content)])
  {
    assert Pasted(content)[..|Pasted(content)|] == Pasted(content);
    ChunksReach(pending, content, chunks);
  }
}
