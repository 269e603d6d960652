/** packages/tui/src/stdin-buffer.ts: which prefixes of terminal input are complete sequences, and the tokenizer. Text is a
    list of UTF-16 code units. */
module StdinTokens {
  import opened Strings
  import opened Cutting

  type Unit = u: int | 0 <= u < 0x1_0000
  type Text = seq<Unit>

  const ESC: Unit := 0x1b
  const BEL: Unit := 0x07
  const BACKSLASH: Unit := 0x5c
  const BRACKET: Unit := 0x5b
  const CLOSE_BRACKET: Unit := 0x5d
  const UPPER_M: Unit := 0x4d
  const LOWER_M: Unit := 0x6d
  const UPPER_O: Unit := 0x4f
  const UPPER_P: Unit := 0x50
  const UNDERSCORE: Unit := 0x5f
  const LESS: Unit := 0x3c
  const SEMICOLON: Unit := 0x3b
  const COLON: Unit := 0x3a
  const LOWER_U: Unit := 0x75
  const ESC_ESC: Text := [ESC, ESC]

  datatype Status = Complete | Incomplete | NotEscape

  predicate Digit(u: Unit) {
    0x30 <= u <= 0x39
  }

  predicate Number(s: Text) {
    |s| > 0 && forall i :: 0 <= i < |s| ==> Digit(s[i])
  }

  predicate Ends(s: Text, tail: Text) {
    |tail| <= |s| && s[|s| - |tail|..] == tail
  }

  // ---------------------------------------------------------------- SGR mouse reports

  /** `<digits;digits;digits` followed by M or m. */
  ghost predicate MouseReport(payload: Text) {
    exists x: Text, y: Text, z: Text, m: Unit ::
      Number(x) && Number(y) && Number(z) && (m == UPPER_M || m == LOWER_M)
      && payload == MouseText(x, y, z, m)
  }

  function MouseText(x: Text, y: Text, z: Text, m: Unit): Text {
    [LESS] + (x + [SEMICOLON] + (y + [SEMICOLON] + z)) + [m]
  }

  /** String.split */
  function Split(s: Text, separator: Unit): (parts: seq<Text>)
    ensures |parts| > 0
  {
    if |s| == 0 then [[]]
    else
      var rest := Split(s[1..], separator);
      if s[0] == separator then [[]] + rest else [[s[0]] + rest[0]] + rest[1..]
  }

  predicate ThreeNumbers(parts: seq<Text>) {
    |parts| == 3 && Number(parts[0]) && Number(parts[1]) && Number(parts[2])
  }

  lemma {:induction false} SplitNumber(x: Text, rest: Text, separator: Unit)
    requires !Digit(separator) && forall i :: 0 <= i < |x| ==> Digit(x[i])
    ensures Split(x, separator) == [x]
    ensures Split(x + [separator] + rest, separator) == [x] + Split(rest, separator)
  {
    if |x| == 0 {
      assert x + [separator] + rest == [separator] + rest;
      assert ([separator] + rest)[1..] == rest;
    } else {
      SplitNumber(x[1..], rest, separator);
      assert (x + [separator] + rest)[1..] == x[1..] + [separator] + rest;
      assert [x[0]] + x[1..] == x;
    }
  }

  function JoinParts(parts: seq<Text>, separator: Unit): Text {
    if |parts| == 0 then []
    else if |parts| == 1 then parts[0]
    else parts[0] + [separator] + JoinParts(parts[1..], separator)
  }

  lemma {:induction false} JoinSplit(s: Text, separator: Unit)
    ensures JoinParts(Split(s, separator), separator) == s
  {
    if |s| > 0 {
      JoinSplit(s[1..], separator);
      var rest := Split(s[1..], separator);
      if s[0] == separator {
        assert ([[]] + rest)[1..] == rest;
        assert s == [separator] + s[1..];
      } else {
        var parts := [[s[0]] + rest[0]] + rest[1..];
        assert parts[1..] == rest[1..];
        assert s == [s[0]] + s[1..];
        if |rest| > 1 {
          assert JoinParts(parts, separator) ==
                 [s[0]] + rest[0] + [separator] + JoinParts(rest[1..], separator);
        }
      }
    }
  }

  predicate MouseParts(payload: Text) {
    && |payload| >= 2 && payload[0] == LESS
    && (payload[|payload| - 1] == UPPER_M || payload[|payload| - 1] == LOWER_M)
    && ThreeNumbers(Split(payload[1..|payload| - 1], SEMICOLON))
  }

  /** The check by splitting accepts exactly what the regular expression accepts. */
  lemma MousePartsExact(payload: Text)
    ensures MouseParts(payload) <==> MouseReport(payload)
  {
    if MouseParts(payload) {
      var inner := payload[1..|payload| - 1];
      var parts := Split(inner, SEMICOLON);
      JoinSplit(inner, SEMICOLON);
      assert parts[1..][1..] == [parts[2]];
      assert JoinParts(parts[1..], SEMICOLON) == parts[1] + [SEMICOLON] + parts[2];
      assert payload == MouseText(parts[0], parts[1], parts[2], payload[|payload| - 1]);
    }
    if MouseReport(payload) {
      var x: Text, y: Text, z: Text, m: Unit :|
        Number(x) && Number(y) && Number(z) && (m == UPPER_M || m == LOWER_M) && payload == MouseText(x, y, z, m);
      var inner := payload[1..|payload| - 1];
      assert inner == x + [SEMICOLON] + (y + [SEMICOLON] + z);
      SplitNumber(x, y + [SEMICOLON] + z, SEMICOLON);
      SplitNumber(y, z, SEMICOLON);
      SplitNumber(z, [], SEMICOLON);
    }
  }

  // ---------------------------------------------------------------- isCompleteSequence

  function CsiStatus(data: Text): Status
    requires |data| >= 2
  {
    if |data| < 3 then Incomplete
    else
      var payload := data[2..];
      var last := payload[|payload| - 1];
      if 0x40 <= last <= 0x7e && (payload[0] == LESS ==> MouseParts(payload)) then Complete else Incomplete
  }

  function StatusOf(data: Text): Status {
    if |data| == 0 || data[0] != ESC then NotEscape
    else if |data| == 1 then Incomplete
    else if data[1] == BRACKET then
      if |data| > 2 && data[2] == UPPER_M then (if |data| >= 6 then Complete else Incomplete) else CsiStatus(data)
    else if data[1] == CLOSE_BRACKET then
      if Ends(data, [ESC, BACKSLASH]) || Ends(data, [BEL]) then Complete else Incomplete
    else if data[1] == UPPER_P || data[1] == UNDERSCORE then
      if Ends(data, [ESC, BACKSLASH]) then Complete else Incomplete
    else if data[1] == UPPER_O then (if |data| >= 3 then Complete else Incomplete)
    else Complete
  }

  /** CSI, OSC, SS3, DCS or APC. */
  predicate Introducer(u: Unit) {
    u == BRACKET || u == CLOSE_BRACKET || u == UPPER_O || u == UPPER_P || u == UNDERSCORE
  }

  // ---------------------------------------------------------------- the tokenizer

  /** The length of the shortest complete prefix that has at least `k` units. */
  function Shortest(s: Text, k: nat): (r: Option<nat>)
    ensures r.Some? ==> k <= r.value <= |s| && StatusOf(s[..r.value]).Complete?
    ensures forall j :: k <= j < (if r.Some? then r.value else |s| + 1) ==> !StatusOf(s[..j]).Complete?
    decreases |s| + 1 - k
  {
    if k > |s| then None
    else if StatusOf(s[..k]).Complete? then Some(k)
    else Shortest(s, k + 1)
  }

  /** ESC ESC before an introducer is an escape key press followed by a new sequence. */
  predicate KeyThenSequence(s: Text, n: nat) {
    n < |s| && s[..n] == ESC_ESC && Introducer(s[n])
  }

  /** The length of the first token; None when the text is an unfinished escape sequence. */
  function TokenLength(s: Text): (r: Option<nat>)
    requires |s| > 0
    ensures r.Some? ==> 0 < r.value <= |s|
  {
    if s[0] != ESC then Some(1)
    else
      var n :- Shortest(s, 1);
      Some(if KeyThenSequence(s, n) then 1 else n)
  }

  type Tokens = Pieces<Unit>

  function TokenRule(s: Text): Option<nat> {
    if |s| == 0 then None else TokenLength(s)
  }

  function Tokenize(s: Text): Tokens {
    Cut(TokenRule, s)
  }

  lemma EscapeStatus(s: Text)
    requires |s| > 0 && s[0] == ESC
    ensures !StatusOf(s).NotEscape?
  {
  }

  /** The sequences cut off the text before `pos`. */
  ghost predicate Reached(buffer: Text, pos: nat, sequences: seq<Text>)
    requires pos <= |buffer|
  {
    var rest := Tokenize(buffer[pos..]);
    Tokenize(buffer) == Pieces(sequences + rest.sequences, rest.remainder)
  }

  lemma ReachedNext(buffer: Text, pos: nat, sequences: seq<Text>, length: nat)
    requires pos < |buffer| && Reached(buffer, pos, sequences) && TokenLength(buffer[pos..]) == Some(length)
    ensures pos + length <= |buffer|
    ensures Reached(buffer, pos + length, sequences + [buffer[pos..][..length]])
  {
    var remaining := buffer[pos..];
    assert remaining[length..] == buffer[pos + length..];
    var rest := Tokenize(buffer[pos + length..]);
    assert sequences + ([remaining[..length]] + rest.sequences) == sequences + [remaining[..length]] + rest.sequences;
  }

  lemma ReachedEnd(buffer: Text, pos: nat, sequences: seq<Text>)
    requires pos <= |buffer| && Reached(buffer, pos, sequences)
    ensures pos == |buffer| ==> Tokenize(buffer) == Pieces(sequences, [])
    ensures pos < |buffer| && TokenLength(buffer[pos..]).None? ==> Tokenize(buffer) == Pieces(sequences, buffer[pos..])
  {
    assert sequences + [] == sequences;
  }

  method ExtractCompleteSequences(buffer: Text) returns (tokens: Tokens)
    ensures tokens == Tokenize(buffer)
  {
    var sequences: seq<Text>, pos := [], 0;
    assert Reached(buffer, 0, sequences) by {
      assert buffer[0..] == buffer;
      assert [] + Tokenize(buffer).sequences == Tokenize(buffer).sequences;
    }
    while pos < |buffer|
      invariant 0 <= pos <= |buffer| && Reached(buffer, pos, sequences)
      decreases |buffer| - pos
    {
      var remaining := buffer[pos..];
      var length: nat := 1;
      if remaining[0] == ESC {
        length := ScanEscape(remaining);
        if length > |remaining| {
          ReachedEnd(buffer, pos, sequences);
          return Pieces(sequences, remaining);
        }
      }
      ReachedNext(buffer, pos, sequences, length);
      sequences := sequences + [remaining[..length]];
      pos := pos + length;
    }
    ReachedEnd(buffer, pos, sequences);
    tokens := Pieces(sequences, []);
  }

  /** The inner loop: the end of the sequence, or one more than the length when it is unfinished. */
  method ScanEscape(remaining: Text) returns (length: nat)
    requires |remaining| > 0 && remaining[0] == ESC
    ensures length > 0
    ensures TokenLength(remaining) == if length > |remaining| then None else Some(length)
  {
    var seqEnd := 1;
    while seqEnd <= |remaining|
      invariant 1 <= seqEnd <= |remaining| + 1
      invariant Shortest(remaining, 1) == Shortest(remaining, seqEnd)
    {
      var candidate := remaining[..seqEnd];
      EscapeStatus(candidate);
      if StatusOf(candidate).Complete? {
        if candidate == ESC_ESC && seqEnd < |remaining| && Introducer(remaining[seqEnd]) {
          return 1;
        }
        return seqEnd;
      }
      seqEnd := seqEnd + 1;
    }
    length := seqEnd;
  }

  // ---------------------------------------------------------------- what tokens are

  /** One unit of plain text, a complete sequence without a complete proper prefix, or a lone ESC. */
  predicate ProperToken(t: Text) {
    || (|t| == 1 && (t[0] != ESC || t == [ESC]))
    || (|t| > 1 && StatusOf(t).Complete? && forall k :: 0 < k < |t| ==> StatusOf(t[..k]).Incomplete?)
  }

  /** Unfinished input: an escape sequence none of whose prefixes is complete. */
  predicate Unfinished(s: Text) {
    |s| > 0 ==> s[0] == ESC && forall k :: 0 < k <= |s| ==> StatusOf(s[..k]).Incomplete?
  }

  /** A lone ESC comes only from ESC ESC before an introducer. */
  predicate LoneEscapeBefore(rest: Text) {
    |rest| >= 2 && rest[0] == ESC && Introducer(rest[1])
  }

  lemma {:induction false} TokensProper(s: Text)
    ensures Unfinished(Tokenize(s).remainder)
    ensures forall i :: 0 <= i < |Tokenize(s).sequences| ==> ProperToken(Tokenize(s).sequences[i])
    decreases |s|
  {
    if |s| > 0 {
      FirstToken(s);
      if TokenLength(s).Some? { TokensProper(s[TokenLength(s).value..]); }
    }
  }

  lemma FirstToken(s: Text)
    requires |s| > 0
    ensures TokenLength(s).None? ==> Unfinished(s)
    ensures TokenLength(s).Some? ==>
              var t := s[..TokenLength(s).value];
              ProperToken(t) && (t == [ESC] ==> LoneEscapeBefore(s[1..]))
  {
    if s[0] == ESC {
      var end := Shortest(s, 1);
      var limit := if end.Some? then end.value else |s| + 1;
      forall k | 0 < k < limit ensures StatusOf(s[..k]).Incomplete? {
        EscapeStatus(s[..k]);
      }
      if end.Some? {
        var t := s[..end.value];
        assert StatusOf(s[..1]).Incomplete?;
        forall k | 0 < k < |t| ensures StatusOf(t[..k]).Incomplete? { assert t[..k] == s[..k]; }
        if KeyThenSequence(s, end.value) {
          assert s[1] == ESC by { assert s[..end.value][1] == ESC; }
        }
      }
    } else {
      assert s[..1] == [s[0]];
    }
  }

  // ---------------------------------------------------------------- incremental equals batch

  /** The first part ends by emitting ESC ESC and the second part starts with an introducer. */
  predicate SplitsEscape(first: Tokens, b: Text) {
    && first.remainder == [] && |first.sequences| > 0 && first.sequences[|first.sequences| - 1] == ESC_ESC
    && |b| > 0 && Introducer(b[0])
  }

  lemma {:induction false} ShortestExtends(s: Text, b: Text, k: nat)
    requires Shortest(s, k).Some?
    ensures Shortest(s + b, k) == Shortest(s, k)
    decreases |s| + 1 - k
  {
    assert (s + b)[..k] == s[..k];
    if !StatusOf(s[..k]).Complete? { ShortestExtends(s, b, k + 1); }
  }

  lemma TokenExtends(s: Text, b: Text)
    requires |s| > 0 && TokenLength(s).Some?
    ensures TokenLength(s + b) == TokenLength(s) || (s == ESC_ESC && |b| > 0 && Introducer(b[0]))
  {
    if s[0] == ESC {
      ShortestExtends(s, b, 1);
      var n := Shortest(s, 1).value;
      assert (s + b)[..n] == s[..n];
    }
  }

  lemma TokenRuleExtends(b: Text)
    ensures SensibleRule(TokenRule) && Extends(TokenRule, ESC_ESC, b)
    ensures TokenRule(ESC_ESC + b) == TokenRule(ESC_ESC) <==> !(|b| > 0 && Introducer(b[0]))
  {
    EscEsc();
    forall s: Text ensures KeepsPiece(TokenRule, ESC_ESC, s, b) {
      if |s| > 0 && TokenRule(s).Some? && s != ESC_ESC { TokenExtends(s, b); }
    }
    forall s: Text | |s| > 0 ensures Sensible(TokenRule, s) {
    }
    if |b| > 0 && Introducer(b[0]) {
      EscEscThen(b);
    } else {
      TokenExtends(ESC_ESC, b);
    }
  }

  /** Tokenizing in two parts is tokenizing at once. */
  lemma TokenizeTwice(a: Text, b: Text)
    requires !SplitsEscape(Tokenize(a), b)
    ensures var first := Tokenize(a); var second := Tokenize(first.remainder + b);
            Tokenize(a + b) == Pieces(first.sequences + second.sequences, second.remainder)
  {
    TokenRuleExtends(b);
    CutTwice(TokenRule, ESC_ESC, a, b);
  }

  lemma EscEsc()
    ensures TokenLength(ESC_ESC) == Some(2)
  {
    assert ESC_ESC[..1] == [ESC] && ESC_ESC[..2] == ESC_ESC && ESC_ESC[2..] == [];
    assert Shortest(ESC_ESC, 1) == Some(2);
  }

  lemma EscEscThen(b: Text)
    requires |b| > 0 && Introducer(b[0])
    ensures TokenLength(ESC_ESC + b) == Some(1)
    ensures |Tokenize(ESC_ESC + b).sequences| > 0 && Tokenize(ESC_ESC + b).sequences[0] == [ESC]
  {
    EscEsc();
    ShortestExtends(ESC_ESC, b, 1);
    var s := ESC_ESC + b;
    assert s[..2] == ESC_ESC && s[2] == b[0];
    assert s[..1] == [ESC];
    assert TokenRule(s) == Some(1);
  }

  /** In the excepted case the two ways agree up to the pair, and differ right there. */
  lemma SplitDiffers(a: Text, b: Text)
    requires SplitsEscape(Tokenize(a), b)
    ensures var first := Tokenize(a).sequences; var all := Tokenize(a + b).sequences; var n := |first| - 1;
            |all| > n && all[..n] == first[..n] && all[n] == [ESC]
  {
    TokenRuleExtends(b);
    EscEscThen(b);
    CutDiffers(TokenRule, ESC_ESC, a, b, [ESC]);
  }

  /** Nothing is lost or reordered. */
  lemma TokensConserve(s: Text)
    ensures Joined(Tokenize(s).sequences) + Tokenize(s).remainder == s
  {
    CutConserves(TokenRule, s);
  }
}
