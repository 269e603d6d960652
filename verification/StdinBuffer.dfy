/** packages/tui/src/stdin-buffer.ts: the class that buffers terminal input and emits sequences and pastes. */
module StdinBuffers {
  import opened Strings
  import opened StdinTokens

  const PASTE_START: Text := [ESC, BRACKET, 0x32, 0x30, 0x30, 0x7e]
  const PASTE_END: Text := [ESC, BRACKET, 0x32, 0x30, 0x31, 0x7e]

  datatype Output = Data(text: Text) | Paste(text: Text)

  datatype Terminal = Terminal(
    buffer: Text,
    pasteMode: bool,
    pasteBuffer: Text,
    pending: Option<nat>,
    armed: bool)

  datatype Step = Step(state: Terminal, outputs: seq<Output>)

  const IDLE := Terminal([], false, [], None, false)

  // ---------------------------------------------------------------- emitting

  predicate AllDigitUnits(s: Text) {
    forall i :: 0 <= i < |s| ==> Digit(s[i])
  }

  function Value(digits: Text): nat
    requires AllDigitUnits(digits)
  {
    if |digits| == 0 then 0
    else
      assert Digit(digits[|digits| - 1]);
      var last: int := digits[|digits| - 1];
      10 * Value(digits[..|digits| - 1]) + (last - 0x30)
  }

  /** `ESC [ digits (: digits?)? (: digits)? u`, from the space character on. */
  function KittyCodepoint(t: Text): Option<nat> {
    if |t| < 4 || t[0] != ESC || t[1] != BRACKET || t[|t| - 1] != LOWER_U then None
    else
      var parts := Split(t[2..|t| - 1], COLON);
      if |parts| > 3 || !Number(parts[0]) || (|parts| > 1 && !AllDigitUnits(parts[1]))
         || (|parts| > 2 && !Number(parts[2])) then None
      else if Value(parts[0]) >= 32 then Some(Value(parts[0]))
      else None
  }

  datatype Emission = Emission(pending: Option<nat>, outputs: seq<Output>)

  /** A raw character that repeats the code point just reported is dropped. */
  function EmitOne(pending: Option<nat>, t: Text): Emission {
    if |t| == 1 && pending == Some(t[0]) then Emission(None, []) else Emission(KittyCodepoint(t), [Data(t)])
  }

  function EmitAll(pending: Option<nat>, ts: seq<Text>): Emission {
    if |ts| == 0 then Emission(pending, [])
    else
      var before := EmitAll(pending, ts[..|ts| - 1]);
      var last := EmitOne(before.pending, ts[|ts| - 1]);
      Emission(last.pending, before.outputs + last.outputs)
  }

  lemma {:induction false} EmitAppend(pending: Option<nat>, a: seq<Text>, b: seq<Text>)
    ensures var first := EmitAll(pending, a); var second := EmitAll(first.pending, b);
            EmitAll(pending, a + b) == Emission(second.pending, first.outputs + second.outputs)
  {
    if |b| == 0 {
      assert a + b == a;
      assert EmitAll(pending, a).outputs + [] == EmitAll(pending, a).outputs;
    } else {
      var n := |b| - 1;
      assert (a + b)[..|a + b| - 1] == a + b[..n];
      EmitAppend(pending, a, b[..n]);
      var first := EmitAll(pending, a);
      var middle := EmitAll(first.pending, b[..n]);
      var last := EmitOne(middle.pending, b[n]);
      assert first.outputs + middle.outputs + last.outputs == first.outputs + (middle.outputs + last.outputs);
    }
  }

  /** Only a printable code point is ever remembered. */
  predicate Sound(pending: Option<nat>) {
    pending.Some? ==> pending.value >= 32
  }

  lemma {:induction false} EmitSound(pending: Option<nat>, ts: seq<Text>)
    requires Sound(pending)
    ensures Sound(EmitAll(pending, ts).pending)
  {
    if |ts| > 0 { EmitSound(pending, ts[..|ts| - 1]); }
  }

  // ---------------------------------------------------------------- process

  predicate At(hay: Text, needle: Text, i: nat) {
    i + |needle| <= |hay| && hay[i..i + |needle|] == needle
  }

  function IndexFrom(hay: Text, needle: Text, i: nat): (r: Option<nat>)
    requires i <= |hay|
    ensures r.Some? ==> r.value + |needle| <= |hay|
    decreases |hay| - i
  {
    if At(hay, needle, i) then Some(i)
    else if i == |hay| then None
    else IndexFrom(hay, needle, i + 1)
  }

  /** String.indexOf */
  function IndexOf(hay: Text, needle: Text): (r: Option<nat>)
    ensures r.Some? ==> r.value + |needle| <= |hay|
  {
    IndexFrom(hay, needle, 0)
  }

  lemma {:induction false} IndexFromFirst(hay: Text, needle: Text, i: nat)
    requires i <= |hay|
    ensures var r := IndexFrom(hay, needle, i);
            && (r.Some? ==> i <= r.value && At(hay, needle, r.value))
            && forall k: nat :: i <= k < (if r.Some? then r.value else |hay| + 1) ==> !At(hay, needle, k)
    decreases |hay| - i
  {
    if !At(hay, needle, i) && i < |hay| { IndexFromFirst(hay, needle, i + 1); }
  }

  /** The result is the first occurrence, or there is none. */
  lemma IndexOfFirst(hay: Text, needle: Text, r: Option<nat>)
    ensures IndexOf(hay, needle) == r <==>
            && (r.Some? ==> At(hay, needle, r.value))
            && forall k: nat :: k < (if r.Some? then r.value else |hay| + 1) ==> !At(hay, needle, k)
  {
    IndexFromFirst(hay, needle, 0);
  }

  function Feed(s: Terminal, str: Text): Step
    decreases |s.buffer| + |s.pasteBuffer| + |str|, 2
  {
    if |s.buffer + str| == 0 then
      var e := EmitOne(s.pending, []);
      Step(s.(pending := e.pending, armed := false), e.outputs)
    else FeedBuffer(s.(buffer := s.buffer + str, armed := false))
  }

  /** All the input is in the buffer. */
  function FeedBuffer(s: Terminal): Step
    decreases |s.buffer| + |s.pasteBuffer|, 1
  {
    if s.pasteMode then FeedPaste(s.pasteBuffer + s.buffer, s.pending)
    else
      match IndexOf(s.buffer, PASTE_START)
      case Some(start) =>
        var before := FeedPlain(s, s.buffer[..start]);
        var pasted := FeedPaste(s.buffer[start + |PASTE_START|..], None);
        Step(pasted.state, before.outputs + pasted.outputs)
      case None => FeedPlain(s, s.buffer)
  }

  /** Text without a paste start. */
  function FeedPlain(s: Terminal, buffer: Text): Step {
    var tokens := Tokenize(buffer);
    var e := EmitAll(s.pending, tokens.sequences);
    Step(Terminal(tokens.remainder, false, s.pasteBuffer, e.pending, tokens.remainder != []), e.outputs)
  }

  /** In paste mode with this much pasted so far. */
  function FeedPaste(pasted: Text, pending: Option<nat>): Step
    decreases |pasted|, 0
  {
    match IndexOf(pasted, PASTE_END)
    case None => Step(Terminal([], true, pasted, pending, false), [])
    case Some(end) =>
      var remaining := pasted[end + |PASTE_END|..];
      if |remaining| == 0 then Step(IDLE, [Paste(pasted[..end])])
      else
        var rest := Feed(IDLE, remaining);
        Step(rest.state, [Paste(pasted[..end])] + rest.outputs)
  }

  class StdinBuffer {
    var buffer: Text
    var pasteMode: bool
    var pasteBuffer: Text
    var pendingKittyPrintableCodepoint: Option<nat>
    /** Whether the flush timer is running. */
    var armed: bool
    /** Everything emitted so far. */
    var outputs: seq<Output>

    ghost function State(): Terminal
      reads this
    {
      Terminal(buffer, pasteMode, pasteBuffer, pendingKittyPrintableCodepoint, armed)
    }

    constructor ()
      ensures State() == IDLE && outputs == []
    {
      buffer, pasteMode, pasteBuffer := [], false, [];
      pendingKittyPrintableCodepoint, armed, outputs := None, false, [];
    }

    method EmitDataSequence(sequence: Text)
      modifies this`pendingKittyPrintableCodepoint, this`outputs
      ensures var e := EmitOne(old(pendingKittyPrintableCodepoint), sequence);
              pendingKittyPrintableCodepoint == e.pending && outputs == old(outputs) + e.outputs
    {
      if |sequence| == 1 && pendingKittyPrintableCodepoint == Some(sequence[0]) {
        pendingKittyPrintableCodepoint := None;
        return;
      }
      pendingKittyPrintableCodepoint := KittyCodepoint(sequence);
      outputs := outputs + [Data(sequence)];
    }

    method EmitSequences(sequences: seq<Text>)
      modifies this`pendingKittyPrintableCodepoint, this`outputs
      ensures var e := EmitAll(old(pendingKittyPrintableCodepoint), sequences);
              pendingKittyPrintableCodepoint == e.pending && outputs == old(outputs) + e.outputs
    {
      for i := 0 to |sequences|
        invariant var e := EmitAll(old(pendingKittyPrintableCodepoint), sequences[..i]);
                  pendingKittyPrintableCodepoint == e.pending && outputs == old(outputs) + e.outputs
      {
        EmitDataSequence(sequences[i]);
        assert sequences[..i + 1][..i] == sequences[..i];
      }
      assert sequences[..|sequences|] == sequences;
    }

    method Process(str: Text)
      modifies this
      ensures var step := Feed(old(State()), str);
              State() == step.state && outputs == old(outputs) + step.outputs
      decreases |buffer| + |pasteBuffer| + |str|, 3
    {
      armed := false;
      if |str| == 0 && |buffer| == 0 {
        EmitDataSequence([]);
        return;
      }
      buffer := buffer + str;
      ProcessBuffer();
    }

    method ProcessBuffer()
      requires |buffer| > 0 && !armed
      modifies this
      ensures var step := FeedBuffer(old(State())); State() == step.state && outputs == old(outputs) + step.outputs
      decreases |buffer| + |pasteBuffer|, 2
    {
      if pasteMode {
        ContinuePaste();
        return;
      }
      var startIndex := IndexOf(buffer, PASTE_START);
      if startIndex.Some? {
        ProcessAround(startIndex.value);
        return;
      }
      ProcessPlain();
    }

    method ContinuePaste()
      requires pasteMode && !armed
      modifies this
      ensures var step := FeedPaste(old(pasteBuffer) + old(buffer), old(pendingKittyPrintableCodepoint));
              State() == step.state && outputs == old(outputs) + step.outputs
      decreases |buffer| + |pasteBuffer|, 1
    {
      pasteBuffer := pasteBuffer + buffer;
      buffer := [];
      EndPaste();
    }

    method ProcessAround(startIndex: nat)
      requires startIndex + |PASTE_START| <= |buffer| && !armed
      modifies this
      ensures var before := FeedPlain(old(State()), old(buffer)[..startIndex]);
              var step := FeedPaste(old(buffer)[startIndex + |PASTE_START|..], None);
              State() == step.state && outputs == old(outputs) + before.outputs + step.outputs
      decreases |buffer| + |pasteBuffer|, 1
    {
      StartPaste(startIndex);
      EndPaste();
    }

    method ProcessPlain()
      requires !pasteMode
      modifies this
      ensures var step := FeedPlain(old(State()), old(buffer));
              State() == step.state && outputs == old(outputs) + step.outputs
    {
      var result := ExtractCompleteSequences(buffer);
      buffer := result.remainder;
      EmitSequences(result.sequences);
      armed := |buffer| > 0;
    }

    /** An unfinished sequence before the paste start is dropped. */
    method StartPaste(startIndex: nat)
      requires startIndex + |PASTE_START| <= |buffer| && !armed
      modifies this
      ensures State() == Terminal([], true, old(buffer)[startIndex + |PASTE_START|..], None, false)
      ensures outputs == old(outputs) + FeedPlain(old(State()), old(buffer)[..startIndex]).outputs
    {
      var result := ExtractCompleteSequences(buffer[..startIndex]);
      EmitSequences(result.sequences);
      pendingKittyPrintableCodepoint := None;
      buffer := buffer[startIndex + |PASTE_START|..];
      pasteMode, pasteBuffer, buffer := true, buffer, [];
    }

    /** The part both paste branches share. */
    method EndPaste()
      requires pasteMode && buffer == [] && !armed
      modifies this
      ensures var step := FeedPaste(old(pasteBuffer), old(pendingKittyPrintableCodepoint));
              State() == step.state && outputs == old(outputs) + step.outputs
      decreases |pasteBuffer|, 0
    {
      var endIndex := IndexOf(pasteBuffer, PASTE_END);
      if endIndex.Some? {
        var pastedContent := pasteBuffer[..endIndex.value];
        var remaining := pasteBuffer[endIndex.value + |PASTE_END|..];
        pasteMode, pasteBuffer, pendingKittyPrintableCodepoint := false, [], None;
        outputs := outputs + [Paste(pastedContent)];
        if |remaining| > 0 { Process(remaining); }
      }
    }

    /** The flush timer fires: the unfinished input is emitted as it is. */
    method TimerFires()
      requires armed
      modifies this
      ensures State() == old(State()).(buffer := [], armed := false, pending := pendingKittyPrintableCodepoint)
      ensures old(buffer) == [] ==>
                outputs == old(outputs) && pendingKittyPrintableCodepoint == old(pendingKittyPrintableCodepoint)
      ensures old(buffer) != [] ==>
                outputs == old(outputs) + [Data(old(buffer))]
                && pendingKittyPrintableCodepoint == KittyCodepoint(old(buffer))
    {
      armed := false;
      if |buffer| == 0 { return; }
      var flushed := buffer;
      buffer, pendingKittyPrintableCodepoint := [], None;
      EmitDataSequence(flushed);
    }

    method Clear()
      modifies this
      ensures State() == IDLE && outputs == old(outputs)
    {
      buffer, pasteMode, pasteBuffer, pendingKittyPrintableCodepoint, armed := [], false, [], None, false;
    }
  }
}
