/** packages/promptguard/envelope.go and escape.go: rendering context documents, and the parser that undoes it. Text is a
    list of bytes, written as characters. */
module PromptGuard {
  import opened Strings

  // ---------------------------------------------------------------- escaping

  datatype Place = TextNode | Attribute

  /** The entity for a character that must not stand for itself. */
  function Entity(place: Place, c: char): Option<string> {
    if c == '&' then Some("&amp;")
    else if c == '<' then Some("&lt;")
    else if c == '>' then Some("&gt;")
    else if place.Attribute? && c == '"' then Some("&quot;")
    else if place.Attribute? && c == '\'' then Some("&apos;")
    else None
  }

  function EscapeChar(place: Place, c: char): string {
    var entity := Entity(place, c);
    if entity.Some? then entity.value else [c]
  }

  function Escape(place: Place, s: string): string {
    if |s| == 0 then "" else EscapeChar(place, s[0]) + Escape(place, s[1..])
  }

  function EscapeText(s: string): string {
    Escape(TextNode, s)
  }

  function EscapeAttr(s: string): string {
    Escape(Attribute, s)
  }

  /** The character an entity at the front stands for. */
  function EntityChar(place: Place, s: string): (r: Option<char>)
    ensures r.Some? ==> Entity(place, r.value).Some? && Entity(place, r.value).value <= s
  {
    if "&amp;" <= s then Some('&')
    else if "&lt;" <= s then Some('<')
    else if "&gt;" <= s then Some('>')
    else if place.Attribute? && "&quot;" <= s then Some('"')
    else if place.Attribute? && "&apos;" <= s then Some('\'')
    else None
  }

  /** The first character of an escaped text, and how long it is written there. */
  datatype Front = Front(c: char, width: nat)

  /** None for a bare metacharacter or an unknown entity. */
  function FrontOf(place: Place, s: string): (r: Option<Front>)
    requires |s| > 0
    ensures r.Some? ==> 0 < r.value.width <= |s|
  {
    match EntityChar(place, s)
    case Some(c) => Some(Front(c, |Entity(place, c).value|))
    case None => if Entity(place, s[0]).Some? then None else Some(Front(s[0], 1))
  }

  function Unescape(place: Place, s: string): Option<string>
    decreases |s|
  {
    if |s| == 0 then Some("")
    else
      var front :- FrontOf(place, s);
      var rest :- Unescape(place, s[front.width..]);
      Some([front.c] + rest)
  }

  lemma FrontWritten(place: Place, s: string)
    requires |s| > 0 && FrontOf(place, s).Some?
    ensures s[..FrontOf(place, s).value.width] == EscapeChar(place, FrontOf(place, s).value.c)
  {
  }

  lemma FrontOfEscape(place: Place, c: char, rest: string)
    ensures |EscapeChar(place, c)| > 0
    ensures FrontOf(place, EscapeChar(place, c) + rest) == Some(Front(c, |EscapeChar(place, c)|))
  {
    var s := EscapeChar(place, c) + rest;
    if Entity(place, c).Some? {
      assert s[0] == '&' && s[1] == EscapeChar(place, c)[1] && s[2] == EscapeChar(place, c)[2];
    } else {
      assert s[0] == c != '&';
    }
  }

  lemma {:induction false} UnescapeEscape(place: Place, s: string)
    ensures Unescape(place, Escape(place, s)) == Some(s)
  {
    if |s| > 0 {
      var e, rest := EscapeChar(place, s[0]), Escape(place, s[1..]);
      FrontOfEscape(place, s[0], rest);
      assert (e + rest)[|e|..] == rest;
      UnescapeEscape(place, s[1..]);
      assert s == [s[0]] + s[1..];
    }
  }

  lemma EscapeCons(place: Place, c: char, rest: string)
    ensures Escape(place, [c] + rest) == EscapeChar(place, c) + Escape(place, rest)
  {
    assert ([c] + rest)[1..] == rest;
  }

  lemma FrontSplits(place: Place, t: string, front: Front)
    requires |t| > 0 && FrontOf(place, t) == Some(front)
    ensures t == EscapeChar(place, front.c) + t[front.width..]
  {
    FrontWritten(place, t);
    assert t == t[..front.width] + t[front.width..];
  }

  lemma {:induction false} EscapeUnescape(place: Place, t: string)
    requires Unescape(place, t).Some?
    ensures Escape(place, Unescape(place, t).value) == t
    decreases |t|
  {
    if |t| > 0 {
      var front := FrontOf(place, t).value;
      var after := t[front.width..];
      FrontSplits(place, t, front);
      EscapeUnescape(place, after);
      EscapeCons(place, front.c, Unescape(place, after).value);
    }
  }

  /** Unescaping is the inverse of escaping: it succeeds on exactly the escaped texts. */
  lemma UnescapeExact(place: Place, t: string, s: string)
    ensures Unescape(place, t) == Some(s) <==> t == Escape(place, s)
  {
    UnescapeEscape(place, s);
    if Unescape(place, t) == Some(s) { EscapeUnescape(place, t); }
  }

  /** Escaped text holds no bare metacharacter but `&`. */
  lemma {:induction false} EscapeHides(place: Place, s: string, c: char)
    requires Entity(place, c).Some? && c != '&'
    ensures c !in Escape(place, s)
  {
    if |s| > 0 {
      EscapeHides(place, s[1..], c);
      assert c !in EscapeChar(place, s[0]);
    }
  }

  // ---------------------------------------------------------------- rendering

  const PARENT: int := 1
  const PROJECT: int := 0

  /** `provenance` is an integer; whatever is not PARENT counts as a project source. */
  datatype Source = Source(path: string, content: string, provenance: int)

  /** The fixed texts around the envelopes. */
  datatype Layout = Layout(
    parentOpen: string, parentTag: string, parentClose: string,
    projectOpen: string, projectTag: string, projectClose: string)

  const PARENT_LINE := "<parent" + "_context scope=\"context_files\" priority=\"parent_over_project\">\n"
  const PROJECT_LINE := "<project_context>\n"

  const LAYOUT := Layout(
    PARENT_LINE
      + "Parent rules have the highest precedence among loaded context files and cannot override "
      + "the runtime trust boundary or expand authorization.\n\n",
    "parent_instructions",
    "</parent_context>",
    PROJECT_LINE
      + "Project instructions, subordinate to parent context and the trust boundary:\n\n",
    "project_instructions",
    "</project_context>")

  /** What a layout needs to be read back. */
  ghost predicate Readable(l: Layout) {
    && Closes(l.parentTag, l.parentClose) && Closes(l.projectTag, l.projectClose)
    && exists k :: 0 <= k < |l.parentOpen| && k < |l.projectOpen| && l.parentOpen[k] != l.projectOpen[k]
  }

  /** A closing tag and an opening tag differ at their second character. */
  predicate Closes(tag: string, close: string) {
    |tag| > 0 && |close| > 1 && close[0] == '<' && close[1] == '/' && tag[0] != '/'
  }

  lemma LayoutReadable()
    ensures Readable(LAYOUT)
  {
    assert LAYOUT.parentOpen[2] == PARENT_LINE[2] == "<parent"[2] == 'a';
    assert LAYOUT.projectOpen[2] == PROJECT_LINE[2] == 'r';
  }

  function Chosen(sources: seq<Source>, parent: bool): seq<Source> {
    if |sources| == 0 then []
    else
      var s := sources[|sources| - 1];
      Chosen(sources[..|sources| - 1], parent) + (if (s.provenance == PARENT) == parent then [s] else [])
  }

  function Envelope(tag: string, s: Source): string {
    "<" + tag + " path=\"" + EscapeAttr(s.path) + "\">\n" + EscapeText(s.content) + "\n</" + tag + ">\n\n"
  }

  function Envelopes(tag: string, sources: seq<Source>): string {
    if |sources| == 0 then "" else Envelope(tag, sources[0]) + Envelopes(tag, sources[1..])
  }

  lemma {:induction false} EnvelopesSnoc(tag: string, sources: seq<Source>, s: Source)
    ensures Envelopes(tag, sources + [s]) == Envelopes(tag, sources) + Envelope(tag, s)
  {
    if |sources| == 0 {
      assert [] + [s] == [s] && [s][1..] == [];
      assert Envelopes(tag, [s]) == Envelope(tag, s) + "" == "" + Envelope(tag, s);
    } else {
      assert (sources + [s])[1..] == sources[1..] + [s];
      EnvelopesSnoc(tag, sources[1..], s);
      assert Envelope(tag, sources[0]) + (Envelopes(tag, sources[1..]) + Envelope(tag, s))
          == Envelope(tag, sources[0]) + Envelopes(tag, sources[1..]) + Envelope(tag, s);
    }
  }

  function Section(open: string, tag: string, sources: seq<Source>, close: string): string {
    if |sources| == 0 then "" else open + Envelopes(tag, sources) + close
  }

  function Rendered(l: Layout, parent: seq<Source>, project: seq<Source>): string {
    Section(l.parentOpen, l.parentTag, parent, l.parentClose)
    + (if |parent| > 0 && |project| > 0 then "\n\n" else "")
    + Section(l.projectOpen, l.projectTag, project, l.projectClose)
  }

  method WriteEnvelopes(b: string, tag: string, sources: seq<Source>) returns (b': string)
    ensures b' == b + Envelopes(tag, sources)
  {
    b' := b;
    for i := 0 to |sources|
      invariant b' == b + Envelopes(tag, sources[..i])
    {
      assert sources[..i + 1] == sources[..i] + [sources[i]];
      EnvelopesSnoc(tag, sources[..i], sources[i]);
      b' := b' + Envelope(tag, sources[i]);
    }
    assert sources[..|sources|] == sources;
  }

  method PartitionSources(sources: seq<Source>) returns (parent: seq<Source>, project: seq<Source>)
    ensures parent == Chosen(sources, true) && project == Chosen(sources, false)
  {
    parent, project := [], [];
    for i := 0 to |sources|
      invariant parent == Chosen(sources[..i], true) && project == Chosen(sources[..i], false)
    {
      assert sources[..i + 1][..i] == sources[..i];
      if sources[i].provenance == PARENT {
        parent := parent + [sources[i]];
      } else {
        project := project + [sources[i]];
      }
    }
    assert sources[..|sources|] == sources;
  }

  method WriteSection(b: string, open: string, tag: string, sources: seq<Source>, close: string) returns (b': string)
    requires |sources| > 0
    ensures b' == b + Section(open, tag, sources, close)
  {
    b' := b + open;
    b' := WriteEnvelopes(b', tag, sources);
    b' := b' + close;
    assert b' == b + (open + Envelopes(tag, sources) + close);
  }

  method Render(l: Layout, sources: seq<Source>) returns (b: string)
    requires |l.parentOpen| > 0
    ensures b == Rendered(l, Chosen(sources, true), Chosen(sources, false))
  {
    var parent, project := PartitionSources(sources);
    b := "";
    if |parent| > 0 {
      b := WriteSection(b, l.parentOpen, l.parentTag, parent, l.parentClose);
    }
    assert b == Section(l.parentOpen, l.parentTag, parent, l.parentClose);
    assert |parent| > 0 <==> |b| > 0;
    if |project| > 0 {
      if |b| > 0 { b := b + "\n\n"; }
      b := WriteSection(b, l.projectOpen, l.projectTag, project, l.projectClose);
    }
  }

  method RenderContext(sources: seq<Source>) returns (out: string)
    ensures out == Rendered(LAYOUT, Chosen(sources, true), Chosen(sources, false))
    ensures Parse(LAYOUT, out) == Some(Partitioned(sources))
  {
    out := Render(LAYOUT, sources);
    LayoutReadable();
    RenderReadsBack(LAYOUT, Chosen(sources, true), Chosen(sources, false));
  }

  // ---------------------------------------------------------------- parsing

  /** The text before `c`, which must occur. */
  function Before(s: string, c: char): Option<Parsed<string>> {
    var n := Span(s, c);
    if n < |s| then Some(Parsed(s[..n], s[n..])) else None
  }

  function ParsePath(tag: string, s: string): (r: Option<Parsed<string>>)
    ensures r.Some? ==> |r.value.rest| < |s|
  {
    var s1 :- Expect(s, "<" + tag + " path=\"");
    var path :- Before(s1, '"');
    var s2 :- Expect(path.rest, "\">\n");
    var plain :- Unescape(Attribute, path.value);
    Some(Parsed(plain, s2))
  }

  function ParseContent(tag: string, s: string): (r: Option<Parsed<string>>)
    ensures r.Some? ==> |r.value.rest| < |s|
  {
    var body :- Before(s, '<');
    var s1 :- Expect(body.rest, "</" + tag + ">\n\n");
    if !EndsWith(body.value, "\n") then None
    else
      var plain :- Unescape(TextNode, body.value[..|body.value| - 1]);
      Some(Parsed(plain, s1))
  }

  function ParseEnvelope(tag: string, provenance: int, s: string): (r: Option<Parsed<Source>>)
    ensures r.Some? ==> |r.value.rest| < |s|
  {
    var path :- ParsePath(tag, s);
    var content :- ParseContent(tag, path.rest);
    Some(Parsed(Source(path.value, content.value, provenance), content.rest))
  }

  /** Envelopes up to the closing tag. */
  function ParseEnvelopes(tag: string, provenance: int, close: string, s: string): Option<Parsed<seq<Source>>>
    decreases |s|
  {
    if close <= s then Some(Parsed([], s[|close|..]))
    else
      var first :- ParseEnvelope(tag, provenance, s);
      var more :- ParseEnvelopes(tag, provenance, close, first.rest);
      Some(Parsed([first.value] + more.value, more.rest))
  }

  function ParseProject(l: Layout, s: string): Option<seq<Source>> {
    var s1 :- Expect(s, l.projectOpen);
    var project :- ParseEnvelopes(l.projectTag, PROJECT, l.projectClose, s1);
    if project.rest == "" then Some(project.value) else None
  }

  function Parse(l: Layout, s: string): Option<seq<Source>> {
    if s == "" then Some([])
    else
      match Expect(s, l.parentOpen)
      case None => ParseProject(l, s)
      case Some(s1) =>
        var parent :- ParseEnvelopes(l.parentTag, PARENT, l.parentClose, s1);
        if parent.rest == "" then Some(parent.value)
        else
          var s2 :- Expect(parent.rest, "\n\n");
          var project :- ParseProject(l, s2);
          Some(parent.value + project)
  }

  // ---------------------------------------------------------------- the round trip

  /** With the provenance that the rendering keeps. */
  function Kept(s: Source, provenance: int): Source {
    s.(provenance := provenance)
  }

  function AllKept(sources: seq<Source>, provenance: int): seq<Source> {
    seq(|sources|, i requires 0 <= i < |sources| => Kept(sources[i], provenance))
  }

  lemma BeforeFinds(text: string, c: char, rest: string)
    requires c !in text
    ensures Before(text + [c] + rest, c) == Some(Parsed(text, [c] + rest))
  {
    var s := text + [c] + rest;
    assert s[..|text|] == text;
    SpanUnique(s, c, |text|);
    assert s[|text|..] == [c] + rest;
  }

  function EnvelopeTail(tag: string, s: Source, rest: string): string {
    EscapeText(s.content) + "\n" + ("</" + tag + ">\n\n" + rest)
  }

  lemma Regroup(a: string, b: string, c: string, d: string, e: string, rest: string)
    ensures (a + b + c + d + e) + rest == a + (b + (c + (d + (e + rest))))
  {
  }

  lemma EnvelopeParts(tag: string, s: Source, rest: string)
    ensures Envelope(tag, s) + rest ==
            ("<" + tag + " path=\"") + (EscapeAttr(s.path) + ("\">\n" + EnvelopeTail(tag, s, rest)))
  {
    var open, content, close := "<" + tag + " path=\"", EscapeText(s.content), "\n</" + tag + ">\n\n";
    assert Envelope(tag, s) == open + EscapeAttr(s.path) + "\">\n" + content + close;
    Regroup(open, EscapeAttr(s.path), "\">\n", content, close, rest);
    TailParts(tag, content, rest);
  }

  lemma TailParts(tag: string, content: string, rest: string)
    ensures content + (("\n</" + tag + ">\n\n") + rest) == content + "\n" + ("</" + tag + ">\n\n" + rest)
  {
    assert "\n" + ("</" + tag + ">\n\n") == "\n</" + tag + ">\n\n";
  }

  lemma PathReadsBack(tag: string, path: string, tail: string)
    ensures ParsePath(tag, ("<" + tag + " path=\"") + (EscapeAttr(path) + ("\">\n" + tail))) == Some(Parsed(path, tail))
  {
    var open, quoted := "<" + tag + " path=\"", EscapeAttr(path);
    ExpectLiteral(open, quoted + ("\">\n" + tail));
    EscapeHides(Attribute, path, '"');
    assert quoted + ("\">\n" + tail) == quoted + ['"'] + (">\n" + tail);
    BeforeFinds(quoted, '"', ">\n" + tail);
    assert ['"'] + (">\n" + tail) == "\">\n" + tail;
    ExpectLiteral("\">\n", tail);
    UnescapeExact(Attribute, quoted, path);
  }

  lemma ContentReadsBack(tag: string, s: Source, rest: string)
    ensures ParseContent(tag, EnvelopeTail(tag, s, rest)) == Some(Parsed(s.content, rest))
  {
    var close, body := "</" + tag + ">\n\n", EscapeText(s.content) + "\n";
    EscapeHides(TextNode, s.content, '<');
    var after := (close + rest)[1..];
    assert ['<'] + after == close + rest;
    assert body + (close + rest) == body + ['<'] + after;
    BeforeFinds(body, '<', after);
    ExpectLiteral(close, rest);
    assert body[..|body| - 1] == EscapeText(s.content) && body[|body| - 1..] == "\n";
    UnescapeExact(TextNode, EscapeText(s.content), s.content);
  }

  lemma EnvelopeReadsBack(tag: string, provenance: int, s: Source, rest: string)
    ensures ParseEnvelope(tag, provenance, Envelope(tag, s) + rest) == Some(Parsed(Kept(s, provenance), rest))
  {
    EnvelopeParts(tag, s, rest);
    PathReadsBack(tag, s.path, EnvelopeTail(tag, s, rest));
    ContentReadsBack(tag, s, rest);
  }

  lemma NotClosed(tag: string, close: string, s: Source, tail: string)
    requires Closes(tag, close)
    ensures !(close <= Envelope(tag, s) + tail)
  {
    var all := Envelope(tag, s) + tail;
    EnvelopeParts(tag, s, tail);
    assert all[1] == tag[0];
  }

  lemma ParsedMore(tag: string, provenance: int, close: string, s: Source, tail: string)
    requires Closes(tag, close)
    ensures ParseEnvelopes(tag, provenance, close, Envelope(tag, s) + tail) ==
            match ParseEnvelopes(tag, provenance, close, tail)
            case None => None
            case Some(more) => Some(Parsed([Kept(s, provenance)] + more.value, more.rest))
  {
    NotClosed(tag, close, s, tail);
    EnvelopeReadsBack(tag, provenance, s, tail);
  }

  lemma EnvelopesStep(tag: string, close: string, sources: seq<Source>, rest: string)
    requires |sources| > 0
    ensures Envelopes(tag, sources) + (close + rest) ==
            Envelope(tag, sources[0]) + (Envelopes(tag, sources[1..]) + (close + rest))
  {
    hide Envelope;
  }

  lemma NoEnvelopes(tag: string, provenance: int, close: string, rest: string)
    ensures ParseEnvelopes(tag, provenance, close, Envelopes(tag, []) + (close + rest)) ==
            Some(Parsed(AllKept([], provenance), rest))
  {
    hide ParseEnvelope;
    assert Envelopes(tag, []) + (close + rest) == close + rest;
    assert AllKept([], provenance) == [];
    ExpectLiteral(close, rest);
  }

  lemma {:induction false} EnvelopesReadBack(tag: string, provenance: int, close: string, sources: seq<Source>, rest: string)
    requires Closes(tag, close)
    ensures ParseEnvelopes(tag, provenance, close, Envelopes(tag, sources) + (close + rest)) ==
            Some(Parsed(AllKept(sources, provenance), rest))
  {
    hide Envelope, Envelopes, ParseEnvelope, ParseEnvelopes;
    if |sources| == 0 {
      assert sources == [];
      NoEnvelopes(tag, provenance, close, rest);
    } else {
      EnvelopesStep(tag, close, sources, rest);
      ParsedMore(tag, provenance, close, sources[0], Envelopes(tag, sources[1..]) + (close + rest));
      EnvelopesReadBack(tag, provenance, close, sources[1..], rest);
      assert AllKept(sources, provenance) == [Kept(sources[0], provenance)] + AllKept(sources[1..], provenance);
    }
  }

  lemma ProjectReadsBack(l: Layout, project: seq<Source>)
    requires Readable(l) && |project| > 0
    ensures ParseProject(l, Section(l.projectOpen, l.projectTag, project, l.projectClose)) == Some(AllKept(project, PROJECT))
  {
    var body := Envelopes(l.projectTag, project) + (l.projectClose + "");
    assert Section(l.projectOpen, l.projectTag, project, l.projectClose) == l.projectOpen + body;
    ExpectLiteral(l.projectOpen, body);
    EnvelopesReadBack(l.projectTag, PROJECT, l.projectClose, project, "");
  }

  lemma NotParent(l: Layout, project: seq<Source>)
    requires Readable(l) && |project| > 0
    ensures var s := Section(l.projectOpen, l.projectTag, project, l.projectClose);
            s != "" && Expect(s, l.parentOpen).None?
  {
    var s := Section(l.projectOpen, l.projectTag, project, l.projectClose);
    var k :| 0 <= k < |l.parentOpen| && k < |l.projectOpen| && l.parentOpen[k] != l.projectOpen[k];
    assert s[k] == l.projectOpen[k];
  }

  lemma ParentReadsBack(l: Layout, parent: seq<Source>, rest: string)
    requires Readable(l) && |parent| > 0
    ensures var s := Section(l.parentOpen, l.parentTag, parent, l.parentClose) + rest;
            && s != "" && Expect(s, l.parentOpen).Some?
            && ParseEnvelopes(l.parentTag, PARENT, l.parentClose, Expect(s, l.parentOpen).value) ==
               Some(Parsed(AllKept(parent, PARENT), rest))
  {
    var body := Envelopes(l.parentTag, parent) + (l.parentClose + rest);
    assert Section(l.parentOpen, l.parentTag, parent, l.parentClose) + rest == l.parentOpen + body;
    ExpectLiteral(l.parentOpen, body);
    EnvelopesReadBack(l.parentTag, PARENT, l.parentClose, parent, rest);
  }

  /** The rendering reads back as the parent sources and then the project sources, each in input order with the original
      path and content. */
  lemma RenderReadsBack(l: Layout, parent: seq<Source>, project: seq<Source>)
    requires Readable(l)
    ensures Parse(l, Rendered(l, parent, project)) == Some(AllKept(parent, PARENT) + AllKept(project, PROJECT))
  {
    hide Parse, Section, AllKept, Readable;
    var first := Section(l.parentOpen, l.parentTag, parent, l.parentClose);
    var second := Section(l.projectOpen, l.projectTag, project, l.projectClose);
    if |parent| == 0 {
      NothingToRender(l.parentOpen, l.parentTag, parent, l.parentClose, PARENT);
      assert "" + "" + second == second && [] + AllKept(project, PROJECT) == AllKept(project, PROJECT);
      ProjectAlone(l, project);
    } else if |project| == 0 {
      NothingToRender(l.projectOpen, l.projectTag, project, l.projectClose, PROJECT);
      assert first + "" + "" == first + "" && AllKept(parent, PARENT) + [] == AllKept(parent, PARENT);
      ParentAlone(l, parent);
    } else {
      assert first + "\n\n" + second == first + ("\n\n" + second);
      BothRead(l, parent, project);
    }
  }

  lemma NothingToRender(open: string, tag: string, sources: seq<Source>, close: string, provenance: int)
    requires |sources| == 0
    ensures Section(open, tag, sources, close) == "" && AllKept(sources, provenance) == []
  {
  }

  lemma ProjectAlone(l: Layout, project: seq<Source>)
    requires Readable(l)
    ensures Parse(l, Section(l.projectOpen, l.projectTag, project, l.projectClose)) == Some(AllKept(project, PROJECT))
  {
    hide ParseProject, ParseEnvelopes, Readable, Expect, Envelopes;
    if |project| > 0 {
      ProjectReadsBack(l, project);
      NotParent(l, project);
    } else {
      assert AllKept(project, PROJECT) == [];
    }
  }

  lemma ParentAlone(l: Layout, parent: seq<Source>)
    requires Readable(l) && |parent| > 0
    ensures Parse(l, Section(l.parentOpen, l.parentTag, parent, l.parentClose) + "") == Some(AllKept(parent, PARENT))
  {
    hide ParseProject, ParseEnvelopes, Readable, Expect, Section, AllKept;
    ParentReadsBack(l, parent, "");
  }

  lemma BothRead(l: Layout, parent: seq<Source>, project: seq<Source>)
    requires Readable(l) && |parent| > 0 && |project| > 0
    ensures var second := Section(l.projectOpen, l.projectTag, project, l.projectClose);
            Parse(l, Section(l.parentOpen, l.parentTag, parent, l.parentClose) + ("\n\n" + second)) ==
            Some(AllKept(parent, PARENT) + AllKept(project, PROJECT))
  {
    hide ParseProject, ParseEnvelopes, Readable, Section, AllKept;
    var second := Section(l.projectOpen, l.projectTag, project, l.projectClose);
    ProjectReadsBack(l, project);
    ExpectLiteral("\n\n", second);
    assert |"\n\n" + second| >= 2;
    hide Expect;
    ParentReadsBack(l, parent, "\n\n" + second);
  }

  /** The parent sources, then the others, each in input order. */
  function Partitioned(sources: seq<Source>): seq<Source> {
    AllKept(Chosen(sources, true), PARENT) + AllKept(Chosen(sources, false), PROJECT)
  }

  lemma KeptSame(a: seq<Source>, b: seq<Source>, provenance: int, tag: string)
    requires AllKept(a, provenance) == AllKept(b, provenance)
    ensures |a| == |b| && Envelopes(tag, a) == Envelopes(tag, b)
  {
    assert |a| == |AllKept(a, provenance)| == |b|;
    if |a| > 0 {
      assert AllKept(a, provenance)[0] == AllKept(b, provenance)[0];
      assert AllKept(a, provenance)[1..] == AllKept(a[1..], provenance);
      assert AllKept(b, provenance)[1..] == AllKept(b[1..], provenance);
      KeptSame(a[1..], b[1..], provenance, tag);
    }
  }

  /** Two inputs render alike exactly when their stable partitions are alike. */
  lemma RenderInjective(l: Layout, a: seq<Source>, b: seq<Source>)
    requires Readable(l)
    ensures Rendered(l, Chosen(a, true), Chosen(a, false)) == Rendered(l, Chosen(b, true), Chosen(b, false)) <==>
            Partitioned(a) == Partitioned(b)
  {
    RenderReadsBack(l, Chosen(a, true), Chosen(a, false));
    RenderReadsBack(l, Chosen(b, true), Chosen(b, false));
    if Partitioned(a) == Partitioned(b) {
      SplitSame(AllKept(Chosen(a, true), PARENT), AllKept(Chosen(a, false), PROJECT),
                AllKept(Chosen(b, true), PARENT), AllKept(Chosen(b, false), PROJECT));
      KeptSame(Chosen(a, true), Chosen(b, true), PARENT, l.parentTag);
      KeptSame(Chosen(a, false), Chosen(b, false), PROJECT, l.projectTag);
    }
  }

  lemma {:induction false} Leading(p: seq<Source>, q: seq<Source>)
    requires forall k :: 0 <= k < |p| ==> p[k].provenance == PARENT
    requires forall k :: 0 <= k < |q| ==> q[k].provenance == PROJECT
    ensures |p + q| > 0 ==> ((p + q)[0].provenance == PARENT <==> |p| > 0)
  {
    assert |p + q| > 0 ==> (p + q)[0] == if |p| > 0 then p[0] else q[0];
  }

  lemma {:induction false} SplitSame(p: seq<Source>, q: seq<Source>, p': seq<Source>, q': seq<Source>)
    requires p + q == p' + q'
    requires forall k :: 0 <= k < |p| ==> p[k].provenance == PARENT
    requires forall k :: 0 <= k < |p'| ==> p'[k].provenance == PARENT
    requires forall k :: 0 <= k < |q| ==> q[k].provenance == PROJECT
    requires forall k :: 0 <= k < |q'| ==> q'[k].provenance == PROJECT
    ensures p == p' && q == q'
  {
    Leading(p, q);
    Leading(p', q');
    assert |p| + |q| == |p + q| == |p' + q'| == |p'| + |q'|;
    if |p| == 0 {
      assert [] + q == q && [] + q' == q';
    } else {
      assert (p + q)[0] == p[0] && (p' + q')[0] == p'[0];
      assert p[1..] + q == (p + q)[1..] == (p' + q')[1..] == p'[1..] + q';
      SplitSame(p[1..], q, p'[1..], q');
      assert p == [p[0]] + p[1..] && p' == [p'[0]] + p'[1..];
    }
  }
}
