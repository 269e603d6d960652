/** computePlanKey: the printed key of a batch can be read back, so it stands for the canonical claims of every call. */
module PlanKey {
  import opened Strings
  import opened Levelling
  import opened Claims
  import opened ClaimResolvers
  import opened DagScheduler
  import opened DagPlan

  // ---------------------------------------------------------------- printing (JSON.stringify)

  function HexDigit(n: nat): char
    requires n < 16
  {
    "0123456789abcdef"[n]
  }

  /** One character inside a JSON string (section 7 of RFC 8259). */
  function EscapeChar(c: char): string {
    if c == '"' then "\\\""
    else if c == '\\' then "\\\\"
    else if c == '\U{8}' then "\\b"
    else if c == '\U{C}' then "\\f"
    else if c == '\n' then "\\n"
    else if c == '\r' then "\\r"
    else if c == '\t' then "\\t"
    else if c < ' ' then "\\u00" + [HexDigit(c as int / 16), HexDigit(c as int % 16)]
    else [c]
  }

  function EscapeAll(s: string): string {
    if |s| == 0 then "" else EscapeChar(s[0]) + EscapeAll(s[1..])
  }

  function Quoted(s: string): string {
    "\"" + EscapeAll(s) + "\""
  }

  function Field(name: string, value: string): string {
    name + Quoted(value)
  }

  function OptionalField(name: string, value: Option<string>): string {
    if value.None? then "" else Field(name, value.value)
  }

  function PrintIdentities(claim: Claim): string {
    if claim.NamedClaim? then "}"
    else OptionalField(",\"realKey\":", claim.realKey) + (OptionalField(",\"inodeKey\":", claim.inodeKey) + "}")
  }

  function PrintClaim(claim: Claim): string {
    Field("{\"kind\":", KindName(claim))
    + (Field(",\"key\":", claim.key) + (Field(",\"access\":", AccessName(claim.access)) + PrintIdentities(claim)))
  }

  /** The claims, each preceded by the separator, and the closing bracket. */
  function PrintRest(claims: seq<Claim>): string {
    if |claims| == 0 then "]" else "," + (PrintClaim(claims[0]) + PrintRest(claims[1..]))
  }

  function PrintClaims(claims: seq<Claim>): string {
    if |claims| == 0 then "[]" else "[" + (PrintClaim(claims[0]) + PrintRest(claims[1..]))
  }

  function PrintEntry(entry: Entry): string {
    if entry.resolution.RunAlone? then "E," else "C" + (PrintClaims(entry.canonicalClaims) + ",")
  }

  function Key(entries: seq<Entry>): string {
    if |entries| == 0 then "" else PrintEntry(entries[0]) + Key(entries[1..])
  }

  lemma {:induction false} KeyAppend(a: seq<Entry>, b: seq<Entry>)
    ensures Key(a + b) == Key(a) + Key(b)
  {
    if |a| == 0 {
      assert a + b == b;
    } else {
      assert (a + b)[1..] == a[1..] + b;
      KeyAppend(a[1..], b);
    }
  }

  lemma KeySnoc(entries: seq<Entry>, i: nat)
    requires i < |entries|
    ensures Key(entries[..i + 1]) == Key(entries[..i]) + PrintEntry(entries[i])
  {
    assert entries[..i + 1] == entries[..i] + [entries[i]] && [entries[i]][1..] == [];
    KeyAppend(entries[..i], [entries[i]]);
    assert PrintEntry(entries[i]) + "" == PrintEntry(entries[i]);
  }

  method ComputePlanKey(entries: seq<Entry>) returns (key: string)
    ensures key == Key(entries)
  {
    key := "";
    for i := 0 to |entries|
      invariant key == Key(entries[..i])
    {
      KeySnoc(entries, i);
      if entries[i].resolution.RunAlone? {
        key := key + "E,";
      } else {
        key := key + ("C" + (PrintClaims(entries[i].canonicalClaims) + ","));
      }
    }
    assert entries[..|entries|] == entries;
  }

  // ---------------------------------------------------------------- reading back

  function HexValue(c: char): Option<nat> {
    if '0' <= c <= '9' then Some(c as int - '0' as int)
    else if 'a' <= c <= 'f' then Some(c as int - 'a' as int + 10)
    else None
  }

  function ParseEscape(s: string): (r: Option<Parsed<char>>)
    ensures r.Some? ==> |r.value.rest| < |s|
  {
    if |s| == 0 then None
    else if s[0] == '"' || s[0] == '\\' then Some(Parsed(s[0], s[1..]))
    else if s[0] == 'b' then Some(Parsed('\U{8}', s[1..]))
    else if s[0] == 'f' then Some(Parsed('\U{C}', s[1..]))
    else if s[0] == 'n' then Some(Parsed('\n', s[1..]))
    else if s[0] == 'r' then Some(Parsed('\r', s[1..]))
    else if s[0] == 't' then Some(Parsed('\t', s[1..]))
    else if |s| >= 5 && s[..3] == "u00" && HexValue(s[3]).Some? && HexValue(s[4]).Some? then
      Some(Parsed((HexValue(s[3]).value * 16 + HexValue(s[4]).value) as char, s[5..]))
    else None
  }

  /** The rest of a JSON string up to its closing quote. */
  function ParseChars(s: string): (r: Option<Parsed<string>>)
    ensures r.Some? ==> |r.value.rest| < |s|
    decreases |s|
  {
    if |s| == 0 then None
    else if s[0] == '"' then Some(Parsed("", s[1..]))
    else
      var first :- if s[0] == '\\' then ParseEscape(s[1..]) else Some(Parsed(s[0], s[1..]));
      var more :- ParseChars(first.rest);
      Some(Parsed([first.value] + more.value, more.rest))
  }

  function ParseQuoted(s: string): (r: Option<Parsed<string>>)
    ensures r.Some? ==> |r.value.rest| < |s|
  {
    var body :- Expect(s, "\"");
    ParseChars(body)
  }

  function ParseField(name: string, s: string): (r: Option<Parsed<string>>)
    ensures r.Some? ==> |r.value.rest| < |s|
  {
    var body :- Expect(s, name);
    ParseQuoted(body)
  }

  function ParseOptional(name: string, s: string): (r: Option<Parsed<Option<string>>>)
    ensures r.Some? ==> |r.value.rest| <= |s|
  {
    if name <= s then
      var field :- ParseField(name, s);
      Some(Parsed(Some(field.value), field.rest))
    else Some(Parsed(None, s))
  }

  function ParseIdentities(kind: string, key: string, access: Access, s: string): (r: Option<Parsed<Claim>>)
    ensures r.Some? ==> |r.value.rest| < |s|
  {
    if kind == "path" then
      var realKey :- ParseOptional(",\"realKey\":", s);
      var inodeKey :- ParseOptional(",\"inodeKey\":", realKey.rest);
      var rest :- Expect(inodeKey.rest, "}");
      Some(Parsed(PathClaim(key, access, realKey.value, inodeKey.value), rest))
    else
      var named :- KindOf(kind);
      var rest :- Expect(s, "}");
      Some(Parsed(NamedClaim(named, key, access), rest))
  }

  function ParseClaim(s: string): (r: Option<Parsed<Claim>>)
    ensures r.Some? ==> |r.value.rest| < |s|
  {
    var kind :- ParseField("{\"kind\":", s);
    var key :- ParseField(",\"key\":", kind.rest);
    var name :- ParseField(",\"access\":", key.rest);
    var access :- AccessOf(name.value);
    ParseIdentities(kind.value, key.value, access, name.rest)
  }

  function ParseRest(s: string): (r: Option<Parsed<seq<Claim>>>)
    ensures r.Some? ==> |r.value.rest| < |s|
    decreases |s|
  {
    if "]" <= s then Some(Parsed([], s[1..]))
    else
      var s1 :- Expect(s, ",");
      var first :- ParseClaim(s1);
      var more :- ParseRest(first.rest);
      Some(Parsed([first.value] + more.value, more.rest))
  }

  function ParseSome(s: string): (r: Option<Parsed<seq<Claim>>>)
    ensures r.Some? ==> |r.value.rest| < |s|
  {
    var first :- ParseClaim(s);
    var more :- ParseRest(first.rest);
    Some(Parsed([first.value] + more.value, more.rest))
  }

  function ParseClaims(s: string): (r: Option<Parsed<seq<Claim>>>)
    ensures r.Some? ==> |r.value.rest| < |s|
  {
    if "[]" <= s then Some(Parsed([], s[2..]))
    else
      var s1 :- Expect(s, "[");
      ParseSome(s1)
  }

  /** What the key says of one call: its canonical claims, or None for a call that runs alone. */
  type Shown = Option<seq<Claim>>

  function ParseKey(s: string): Option<seq<Shown>>
    decreases |s|
  {
    if |s| == 0 then Some([])
    else if "E," <= s then
      var more :- ParseKey(s[2..]);
      Some([None] + more)
    else
      var s1 :- Expect(s, "C");
      var claims :- ParseClaims(s1);
      var s2 :- Expect(claims.rest, ",");
      var more :- ParseKey(s2);
      Some([Some(claims.value)] + more)
  }

  // ---------------------------------------------------------------- reading undoes printing

  lemma HexInverse(n: nat)
    requires n < 16
    ensures HexValue(HexDigit(n)) == Some(n)
  {
    var digits := "0123456789abcdef";
    assert n < 10 ==> digits[n] as int == '0' as int + n;
    assert n >= 10 ==> digits[n] as int == 'a' as int + n - 10;
  }

  lemma UnicodeInverse(c: char, rest: string)
    requires c < ' '
    ensures ParseEscape("u00" + [HexDigit(c as int / 16), HexDigit(c as int % 16)] + rest) == Some(Parsed(c, rest))
  {
    var high, low := c as int / 16, c as int % 16;
    var s := "u00" + [HexDigit(high), HexDigit(low)] + rest;
    HexInverse(high);
    HexInverse(low);
    assert s[0] == 'u' && s[3] == HexDigit(high) && s[4] == HexDigit(low);
    assert s[..3] == "u00" && s[5..] == rest;
    assert 16 * high + low == c as int;
  }

  lemma LetterInverse(c: char, letter: char, rest: string)
    requires EscapeChar(c) == ['\\', letter]
    ensures ParseEscape([letter] + rest) == Some(Parsed(c, rest))
  {
    assert ([letter] + rest)[1..] == rest;
  }

  lemma EscapeInverse(c: char, rest: string)
    ensures var e := EscapeChar(c);
            && |e| > 0 && e[0] != '"'
            && (e[0] == '\\' ==> ParseEscape((e + rest)[1..]) == Some(Parsed(c, rest)))
            && (e[0] != '\\' ==> e == [c])
  {
    var e := EscapeChar(c);
    assert (e + rest)[1..] == e[1..] + rest;
    if |e| == 6 {
      assert e[1..] == "u00" + [HexDigit(c as int / 16), HexDigit(c as int % 16)];
      UnicodeInverse(c, rest);
    } else if |e| == 2 {
      assert e == ['\\', e[1]] && e[1..] == [e[1]];
      LetterInverse(c, e[1], rest);
    }
  }

  lemma CharsEnd(rest: string)
    ensures ParseChars("\"" + rest) == Some(Parsed("", rest))
  {
    var s := "\"" + rest;
    assert s[0] == '"' && s[1..] == rest;
  }

  /** One more character of the string. */
  lemma CharsStep(c: char, tail: string, more: Parsed<string>)
    requires ParseChars(tail) == Some(more)
    ensures ParseChars(EscapeChar(c) + tail) == Some(Parsed([c] + more.value, more.rest))
  {
    EscapeInverse(c, tail);
    hide ParseEscape, EscapeChar;
    var e, s := EscapeChar(c), EscapeChar(c) + tail;
    assert s[0] == e[0];
    if e[0] != '\\' { assert s[1..] == tail; }
  }

  lemma {:induction false} CharsInverse(s: string, rest: string)
    ensures ParseChars(EscapeAll(s) + ("\"" + rest)) == Some(Parsed(s, rest))
  {
    hide ParseChars, EscapeChar;
    if |s| == 0 {
      assert "" + ("\"" + rest) == "\"" + rest;
      CharsEnd(rest);
    } else {
      var end := "\"" + rest;
      CharsInverse(s[1..], rest);
      CharsStep(s[0], EscapeAll(s[1..]) + end, Parsed(s[1..], rest));
      Assoc(EscapeChar(s[0]), EscapeAll(s[1..]), end);
      assert s == [s[0]] + s[1..];
    }
  }

  lemma QuotedInverse(s: string, rest: string)
    ensures ParseQuoted(Quoted(s) + rest) == Some(Parsed(s, rest))
  {
    hide EscapeAll, ParseChars;
    var quote, e := "\"", EscapeAll(s);
    Assoc(quote + e, quote, rest);
    Assoc(quote, e, quote + rest);
    ExpectLiteral(quote, e + (quote + rest));
    CharsInverse(s, rest);
  }

  lemma FieldInverse(name: string, value: string, rest: string)
    ensures ParseField(name, Field(name, value) + rest) == Some(Parsed(value, rest))
    ensures name <= Field(name, value) + rest
  {
    assert Field(name, value) + rest == name + (Quoted(value) + rest);
    ExpectLiteral(name, Quoted(value) + rest);
    QuotedInverse(value, rest);
  }

  lemma OptionalInverse(name: string, value: Option<string>, rest: string)
    requires value.None? ==> !(name <= rest)
    ensures ParseOptional(name, OptionalField(name, value) + rest) == Some(Parsed(value, rest))
  {
    match value {
      case None =>
        assert OptionalField(name, value) + rest == rest;
      case Some(v) =>
        FieldInverse(name, v, rest);
    }
  }

  lemma PathIdentitiesInverse(key: string, access: Access, realKey: Option<string>, inodeKey: Option<string>, rest: string)
    ensures ParseIdentities("path", key, access,
              OptionalField(",\"realKey\":", realKey) + (OptionalField(",\"inodeKey\":", inodeKey) + ("}" + rest)))
            == Some(Parsed(PathClaim(key, access, realKey, inodeKey), rest))
  {
    InodeIsNotReal(inodeKey, rest);
    OptionalInverse(",\"realKey\":", realKey, OptionalField(",\"inodeKey\":", inodeKey) + ("}" + rest));
    assert ",\"inodeKey\":"[0] == ',' && ("}" + rest)[0] == '}';
    OptionalInverse(",\"inodeKey\":", inodeKey, "}" + rest);
    ExpectLiteral("}", rest);
  }

  lemma IdentitiesInverse(claim: Claim, rest: string)
    ensures ParseIdentities(KindName(claim), claim.key, claim.access, PrintIdentities(claim) + rest)
            == Some(Parsed(claim, rest))
  {
    if claim.PathClaim? {
      PathIdentitiesInverse(claim.key, claim.access, claim.realKey, claim.inodeKey, rest);
      var first, second := OptionalField(",\"realKey\":", claim.realKey), OptionalField(",\"inodeKey\":", claim.inodeKey);
      Assoc(first, second + "}", rest);
      Assoc(second, "}", rest);
    } else {
      NamesInverse(claim);
      ExpectLiteral("}", rest);
    }
  }

  lemma InodeIsNotReal(inodeKey: Option<string>, rest: string)
    ensures !(",\"realKey\":" <= OptionalField(",\"inodeKey\":", inodeKey) + ("}" + rest))
  {
    assert ",\"realKey\":"[0] == ',' && ",\"realKey\":"[2] == 'r' && ",\"inodeKey\":"[2] == 'i';
  }

  lemma NamesInverse(claim: Claim)
    ensures AccessOf(AccessName(claim.access)) == Some(claim.access)
    ensures KindName(claim) == "path" <==> claim.PathClaim?
    ensures claim.NamedClaim? ==> KindOf(KindName(claim)) == Some(claim.kind)
  {
    assert "read"[0] == 'r' && "write"[0] == 'w' && "exclusive"[0] == 'e';
    assert "path"[0] == 'p' && "session"[0] == 's' && "terminal"[0] == 't' && "network"[0] == 'n' && "global"[0] == 'g';
  }

  lemma Assoc(a: string, b: string, c: string)
    ensures (a + b) + c == a + (b + c)
  {
  }

  lemma ClaimInverse(claim: Claim, rest: string)
    ensures ParseClaim(PrintClaim(claim) + rest) == Some(Parsed(claim, rest))
  {
    var kind, key, access := Field("{\"kind\":", KindName(claim)), Field(",\"key\":", claim.key),
                             Field(",\"access\":", AccessName(claim.access));
    var tail := PrintIdentities(claim);
    Assoc(kind, key + (access + tail), rest);
    Assoc(key, access + tail, rest);
    Assoc(access, tail, rest);
    FieldInverse("{\"kind\":", KindName(claim), key + (access + (tail + rest)));
    FieldInverse(",\"key\":", claim.key, access + (tail + rest));
    FieldInverse(",\"access\":", AccessName(claim.access), tail + rest);
    NamesInverse(claim);
    IdentitiesInverse(claim, rest);
  }

  lemma RestEnd(rest: string)
    ensures ParseRest("]" + rest) == Some(Parsed([], rest))
  {
    assert "]" <= "]" + rest && ("]" + rest)[1..] == rest;
  }

  lemma {:induction false} RestInverse(claims: seq<Claim>, rest: string)
    ensures ParseRest(PrintRest(claims) + rest) == Some(Parsed(claims, rest))
  {
    hide PrintClaim, ParseClaim, ParseRest;
    if |claims| == 0 {
      RestEnd(rest);
    } else {
      var first, tail := PrintClaim(claims[0]), PrintRest(claims[1..]);
      Assoc(",", first + tail, rest);
      Assoc(first, tail, rest);
      RestInverse(claims[1..], rest);
      RestCons(claims[0], tail + rest);
      assert claims == [claims[0]] + claims[1..];
    }
  }

  lemma RestStep(s: string, first: Parsed<Claim>)
    requires ParseClaim(s) == Some(first) && ParseRest(first.rest).Some?
    ensures var more := ParseRest(first.rest).value;
            ParseRest("," + s) == Some(Parsed([first.value] + more.value, more.rest))
  {
    ExpectLiteral(",", s);
    assert ("," + s)[0] == ',';
  }

  lemma RestCons(claim: Claim, tail: string)
    requires ParseRest(tail).Some?
    ensures var more := ParseRest(tail).value;
            ParseRest("," + (PrintClaim(claim) + tail)) == Some(Parsed([claim] + more.value, more.rest))
  {
    ClaimInverse(claim, tail);
    RestStep(PrintClaim(claim) + tail, Parsed(claim, tail));
  }

  lemma SomeStep(s: string, first: Parsed<Claim>, more: Parsed<seq<Claim>>)
    requires ParseClaim(s) == Some(first) && ParseRest(first.rest) == Some(more)
    ensures ParseSome(s) == Some(Parsed([first.value] + more.value, more.rest))
  {
    hide ParseClaim, ParseRest;
  }

  lemma ClaimOpens(claim: Claim, tail: string)
    ensures PrintClaim(claim) != "" && (PrintClaim(claim) + tail)[0] == '{'
  {
    assert "{\"kind\":"[0] == '{';
    assert Field("{\"kind\":", KindName(claim))[0] == '{';
  }

  lemma SomeInverse(claims: seq<Claim>, rest: string)
    requires |claims| > 0
    ensures var s := PrintClaim(claims[0]) + (PrintRest(claims[1..]) + rest);
            ParseSome(s) == Some(Parsed(claims, rest)) && s[0] == '{'
  {
    hide PrintClaim, PrintRest, ParseClaim, ParseRest, ParseSome;
    var tail := PrintRest(claims[1..]) + rest;
    ClaimOpens(claims[0], tail);
    ClaimInverse(claims[0], tail);
    RestInverse(claims[1..], rest);
    SomeStep(PrintClaim(claims[0]) + tail, Parsed(claims[0], tail), Parsed(claims[1..], rest));
    assert claims == [claims[0]] + claims[1..];
  }

  lemma Bracket(s: string)
    requires |s| > 0 && s[0] == '{'
    ensures !("[]" <= "[" + s)
  {
    assert ("[" + s)[1] == '{';
  }

  lemma ClaimsInverse(claims: seq<Claim>, rest: string)
    ensures ParseClaims(PrintClaims(claims) + rest) == Some(Parsed(claims, rest))
  {
    if |claims| > 0 {
      var first, tail := PrintClaim(claims[0]), PrintRest(claims[1..]);
      Assoc("[", first + tail, rest);
      Assoc(first, tail, rest);
      ExpectLiteral("[", first + (tail + rest));
      SomeInverse(claims, rest);
      Bracket(first + (tail + rest));
    } else {
      assert (PrintClaims(claims) + rest)[2..] == rest;
    }
  }

  function Show(entries: seq<Entry>): seq<Shown> {
    seq(|entries|, i requires 0 <= i < |entries| =>
      if entries[i].resolution.RunAlone? then None else Some(entries[i].canonicalClaims))
  }

  /** The printed key can be read back. */
  lemma {:induction false} KeyReadsBack(entries: seq<Entry>)
    ensures ParseKey(Key(entries)) == Some(Show(entries))
  {
    if |entries| == 0 {
      assert Show(entries) == [];
    } else {
      var entry, tail := entries[0], Key(entries[1..]);
      KeyReadsBack(entries[1..]);
      EntryInverse(entry, tail);
      ShowCons(entries);
    }
  }

  lemma ShowCons(entries: seq<Entry>)
    requires |entries| > 0
    ensures Show(entries) ==
            [if entries[0].resolution.RunAlone? then None else Some(entries[0].canonicalClaims)] + Show(entries[1..])
  {
  }

  lemma EntryInverse(entry: Entry, tail: string)
    requires ParseKey(tail).Some?
    ensures ParseKey(PrintEntry(entry) + tail) ==
            Some([if entry.resolution.RunAlone? then None else Some(entry.canonicalClaims)] + ParseKey(tail).value)
  {
    var s := PrintEntry(entry) + tail;
    if entry.resolution.RunAlone? {
      assert s[2..] == tail;
    } else {
      var claims := PrintClaims(entry.canonicalClaims);
      Assoc("C", claims + ",", tail);
      Assoc(claims, ",", tail);
      assert s == "C" + (claims + ("," + tail));
      assert s[0] == 'C' && !("E," <= s);
      ExpectLiteral("C", claims + ("," + tail));
      ClaimsInverse(entry.canonicalClaims, "," + tail);
      ExpectLiteral(",", tail);
    }
  }

  // ---------------------------------------------------------------- what the key stands for

  function PlanKeyOf(rs: seq<Resolution>): string {
    Key(EntriesOf(rs))
  }

  /** The same canonical claims for every call. */
  predicate SameClaims(a: seq<Resolution>, b: seq<Resolution>) {
    && |a| == |b|
    && forall i :: 0 <= i < |a| ==> a[i].RunAlone? == b[i].RunAlone? && CanonicalOf(a[i]) == CanonicalOf(b[i])
  }

  /** The key is a faithful name of the canonical claim sequences. */
  lemma KeyFaithful(a: seq<Resolution>, b: seq<Resolution>)
    ensures PlanKeyOf(a) == PlanKeyOf(b) <==> SameClaims(a, b)
  {
    var shownA, shownB := Show(EntriesOf(a)), Show(EntriesOf(b));
    KeyReadsBack(EntriesOf(a));
    KeyReadsBack(EntriesOf(b));
    if PlanKeyOf(a) == PlanKeyOf(b) {
      assert shownA == shownB && |shownA| == |a| && |shownB| == |b|;
      forall i | 0 <= i < |a|
        ensures a[i].RunAlone? == b[i].RunAlone? && CanonicalOf(a[i]) == CanonicalOf(b[i])
      {
        assert shownA[i] == shownB[i];
      }
    }
    if SameClaims(a, b) {
      KeyOfSame(EntriesOf(a), EntriesOf(b));
    }
  }

  lemma {:induction false} KeyOfSame(a: seq<Entry>, b: seq<Entry>)
    requires |a| == |b|
    requires forall i :: 0 <= i < |a| ==>
               a[i].resolution.RunAlone? == b[i].resolution.RunAlone? && a[i].canonicalClaims == b[i].canonicalClaims
    ensures Key(a) == Key(b)
  {
    if |a| > 0 {
      KeyOfSame(a[1..], b[1..]);
    }
  }

  /** Equal keys, equal levels. */
  lemma SameKeySameLevels(a: seq<Resolution>, b: seq<Resolution>)
    requires PlanKeyOf(a) == PlanKeyOf(b)
    ensures DagLevels(a) == DagLevels(b)
  {
    KeyFaithful(a, b);
    forall i, j | 0 <= i < |a| && 0 <= j < |a|
      ensures ClashAmong(a)(i, j) == ClashAmong(b)(i, j)
    {
      ClashOfSame(a[i], b[i], a[j], b[j]);
    }
    LevelsOfSame(ClashAmong(a), ClashAmong(b), |a|);
  }

  lemma ClashOfSame(a: Resolution, a': Resolution, b: Resolution, b': Resolution)
    requires a.RunAlone? == a'.RunAlone? && CanonicalOf(a) == CanonicalOf(a')
    requires b.RunAlone? == b'.RunAlone? && CanonicalOf(b) == CanonicalOf(b')
    ensures Clash(a, b) == Clash(a', b')
  {
    SameMembers(a, a');
    SameMembers(b, b');
    if a.Claims? && b.Claims? {
      assert forall l: Claim, r: Claim ::
          (l in a.claims && r in b.claims) == (l in a'.claims && r in b'.claims);
    }
  }

  lemma SameMembers(a: Resolution, a': Resolution)
    requires a.RunAlone? == a'.RunAlone? && CanonicalOf(a) == CanonicalOf(a')
    ensures a.Claims? ==> forall c :: c in a.claims <==> c in a'.claims
  {
    if a.Claims? {
      CanonicalClaimsSame(a.claims);
      CanonicalClaimsSame(a'.claims);
    }
  }

  lemma {:induction false} LevelOfSame(a: Relation, b: Relation, n: nat, j: nat)
    requires forall i: nat, k: nat :: i < n && k < n ==> a(i, k) == b(i, k)
    requires j < n
    ensures LevelOf(a, j) == LevelOf(b, j)
    decreases j
  {
    forall i: nat | i < j
      ensures LevelOf(a, i) == LevelOf(b, i)
    {
      LevelOfSame(a, b, n, i);
    }
    LevelUnique(a, j, LevelOf(a, j));
    LevelUnique(b, j, LevelOf(a, j));
  }

  lemma {:induction false} OnLevelOfSame(a: Relation, b: Relation, n: nat, k: nat, level: nat)
    requires forall i: nat, k: nat :: i < n && k < n ==> a(i, k) == b(i, k)
    requires k <= n
    ensures OnLevel(a, k, level) == OnLevel(b, k, level) && LevelCount(a, k) == LevelCount(b, k)
    decreases k
  {
    if k > 0 {
      LevelOfSame(a, b, n, k - 1);
      OnLevelOfSame(a, b, n, k - 1, level);
    }
  }

  lemma LevelsOfSame(a: Relation, b: Relation, n: nat)
    requires forall i: nat, k: nat :: i < n && k < n ==> a(i, k) == b(i, k)
    ensures Levels(a, n) == Levels(b, n)
  {
    OnLevelOfSame(a, b, n, n, 0);
    forall level: nat
      ensures OnLevel(a, n, level) == OnLevel(b, n, level)
    {
      OnLevelOfSame(a, b, n, n, level);
    }
  }

  /** `b` lists the claims of every call of `a` in some other order. */
  ghost predicate Reordered(a: seq<Resolution>, b: seq<Resolution>) {
    && |a| == |b|
    && forall i :: 0 <= i < |a| ==>
         && a[i].RunAlone? == b[i].RunAlone?
         && (a[i].Claims? ==> multiset(a[i].claims) == multiset(b[i].claims))
  }

  predicate NoCallTies(a: seq<Resolution>) {
    forall i :: 0 <= i < |a| && a[i].Claims? ==> !SomeTie(a[i].claims)
  }

  lemma ReorderedSame(a: Resolution, b: Resolution)
    requires a.Claims? && b.Claims? && !SomeTie(a.claims) && multiset(a.claims) == multiset(b.claims)
    ensures CanonicalOf(a) == CanonicalOf(b)
  {
    CanonicalClaimsPermutation(a.claims);
  }

  lemma TieShows(a: seq<Resolution>, i: nat) returns (b: seq<Resolution>)
    requires i < |a| && a[i].Claims? && SomeTie(a[i].claims)
    ensures Reordered(a, b) && PlanKeyOf(b) != PlanKeyOf(a)
  {
    var other := TieWitness(a[i].claims);
    b := a[i := Claims(other)];
    KeyFaithful(a, b);
    assert CanonicalOf(b[i]) != CanonicalOf(a[i]);
  }

  /** Reordering claims within calls never changes the key, exactly when no call holds a tie. */
  lemma KeyIgnoresOrder(a: seq<Resolution>)
    ensures NoCallTies(a) <==> forall b :: Reordered(a, b) ==> PlanKeyOf(b) == PlanKeyOf(a)
  {
    if NoCallTies(a) {
      forall b | Reordered(a, b)
        ensures PlanKeyOf(b) == PlanKeyOf(a)
      {
        forall i | 0 <= i < |a| && a[i].Claims?
          ensures CanonicalOf(a[i]) == CanonicalOf(b[i])
        {
          ReorderedSame(a[i], b[i]);
        }
        KeyFaithful(a, b);
      }
    } else {
      var i :| 0 <= i < |a| && a[i].Claims? && SomeTie(a[i].claims);
      var b := TieShows(a, i);
    }
  }

  /** For resolved batches, reordering claims changes neither the key nor the levels. */
  lemma ScheduledOrderIrrelevant(calls: seq<Call>, options: Options, other: seq<Resolution>)
    requires Reordered(ResolveAll(calls, options), other)
    ensures PlanKeyOf(other) == PlanKeyOf(ResolveAll(calls, options))
    ensures DagLevels(other) == DagLevels(ResolveAll(calls, options))
  {
    var rs := ResolveAll(calls, options);
    forall i | 0 <= i < |rs| && rs[i].Claims?
      ensures !SomeTie(rs[i].claims)
    {
      ResolutionsNormal(calls[i], options);
      DistinctKeysNoTie(rs[i].claims);
    }
    KeyIgnoresOrder(rs);
    SameKeySameLevels(other, rs);
  }

  datatype SchedulePlan = SchedulePlan(levels: seq<seq<nat>>, planKey: string)

  method ScheduleDagLevels(calls: seq<Call>, options: Options, maxConcurrency: Width) returns (plan: SchedulePlan)
    ensures plan.levels == Plan(ResolveAll(calls, options), maxConcurrency)
    ensures plan.planKey == PlanKeyOf(ResolveAll(calls, options))
  {
    var entries := ResolveBatchClaims(calls, options);
    var baseLevels := AssignDagLevels(entries, ResolveAll(calls, options));
    var levels := ApplyConcurrencyCap(baseLevels, maxConcurrency);
    var planKey := ComputePlanKey(entries);
    plan := SchedulePlan(levels, planKey);
  }
}
