/** packages/agent/src/path-segments.ts and the path-key comparison of builtin-tool-resource-claims.ts. */
module Paths {
  import opened Strings

  // ---------------------------------------------------------------- segments

  function NormalizeSlashes(raw: string): string {
    seq(|raw|, i requires 0 <= i < |raw| => if raw[i] == '\\' then '/' else raw[i])
  }

  /** The non-empty pieces between slashes. */
  function Segments(s: string): seq<string>
    decreases |s|
  {
    if |s| == 0 then []
    else if s[0] == '/' then Segments(s[1..])
    else
      var n := Span(s, '/');
      assert n > 0;
      [s[..n]] + Segments(s[n..])
  }

  function Join(segments: seq<string>): string {
    if |segments| == 0 then ""
    else if |segments| == 1 then segments[0]
    else segments[0] + "/" + Join(segments[1..])
  }

  predicate ProperSegment(s: string) {
    |s| > 0 && '/' !in s
  }

  predicate AllProper(segments: seq<string>) {
    forall i :: 0 <= i < |segments| ==> ProperSegment(segments[i])
  }

  lemma {:induction false} SegmentsProper(s: string)
    ensures AllProper(Segments(s))
    ensures forall i, c :: 0 <= i < |Segments(s)| && c in Segments(s)[i] ==> c in s
    decreases |s|
  {
    if |s| > 0 {
      var n := if s[0] == '/' then 1 else Span(s, '/');
      SegmentsProper(s[n..]);
      assert forall c :: c in s[..n] || c in s[n..] ==> c in s;
    }
  }

  lemma {:induction false} JoinProper(segments: seq<string>)
    requires AllProper(segments)
    ensures |segments| > 0 ==> segments[0] <= Join(segments)
    ensures |segments| > 0 ==> |Join(segments)| > 0 && Join(segments)[0] != '/'
    ensures |segments| == 0 ==> Join(segments) == ""
    ensures |segments| > 1 ==> Join(segments)[|segments[0]|] == '/' && Join(segments)[|segments[0]| + 1..] == Join(segments[1..])
    ensures forall c :: c in Join(segments) ==> c == '/' || exists i :: 0 <= i < |segments| && c in segments[i]
  {
    if |segments| > 0 {
      assert ProperSegment(segments[0]);
      assert segments[0][0] in segments[0];
      if |segments| > 1 {
        JoinProper(segments[1..]);
        forall c | c in Join(segments) && c != '/'
          ensures exists i :: 0 <= i < |segments| && c in segments[i]
        {
          if c !in segments[0] {
            assert c in Join(segments[1..]);
            var i :| 0 <= i < |segments[1..]| && c in segments[1..][i];
            assert c in segments[i + 1];
          }
        }
      }
    }
  }

  /** Splitting undoes joining. */
  lemma {:induction false} SegmentsOfJoin(segments: seq<string>)
    requires AllProper(segments)
    ensures Segments(Join(segments)) == segments
  {
    if |segments| > 0 {
      var s := Join(segments);
      JoinProper(segments);
      assert ProperSegment(segments[0]);
      var n := |segments[0]|;
      assert s[..n] == segments[0];
      SpanUnique(s, '/', n);
      if |segments| == 1 {
        assert s[n..] == "";
        assert segments == [s[..n]] + Segments(s[n..]);
      } else {
        SegmentsOfJoin(segments[1..]);
        assert s[n..][1..] == s[n + 1..];
        assert Segments(s[n..]) == Segments(s[n + 1..]) == segments[1..];
        assert segments == [segments[0]] + segments[1..];
      }
    }
  }

  // ---------------------------------------------------------------- collapsing "." and ".."

  /** Collapse `segments` on top of the already collapsed `acc`; None when a ".." escapes the root. */
  function CollapseFrom(acc: seq<string>, segments: seq<string>): Option<seq<string>>
    decreases |segments|
  {
    if |segments| == 0 then Some(acc)
    else if segments[0] == "." then CollapseFrom(acc, segments[1..])
    else if segments[0] == ".." then
      if |acc| == 0 then None else CollapseFrom(acc[..|acc| - 1], segments[1..])
    else CollapseFrom(acc + [segments[0]], segments[1..])
  }

  function Collapse(segments: seq<string>): Option<seq<string>> {
    CollapseFrom([], segments)
  }

  /** The drive-rooted variant: a ".." at the drive root is dropped. */
  function ClampFrom(acc: seq<string>, segments: seq<string>): seq<string>
    decreases |segments|
  {
    if |segments| == 0 then acc
    else if segments[0] == "." then ClampFrom(acc, segments[1..])
    else if segments[0] == ".." then
      ClampFrom(if |acc| == 0 then acc else acc[..|acc| - 1], segments[1..])
    else ClampFrom(acc + [segments[0]], segments[1..])
  }

  method CollapsePathSegments(segments: seq<string>) returns (r: Option<seq<string>>)
    ensures r == Collapse(segments)
  {
    var collapsed: seq<string> := [];
    for i := 0 to |segments|
      invariant CollapseFrom(collapsed, segments[i..]) == Collapse(segments)
    {
      assert segments[i..][1..] == segments[i + 1..];
      if segments[i] == "." { continue; }
      if segments[i] == ".." {
        if |collapsed| == 0 { return None; }
        collapsed := collapsed[..|collapsed| - 1];
        continue;
      }
      collapsed := collapsed + [segments[i]];
    }
    r := Some(collapsed);
  }

  /** No "." or ".." left. */
  predicate Clean(segments: seq<string>) {
    forall i :: 0 <= i < |segments| ==> segments[i] != "." && segments[i] != ".."
  }

  lemma {:induction false} CollapseFromAppend(acc: seq<string>, xs: seq<string>, ys: seq<string>)
    ensures CollapseFrom(acc, xs + ys) ==
            (match CollapseFrom(acc, xs) case None => None case Some(m) => CollapseFrom(m, ys))
    decreases |xs|
  {
    if |xs| == 0 {
      assert xs + ys == ys;
    } else {
      assert (xs + ys)[1..] == xs[1..] + ys;
      if xs[0] == "." {
        CollapseFromAppend(acc, xs[1..], ys);
      } else if xs[0] == ".." {
        if |acc| > 0 { CollapseFromAppend(acc[..|acc| - 1], xs[1..], ys); }
      } else {
        CollapseFromAppend(acc + [xs[0]], xs[1..], ys);
      }
    }
  }

  lemma {:induction false} CollapseOfClean(acc: seq<string>, segments: seq<string>)
    requires Clean(segments)
    ensures CollapseFrom(acc, segments) == Some(acc + segments)
    ensures ClampFrom(acc, segments) == acc + segments
    decreases |segments|
  {
    if |segments| > 0 {
      CollapseOfClean(acc + [segments[0]], segments[1..]);
      assert acc + [segments[0]] + segments[1..] == acc + segments;
    } else {
      assert acc + segments == acc;
    }
  }

  lemma {:induction false} CollapseFromResult(acc: seq<string>, segments: seq<string>)
    requires Clean(acc)
    ensures CollapseFrom(acc, segments).Some? ==> Clean(CollapseFrom(acc, segments).value)
    ensures Clean(ClampFrom(acc, segments))
    ensures CollapseFrom(acc, segments).Some? ==>
              forall s :: s in CollapseFrom(acc, segments).value ==> s in acc || s in segments
    ensures forall s :: s in ClampFrom(acc, segments) ==> s in acc || s in segments
    decreases |segments|
  {
    if |segments| > 0 {
      if segments[0] == "." {
        CollapseFromResult(acc, segments[1..]);
      } else if segments[0] == ".." {
        CollapseFromResult(if |acc| == 0 then acc else acc[..|acc| - 1], segments[1..]);
      } else {
        CollapseFromResult(acc + [segments[0]], segments[1..]);
      }
    }
  }

  /** Collapsing can be done in two steps: an escape in the first part is final, otherwise only its result matters. */
  lemma CollapseConcat(xs: seq<string>, ys: seq<string>)
    ensures Collapse(xs).None? ==> Collapse(xs + ys).None?
    ensures Collapse(xs).Some? ==> Collapse(xs + ys) == Collapse(Collapse(xs).value + ys)
  {
    CollapseFromAppend([], xs, ys);
    if Collapse(xs).Some? {
      var c := Collapse(xs).value;
      CollapseFromResult([], xs);
      CollapseOfClean([], c);
      assert [] + c == c;
      CollapseFromAppend([], c, ys);
    }
  }

  // ---------------------------------------------------------------- canonical form

  /** `.` in the source's regular expressions does not match these. */
  predicate IsLineTerminator(c: char) {
    c == '\n' || c == '\r' || c == '\U{2028}' || c == '\U{2029}'
  }

  predicate SingleLine(s: string) {
    forall c :: c in s ==> !IsLineTerminator(c)
  }

  predicate HasDrive(s: string) {
    |s| >= 2 && IsLetter(s[0]) && s[1] == ':'
  }

  predicate DriveAbsolute(s: string) {
    HasDrive(s) && |s| >= 3 && s[2] == '/' && SingleLine(s[3..])
  }

  function Canonicalize(raw: string): Option<string> {
    var normalized := NormalizeSlashes(raw);
    if StartsWith(normalized, "//") then None
    else if DriveAbsolute(normalized) then
      Some(normalized[..2] + "/" + Join(ClampFrom([], Segments(normalized[3..]))))
    else if HasDrive(normalized) then None
    else
      match Collapse(Segments(normalized))
      case None => None
      case Some(collapsed) =>
        if StartsWith(normalized, "/") then Some("/" + Join(collapsed)) else Some(Join(collapsed))
  }

  method CanonicalizeLexicalPath(raw: string) returns (r: Option<string>)
    ensures r == Canonicalize(raw)
  {
    var normalized := NormalizeSlashes(raw);
    if StartsWith(normalized, "//") { return None; }
    if DriveAbsolute(normalized) {
      var segments := Segments(normalized[3..]);
      var collapsed: seq<string> := [];
      for i := 0 to |segments|
        invariant ClampFrom(collapsed, segments[i..]) == ClampFrom([], segments)
      {
        assert segments[i..][1..] == segments[i + 1..];
        if segments[i] == "." { continue; }
        if segments[i] == ".." {
          if |collapsed| > 0 { collapsed := collapsed[..|collapsed| - 1]; }
          continue;
        }
        collapsed := collapsed + [segments[i]];
      }
      return Some(normalized[..2] + "/" + Join(collapsed));
    }
    if HasDrive(normalized) { return None; }
    var collapsed := CollapsePathSegments(Segments(normalized));
    if collapsed.None? { return None; }
    r := Some(if StartsWith(normalized, "/") then "/" + Join(collapsed.value) else Join(collapsed.value));
  }

  lemma ProperFromSubset(segments: seq<string>, from: seq<string>)
    requires AllProper(from)
    requires forall s :: s in segments ==> s in from
    ensures AllProper(segments)
  {
    forall i | 0 <= i < |segments|
      ensures ProperSegment(segments[i])
    {
      assert segments[i] in from;
    }
  }

  /** What a canonical path is made of. */
  lemma CanonicalShape(raw: string) returns (segments: seq<string>)
    requires Canonicalize(raw).Some?
    ensures AllProper(segments) && Clean(segments)
    ensures forall i, c :: 0 <= i < |segments| && c in segments[i] ==> c in NormalizeSlashes(raw)
    ensures var n := NormalizeSlashes(raw);
            var c := Canonicalize(raw).value;
            && (DriveAbsolute(n) ==> segments == ClampFrom([], Segments(n[3..])) && c == n[..2] + "/" + Join(segments)
                                     && forall i, ch :: 0 <= i < |segments| && ch in segments[i] ==> ch in n[3..])
            && (!DriveAbsolute(n) ==> Some(segments) == Collapse(Segments(n))
                                      && c == (if StartsWith(n, "/") then "/" else "") + Join(segments))
  {
    var n := NormalizeSlashes(raw);
    var rest := if DriveAbsolute(n) then n[3..] else n;
    SegmentsProper(rest);
    CollapseFromResult([], Segments(rest));
    segments := if DriveAbsolute(n) then ClampFrom([], Segments(rest)) else Collapse(Segments(rest)).value;
    ProperFromSubset(segments, Segments(rest));
    hide Clean, ProperSegment, AllProper, Join, ClampFrom, Collapse;
    forall i, c | 0 <= i < |segments| && c in segments[i]
      ensures c in rest && c in n
    {
      assert segments[i] in Segments(rest);
      var j :| 0 <= j < |Segments(rest)| && Segments(rest)[j] == segments[i];
      assert c in Segments(rest)[j];
    }
  }

  lemma NormalizedFixed(s: string)
    requires '\\' !in s
    ensures NormalizeSlashes(s) == s
  {
  }

  lemma NormalizedHasNoBackslash(raw: string)
    ensures '\\' !in NormalizeSlashes(raw)
  {
  }

  lemma DriveFixed(drive: string, segments: seq<string>)
    requires |drive| == 2 && HasDrive(drive) && drive[0] != '\\'
    requires AllProper(segments) && Clean(segments) && '\\' !in Join(segments) && SingleLine(Join(segments))
    ensures Canonicalize(drive + "/" + Join(segments)) == Some(drive + "/" + Join(segments))
  {
    var c := drive + "/" + Join(segments);
    assert '\\' !in c;
    NormalizedFixed(c);
    assert c[3..] == Join(segments) && c[..2] == drive && c[2] == '/' && c[0] == drive[0] && c[1] == drive[1];
    SegmentsOfJoin(segments);
    CollapseOfClean([], segments);
    assert [] + segments == segments;
  }

  lemma RootedFixed(segments: seq<string>)
    requires AllProper(segments) && Clean(segments) && '\\' !in Join(segments)
    ensures Canonicalize("/" + Join(segments)) == Some("/" + Join(segments))
    ensures !HasDrive("/" + Join(segments))
  {
    var c := "/" + Join(segments);
    assert '\\' !in c;
    NormalizedFixed(c);
    JoinProper(segments);
    assert c[0] == '/' && c[1..] == Join(segments);
    SegmentsOfJoin(segments);
    CollapseOfClean([], segments);
    assert [] + segments == segments;
    assert Segments(c) == segments;
    assert !StartsWith(c, "//");
  }

  lemma UnrootedFixed(segments: seq<string>)
    requires AllProper(segments) && Clean(segments) && '\\' !in Join(segments)
    ensures var c := Join(segments); Canonicalize(c) == Some(c) <==> (HasDrive(c) ==> DriveAbsolute(c))
  {
    var c := Join(segments);
    NormalizedFixed(c);
    JoinProper(segments);
    SegmentsOfJoin(segments);
    CollapseOfClean([], segments);
    assert [] + segments == segments;
    if DriveAbsolute(c) { UnrootedDrive(segments); }
  }

  lemma CanonicalCharacters(raw: string, segments: seq<string>)
    requires AllProper(segments)
    requires forall i, c :: 0 <= i < |segments| && c in segments[i] ==> c in NormalizeSlashes(raw)
    ensures '\\' !in Join(segments)
  {
    NormalizedHasNoBackslash(raw);
    JoinProper(segments);
    forall ch | ch in Join(segments) ensures ch != '\\' {
      if ch != '/' {
        var i :| 0 <= i < |segments| && ch in segments[i];
      }
    }
  }

  lemma FixedIffDriveRooted(raw: string)
    requires Canonicalize(raw).Some?
    ensures var c := Canonicalize(raw).value;
            Canonicalize(c) == Some(c) <==> (HasDrive(c) ==> DriveAbsolute(c))
  {
    var n := NormalizeSlashes(raw);
    var segments := CanonicalShape(raw);
    CanonicalCharacters(raw, segments);
    if DriveAbsolute(n) {
      DriveCharacters(n, segments);
      DriveFixed(n[..2], segments);
      DriveIsAbsolute(n[..2], Join(segments));
    } else if StartsWith(n, "/") {
      RootedFixed(segments);
    } else {
      assert "" + Join(segments) == Join(segments);
      UnrootedFixed(segments);
    }
  }

  /** The segments of an unrooted path do not start with a drive, unless as the whole first segment before another one on
      the same line. */
  predicate NoStrayDrive(segments: seq<string>) {
    || |segments| == 0
    || !HasDrive(segments[0])
    || (|segments[0]| == 2 && |segments| > 1 && SingleLine(Join(segments[1..])))
  }

  lemma StrayDrive(segments: seq<string>)
    requires AllProper(segments)
    ensures NoStrayDrive(segments) <==> (HasDrive(Join(segments)) ==> DriveAbsolute(Join(segments)))
  {
    if |segments| > 0 {
      var c, first := Join(segments), segments[0];
      assert ProperSegment(first);
      assert c == if |segments| == 1 then first else first + "/" + Join(segments[1..]);
      if |first| >= 2 {
        assert c[0] == first[0] && c[1] == first[1];
        if |first| >= 3 { assert c[2] == first[2] && first[2] in first; }
      } else if |segments| > 1 {
        assert c[1] == '/';
      }
      if |first| == 2 && |segments| > 1 { assert c[2] == '/' && c[3..] == Join(segments[1..]); }
    }
  }

  /** Canonicalization is idempotent on rooted and drive-absolute paths, and on an unrooted one if and only if its
      collapsed segments have no stray drive: `./C:x` has the canonical form `C:x`, which is itself refused. */
  lemma CanonicalizeIdempotent(raw: string)
    requires Canonicalize(raw).Some?
    ensures var n, c := NormalizeSlashes(raw), Canonicalize(raw).value;
            Canonicalize(c) == Some(c) <==>
            StartsWith(n, "/") || DriveAbsolute(n) || NoStrayDrive(Collapse(Segments(n)).value)
  {
    FixedIffDriveRooted(raw);
    var n, c := NormalizeSlashes(raw), Canonicalize(raw).value;
    var segments := CanonicalShape(raw);
    if DriveAbsolute(n) {
      DriveCharacters(n, segments);
      DriveIsAbsolute(n[..2], Join(segments));
    } else if StartsWith(n, "/") {
      assert c[0] == '/';
    } else {
      assert "" + Join(segments) == Join(segments);
      StrayDrive(segments);
    }
  }

  lemma DriveCharacters(n: string, segments: seq<string>)
    requires DriveAbsolute(n) && AllProper(segments)
    requires forall i, c :: 0 <= i < |segments| && c in segments[i] ==> c in n[3..]
    ensures HasDrive(n[..2]) && n[0] != '\\' && SingleLine(Join(segments))
  {
    JoinProper(segments);
    forall ch | ch in Join(segments) ensures !IsLineTerminator(ch) {
      if ch != '/' {
        var i :| 0 <= i < |segments| && ch in segments[i];
      }
    }
  }

  lemma DriveIsAbsolute(drive: string, rest: string)
    requires |drive| == 2 && HasDrive(drive) && SingleLine(rest)
    ensures DriveAbsolute(drive + "/" + rest)
  {
    var c := drive + "/" + rest;
    assert c[3..] == rest && c[0] == drive[0] && c[1] == drive[1] && c[2] == '/';
  }

  /** An unrooted result that looks like a drive path has the drive as its first segment. */
  lemma UnrootedDrive(segments: seq<string>)
    requires AllProper(segments) && Clean(segments) && DriveAbsolute(Join(segments))
    ensures Canonicalize(Join(segments)) == Some(Join(segments)) || '\\' in Join(segments)
  {
    var c := Join(segments);
    JoinProper(segments);
    assert |segments| > 0 && ProperSegment(segments[0]);
    var n := |segments[0]|;
    assert c[..n] == segments[0];
    assert forall i :: 0 <= i < n ==> c[i] in c[..n];
    assert n == 2 && |segments| > 1;
    var rest := segments[1..];
    assert AllProper(rest) && Clean(rest);
    assert c[3..] == Join(rest);
    SegmentsOfJoin(rest);
    CollapseOfClean([], rest);
    assert [] + rest == rest;
    assert c == c[..2] + "/" + c[3..];
    if '\\' !in c {
      NormalizedFixed(c);
    }
  }

  // ---------------------------------------------------------------- overlap

  datatype Parts = Parts(drive: Option<string>, rooted: bool, segments: seq<string>)

  function CanonicalParts(raw: string): Option<Parts> {
    match Canonicalize(raw)
    case None => None
    case Some(c) =>
      if DriveAbsolute(c) then Some(Parts(Some(Lower(c[..2])), true, Segments(c[3..])))
      else Some(Parts(None, StartsWith(c, "/"), Segments(c)))
  }

  predicate AgreeOnCommonPrefix(left: seq<string>, right: seq<string>) {
    forall i :: 0 <= i < |left| && i < |right| ==> left[i] == right[i]
  }

  predicate PartsOverlap(left: Parts, right: Parts) {
    if left.drive.Some? && right.drive.Some? && left.drive != right.drive then false
    else if (left.drive.Some? && !right.rooted) || (right.drive.Some? && !left.rooted) then true
    else if |left.segments| == 0 || |right.segments| == 0 then true
    else AgreeOnCommonPrefix(LowerAll(left.segments), LowerAll(right.segments))
  }

  predicate SegmentsOverlap(left: string, right: string) {
    match (CanonicalParts(left), CanonicalParts(right))
    case (Some(l), Some(r)) => PartsOverlap(l, r)
    case _ => true
  }

  method PathSegmentsOverlap(left: string, right: string) returns (overlap: bool)
    ensures overlap == SegmentsOverlap(left, right)
  {
    var l, r := CanonicalParts(left), CanonicalParts(right);
    if l.None? || r.None? { return true; }
    var leftPath, rightPath := l.value, r.value;
    if leftPath.drive.Some? && rightPath.drive.Some? && leftPath.drive != rightPath.drive { return false; }
    if (leftPath.drive.Some? && !rightPath.rooted) || (rightPath.drive.Some? && !leftPath.rooted) { return true; }
    if |leftPath.segments| == 0 || |rightPath.segments| == 0 { return true; }
    var common := if |leftPath.segments| < |rightPath.segments| then |leftPath.segments| else |rightPath.segments|;
    for i := 0 to common
      invariant forall k :: 0 <= k < i ==> LowerAll(leftPath.segments)[k] == LowerAll(rightPath.segments)[k]
    {
      if Lower(leftPath.segments[i]) != Lower(rightPath.segments[i]) {
        assert LowerAll(leftPath.segments)[i] != LowerAll(rightPath.segments)[i];
        return false;
      }
    }
    overlap := true;
  }

  /** One list is a prefix of the other. */
  predicate PrefixComparable(a: seq<string>, b: seq<string>) {
    a <= b || b <= a
  }

  lemma AgreeIffComparable(a: seq<string>, b: seq<string>)
    ensures AgreeOnCommonPrefix(a, b) <==> PrefixComparable(a, b)
  {
    if AgreeOnCommonPrefix(a, b) {
      if |a| <= |b| { assert a == b[..|a|]; } else { assert b == a[..|b|]; }
    }
  }

  /** A POSIX path that starts with one slash and never escapes above it. */
  predicate RootedPosix(raw: string) {
    var n := NormalizeSlashes(raw);
    StartsWith(n, "/") && !StartsWith(n, "//") && Collapse(Segments(n)).Some?
  }

  function RootedSegments(raw: string): seq<string>
    requires RootedPosix(raw)
  {
    Collapse(Segments(NormalizeSlashes(raw))).value
  }

  lemma RootedParts(raw: string)
    requires RootedPosix(raw)
    ensures CanonicalParts(raw) == Some(Parts(None, true, RootedSegments(raw)))
  {
    var segments := CanonicalShape(raw);
    var c := Canonicalize(raw).value;
    assert c[1..] == Join(segments);
    SegmentsOfJoin(segments);
    assert Segments(c) == segments;
  }

  /** On rooted paths the component-wise scan decides whether one file tree contains the other. */
  lemma RootedOverlapIffComparable(left: string, right: string)
    requires RootedPosix(left) && RootedPosix(right)
    ensures SegmentsOverlap(left, right) <==>
            PrefixComparable(LowerAll(RootedSegments(left)), LowerAll(RootedSegments(right)))
  {
    RootedParts(left);
    RootedParts(right);
    AgreeIffComparable(LowerAll(RootedSegments(left)), LowerAll(RootedSegments(right)));
  }

  /** `below` names something inside the tree of `above`. */
  predicate Below(below: Parts, above: Parts) {
    below.drive == above.drive && below.rooted == above.rooted && above.segments <= below.segments
  }

  /** "No overlap" is stable downwards, with drives and roots included. */
  lemma NoOverlapBelow(left: string, right: string, left': string, right': string)
    requires CanonicalParts(left').Some? && CanonicalParts(right').Some?
    requires !SegmentsOverlap(left, right)
    requires Below(CanonicalParts(left').value, CanonicalParts(left).value)
    requires Below(CanonicalParts(right').value, CanonicalParts(right).value)
    ensures !SegmentsOverlap(left', right')
  {
    var l, r := CanonicalParts(left).value, CanonicalParts(right).value;
    var l', r' := CanonicalParts(left').value, CanonicalParts(right').value;
    if !(l.drive.Some? && r.drive.Some? && l.drive != r.drive) {
      var i :| 0 <= i < |l.segments| && i < |r.segments| && LowerAll(l.segments)[i] != LowerAll(r.segments)[i];
      assert LowerAll(l'.segments)[i] != LowerAll(r'.segments)[i];
    }
  }

  // ---------------------------------------------------------------- joining

  /** Without its trailing slashes. */
  function StripTrailing(s: string): string
    decreases |s|
  {
    if |s| > 0 && s[|s| - 1] == '/' then StripTrailing(s[..|s| - 1]) else s
  }

  function JoinPathSegments(cwd: string, relative: string): string {
    var base := StripTrailing(NormalizeSlashes(cwd));
    var rel := NormalizeSlashes(relative);
    if |rel| == 0 then (if base == "" then "/" else base)
    else if StartsWith(rel, "/") || HasDrive(rel) then rel
    else base + "/" + rel
  }

  // ---------------------------------------------------------------- path identity keys

  function UncSegments(key: string): Option<seq<string>> {
    if StartsWith(key, "//") then Some(LowerAll(Segments(key[2..]))) else None
  }

  predicate KeysOverlap(left: string, right: string) {
    match (UncSegments(left), UncSegments(right))
    case (Some(l), Some(r)) => AgreeOnCommonPrefix(l, r)
    case (None, None) => SegmentsOverlap(left, right)
    case _ => false
  }

  lemma KeysOverlapSymmetric(left: string, right: string)
    ensures KeysOverlap(left, right) <==> KeysOverlap(right, left)
  {
  }
}
