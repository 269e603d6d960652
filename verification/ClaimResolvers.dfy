/** How a tool call gets its claims: builtin-tool-resource-claims.ts and resolveToolClaimsForCall.
    Every resolver fails closed to `RunAlone`, and every result is in the normal form the scheduler relies on. */
module ClaimResolvers {
  import opened Strings
  import opened Paths
  import opened Claims

  /** The arguments of a call; `path` is the `path` property when it is a string. */
  datatype Arguments = NotPlain | Plain(path: Option<string>, rest: string)

  datatype Policy = Sequential | Parallel

  /** What an injected resource-key resolver answers. */
  datatype Field = Missing | NotText | Text(text: string)
  datatype KeyAnswer = KeyFailure | NotKeys | Keys(lexicalKey: Field, realKey: Field, inodeKey: Field)

  /** What a registered tool's own claim resolver answers. */
  datatype Candidate = NotAClaim | Candidate(kind: string, key: Option<string>, access: string)
  datatype ClaimAnswer = ClaimFailure | AnswerAlone | NotAList | ClaimList(candidates: seq<Candidate>)

  datatype Tool = Tool(name: string, mode: Option<Policy>, claims: Option<(Arguments, string) -> ClaimAnswer>)

  datatype Call = Call(id: string, name: string, arguments: Arguments)

  datatype Options = Options(
    cwd: string,
    policies: map<string, Policy>,
    tools: seq<Tool>,
    strict: bool,
    resolver: Option<string -> KeyAnswer>)

  const NEVER_PARALLEL_TOOLS: set<string> := {"clarify"}
  const PATH_SCOPED_TOOLS: set<string> := {"read", "write", "edit"}
  const SEARCH_PATH_TOOLS: set<string> := {"grep", "find", "ls", "search_files"}
  const PARALLEL_SAFE_TOOLS: set<string> :=
    {"grep", "find", "ls", "read", "search_files", "session_search", "skill_view", "skills_list",
     "vision_analyze", "web_extract", "web_search"}

  // ---------------------------------------------------------------- path keys

  predicate IsSpace(c: char) {
    || '\t' <= c <= '\r' || c == ' ' || c == '\U{A0}' || c == '\U{1680}' || '\U{2000}' <= c <= '\U{200A}'
    || c == '\U{2028}' || c == '\U{2029}' || c == '\U{202F}' || c == '\U{205F}' || c == '\U{3000}' || c == '\U{FEFF}'
  }

  predicate Blank(s: string) {
    forall i :: 0 <= i < |s| ==> IsSpace(s[i])
  }

  function StripLeading(s: string): string {
    if |s| > 0 && s[0] == '/' then StripLeading(s[1..]) else s
  }

  /** Three or more leading slashes mean one. */
  function NormalizeLeadingSlashes(raw: string): string {
    var s := NormalizeSlashes(raw);
    if StartsWith(s, "///") then "/" + StripLeading(s) else s
  }

  predicate DriveSlash(s: string) {
    HasDrive(s) && |s| >= 3 && s[2] == '/'
  }

  predicate RootedKey(s: string) {
    StartsWith(s, "/") || DriveSlash(s)
  }

  function CanonicalPathKey(raw: Option<string>, cwd: string): Option<string> {
    if raw.None? || Blank(raw.value) then None
    else
      var s := NormalizeLeadingSlashes(raw.value);
      match Canonicalize(cwd)
      case None => None
      case Some(canonicalCwd) =>
        if StartsWith(s, "//") || (HasDrive(s) && !DriveSlash(s)) || !RootedKey(canonicalCwd) then None
        else
          var resolved :=
            if DriveSlash(s) then s
            else if StartsWith(s, "/") then (if DriveSlash(canonicalCwd) then canonicalCwd[..2] + s else s)
            else JoinPathSegments(canonicalCwd, s);
          match Canonicalize(resolved)
          case None => None
          case Some(canonical) => if RootedKey(canonical) then Some(canonical) else None
  }

  lemma {:induction false} StripTrailingKeeps(s: string, k: nat)
    requires k < |s| && s[k] != '/'
    ensures StripTrailing(s) <= s && k < |StripTrailing(s)|
    decreases |s|
  {
    if s[|s| - 1] == '/' {
      StripTrailingKeeps(s[..|s| - 1], k);
    }
  }

  lemma {:induction false} StripTrailingPrefix(s: string)
    ensures StripTrailing(s) <= s
    decreases |s|
  {
    if |s| > 0 && s[|s| - 1] == '/' {
      StripTrailingPrefix(s[..|s| - 1]);
    }
  }

  lemma JoinKeepsRoot(cwd: string, relative: string)
    requires RootedKey(cwd) && |relative| > 0 && !HasDrive(NormalizeSlashes(relative))
    ensures var r := JoinPathSegments(cwd, relative); StartsWith(r, "/") || HasDrive(r)
  {
    var n := NormalizeSlashes(cwd);
    StripTrailingPrefix(n);
    if HasDrive(cwd) {
      StripTrailingKeeps(n, 1);
    }
  }

  /** Built-in path claims are compared on fixed points of canonicalization. */
  lemma PathKeyCanonical(raw: Option<string>, cwd: string)
    requires CanonicalPathKey(raw, cwd).Some?
    ensures var key := CanonicalPathKey(raw, cwd).value; RootedKey(key) && Canonicalize(key) == Some(key)
  {
    var s := NormalizeLeadingSlashes(raw.value);
    var canonicalCwd := Canonicalize(cwd).value;
    if !DriveSlash(s) && !StartsWith(s, "/") {
      NormalizedHasNoBackslash(raw.value);
      NormalizedFixed(s);
      JoinKeepsRoot(canonicalCwd, s);
    }
    var resolved :=
      if DriveSlash(s) then s
      else if StartsWith(s, "/") then (if DriveSlash(canonicalCwd) then canonicalCwd[..2] + s else s)
      else JoinPathSegments(canonicalCwd, s);
    var n := NormalizeSlashes(resolved);
    assert StartsWith(n, "/") || HasDrive(n);
    FixedIffDriveRooted(resolved);
    if DriveAbsolute(n) {
      var segments := CanonicalShape(resolved);
      JoinProper(segments);
      forall c | c in Join(segments)
        ensures !IsLineTerminator(c)
      {
        if c != '/' {
          var i :| 0 <= i < |segments| && c in segments[i];
        }
      }
      assert Canonicalize(resolved).value[3..] == Join(segments);
    }
  }

  predicate IsPathTool(name: string) {
    name in PATH_SCOPED_TOOLS || name in SEARCH_PATH_TOOLS
  }

  function BuiltinRawPath(name: string, arguments: Arguments, cwd: string): Option<string>
    requires arguments.Plain?
  {
    if name in PATH_SCOPED_TOOLS then arguments.path
    else if name !in SEARCH_PATH_TOOLS then None
    else if arguments.path.Some? && !Blank(arguments.path.value) then arguments.path
    else Some(cwd)
  }

  function BuiltinAccess(name: string): Access {
    if name == "read" || name in SEARCH_PATH_TOOLS then Read else Write
  }

  // ---------------------------------------------------------------- identities from an injected resolver

  /** A key as answered by the resolver, with a lower-cased UNC root or drive. */
  function ResolvedPathKey(raw: Field): Option<string> {
    if !raw.Text? || Blank(raw.text) then None
    else
      var s := NormalizeLeadingSlashes(raw.text);
      if StartsWith(s, "//") then UncPathKey(s[2..])
      else
        match Canonicalize(s)
        case None => None
        case Some(c) =>
          if DriveAbsolute(c) then Some(Lower(c[..2]) + "/" + c[3..])
          else if StartsWith(c, "/") then Some(c)
          else None
  }

  /** `host/share` and an optional suffix. */
  function UncPathKey(s: string): Option<string> {
    var host := s[..Span(s, '/')];
    var afterHost := StripLeading(s[|host|..]);
    var share := afterHost[..Span(afterHost, '/')];
    var suffix := StripLeading(afterHost[|share|..]);
    if |host| == 0 || |share| == 0 || !SingleLine(suffix) then None
    else
      var root := "//" + Lower(host) + "/" + Lower(share);
      if |suffix| == 0 then Some(root)
      else
        match Canonicalize(suffix)
        case None => None
        case Some(c) => Some(if |c| == 0 then root else root + "/" + c)
  }

  function ResolvedPathClaim(answer: KeyAnswer, access: Access): Resolution {
    if !answer.Keys? then RunAlone
    else
      var lexicalKey, realKey := ResolvedPathKey(answer.lexicalKey), ResolvedPathKey(answer.realKey);
      if || lexicalKey.None?
         || (!answer.realKey.Missing? && realKey.None?)
         || (!answer.inodeKey.Missing? && (answer.inodeKey.NotText? || answer.inodeKey.text == ""))
      then RunAlone
      else if && (StartsWith(lexicalKey.value, "//") || (DriveSlash(lexicalKey.value) && 'a' <= lexicalKey.value[0]))
              && answer.realKey.Missing? && answer.inodeKey.Missing?
      then RunAlone
      else
        Claims([PathClaim(lexicalKey.value, access, realKey,
                          if answer.inodeKey.Missing? then None else Some(answer.inodeKey.text))])
  }

  function PathClaimWithIdentity(raw: Option<string>, access: Access, options: Options): Resolution {
    if raw.None? || Blank(raw.value) then RunAlone
    else
      match options.resolver
      case Some(resolve) => ResolvedPathClaim(resolve(raw.value), access)
      case None =>
        match CanonicalPathKey(raw, options.cwd)
        case None => RunAlone
        case Some(key) => Claims([PathClaim(key, access, None, None)])
  }

  // ---------------------------------------------------------------- custom claims

  function KindOf(kind: string): Option<Kind> {
    if kind == "session" then Some(Session)
    else if kind == "terminal" then Some(Terminal)
    else if kind == "network" then Some(Network)
    else if kind == "global" then Some(Global)
    else None
  }

  function AccessOf(access: string): Option<Access> {
    if access == "read" then Some(Read)
    else if access == "write" then Some(Write)
    else if access == "exclusive" then Some(Exclusive)
    else None
  }

  /** One claim of a custom list; RunAlone when it is malformed. */
  function OneClaim(candidate: Candidate, options: Options): Resolution {
    if candidate.NotAClaim? || candidate.key.None? || Blank(candidate.key.value) then RunAlone
    else
      match AccessOf(candidate.access)
      case None => RunAlone
      case Some(access) =>
        if candidate.kind == "path" then
          if access.Exclusive? then RunAlone else PathClaimWithIdentity(candidate.key, access, options)
        else
          match KindOf(candidate.kind)
          case None => RunAlone
          case Some(kind) => Claims([NamedClaim(kind, candidate.key.value, access)])
  }

  function AllClaims(candidates: seq<Candidate>, options: Options): seq<Claim> {
    if |candidates| == 0 then []
    else
      (match OneClaim(candidates[0], options) case RunAlone => [] case Claims(claims) => claims)
      + AllClaims(candidates[1..], options)
  }

  /** One malformed or exclusive claim makes the whole call run alone. */
  function CustomClaims(answer: ClaimAnswer, options: Options): Resolution {
    if !answer.ClaimList? || |answer.candidates| == 0 then RunAlone
    else if exists c :: c in answer.candidates && OneClaim(c, options).RunAlone? then RunAlone
    else if exists c :: c in AllClaims(answer.candidates, options) && c.access.Exclusive? then RunAlone
    else Claims(AllClaims(answer.candidates, options))
  }

  lemma {:induction false} AllClaimsAppend(a: seq<Candidate>, b: seq<Candidate>, options: Options)
    ensures AllClaims(a + b, options) == AllClaims(a, options) + AllClaims(b, options)
  {
    if |a| == 0 {
      assert a + b == b;
    } else {
      assert (a + b)[1..] == a[1..] + b;
      AllClaimsAppend(a[1..], b, options);
    }
  }

  lemma AllClaimsSnoc(candidates: seq<Candidate>, i: nat, options: Options)
    requires i < |candidates| && OneClaim(candidates[i], options).Claims?
    ensures AllClaims(candidates[..i + 1], options) ==
            AllClaims(candidates[..i], options) + OneClaim(candidates[i], options).claims
  {
    AllClaimsAppend(candidates[..i], [candidates[i]], options);
    assert candidates[..i + 1] == candidates[..i] + [candidates[i]];
    assert [candidates[i]][1..] == [];
  }

  method NormalizeCustomClaims(answer: ClaimAnswer, options: Options) returns (r: Resolution)
    ensures r == CustomClaims(answer, options)
  {
    hide OneClaim;
    if !answer.ClaimList? || |answer.candidates| == 0 { return RunAlone; }
    var candidates := answer.candidates;
    var claims: seq<Claim> := [];
    var hasExclusiveAccess := false;
    for i := 0 to |candidates|
      invariant claims == AllClaims(candidates[..i], options)
      invariant forall k :: 0 <= k < i ==> !OneClaim(candidates[k], options).RunAlone?
      invariant hasExclusiveAccess <==> exists c :: c in claims && c.access.Exclusive?
    {
      var one := OneClaim(candidates[i], options);
      if one.RunAlone? {
        assert candidates[i] in candidates;
        return RunAlone;
      }
      OneClaimAccess(candidates[i], options);
      AllClaimsSnoc(candidates, i, options);
      claims := claims + one.claims;
      if AccessOf(candidates[i].access) == Some(Exclusive) {
        assert one.claims[0] in claims;
        hasExclusiveAccess := true;
      }
    }
    assert candidates[..|candidates|] == candidates;
    r := if hasExclusiveAccess then RunAlone else Claims(claims);
  }

  lemma OneClaimAccess(candidate: Candidate, options: Options)
    ensures OneClaim(candidate, options).Claims? ==>
              && candidate.Candidate?
              && |OneClaim(candidate, options).claims| == 1
              && DistinctKeys(OneClaim(candidate, options).claims[0])
              && Some(OneClaim(candidate, options).claims[0].access) == AccessOf(candidate.access)
  {
    if candidate.Candidate? && AccessOf(candidate.access).Some? {
      PathClaimNormal(candidate.key, AccessOf(candidate.access).value, options);
    }
  }

  lemma ResolvedKeyNonEmpty(raw: Field)
    ensures ResolvedPathKey(raw) != Some("")
  {
  }

  lemma PathClaimNormal(raw: Option<string>, access: Access, options: Options)
    ensures var r := PathClaimWithIdentity(raw, access, options);
            r.Claims? ==> |r.claims| == 1 && r.claims[0].PathClaim? && r.claims[0].access == access && DistinctKeys(r.claims[0])
  {
    if raw.Some? && options.resolver.Some? {
      var answer := (options.resolver.value)(raw.value);
      if answer.Keys? { ResolvedKeyNonEmpty(answer.realKey); }
    }
  }

  lemma {:induction false} AllClaimsDistinct(candidates: seq<Candidate>, options: Options)
    ensures forall c :: c in AllClaims(candidates, options) ==> DistinctKeys(c)
  {
    if |candidates| > 0 {
      OneClaimAccess(candidates[0], options);
      AllClaimsDistinct(candidates[1..], options);
    }
  }

  // ---------------------------------------------------------------- one call

  function FindTool(name: string, tools: seq<Tool>): Option<Tool> {
    if |tools| == 0 then None
    else if tools[0].name == name then Some(tools[0])
    else FindTool(name, tools[1..])
  }

  function PolicyOf(name: string, options: Options): Option<Policy> {
    match FindTool(name, options.tools)
    case Some(Tool(_, Some(mode), _)) => Some(mode)
    case _ => if name in options.policies then Some(options.policies[name]) else None
  }

  function DefaultClaims(call: Call, options: Options): Resolution {
    if !call.arguments.Plain? then RunAlone
    else if call.name in NEVER_PARALLEL_TOOLS || call.name == "bash" || PolicyOf(call.name, options) == Some(Sequential)
    then RunAlone
    else if IsPathTool(call.name) then
      match CanonicalPathKey(BuiltinRawPath(call.name, call.arguments, options.cwd), options.cwd)
      case None => RunAlone
      case Some(key) => Claims([PathClaim(key, BuiltinAccess(call.name), None, None)])
    else if call.name in PARALLEL_SAFE_TOOLS then Claims([])
    else if PolicyOf(call.name, options) == Some(Parallel) then (if options.strict then RunAlone else Claims([]))
    else RunAlone
  }

  function ResolveCall(call: Call, options: Options): Resolution {
    var tool := FindTool(call.name, options.tools);
    if tool.None? || tool.value.claims.None? then
      if && options.resolver.Some? && IsPathTool(call.name) && call.arguments.Plain?
         && call.name !in NEVER_PARALLEL_TOOLS && PolicyOf(call.name, options) != Some(Sequential)
      then
        PathClaimWithIdentity(BuiltinRawPath(call.name, call.arguments, options.cwd), BuiltinAccess(call.name), options)
      else DefaultClaims(call, options)
    else if !call.arguments.Plain? then RunAlone
    else if call.name in NEVER_PARALLEL_TOOLS || call.name == "bash" || PolicyOf(call.name, options) == Some(Sequential)
    then RunAlone
    else CustomClaims((tool.value.claims.value)(call.arguments, call.id), options)
  }

  method ResolveToolClaimsForCall(call: Call, options: Options) returns (r: Resolution)
    ensures r == ResolveCall(call, options)
  {
    var tool := FindTool(call.name, options.tools);
    if tool.None? || tool.value.claims.None? {
      if && options.resolver.Some? && IsPathTool(call.name) && call.arguments.Plain?
         && call.name !in NEVER_PARALLEL_TOOLS && PolicyOf(call.name, options) != Some(Sequential)
      {
        return PathClaimWithIdentity(BuiltinRawPath(call.name, call.arguments, options.cwd),
                                     BuiltinAccess(call.name), options);
      }
      return DefaultClaims(call, options);
    }
    if !call.arguments.Plain? { return RunAlone; }
    var resolution := NormalizeCustomClaims((tool.value.claims.value)(call.arguments, call.id), options);
    if call.name in NEVER_PARALLEL_TOOLS || call.name == "bash" || PolicyOf(call.name, options) == Some(Sequential) {
      return RunAlone;
    }
    r := resolution;
  }

  /** Whatever a tool or resolver answers, no resolution holds an exclusive claim or an empty identity key. */
  lemma ResolutionsNormal(call: Call, options: Options)
    ensures Normal(ResolveCall(call, options))
  {
    var tool := FindTool(call.name, options.tools);
    if call.arguments.Plain? {
      PathClaimNormal(BuiltinRawPath(call.name, call.arguments, options.cwd), BuiltinAccess(call.name), options);
      if tool.Some? && tool.value.claims.Some? {
        var answer := (tool.value.claims.value)(call.arguments, call.id);
        if answer.ClaimList? {
          AllClaimsDistinct(answer.candidates, options);
        }
      }
    }
  }

  // ---------------------------------------------------------------- when a call runs alone

  /** No resolver is asked to vouch for such a call. */
  predicate Forbidden(call: Call, options: Options) {
    || !call.arguments.Plain?
    || call.name in NEVER_PARALLEL_TOOLS || call.name == "bash"
    || PolicyOf(call.name, options) == Some(Sequential)
  }

  /** An answered key that may be another name for the same file when nothing identifies the file. */
  predicate AliasProne(key: string) {
    StartsWith(key, "//") || (DriveSlash(key) && 'a' <= key[0])
  }

  predicate ProperKeys(answer: KeyAnswer) {
    && answer.Keys? && ResolvedPathKey(answer.lexicalKey).Some?
    && (answer.realKey.Missing? || ResolvedPathKey(answer.realKey).Some?)
    && (answer.inodeKey.Missing? || (answer.inodeKey.Text? && answer.inodeKey.text != ""))
    && (answer.realKey.Missing? && answer.inodeKey.Missing? ==> !AliasProne(ResolvedPathKey(answer.lexicalKey).value))
  }

  /** The path has a key: lexically, or by the answer of the injected resolver. */
  predicate NamesPath(raw: Option<string>, options: Options) {
    && raw.Some? && !Blank(raw.value)
    && (options.resolver.None? ==> CanonicalPathKey(raw, options.cwd).Some?)
    && (options.resolver.Some? ==> ProperKeys((options.resolver.value)(raw.value)))
  }

  predicate ProperCandidate(c: Candidate, options: Options) {
    && c.Candidate? && c.key.Some? && !Blank(c.key.value)
    && c.access in {"read", "write"}
    && (c.kind in {"session", "terminal", "network", "global"} || (c.kind == "path" && NamesPath(c.key, options)))
  }

  predicate ProperAnswer(answer: ClaimAnswer, options: Options) {
    && answer.ClaimList? && |answer.candidates| > 0
    && forall c :: c in answer.candidates ==> ProperCandidate(c, options)
  }

  /** The claim of a candidate, field by field. */
  predicate ClaimOf(claim: Claim, c: Candidate) {
    && c.Candidate? && AccessOf(c.access) == Some(claim.access)
    && (claim.PathClaim? <==> c.kind == "path")
    && (claim.NamedClaim? ==> KindOf(c.kind) == Some(claim.kind) && c.key == Some(claim.key))
  }

  lemma PathClaimIff(raw: Option<string>, access: Access, options: Options)
    ensures PathClaimWithIdentity(raw, access, options).RunAlone? <==> !NamesPath(raw, options)
  {
  }

  lemma OneClaimIff(c: Candidate, options: Options)
    ensures ProperCandidate(c, options) <==>
              c.Candidate? && OneClaim(c, options).Claims? && AccessOf(c.access) != Some(Exclusive)
    ensures OneClaim(c, options).Claims? ==>
              |OneClaim(c, options).claims| == 1 && ClaimOf(OneClaim(c, options).claims[0], c)
  {
    hide NamesPath, PathClaimWithIdentity;
    if c.Candidate? && AccessOf(c.access).Some? {
      PathClaimIff(c.key, AccessOf(c.access).value, options);
      PathClaimNormal(c.key, AccessOf(c.access).value, options);
    }
  }

  lemma {:induction false} AllClaimsMatch(candidates: seq<Candidate>, options: Options)
    requires forall c :: c in candidates ==> OneClaim(c, options).Claims?
    ensures |AllClaims(candidates, options)| == |candidates|
    ensures forall k :: 0 <= k < |candidates| ==> ClaimOf(AllClaims(candidates, options)[k], candidates[k])
  {
    hide OneClaim, ClaimOf;
    if |candidates| > 0 {
      var rest := candidates[1..];
      OneClaimIff(candidates[0], options);
      AllClaimsMatch(rest, options);
      assert AllClaims(candidates, options) == OneClaim(candidates[0], options).claims + AllClaims(rest, options);
      forall k | 0 <= k < |candidates| ensures ClaimOf(AllClaims(candidates, options)[k], candidates[k]) {
        if k > 0 { assert ClaimOf(AllClaims(rest, options)[k - 1], rest[k - 1]); }
      }
    }
  }

  lemma CustomClaimsIff(answer: ClaimAnswer, options: Options)
    ensures CustomClaims(answer, options).RunAlone? <==> !ProperAnswer(answer, options)
    ensures var r := CustomClaims(answer, options);
            r.Claims? ==>
              && answer.ClaimList? && |r.claims| == |answer.candidates|
              && forall k :: 0 <= k < |r.claims| ==> ClaimOf(r.claims[k], answer.candidates[k])
  {
    hide OneClaim, ProperCandidate, AllClaims;
    if answer.ClaimList? && |answer.candidates| > 0 {
      var candidates := answer.candidates;
      forall c | c in candidates
        ensures ProperCandidate(c, options) <==>
                  c.Candidate? && OneClaim(c, options).Claims? && AccessOf(c.access) != Some(Exclusive)
      {
        OneClaimIff(c, options);
      }
      if forall c :: c in candidates ==> OneClaim(c, options).Claims? {
        AllClaimsMatch(candidates, options);
        var claims := AllClaims(candidates, options);
        if c :| c in candidates && c.Candidate? && AccessOf(c.access) == Some(Exclusive) {
          var k :| 0 <= k < |candidates| && candidates[k] == c;
          assert ClaimOf(claims[k], candidates[k]);
          assert claims[k] in claims;
        }
        if claim :| claim in claims && claim.access.Exclusive? {
          var k :| 0 <= k < |claims| && claims[k] == claim;
          assert ClaimOf(claims[k], candidates[k]);
          assert candidates[k] in candidates;
        }
      }
    }
  }

  /** The claims of such a call are known: its tool's own list is proper, its path has a key, or it touches nothing. */
  predicate Vouched(call: Call, options: Options)
    requires call.arguments.Plain?
  {
    var tool := FindTool(call.name, options.tools);
    if tool.Some? && tool.value.claims.Some? then
      ProperAnswer((tool.value.claims.value)(call.arguments, call.id), options)
    else if IsPathTool(call.name) then
      NamesPath(BuiltinRawPath(call.name, call.arguments, options.cwd), options)
    else
      call.name in PARALLEL_SAFE_TOOLS || (PolicyOf(call.name, options) == Some(Parallel) && !options.strict)
  }

  /** A call runs alone if and only if it is forbidden to run beside others or its claims are not known. Otherwise a tool
      with a resolver of its own has one claim for each candidate, in order; a built-in path tool has one path claim with
      its own access; any other tool has none. */
  lemma RunsAloneIff(call: Call, options: Options)
    ensures var r, tool := ResolveCall(call, options), FindTool(call.name, options.tools);
            && (r.RunAlone? <==> Forbidden(call, options) || !Vouched(call, options))
            && (r.Claims? ==>
                  if tool.Some? && tool.value.claims.Some? then
                    var answer := (tool.value.claims.value)(call.arguments, call.id);
                    && answer.ClaimList? && |r.claims| == |answer.candidates|
                    && forall k :: 0 <= k < |r.claims| ==> ClaimOf(r.claims[k], answer.candidates[k])
                  else if IsPathTool(call.name) then
                    |r.claims| == 1 && r.claims[0].PathClaim?
                    && (r.claims[0].access == if call.name in {"write", "edit"} then Write else Read)
                  else r.claims == [])
  {
    hide CustomClaims, ProperAnswer, NamesPath, PathClaimWithIdentity, FindTool;
    var tool := FindTool(call.name, options.tools);
    if call.arguments.Plain? {
      if tool.Some? && tool.value.claims.Some? {
        CustomClaimsIff((tool.value.claims.value)(call.arguments, call.id), options);
      } else {
        var raw := BuiltinRawPath(call.name, call.arguments, options.cwd);
        PathClaimIff(raw, BuiltinAccess(call.name), options);
        PathClaimNormal(raw, BuiltinAccess(call.name), options);
        if options.resolver.None? { DefaultPathClaim(raw, BuiltinAccess(call.name), options); }
      }
    }
  }

  /** Without a resolver the lexical key decides, with or without the check for a blank path. */
  lemma DefaultPathClaim(raw: Option<string>, access: Access, options: Options)
    requires options.resolver.None?
    ensures PathClaimWithIdentity(raw, access, options) ==
            match CanonicalPathKey(raw, options.cwd)
            case None => RunAlone
            case Some(key) => Claims([PathClaim(key, access, None, None)])
  {
  }
}
