/** packages/agent/src/tool-resource-claims.ts and the resolvers of builtin-tool-resource-claims.ts. */
module Claims {
  import opened Strings
  import opened Paths
  import opened StableSort

  datatype Kind = Session | Terminal | Network | Global
  datatype Access = Read | Write | Exclusive

  datatype Claim =
    | PathClaim(key: string, access: Access, realKey: Option<string>, inodeKey: Option<string>)
    | NamedClaim(kind: Kind, key: string, access: Access)

  datatype Resolution = RunAlone | Claims(claims: seq<Claim>)

  // ---------------------------------------------------------------- conflicts

  function PathKeys(claim: Claim): seq<string>
    requires claim.PathClaim?
  {
    if claim.realKey.None? || claim.realKey.value == claim.key then [claim.key] else [claim.key, claim.realKey.value]
  }

  predicate PathClaimsOverlap(left: Claim, right: Claim)
    requires left.PathClaim? && right.PathClaim?
  {
    || (left.inodeKey.Some? && left.inodeKey == right.inodeKey)
    || exists l, r :: l in PathKeys(left) && r in PathKeys(right) && KeysOverlap(l, r)
  }

  predicate ClaimsConflict(left: Claim, right: Claim) {
    if left.access.Exclusive? || right.access.Exclusive? then true
    else if left.PathClaim? != right.PathClaim? then false
    else if left.NamedClaim? && left.kind != right.kind then false
    else if left.PathClaim? && !PathClaimsOverlap(left, right) then false
    else if left.NamedClaim? && left.key != right.key then false
    else !(left.access.Read? && right.access.Read?)
  }

  predicate ResolutionsConflict(left: Resolution, right: Resolution) {
    || left.RunAlone?
    || right.RunAlone?
    || exists l, r :: l in left.claims && r in right.claims && ClaimsConflict(l, r)
  }

  lemma ClaimsConflictSymmetric(left: Claim, right: Claim)
    ensures ClaimsConflict(left, right) <==> ClaimsConflict(right, left)
  {
    if left.PathClaim? && right.PathClaim? {
      forall l: string, r: string
        ensures KeysOverlap(l, r) <==> KeysOverlap(r, l)
      {
        KeysOverlapSymmetric(l, r);
      }
    }
  }

  lemma ResolutionsConflictSymmetric(left: Resolution, right: Resolution)
    ensures ResolutionsConflict(left, right) <==> ResolutionsConflict(right, left)
  {
    forall l: Claim, r: Claim
      ensures ClaimsConflict(l, r) <==> ClaimsConflict(r, l)
    {
      ClaimsConflictSymmetric(l, r);
    }
  }

  // ---------------------------------------------------------------- normal form

  /** What the resolvers below produce and what the scheduler and the plan key rely on. */
  predicate NormalClaim(claim: Claim) {
    && !claim.access.Exclusive?
    && DistinctKeys(claim)
  }

  /** An absent identity key and an empty one are told apart. */
  predicate DistinctKeys(claim: Claim) {
    claim.PathClaim? ==> claim.realKey != Some("") && claim.inodeKey != Some("")
  }

  predicate Normal(resolution: Resolution) {
    resolution.Claims? ==> forall c :: c in resolution.claims ==> NormalClaim(c)
  }

  // ---------------------------------------------------------------- canonical order

  function KindName(claim: Claim): string {
    match claim
    case PathClaim(_, _, _, _) => "path"
    case NamedClaim(Session, _, _) => "session"
    case NamedClaim(Terminal, _, _) => "terminal"
    case NamedClaim(Network, _, _) => "network"
    case NamedClaim(Global, _, _) => "global"
  }

  function AccessName(access: Access): string {
    match access
    case Read => "read"
    case Write => "write"
    case Exclusive => "exclusive"
  }

  function OrEmpty(key: Option<string>): string {
    if key.Some? then key.value else ""
  }

  function RealKeyOf(claim: Claim): string {
    if claim.PathClaim? then OrEmpty(claim.realKey) else ""
  }

  function InodeKeyOf(claim: Claim): string {
    if claim.PathClaim? then OrEmpty(claim.inodeKey) else ""
  }

  function CompareClaims(left: Claim, right: Claim): int {
    if KindName(left) != KindName(right) then (if StringLess(KindName(left), KindName(right)) then -1 else 1)
    else if left.key != right.key then (if StringLess(left.key, right.key) then -1 else 1)
    else if left.access != right.access then
      (if StringLess(AccessName(left.access), AccessName(right.access)) then -1 else 1)
    else if RealKeyOf(left) != RealKeyOf(right) then (if StringLess(RealKeyOf(left), RealKeyOf(right)) then -1 else 1)
    else if InodeKeyOf(left) != InodeKeyOf(right) then
      (if StringLess(InodeKeyOf(left), InodeKeyOf(right)) then -1 else 1)
    else 0
  }

  /** The five strings the comparison looks at, in order. */
  function SortKey(claim: Claim): seq<string> {
    [KindName(claim), claim.key, AccessName(claim.access), RealKeyOf(claim), InodeKeyOf(claim)]
  }

  function CompareKeys(a: seq<string>, b: seq<string>): int
    requires |a| == |b|
  {
    if |a| == 0 then 0
    else if a[0] != b[0] then (if StringLess(a[0], b[0]) then -1 else 1)
    else CompareKeys(a[1..], b[1..])
  }

  lemma CompareBySortKey(left: Claim, right: Claim)
    ensures CompareClaims(left, right) == CompareKeys(SortKey(left), SortKey(right))
  {
    var a, b := SortKey(left), SortKey(right);
    assert a[1..][1..] == a[2..] && b[1..][1..] == b[2..];
    assert a[2..][1..] == a[3..] && b[2..][1..] == b[3..];
    assert a[3..][1..] == a[4..] && b[3..][1..] == b[4..];
    assert a[4..][1..] == [] == b[4..][1..];
    assert CompareKeys(a[4..], b[4..]) ==
           if a[4] != b[4] then (if StringLess(a[4], b[4]) then -1 else 1) else 0;
    assert CompareKeys(a[3..], b[3..]) ==
           if a[3] != b[3] then (if StringLess(a[3], b[3]) then -1 else 1) else CompareKeys(a[4..], b[4..]);
    assert CompareKeys(a[2..], b[2..]) ==
           if a[2] != b[2] then (if StringLess(a[2], b[2]) then -1 else 1) else CompareKeys(a[3..], b[3..]);
    assert (left.access == right.access) == (AccessName(left.access) == AccessName(right.access)) by {
      assert AccessName(Read)[0] == 'r' && AccessName(Write)[0] == 'w' && AccessName(Exclusive)[0] == 'e';
    }
  }

  lemma {:induction false} CompareKeysOrder(a: seq<string>, b: seq<string>)
    requires |a| == |b|
    ensures CompareKeys(a, b) == -CompareKeys(b, a)
    ensures CompareKeys(a, b) == 0 <==> a == b
  {
    if |a| > 0 {
      StringLessTotal(a[0], b[0]);
      CompareKeysOrder(a[1..], b[1..]);
      assert a == [a[0]] + a[1..] && b == [b[0]] + b[1..];
    }
  }

  lemma {:induction false} CompareKeysTransitive(a: seq<string>, b: seq<string>, c: seq<string>)
    requires |a| == |b| == |c|
    requires CompareKeys(a, b) <= 0 && CompareKeys(b, c) <= 0
    ensures CompareKeys(a, c) <= 0
  {
    if |a| > 0 {
      StringLessTotal(a[0], b[0]);
      StringLessTotal(b[0], c[0]);
      StringLessTotal(a[0], c[0]);
      if a[0] == b[0] && b[0] == c[0] {
        CompareKeysTransitive(a[1..], b[1..], c[1..]);
      } else if a[0] != b[0] && b[0] != c[0] {
        StringLessTransitive(a[0], b[0], c[0]);
      }
    }
  }

  lemma CompareClaimsOrder(a: Claim, b: Claim)
    ensures CompareClaims(a, b) == -CompareClaims(b, a)
    ensures DistinctKeys(a) && DistinctKeys(b) ==> (CompareClaims(a, b) == 0 <==> a == b)
  {
    CompareBySortKey(a, b);
    CompareBySortKey(b, a);
    CompareKeysOrder(SortKey(a), SortKey(b));
    if SortKey(a) == SortKey(b) {
      assert SortKey(a)[0] == SortKey(b)[0] && SortKey(a)[1] == SortKey(b)[1] && SortKey(a)[2] == SortKey(b)[2];
      assert SortKey(a)[3] == SortKey(b)[3] && SortKey(a)[4] == SortKey(b)[4];
      NamesInjective(a, b);
    }
  }

  lemma NamesInjective(a: Claim, b: Claim)
    requires KindName(a) == KindName(b) && AccessName(a.access) == AccessName(b.access)
    ensures a.access == b.access && a.PathClaim? == b.PathClaim? && (a.NamedClaim? ==> a.kind == b.kind)
  {
    assert |KindName(a)| == |KindName(b)| && |AccessName(a.access)| == |AccessName(b.access)|;
    assert "session"[0] == 's' && "network"[0] == 'n';
    assert KindName(a)[0] == KindName(b)[0] && AccessName(a.access)[0] == AccessName(b.access)[0];
  }

  lemma CompareClaimsOrdering()
    ensures Ordering(CompareClaims)
  {
    forall a: Claim, b: Claim
      ensures CompareClaims(a, b) == -CompareClaims(b, a)
    {
      CompareClaimsOrder(a, b);
    }
    forall a: Claim, b: Claim, c: Claim | CompareClaims(a, b) <= 0 && CompareClaims(b, c) <= 0
      ensures CompareClaims(a, c) <= 0
    {
      CompareBySortKey(a, b);
      CompareBySortKey(b, c);
      CompareBySortKey(a, c);
      CompareKeysTransitive(SortKey(a), SortKey(b), SortKey(c));
    }
  }

  function CanonicalClaims(claims: seq<Claim>): seq<Claim> {
    Sort(claims, CompareClaims)
  }

  lemma CanonicalClaimsSame(claims: seq<Claim>)
    ensures multiset(CanonicalClaims(claims)) == multiset(claims)
    ensures forall c :: c in CanonicalClaims(claims) <==> c in claims
  {
    CompareClaimsOrdering();
    SortSorts(claims, CompareClaims);
  }

  /** Two claims tie when an absent identity key stands against an empty one. */
  predicate SomeTie(claims: seq<Claim>) {
    exists a, b :: a in claims && b in claims && a != b && SortKey(a) == SortKey(b)
  }

  /** The canonical sequence is independent of the order in which a call lists its claims, exactly when
      no two different claims agree on kind, key, access and (absent read as empty) identity keys. */
  lemma CanonicalClaimsPermutation(claims: seq<Claim>)
    ensures !SomeTie(claims) <==> OrderIndependent(claims, CompareClaims)
  {
    CompareClaimsOrdering();
    SortPermutation(claims, CompareClaims);
    forall a: Claim, b: Claim
      ensures Tied(a, b, CompareClaims) <==> a != b && SortKey(a) == SortKey(b)
    {
      CompareBySortKey(a, b);
      CompareKeysOrder(SortKey(a), SortKey(b));
    }
    assert NoTies(claims, CompareClaims) <==> !SomeTie(claims);
  }

  lemma TieWitness(claims: seq<Claim>) returns (other: seq<Claim>)
    requires SomeTie(claims)
    ensures multiset(other) == multiset(claims) && CanonicalClaims(other) != CanonicalClaims(claims)
  {
    var a, b :| a in claims && b in claims && a != b && SortKey(a) == SortKey(b);
    CompareBySortKey(a, b);
    CompareKeysOrder(SortKey(a), SortKey(b));
    CompareClaimsOrdering();
    var one, two := TiedOrders(claims, a, b, CompareClaims);
    other := if CanonicalClaims(one) == CanonicalClaims(claims) then two else one;
  }

  lemma DistinctKeysNoTie(claims: seq<Claim>)
    requires forall c :: c in claims ==> DistinctKeys(c)
    ensures !SomeTie(claims)
  {
    forall a, b | a in claims && b in claims && a != b
      ensures SortKey(a) != SortKey(b)
    {
      CompareClaimsOrder(a, b);
      CompareBySortKey(a, b);
      CompareKeysOrder(SortKey(a), SortKey(b));
    }
  }
}
