/**
 * Grants: the tables of packages/authz, the query that decides a check, and the simple one-hop rule
 * it stands for. Unique indexes make every table a set of rows.
 */
module GrantRule {
  import opened Base

  datatype Tuple = Tuple(subjectType: string, subjectId: string, relation: string, objectType: string, objectId: string)
  datatype Membership = Membership(memberType: string, memberId: string, subjectType: string, subjectId: string)
  datatype Mapping = Mapping(provider: string, tenantId: string, mappingType: string, claimValue: string,
                             subjectType: string, subjectId: string)

  datatype Tables = Tables(tuples: set<Tuple>, memberships: set<Membership>, mappings: set<Mapping>)

  datatype CheckInput = CheckInput(subjectType: Option<string>, subjectId: string,
                                   relation: string, objectType: string, objectId: string)

  function SubjectType(input: CheckInput): string {
    if input.subjectType.Some? then input.subjectType.value else "user"
  }

  // ---- The query ----

  /** A row of the left join: `member` is null when no membership matches. */
  datatype Joined = Joined(tuple: Tuple, member: Option<Membership>)

  predicate On(input: CheckInput, t: Tuple, m: Membership) {
    && m.memberType == "user" && m.memberId == input.subjectId
    && (m.subjectType == "team" || m.subjectType == "role")
    && m.subjectType == t.subjectType && m.subjectId == t.subjectId
  }

  ghost predicate InLeftJoin(tables: Tables, input: CheckInput, row: Joined) {
    && row.tuple in tables.tuples
    && if row.member.Some? then row.member.value in tables.memberships && On(input, row.tuple, row.member.value)
       else forall m | m in tables.memberships :: !On(input, row.tuple, m)
  }

  /** The `where` clause; a comparison with null is not true. */
  predicate Where(input: CheckInput, row: Joined) {
    var t := row.tuple;
    var direct := t.subjectType == SubjectType(input) && t.subjectId == input.subjectId;
    var member := row.member.Some? && row.member.value.memberType == "user"
        && row.member.value.memberId == input.subjectId;
    && (if SubjectType(input) == "user" then direct || member else direct)
    && t.relation == input.relation && t.objectType == input.objectType && t.objectId == input.objectId
  }

  ghost predicate QueryDecision(tables: Tables, input: CheckInput) {
    exists row :: InLeftJoin(tables, input, row) && Where(input, row)
  }

  // ---- The rule ----

  function Needs(input: CheckInput, subjectType: string, subjectId: string): Tuple {
    Tuple(subjectType, subjectId, input.relation, input.objectType, input.objectId)
  }

  ghost predicate Inherits(tables: Tables, input: CheckInput) {
    exists m | m in tables.memberships ::
      && m.memberType == "user" && m.memberId == input.subjectId
      && (m.subjectType == "team" || m.subjectType == "role")
      && Needs(input, m.subjectType, m.subjectId) in tables.tuples
  }

  /** Granted directly, or to a team or role the user is a member of. */
  ghost predicate OneHop(tables: Tables, input: CheckInput) {
    || Needs(input, SubjectType(input), input.subjectId) in tables.tuples
    || (SubjectType(input) == "user" && Inherits(tables, input))
  }

  lemma QueryIsOneHop(tables: Tables, input: CheckInput)
    ensures QueryDecision(tables, input) <==> OneHop(tables, input)
  {
    var direct := Needs(input, SubjectType(input), input.subjectId);
    if direct in tables.tuples {
      if m :| m in tables.memberships && On(input, direct, m) {
        assert InLeftJoin(tables, input, Joined(direct, Some(m))) && Where(input, Joined(direct, Some(m)));
      } else {
        assert InLeftJoin(tables, input, Joined(direct, None)) && Where(input, Joined(direct, None));
      }
    }
    if SubjectType(input) == "user" && Inherits(tables, input) {
      var m :| && m in tables.memberships && m.memberType == "user" && m.memberId == input.subjectId
               && (m.subjectType == "team" || m.subjectType == "role")
               && Needs(input, m.subjectType, m.subjectId) in tables.tuples;
      var row := Joined(Needs(input, m.subjectType, m.subjectId), Some(m));
      assert InLeftJoin(tables, input, row) && Where(input, row);
    }
    if QueryDecision(tables, input) {
      var row :| InLeftJoin(tables, input, row) && Where(input, row);
      assert row.tuple == Needs(input, row.tuple.subjectType, row.tuple.subjectId);
    }
  }

  // ---- Mutations ----

  datatype Mutation =
    | GrantRelation(tuple: Tuple)
    | RevokeRelation(tuple: Tuple)
    | RevokeAllForSubject(subjectId: string, subjectType: string)
    | GrantMembership(membership: Membership)
    | RevokeMembership(membership: Membership)
    | RevokeAllMembershipsForMember(memberId: string, memberType: string)
    | GrantIdentityMapping(mapping: Mapping)
    | RevokeIdentityMapping(mapping: Mapping)

  predicate ValidTarget(m: Membership) {
    m.subjectType == "team" || m.subjectType == "role"
  }

  /** A membership that targets neither team nor role is refused before its statement. */
  predicate Refuses(m: Mutation) {
    (m.GrantMembership? || m.RevokeMembership?) && !ValidTarget(m.membership)
  }

  lemma MutateTwice(tables: Tables, m: Mutation)
    ensures Mutate(Mutate(tables, m), m) == Mutate(tables, m)
  {
  }

  /** The tables after the mutation's one statement; an invalid membership target throws before it. */
  function Mutate(tables: Tables, m: Mutation): Tables {
    match m
    case GrantRelation(t) => tables.(tuples := tables.tuples + {t})
    case RevokeRelation(t) => tables.(tuples := tables.tuples - {t})
    case RevokeAllForSubject(id, ty) =>
      tables.(tuples := set t | t in tables.tuples && !(t.subjectType == ty && t.subjectId == id))
    case GrantMembership(e) => if ValidTarget(e) then tables.(memberships := tables.memberships + {e}) else tables
    case RevokeMembership(e) => if ValidTarget(e) then tables.(memberships := tables.memberships - {e}) else tables
    case RevokeAllMembershipsForMember(id, ty) =>
      tables.(memberships := set e | e in tables.memberships && !(e.memberType == ty && e.memberId == id))
    case GrantIdentityMapping(e) => tables.(mappings := tables.mappings + {e})
    case RevokeIdentityMapping(e) => tables.(mappings := tables.mappings - {e})
  }

  // ---- The cache key ----

  const SEPARATOR: char := '\U{001F}'

  function CacheKey(input: CheckInput): string {
    SubjectType(input) + [SEPARATOR] + (input.subjectId + [SEPARATOR] + (input.relation + [SEPARATOR]
      + (input.objectType + [SEPARATOR] + input.objectId)))
  }

  const SUBJECT_TYPES := {"organization", "team", "role", "application", "user", "service", "delegated"}

  const RELATIONS := {"kit:use", "kit:act", "kit:deploy", "kit:telemetry", "kit:admin", "platform:admin"}

  const OBJECT_TYPES := {"organization", "kit", "platform", "application"}

  /** The only checks the code can be asked: types and relations come from closed lists. */
  predicate Typed(input: CheckInput) {
    SubjectType(input) in SUBJECT_TYPES && input.relation in RELATIONS && input.objectType in OBJECT_TYPES
  }

  predicate Plain(word: string) {
    SEPARATOR !in word
  }

  predicate PlainWords(input: CheckInput) {
    Plain(SubjectType(input)) && Plain(input.relation) && Plain(input.objectType)
  }

  predicate Clean(input: CheckInput) {
    PlainWords(input) && Plain(input.subjectId)
  }

  predicate SameCheck(a: CheckInput, b: CheckInput) {
    SubjectType(a) == SubjectType(b) && a.(subjectType := None) == b.(subjectType := None)
  }

  lemma FirstField(a: string, x: string, b: string, y: string)
    requires a + [SEPARATOR] + x == b + [SEPARATOR] + y
    requires Plain(a) && Plain(b)
    ensures a == b && x == y
  {
    var s := a + [SEPARATOR] + x;
    assert s[|a|] == SEPARATOR && s[|b|] == SEPARATOR;
    assert forall k | 0 <= k < |a| :: s[k] == a[k] != SEPARATOR;
    assert forall k | 0 <= k < |b| :: s[k] == b[k] != SEPARATOR;
    assert a == s[..|a|] && b == s[..|b|];
    assert x == s[|a| + 1..] && y == s[|b| + 1..];
  }

  /** Only the subject id must be free of the separator; the object id is last and may hold anything. */
  lemma KeyIdentifiesCheck(a: CheckInput, b: CheckInput)
    requires Clean(a) && Clean(b)
    ensures CacheKey(a) == CacheKey(b) <==> SameCheck(a, b)
  {
    if CacheKey(a) == CacheKey(b) {
      var restA := a.objectType + [SEPARATOR] + a.objectId;
      var restB := b.objectType + [SEPARATOR] + b.objectId;
      FirstField(SubjectType(a), a.subjectId + [SEPARATOR] + (a.relation + [SEPARATOR] + restA),
                 SubjectType(b), b.subjectId + [SEPARATOR] + (b.relation + [SEPARATOR] + restB));
      FirstField(a.subjectId, a.relation + [SEPARATOR] + restA, b.subjectId, b.relation + [SEPARATOR] + restB);
      FirstField(a.relation, restA, b.relation, restB);
      FirstField(a.objectType, a.objectId, b.objectType, b.objectId);
    }
  }

  // ---- When typed checks share a key ----

  lemma SubjectTypesArePlain(word: string)
    requires word in SUBJECT_TYPES
    ensures Plain(word)
  {
  }

  lemma RelationsArePlain(word: string)
    requires word in RELATIONS
    ensures Plain(word) && word !in OBJECT_TYPES
  {
    assert |word| in {7, 10, 13, 9, 14};
  }

  lemma ObjectTypesArePlain(word: string)
    requires word in OBJECT_TYPES
    ensures Plain(word)
  {
  }

  function Sep(front: string, back: string): string {
    front + [SEPARATOR] + back
  }

  /** The key after the subject type. */
  function Rest(subjectId: string, relation: string, objectType: string, objectId: string): string {
    Sep(subjectId, Sep(relation, Sep(objectType, objectId)))
  }

  lemma KeyOf(a: CheckInput)
    ensures CacheKey(a) == Sep(SubjectType(a), Rest(a.subjectId, a.relation, a.objectType, a.objectId))
  {
  }

  lemma SepAssociates(x: string, y: string, z: string)
    ensures Sep(Sep(x, y), z) == Sep(x, Sep(y, z))
  {
    assert (x + [SEPARATOR] + y) + [SEPARATOR] + z == x + [SEPARATOR] + (y + [SEPARATOR] + z);
  }

  /** A plain first field ends at the first separator: it is the whole front, or the front begins with it. */
  lemma PlainFront(front: string, back: string, word: string, rest: string) returns (tail: string)
    requires Sep(front, back) == Sep(word, rest) && Plain(word)
    ensures front == word ==> back == rest
    ensures front != word ==> front == Sep(word, tail) && rest == Sep(tail, back)
  {
    var s := Sep(front, back);
    assert s[|front|] == SEPARATOR && s[|word|] == SEPARATOR;
    assert word == s[..|word|] && rest == s[|word| + 1..] && front == s[..|front|] && back == s[|front| + 1..];
    PlainEnds(s, word, |front|);
    tail := "";
    if |front| > |word| {
      tail := front[|word| + 1..];
      assert front == word + [SEPARATOR] + tail;
      assert rest == tail + [SEPARATOR] + back;
    }
  }

  lemma PlainEnds(s: string, word: string, at: nat)
    requires word <= s && Plain(word) && at < |s| && s[at] == SEPARATOR
    ensures |word| <= at
  {
    assert forall i | 0 <= i < |word| :: s[i] == word[i] && word[i] != SEPARATOR;
  }

  /** What stands before the fields of the shorter check: nothing, or some text and a separator. */
  function Before(p: Option<string>, back: string): string {
    if p.Some? then Sep(p.value, back) else back
  }

  function Behind(front: string, p: Option<string>): string {
    if p.Some? then Sep(front, p.value) else front
  }

  /** The subject id of `a` hides the first fields of `b`, and the object id of `b` hides the last fields of `a`. */
  predicate ShadowsAt(a: CheckInput, b: CheckInput, p: Option<string>) {
    && SubjectType(a) == SubjectType(b)
    && a.subjectId == Behind(Sep(b.subjectId, Sep(b.relation, b.objectType)), p)
    && b.objectId == Before(p, Sep(a.relation, Sep(a.objectType, a.objectId)))
  }

  ghost predicate Shadows(a: CheckInput, b: CheckInput) {
    exists p :: ShadowsAt(a, b, p)
  }

  lemma ShadowsShareKey(a: CheckInput, b: CheckInput, p: Option<string>)
    requires ShadowsAt(a, b, p)
    ensures CacheKey(a) == CacheKey(b) && !SameCheck(a, b)
  {
    var fields := Sep(a.relation, Sep(a.objectType, a.objectId));
    var s, r, ot := b.subjectId, b.relation, b.objectType;
    KeyOf(a);
    KeyOf(b);
    SepAssociates(s, Sep(r, ot), b.objectId);
    SepAssociates(r, ot, b.objectId);
    if p.Some? {
      SepAssociates(Sep(s, Sep(r, ot)), p.value, fields);
    }
    assert |a.subjectId| > |b.subjectId|;
  }

  /** Of two fronts of the same text the longer begins with the shorter and a separator. */
  lemma LongerFront(front: string, back: string, shorter: string, rest: string) returns (tail: string)
    requires Sep(front, back) == Sep(shorter, rest) && |front| > |shorter|
    ensures front == Sep(shorter, tail) && rest == Sep(tail, back)
  {
    var s := Sep(front, back);
    assert s[|shorter|] == SEPARATOR && front == s[..|front|] && shorter == s[..|shorter|];
    assert back == s[|front| + 1..] && rest == s[|shorter| + 1..];
    tail := front[|shorter| + 1..];
    assert front[|shorter|] == SEPARATOR;
    assert front == shorter + [SEPARATOR] + tail;
    assert rest == tail + [SEPARATOR] + back;
  }

  /** The longer subject id hides the fields of the shorter check, or a relation would be an object type. */
  lemma HidesBehind(a: CheckInput, b: CheckInput)
    requires Plain(a.relation) && Plain(b.relation) && Plain(b.objectType) && a.relation != b.objectType
    requires SubjectType(a) == SubjectType(b) && |a.subjectId| > |b.subjectId|
    requires Rest(a.subjectId, a.relation, a.objectType, a.objectId) ==
             Rest(b.subjectId, b.relation, b.objectType, b.objectId)
    ensures Shadows(a, b)
  {
    var fields := Sep(a.relation, Sep(a.objectType, a.objectId));
    var s, r, ot := b.subjectId, b.relation, b.objectType;
    var x := LongerFront(a.subjectId, fields, s, Sep(r, Sep(ot, b.objectId)));
    hide Sep, Plain;
    var y := PlainFront(x, fields, r, Sep(ot, b.objectId));
    if x == r {
      FirstField2(a.relation, Sep(a.objectType, a.objectId), ot, b.objectId);
      assert false;
    } else {
      var p := PlainFront(y, fields, ot, b.objectId);
      if y == ot {
        assert ShadowsAt(a, b, None);
      } else {
        SepAssociates(s, Sep(r, ot), p);
        SepAssociates(r, ot, p);
        assert ShadowsAt(a, b, Some(p));
      }
    }
  }

  lemma FirstField2(a: string, x: string, b: string, y: string)
    requires Sep(a, x) == Sep(b, y) && Plain(a) && Plain(b)
    ensures a == b && x == y
  {
    FirstField(a, x, b, y);
  }

  lemma LongerHides(a: CheckInput, b: CheckInput)
    requires Typed(a) && Typed(b) && CacheKey(a) == CacheKey(b) && |a.subjectId| > |b.subjectId|
    ensures Shadows(a, b)
  {
    SubjectTypesArePlain(SubjectType(a));
    SubjectTypesArePlain(SubjectType(b));
    RelationsArePlain(a.relation);
    RelationsArePlain(b.relation);
    ObjectTypesArePlain(b.objectType);
    KeyOf(a);
    KeyOf(b);
    hide Sep, Plain, CacheKey, Shadows;
    FirstField2(SubjectType(a), Rest(a.subjectId, a.relation, a.objectType, a.objectId),
                SubjectType(b), Rest(b.subjectId, b.relation, b.objectType, b.objectId));
    HidesBehind(a, b);
  }

  lemma SameLength(a: CheckInput, b: CheckInput)
    requires Typed(a) && Typed(b) && CacheKey(a) == CacheKey(b) && |a.subjectId| == |b.subjectId|
    ensures SameCheck(a, b)
  {
    SubjectTypesArePlain(SubjectType(a));
    SubjectTypesArePlain(SubjectType(b));
    RelationsArePlain(a.relation);
    RelationsArePlain(b.relation);
    ObjectTypesArePlain(a.objectType);
    ObjectTypesArePlain(b.objectType);
    KeyOf(a);
    KeyOf(b);
    var fieldsA, fieldsB := Sep(a.objectType, a.objectId), Sep(b.objectType, b.objectId);
    FirstField2(SubjectType(a), Rest(a.subjectId, a.relation, a.objectType, a.objectId),
                SubjectType(b), Rest(b.subjectId, b.relation, b.objectType, b.objectId));
    SameFront(a.subjectId, Sep(a.relation, fieldsA), b.subjectId, Sep(b.relation, fieldsB));
    hide Sep, Plain, CacheKey;
    FirstField2(a.relation, fieldsA, b.relation, fieldsB);
    FirstField2(a.objectType, a.objectId, b.objectType, b.objectId);
  }

  lemma SameFront(front: string, back: string, other: string, rest: string)
    requires Sep(front, back) == Sep(other, rest) && |front| == |other|
    ensures front == other && back == rest
  {
    var s := Sep(front, back);
    assert front == s[..|front|] == other && back == s[|front| + 1..] == rest;
  }

  /** Two typed checks share a key without being the same exactly when one's subject id hides the other's fields. */
  lemma TypedCollideExactly(a: CheckInput, b: CheckInput)
    requires Typed(a) && Typed(b)
    ensures CacheKey(a) == CacheKey(b) && !SameCheck(a, b) <==> Shadows(a, b) || Shadows(b, a)
  {
    if Shadows(a, b) {
      var p :| ShadowsAt(a, b, p);
      ShadowsShareKey(a, b, p);
    }
    if Shadows(b, a) {
      var p :| ShadowsAt(b, a, p);
      ShadowsShareKey(b, a, p);
    }
    hide CacheKey, Typed, Shadows;
    if CacheKey(a) == CacheKey(b) && !SameCheck(a, b) {
      if |a.subjectId| > |b.subjectId| {
        LongerHides(a, b);
      } else if |b.subjectId| > |a.subjectId| {
        LongerHides(b, a);
      } else {
        SameLength(a, b);
      }
    }
  }

  /** The subject id ends in a relation and an object type, or holds them before some more text. */
  ghost predicate SubjectHides(subjectId: string) {
    exists s, r, ot, p :: HidesAt(subjectId, s, r, ot, p)
  }

  predicate HidesAt(subjectId: string, s: string, r: string, ot: string, p: Option<string>) {
    r in RELATIONS && ot in OBJECT_TYPES && subjectId == Behind(Sep(s, Sep(r, ot)), p)
  }

  /** The object id begins with a relation and an object type, or holds them after some text. */
  ghost predicate ObjectHides(objectId: string) {
    exists p, r, ot, o :: HeldAt(objectId, p, r, ot, o)
  }

  predicate HeldAt(objectId: string, p: Option<string>, r: string, ot: string, o: string) {
    r in RELATIONS && ot in OBJECT_TYPES && objectId == Before(p, Sep(r, Sep(ot, o)))
  }

  ghost predicate SharesKey(a: CheckInput) {
    exists b :: Typed(b) && CacheKey(b) == CacheKey(a) && !SameCheck(b, a)
  }

  /** A typed check shares its key with another exactly when one of its ids hides a relation and an object type. */
  lemma TypedSharesKeyExactly(a: CheckInput)
    requires Typed(a)
    ensures SharesKey(a) <==> SubjectHides(a.subjectId) || ObjectHides(a.objectId)
  {
    hide CacheKey, RELATIONS, OBJECT_TYPES, SUBJECT_TYPES;
    if SharesKey(a) {
      var b :| Typed(b) && CacheKey(b) == CacheKey(a) && !SameCheck(b, a);
      TypedCollideExactly(a, b);
      if Shadows(a, b) {
        var p :| ShadowsAt(a, b, p);
        assert HidesAt(a.subjectId, b.subjectId, b.relation, b.objectType, p);
      } else {
        var p :| ShadowsAt(b, a, p);
        assert HeldAt(a.objectId, p, b.relation, b.objectType, b.objectId);
      }
    }
    if SubjectHides(a.subjectId) {
      var s, r, ot, p :| HidesAt(a.subjectId, s, r, ot, p);
      var b := CheckInput(a.subjectType, s, r, ot, Before(p, Sep(a.relation, Sep(a.objectType, a.objectId))));
      ShadowsShareKey(a, b, p);
    }
    if ObjectHides(a.objectId) {
      var p, r, ot, o :| HeldAt(a.objectId, p, r, ot, o);
      var b := CheckInput(a.subjectType, Behind(Sep(a.subjectId, Sep(a.relation, a.objectType)), p), r, ot, o);
      ShadowsShareKey(b, a, p);
    }
  }

  /** For any user and object: two typed checks, of different users and relations, under one key. */
  lemma TypedWitness(user: string, o: string)
    ensures
      var hidden := CheckInput(None, Sep(user, Sep("kit:use", "kit")), "kit:admin", "platform", o);
      var plain := CheckInput(None, user, "kit:use", "kit", Sep("kit:admin", Sep("platform", o)));
      Typed(hidden) && Typed(plain) && CacheKey(hidden) == CacheKey(plain) && !SameCheck(hidden, plain)
  {
    var hidden := CheckInput(None, Sep(user, Sep("kit:use", "kit")), "kit:admin", "platform", o);
    var plain := CheckInput(None, user, "kit:use", "kit", Sep("kit:admin", Sep("platform", o)));
    ShadowsShareKey(hidden, plain, None);
  }
}
