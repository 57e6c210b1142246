/**
 * What each lifecycle call of packages/authz does to the answers: a check is granted in one of several ways,
 * and each call takes or gives exactly the ways it names.
 */
module GrantEffects {
  import opened Base
  import opened GrantRule

  /** How a check can be granted: directly, or through a membership of the user. */
  datatype Way = Direct | Through(membership: Membership)

  /** The tuple a way needs. */
  function Needed(input: CheckInput, way: Way): Tuple {
    match way
    case Direct => Tuple(SubjectType(input), input.subjectId, input.relation, input.objectType, input.objectId)
    case Through(m) => Tuple(m.subjectType, m.subjectId, input.relation, input.objectType, input.objectId)
  }

  /** The way is one of the check's: a membership must be the user's, and of a team or role. */
  predicate Fits(input: CheckInput, way: Way) {
    way.Through? ==>
      && SubjectType(input) == "user" && way.membership.memberType == "user"
      && way.membership.memberId == input.subjectId
      && (way.membership.subjectType == "team" || way.membership.subjectType == "role")
  }

  /** The way stands in these tables. */
  predicate Stands(tables: Tables, input: CheckInput, way: Way) {
    && Fits(input, way) && Needed(input, way) in tables.tuples
    && (way.Through? ==> way.membership in tables.memberships)
  }

  /** A check is granted exactly if one of its ways stands. */
  lemma GrantedByWays(tables: Tables, input: CheckInput)
    ensures OneHop(tables, input) <==> exists way :: Stands(tables, input, way)
  {
    if OneHop(tables, input) {
      if Needed(input, Direct) in tables.tuples {
        assert Stands(tables, input, Direct);
      } else {
        var m :| m in tables.memberships
                 && m.memberType == "user" && m.memberId == input.subjectId
                 && (m.subjectType == "team" || m.subjectType == "role")
                 && Needs(input, m.subjectType, m.subjectId) in tables.tuples;
        assert Stands(tables, input, Through(m));
      }
    }
    if way :| Stands(tables, input, way) {
      assert Needed(input, way) == Needs(input, if way.Direct? then SubjectType(input) else way.membership.subjectType,
                                         if way.Direct? then input.subjectId else way.membership.subjectId);
    }
  }

  /** The call takes the way: it deletes its tuple or its membership. */
  predicate Takes(m: Mutation, input: CheckInput, way: Way) {
    match m
    case RevokeRelation(t) => Needed(input, way) == t
    case RevokeAllForSubject(id, ty) => Needed(input, way).subjectType == ty && Needed(input, way).subjectId == id
    case RevokeMembership(e) => way == Through(e)
    case RevokeAllMembershipsForMember(id, ty) =>
      way.Through? && way.membership.memberType == ty && way.membership.memberId == id
    case _ => false
  }

  /** The call gives the way: it inserts the tuple or the membership that was all that lacked. */
  predicate Gives(tables: Tables, m: Mutation, input: CheckInput, way: Way) {
    && Fits(input, way)
    && match m
       case GrantRelation(t) => Needed(input, way) == t && (way.Through? ==> way.membership in tables.memberships)
       case GrantMembership(e) => way == Through(e) && Needed(input, way) in tables.tuples
       case _ => false
  }

  /** For all tables: after a call a way stands exactly if it stood and was not taken, or is given. */
  lemma WaysAfter(tables: Tables, m: Mutation, input: CheckInput, way: Way)
    ensures Stands(Mutate(tables, m), input, way) <==>
            (Stands(tables, input, way) && !Takes(m, input, way)) || Gives(tables, m, input, way)
  {
  }

  /** So a check is granted after a call exactly if some way stood and was not taken, or is given. */
  lemma AnswerAfter(tables: Tables, m: Mutation, input: CheckInput)
    ensures OneHop(Mutate(tables, m), input) <==>
            exists way :: (Stands(tables, input, way) && !Takes(m, input, way)) || Gives(tables, m, input, way)
  {
    GrantedByWays(Mutate(tables, m), input);
    hide OneHop, Mutate, Stands, Takes, Gives;
    forall way
      ensures Stands(Mutate(tables, m), input, way) <==>
              (Stands(tables, input, way) && !Takes(m, input, way)) || Gives(tables, m, input, way)
    {
      WaysAfter(tables, m, input, way);
    }
  }

  /** The call decides the check: it takes or gives one of its ways. */
  ghost predicate Decides(tables: Tables, m: Mutation, input: CheckInput) {
    exists way :: (Fits(input, way) && Takes(m, input, way)) || Gives(tables, m, input, way)
  }

  /** A call changes no check that it does not decide. */
  lemma OthersKeepAnswers(tables: Tables, m: Mutation, input: CheckInput)
    requires !Decides(tables, m, input)
    ensures OneHop(Mutate(tables, m), input) <==> OneHop(tables, input)
  {
    AnswerAfter(tables, m, input);
    GrantedByWays(tables, input);
    hide OneHop, Mutate, Needed;
  }

  /** Revoking all of one subject decides only its own checks and those of users who inherit through it. */
  lemma RevokeAllSpares(tables: Tables, id: string, ty: string, input: CheckInput)
    requires !(SubjectType(input) == ty && input.subjectId == id)
    requires forall m | m in tables.memberships && m.memberId == input.subjectId ::
        !(m.subjectType == ty && m.subjectId == id)
    ensures OneHop(Mutate(tables, RevokeAllForSubject(id, ty)), input) <==> OneHop(tables, input)
  {
    AnswerAfter(tables, RevokeAllForSubject(id, ty), input);
    GrantedByWays(tables, input);
    hide OneHop, Mutate;
  }

  /** Afterwards the subject has no direct grant, and nobody inherits one through it. */
  lemma RevokeAllLeavesNone(tables: Tables, id: string, ty: string, input: CheckInput, way: Way)
    requires Needed(input, way).subjectType == ty && Needed(input, way).subjectId == id
    ensures !Stands(Mutate(tables, RevokeAllForSubject(id, ty)), input, way)
  {
    WaysAfter(tables, RevokeAllForSubject(id, ty), input, way);
  }

  /** Changes of memberships leave every check that is granted directly, and all checks of other members. */
  lemma MembershipsSpare(tables: Tables, m: Mutation, input: CheckInput)
    requires
      || ((m.GrantMembership? || m.RevokeMembership?)
          && !(SubjectType(input) == "user" && m.membership.memberType == "user"
               && m.membership.memberId == input.subjectId))
      || (m.RevokeAllMembershipsForMember?
          && !(SubjectType(input) == "user" && m.memberType == "user" && m.memberId == input.subjectId))
      || (!m.GrantRelation? && !m.RevokeRelation? && !m.RevokeAllForSubject? && Stands(tables, input, Direct))
    ensures OneHop(Mutate(tables, m), input) <==> OneHop(tables, input)
  {
    AnswerAfter(tables, m, input);
    GrantedByWays(tables, input);
    hide OneHop, Mutate;
    if Stands(tables, input, Direct) {
      assert !Takes(m, input, Direct) || m.RevokeRelation? || m.RevokeAllForSubject?;
    }
  }

  /** Revoking one membership leaves what the member inherits from its other teams and roles. */
  lemma OtherMembershipsStay(tables: Tables, e: Membership, input: CheckInput, way: Way)
    requires way != Through(e)
    ensures Stands(Mutate(tables, RevokeMembership(e)), input, way) <==> Stands(tables, input, way)
  {
    WaysAfter(tables, RevokeMembership(e), input, way);
  }

  /** Identity mappings decide no check; every other call leaves them alone. */
  lemma MappingsApart(tables: Tables, m: Mutation, e: Mapping)
    ensures e in Mutate(tables, m).mappings <==>
            || (e in tables.mappings && m != RevokeIdentityMapping(e)) || m == GrantIdentityMapping(e)
    ensures m.GrantIdentityMapping? || m.RevokeIdentityMapping? ==>
              forall input :: OneHop(Mutate(tables, m), input) <==> OneHop(tables, input)
  {
    if m.GrantIdentityMapping? || m.RevokeIdentityMapping? {
      forall input ensures OneHop(Mutate(tables, m), input) <==> OneHop(tables, input) {
        OthersKeepAnswers(tables, m, input);
      }
    }
  }

  /** Row by row: which tuples and memberships are there after a call. */
  lemma RowsAfter(tables: Tables, m: Mutation, t: Tuple, e: Membership)
    ensures t in Mutate(tables, m).tuples <==>
            || m == GrantRelation(t)
            || (t in tables.tuples && m != RevokeRelation(t) && m != RevokeAllForSubject(t.subjectId, t.subjectType))
    ensures e in Mutate(tables, m).memberships <==>
            || (m == GrantMembership(e) && (e.subjectType == "team" || e.subjectType == "role"))
            || (e in tables.memberships && m != RevokeAllMembershipsForMember(e.memberId, e.memberType)
                && !(m == RevokeMembership(e) && (e.subjectType == "team" || e.subjectType == "role")))
  {
  }
}
