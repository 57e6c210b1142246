/**
 * The database tables and the cache as the objects they are in packages/authz, updated in place
 * between awaits. Each method does exactly one step of GrantCache's world.
 */
module GrantObjects {
  import opened Base
  import opened GrantRule
  import C = GrantCache

  class AuthzDatabase {
    var tuples: set<Tuple>
    var memberships: set<Membership>
    var mappings: set<Mapping>
    var versionRow: Option<nat>

    ghost function Contents(): Tables
      reads this
    {
      Tables(tuples, memberships, mappings)
    }

    constructor ()
      ensures Contents() == Tables({}, {}, {}) && versionRow == None
    {
      tuples, memberships, mappings, versionRow := {}, {}, {}, None;
    }

    /** The one statement of a lifecycle function; a membership with an invalid target is refused. */
    method Run(m: Mutation) returns (refused: bool, changed: bool)
      modifies this`tuples, this`memberships, this`mappings
      ensures Contents() == Mutate(old(Contents()), m)
      ensures changed <==> Contents() != old(Contents())
      ensures refused <==> (m.GrantMembership? || m.RevokeMembership?) && !ValidTarget(m.membership)
    {
      refused, changed := false, false;
      match m {
        case GrantRelation(t) =>
          changed := t !in tuples;
          tuples := tuples + {t};
        case RevokeRelation(t) =>
          changed := t in tuples;
          tuples := tuples - {t};
        case RevokeAllForSubject(id, ty) =>
          var kept := set t | t in tuples && !(t.subjectType == ty && t.subjectId == id);
          changed := kept != tuples;
          tuples := kept;
        case GrantMembership(e) =>
          refused := e.subjectType != "team" && e.subjectType != "role";
          if !refused {
            changed := e !in memberships;
            memberships := memberships + {e};
          }
        case RevokeMembership(e) =>
          refused := e.subjectType != "team" && e.subjectType != "role";
          if !refused {
            changed := e in memberships;
            memberships := memberships - {e};
          }
        case RevokeAllMembershipsForMember(id, ty) =>
          var kept := set e | e in memberships && !(e.memberType == ty && e.memberId == id);
          changed := kept != memberships;
          memberships := kept;
        case GrantIdentityMapping(e) =>
          changed := e !in mappings;
          mappings := mappings + {e};
        case RevokeIdentityMapping(e) =>
          changed := e in mappings;
          mappings := mappings - {e};
      }
    }

    method Bump() returns (version: nat)
      modifies this`versionRow
      ensures versionRow == Some(version)
      ensures version == (if old(versionRow).Some? then old(versionRow).value else 0) + 1
    {
      if versionRow.None? {
        versionRow := Some(1);
      } else {
        versionRow := Some(versionRow.value + 1);
      }
      version := versionRow.value;
    }
  }

  class StateObject {
    const version: nat
    var decisions: map<string, C.Decision>

    constructor (version: nat)
      ensures this.version == version && decisions == map[]
    {
      this.version := version;
      decisions := map[];
    }
  }

  class VersionedGrantCache {
    const ttlMs: nat
    var states: map<C.Handle, StateObject>
    ghost var objects: seq<StateObject>          // every state object made by this cache
    ghost var places: map<C.Handle, nat>         // where in `objects` each handle points

    ghost predicate Valid()
      reads this
    {
      && (forall i, j | 0 <= i < j < |objects| :: objects[i] != objects[j])
      && places.Keys == states.Keys
      && forall h | h in places :: places[h] < |objects| && states[h] == objects[places[h]]
    }

    ghost function View(i: nat): C.CacheState
      requires i < |objects|
      reads this, objects[i]
    {
      C.CacheState(objects[i].version, objects[i].decisions)
    }

    ghost function Abs(): C.Cache
      reads this, objects
    {
      C.Cache(seq(|objects|, i requires 0 <= i < |objects| reads this, objects => View(i)), places)
    }

    /** The constructor of the source, which throws outside five to fifteen minutes. */
    static method Create(ttlMs: nat) returns (cache: VersionedGrantCache?)
      ensures cache == null <==> ttlMs < 5 * 60 * 1000 || ttlMs > 15 * 60 * 1000
      ensures cache != null ==>
          fresh(cache) && cache.Valid() && cache.ttlMs == ttlMs
          && cache.Abs() == C.Cache([], map[])
    {
      if ttlMs < 5 * 60 * 1000 || ttlMs > 15 * 60 * 1000 {
        return null;
      }
      cache := new VersionedGrantCache.Empty(ttlMs);
    }

    constructor Empty(ttlMs: nat)
      ensures Valid() && this.ttlMs == ttlMs && Abs() == C.Cache([], map[])
    {
      this.ttlMs := ttlMs;
      states, objects, places := map[], [], map[];
    }

    /** From the version read to the lookup: the state object to remember, and the answer on a hit. */
    method AfterVersionRead(h: C.Handle, version: nat, input: CheckInput, now: int)
      returns (state: StateObject, hit: Option<bool>, ghost slot: nat)
      requires Valid()
      modifies this
      ensures Valid() && Abs() == C.Enter(old(Abs()), h, version)
      ensures h in states && state == states[h] && slot == places[h]
      ensures hit == C.Cached(Abs().objects[slot], CacheKey(input), now)
    {
      if h in states && states[h].version == version {
        state := states[h];
      } else {
        state := new StateObject(version);
        states := states[h := state];
        places := places[h := |objects|];
        objects := objects + [state];
      }
      slot := places[h];
      var key := CacheKey(input);
      hit := None;
      if key in state.decisions && state.decisions[key].expiresAt > now {
        hit := Some(state.decisions[key].allowed);
      }
      assert Abs().objects == C.Enter(old(Abs()), h, version).objects;
    }

    /** After the query: store the verdict in the state object the check remembered, replaced or not. */
    method AfterQuery(state: StateObject, ghost slot: nat, input: CheckInput, now: int, verdict: bool)
      requires Valid() && slot < |objects| && objects[slot] == state
      modifies state`decisions
      ensures Valid() && Abs() == C.Store(old(Abs()), slot, CacheKey(input), C.Decision(verdict, now + ttlMs))
    {
      state.decisions := state.decisions[CacheKey(input) := C.Decision(verdict, now + ttlMs)];
      assert Abs().objects == C.Store(old(Abs()), slot, CacheKey(input), C.Decision(verdict, now + ttlMs)).objects;
    }

    method Clear(h: C.Handle)
      requires Valid()
      modifies this
      ensures Valid() && Abs() == old(Abs()).(current := old(places) - {h})
    {
      states := states - {h};
      places := places - {h};
      assert Abs().objects == old(Abs()).objects;
    }
  }
}
