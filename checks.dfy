/**
 * The permission predicates: owner identity, owner-or-permission flags, and
 * whether one member may moderate another.
 */
module Checks {
  import opened Config

  /** The command check that admits only the configured owner. */
  predicate IsOwner(authorId: int) {
    authorId == OWNER_ID
  }

  /** Exactly one user passes the owner check: the configured owner. */
  lemma OwnerIsOneUser(a: int, b: int)
    ensures IsOwner(OWNER_ID)
    ensures IsOwner(a) && IsOwner(b) ==> a == b
  {
  }

  /**
   * An attribute read by name from the invoker's channel permissions and
   * taken as a truth value; `granted` holds every attribute of the
   * permissions object so read, and a name that is no attribute reads as
   * false.
   */
  function Flag(granted: map<string, bool>, name: string): bool {
    if name in granted then granted[name] else false
  }

  /**
   * Whether every requested flag is granted. The requirement is the list of
   * keyword arguments (name, value); only the names are read, in order, and
   * the check stops at the first flag that is not granted.
   */
  function AllGranted(granted: map<string, bool>, requested: seq<(string, bool)>): (r: bool)
    ensures r <==> forall i :: 0 <= i < |requested| ==> Flag(granted, requested[i].0)
  {
    if requested == [] then true
    else if !Flag(granted, requested[0].0) then false
    else AllGranted(granted, requested[1..])
  }

  /** The owner always passes; anyone else passes iff every requested flag is granted. */
  function IsOwnerOrHasPermissions(authorId: int, granted: map<string, bool>, requested: seq<(string, bool)>): (r: bool)
    ensures IsOwner(authorId) ==> r
    ensures !IsOwner(authorId) ==> (r <==> forall i :: 0 <= i < |requested| ==> Flag(granted, requested[i].0))
  {
    if IsOwner(authorId) then true
    else AllGranted(granted, requested)
  }

  /** An empty requirement admits everyone, owner or not. */
  lemma EmptyRequirementPassesEveryone(authorId: int, granted: map<string, bool>)
    ensures IsOwnerOrHasPermissions(authorId, granted, [])
  {
  }

  /** A non-owner asking for a name that is no permission flag is refused. */
  lemma UnknownFlagFails(authorId: int, granted: map<string, bool>, requested: seq<(string, bool)>, i: nat)
    requires !IsOwner(authorId)
    requires i < |requested| && requested[i].0 !in granted
    ensures !IsOwnerOrHasPermissions(authorId, granted, requested)
  {
  }

  /**
   * The values given with the requested names are never read: requesting a
   * flag with value false still demands that the flag be granted.
   */
  lemma {:induction false} RequestedValuesIgnored(authorId: int, granted: map<string, bool>, requested: seq<(string, bool)>, other: seq<(string, bool)>)
    requires |requested| == |other|
    requires forall i :: 0 <= i < |requested| ==> requested[i].0 == other[i].0
    ensures IsOwnerOrHasPermissions(authorId, granted, requested) == IsOwnerOrHasPermissions(authorId, granted, other)
  {
    if !IsOwner(authorId) {
      if IsOwnerOrHasPermissions(authorId, granted, requested) {
        forall i | 0 <= i < |other| ensures Flag(granted, other[i].0) {
          assert Flag(granted, requested[i].0);
        }
      } else {
        var i :| 0 <= i < |requested| && !Flag(granted, requested[i].0);
        assert !Flag(granted, other[i].0);
      }
    }
  }

  /**
   * Whether an actor may moderate a target, from the two ids and the ranks of
   * their highest roles. No capability is consulted: the owner may moderate
   * anyone but the owner; nobody else may moderate the owner or anyone ranked
   * at or above themself.
   */
  function CanModerate(actorId: int, targetId: int, actorRank: int, targetRank: int): (r: bool)
    ensures actorId == OWNER_ID ==> (r <==> targetId != OWNER_ID)
    ensures targetId == OWNER_ID ==> !r
    ensures actorId != OWNER_ID && targetRank >= actorRank ==> !r
    ensures actorId != OWNER_ID && targetId != OWNER_ID && targetRank < actorRank ==> r
  {
    if actorId == OWNER_ID then targetId != OWNER_ID
    else if targetId == OWNER_ID then false
    else if targetRank >= actorRank then false
    else true
  }
}
