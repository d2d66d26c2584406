/**
 * The single-guild moderation cog: the guard chains of ban, kick, mute and
 * unmute, the lazily created "Muted" role, and the in-memory record of who
 * is muted in which guild.
 */
module Moderation {
  import opened Config
  import opened Platform
  import Checks

  /** The conventional name of the mute role; lookups match it exactly. */
  const MUTED: string := "Muted"

  // ---------------------------------------------------------------------------
  // Guard chains
  // ---------------------------------------------------------------------------

  /** Why a guard chain stopped a command, or `Proceed` when it did not. */
  datatype Verdict = Proceed | MissingPermissions | OwnerProtected | HierarchyDenied

  /** How a single-guild command ends. */
  datatype Reply =
    | Rejected(verdict: Verdict)  // a guard stopped the command before any platform call
    | RoleUnavailable             // no mute role exists and creating one was refused
    | AlreadyMuted
    | NotMuted
    | Performed                   // the platform carried out the moderation call
    | BotForbidden                // the platform refused the moderation call
    | Raised                      // another platform error escaped the handler

  /** The first guard of every handler: the capability, or being the owner. */
  predicate Authorized(cap: Capability, author: Member) {
    cap in author.perms || author.id == OWNER_ID
  }

  /**
   * The guard chain shared by ban, kick and mute, in its order: capability,
   * owner protection (even when the owner invokes), then the strict role
   * hierarchy, which the owner bypasses.
   */
  function Guard(cap: Capability, author: Member, target: Member): (v: Verdict)
    ensures v == MissingPermissions <==> !Authorized(cap, author)
    ensures v == OwnerProtected <==> Authorized(cap, author) && target.id == OWNER_ID
    ensures v == Proceed <==>
              Authorized(cap, author) && Checks.CanModerate(author.id, target.id, author.topRank, target.topRank)
  {
    if cap !in author.perms && author.id != OWNER_ID then MissingPermissions
    else if target.id == OWNER_ID then OwnerProtected
    else if target.topRank >= author.topRank && author.id != OWNER_ID then HierarchyDenied
    else Proceed
  }

  /** The reply once the one moderation call has been made; only `Forbidden` is caught. */
  function Outcome(result: ApiResult): Reply {
    match result
    case Done => Performed
    case Forbidden => BotForbidden
    case Errored => Raised
  }

  /**
   * The ban handler (with `BanMembers`) and the kick handler (with
   * `KickMembers`): the guard chain, then one ban or kick whose result is
   * `result`.
   */
  function BanOrKick(cap: Capability, author: Member, target: Member, result: ApiResult): (r: Reply)
    ensures r.Rejected? <==> Guard(cap, author, target) != Proceed
    ensures r.Rejected? ==> r.verdict == Guard(cap, author, target)
    ensures r == Performed <==>
              Authorized(cap, author) && Checks.CanModerate(author.id, target.id, author.topRank, target.topRank) &&
              result == Done
    ensures r == BotForbidden <==> Guard(cap, author, target) == Proceed && result == Forbidden
    ensures r == Raised <==> Guard(cap, author, target) == Proceed && result == Errored
  {
    var v := Guard(cap, author, target);
    if v != Proceed then Rejected(v) else Outcome(result)
  }

  // ---------------------------------------------------------------------------
  // The mute role
  // ---------------------------------------------------------------------------

  /** How looking up or creating the mute role ends. */
  datatype MuteRoleResult =
    | RoleReady(role: Role)  // found, or created
    | NoRole                 // creating the role was refused
    | Aborted                // another platform error escaped

  /** The permissions a mute override denies on a channel of this kind. */
  function DeniedFor(kind: ChannelKind): set<Permission> {
    match kind
    case TextChannel => {SendMessages, AddReactions, Speak}
    case VoiceChannel => {Speak, Connect}
    case OtherChannel => {}
  }

  /** Whether setting the mute override on `c` raises an error other than `Forbidden`. */
  predicate Raises(c: Channel) {
    c.kind != OtherChannel && c.overrideResult == Errored
  }

  /** The override that the call on `c` leaves in place: none for other kinds or a refused call. */
  function OverrideFor(c: Channel, roleId: int): seq<Override> {
    if c.kind != OtherChannel && c.overrideResult == Done then [Override(c.id, roleId, DeniedFor(c.kind))] else []
  }

  /** The overrides set, in channel order, when the calls run over all of `cs`. */
  function MuteOverrides(cs: seq<Channel>, roleId: int): (os: seq<Override>)
    ensures |os| <= |cs|
  {
    if cs == [] then [] else MuteOverrides(cs[..|cs| - 1], roleId) + OverrideFor(cs[|cs| - 1], roleId)
  }

  /** The index of the first channel whose override call raises, or `|cs|` when none does. */
  function FirstRaise(cs: seq<Channel>): (k: nat)
    ensures k <= |cs|
    ensures forall j :: 0 <= j < k ==> !Raises(cs[j])
    ensures k < |cs| ==> Raises(cs[k])
  {
    if cs == [] then 0 else if Raises(cs[0]) then 0 else 1 + FirstRaise(cs[1..])
  }

  /**
   * Find or create the mute role. An existing role named exactly "Muted" is
   * returned and nothing changes. Otherwise one role is created and the
   * channels get their deny overrides in order: a refused override is
   * skipped, any other error ends the walk and escapes with the role already
   * created. A refused creation yields no role and changes nothing.
   */
  function ResolveMuteRole(guild: Guild, resp: Responses): (r: (MuteRoleResult, Guild))
    ensures FindRole(guild.roles, MUTED).Some? ==> r == (RoleReady(FindRole(guild.roles, MUTED).value), guild)
    ensures r.0 == NoRole <==> FindRole(guild.roles, MUTED).None? && resp.createRole == Forbidden
    ensures r.0 == NoRole ==> r.1 == guild
    ensures r.0.RoleReady? ==> r.0.role.name == MUTED && FindRole(r.1.roles, MUTED) == Some(r.0.role)
    ensures r.1.roles == guild.roles ||
            (FindRole(guild.roles, MUTED).None? && resp.createRole == Done &&
             r.1.roles == guild.roles + [Role(resp.newRoleId, MUTED)])
    ensures r.0 == Aborted <==>
              FindRole(guild.roles, MUTED).None? &&
              (resp.createRole == Errored ||
               (resp.createRole == Done && exists i :: 0 <= i < |guild.channels| && Raises(guild.channels[i])))
    ensures r.0 == Aborted && resp.createRole == Done ==> r.1.roles == guild.roles + [Role(resp.newRoleId, MUTED)]
    ensures r.1.(roles := guild.roles, overrides := guild.overrides) == guild
  {
    match FindRole(guild.roles, MUTED)
    case Some(existing) => (RoleReady(existing), guild)
    case None =>
      match resp.createRole
      case Forbidden => (NoRole, guild)
      case Errored => (Aborted, guild)
      case Done =>
        var role := Role(resp.newRoleId, MUTED);
        var k := FirstRaise(guild.channels);
        var after := guild.(roles := guild.roles + [role],
                            overrides := guild.overrides + MuteOverrides(guild.channels[..k], role.id));
        FindRoleAppend(guild.roles, role, MUTED);
        (if k < |guild.channels| then Aborted else RoleReady(role), after)
  }

  /**
   * `create_mute_role`: look the role up, create it if absent, then walk the
   * channels setting overrides one at a time.
   */
  method CreateMuteRole(guild: Guild, resp: Responses) returns (result: MuteRoleResult, guild': Guild)
    ensures (result, guild') == ResolveMuteRole(guild, resp)
  {
    var existing := FindRole(guild.roles, MUTED);
    if existing.Some? {
      return RoleReady(existing.value), guild;
    }
    if resp.createRole == Forbidden {
      return NoRole, guild;
    } else if resp.createRole == Errored {
      return Aborted, guild;
    }
    var role := Role(resp.newRoleId, MUTED);
    var cs := guild.channels;
    var applied: seq<Override> := [];
    var i := 0;
    while i < |cs|
      invariant 0 <= i <= |cs|
      invariant i <= FirstRaise(cs)
      invariant applied == MuteOverrides(cs[..i], role.id)
    {
      assert cs[..i + 1][..i] == cs[..i];
      var c := cs[i];
      if c.kind != OtherChannel {
        match c.overrideResult
        case Done =>
          applied := applied + [Override(c.id, role.id, DeniedFor(c.kind))];
        case Forbidden =>
        case Errored =>
          return Aborted, guild.(roles := guild.roles + [role], overrides := guild.overrides + applied);
      }
      i := i + 1;
    }
    assert cs[..i] == cs;
    result := RoleReady(role);
    guild' := guild.(roles := guild.roles + [role], overrides := guild.overrides + applied);
  }

  /**
   * Every text or voice channel whose override call succeeds gets exactly its
   * deny set for the role, and every override set comes from such a channel:
   * refused channels and other kinds get none.
   */
  lemma {:induction false} MuteOverridesExact(cs: seq<Channel>, roleId: int)
    ensures forall i :: 0 <= i < |cs| && cs[i].kind != OtherChannel && cs[i].overrideResult == Done ==>
              Override(cs[i].id, roleId, DeniedFor(cs[i].kind)) in MuteOverrides(cs, roleId)
    ensures forall o :: o in MuteOverrides(cs, roleId) ==>
              exists i :: 0 <= i < |cs| && cs[i].kind != OtherChannel && cs[i].overrideResult == Done &&
                          o == Override(cs[i].id, roleId, DeniedFor(cs[i].kind))
  {
    if cs != [] {
      var init := cs[..|cs| - 1];
      MuteOverridesExact(init, roleId);
      forall o | o in MuteOverrides(cs, roleId)
        ensures exists i :: 0 <= i < |cs| && cs[i].kind != OtherChannel && cs[i].overrideResult == Done &&
                            o == Override(cs[i].id, roleId, DeniedFor(cs[i].kind))
      {
        if o in MuteOverrides(init, roleId) {
          var i :| 0 <= i < |init| && init[i].kind != OtherChannel && init[i].overrideResult == Done &&
                   o == Override(init[i].id, roleId, DeniedFor(init[i].kind));
          assert cs[i] == init[i];
        } else {
          assert cs[|cs| - 1].kind != OtherChannel && cs[|cs| - 1].overrideResult == Done;
        }
      }
    }
  }

  /**
   * With no mute role present, a successful creation and no override call
   * raising, the new role comes back and every channel has been visited.
   */
  lemma CreatedRoleCoversChannels(guild: Guild, resp: Responses)
    requires FindRole(guild.roles, MUTED).None? && resp.createRole == Done
    requires forall i :: 0 <= i < |guild.channels| ==> !Raises(guild.channels[i])
    ensures ResolveMuteRole(guild, resp).0 == RoleReady(Role(resp.newRoleId, MUTED))
    ensures ResolveMuteRole(guild, resp).1.overrides == guild.overrides + MuteOverrides(guild.channels, resp.newRoleId)
  {
    var k := FirstRaise(guild.channels);
    assert k == |guild.channels|;
    assert guild.channels[..k] == guild.channels;
  }

  /**
   * Resolving the mute role a second time returns the identical role and
   * creates nothing more, whatever the platform would answer.
   */
  lemma ResolveIsIdempotent(guild: Guild, resp: Responses, again: Responses)
    requires ResolveMuteRole(guild, resp).0.RoleReady?
    ensures ResolveMuteRole(ResolveMuteRole(guild, resp).1, again) ==
              (ResolveMuteRole(guild, resp).0, ResolveMuteRole(guild, resp).1)
  {
  }

  // ---------------------------------------------------------------------------
  // The mute record: user id -> (guild id -> role id)
  // ---------------------------------------------------------------------------

  type MuteTable = map<int, map<int, int>>

  /** The role recorded for `user` in `guild`, if any. */
  function Lookup(t: MuteTable, user: int, guild: int): Option<int> {
    if user in t && guild in t[user] then Some(t[user][guild]) else None
  }

  /** No user is kept with an empty set of guilds. */
  predicate Tidy(t: MuteTable) {
    forall u :: u in t ==> |t[u]| > 0
  }

  /** Record a mute: the inner map is created when absent; every other entry is kept. */
  function Insert(t: MuteTable, user: int, guild: int, roleId: int): (t': MuteTable)
    ensures forall u, g :: Lookup(t', u, g) == if u == user && g == guild then Some(roleId) else Lookup(t, u, g)
    ensures t'.Keys == t.Keys + {user}
    ensures Tidy(t) ==> Tidy(t')
  {
    var inner := if user in t then t[user] else map[];
    assert guild in inner[guild := roleId];
    t[user := inner[guild := roleId]]
  }

  /**
   * Forget a mute: the entry goes, and so does the user once no guild is
   * left; with no entry the record is unchanged.
   */
  function Delete(t: MuteTable, user: int, guild: int): (t': MuteTable)
    ensures forall u, g :: Lookup(t', u, g) == if u == user && g == guild then None else Lookup(t, u, g)
    ensures Lookup(t, user, guild).None? ==> t' == t
    ensures t'.Keys == if Lookup(t, user, guild).Some? && t[user].Keys == {guild} then t.Keys - {user} else t.Keys
    ensures Tidy(t) ==> Tidy(t')
  {
    if user in t && guild in t[user] then
      var inner := t[user] - {guild};
      if |inner| == 0 then
        assert t[user].Keys == {guild} by {
          forall g | g in t[user] ensures g == guild { assert g !in inner; }
        }
        t - {user}
      else
        assert t[user].Keys != {guild} by {
          var g := SomeGuild(inner);
        }
        t[user := inner]
    else t
  }

  /** A guild of a non-empty inner map. */
  lemma SomeGuild(m: map<int, int>) returns (g: int)
    requires |m| > 0
    ensures g in m
  {
    if forall k :: k !in m {
      assert false;
    }
    g :| g in m;
  }

  /** Two tidy records with the same entries are the same record. */
  lemma TidyExtensional(a: MuteTable, b: MuteTable)
    requires Tidy(a) && Tidy(b)
    requires forall u, g :: Lookup(a, u, g) == Lookup(b, u, g)
    ensures a == b
  {
    forall u | u in a ensures u in b && a[u] == b[u] {
      var g := SomeGuild(a[u]);
      assert Lookup(a, u, g).Some?;
      assert u in b;
      forall g' | g' in a[u] ensures g' in b[u] && a[u][g'] == b[u][g'] {
        assert Lookup(a, u, g') == Lookup(b, u, g');
      }
      forall g' | g' in b[u] ensures g' in a[u] {
        assert Lookup(a, u, g') == Lookup(b, u, g');
      }
    }
    forall u | u in b ensures u in a {
      var g := SomeGuild(b[u]);
      assert Lookup(a, u, g) == Lookup(b, u, g);
    }
  }

  /** Forgetting a fresh mute restores the record exactly. */
  lemma DeleteUndoesInsert(t: MuteTable, user: int, guild: int, roleId: int)
    requires Tidy(t) && Lookup(t, user, guild).None?
    ensures Delete(Insert(t, user, guild, roleId), user, guild) == t
  {
    TidyExtensional(Delete(Insert(t, user, guild, roleId), user, guild), t);
  }

  // ---------------------------------------------------------------------------
  // Mute and unmute
  // ---------------------------------------------------------------------------

  /**
   * The mute handler's decision: the guard chain with `ManageRoles`, then the
   * mute role (found or created), then the already-muted check, then one
   * `add_roles` call whose result is `resp.mutation`.
   */
  function MuteReply(author: Member, member: Member, guild: Guild, resp: Responses): (r: Reply)
    ensures r.Rejected? <==> Guard(ManageRoles, author, member) != Proceed
    ensures r.Rejected? ==> r.verdict == Guard(ManageRoles, author, member)
    ensures r == RoleUnavailable <==>
              Guard(ManageRoles, author, member) == Proceed && ResolveMuteRole(guild, resp).0 == NoRole
    ensures r == AlreadyMuted <==>
              Guard(ManageRoles, author, member) == Proceed && ResolveMuteRole(guild, resp).0.RoleReady? &&
              ResolveMuteRole(guild, resp).0.role.id in member.roleIds
    ensures r == Performed <==>
              Guard(ManageRoles, author, member) == Proceed && ResolveMuteRole(guild, resp).0.RoleReady? &&
              ResolveMuteRole(guild, resp).0.role.id !in member.roleIds && resp.mutation == Done
    ensures r == BotForbidden <==>
              Guard(ManageRoles, author, member) == Proceed && ResolveMuteRole(guild, resp).0.RoleReady? &&
              ResolveMuteRole(guild, resp).0.role.id !in member.roleIds && resp.mutation == Forbidden
    ensures r == Raised <==>
              Guard(ManageRoles, author, member) == Proceed &&
              (ResolveMuteRole(guild, resp).0.Aborted? ||
               (ResolveMuteRole(guild, resp).0.RoleReady? &&
                ResolveMuteRole(guild, resp).0.role.id !in member.roleIds && resp.mutation == Errored))
  {
    var v := Guard(ManageRoles, author, member);
    if v != Proceed then Rejected(v)
    else
      match ResolveMuteRole(guild, resp).0
      case NoRole => RoleUnavailable
      case Aborted => Raised
      case RoleReady(role) => if role.id in member.roleIds then AlreadyMuted else Outcome(resp.mutation)
  }

  /**
   * The unmute handler's decision: only the `ManageRoles` capability or
   * owner status is checked (no owner protection, no hierarchy); then the
   * "Muted" role must exist and be held; then one `remove_roles` call.
   */
  function UnmuteReply(author: Member, member: Member, guild: Guild, resp: Responses): (r: Reply)
    ensures r.Rejected? <==> !Authorized(ManageRoles, author)
    ensures r.Rejected? ==> r.verdict == MissingPermissions
    ensures r == NotMuted <==>
              Authorized(ManageRoles, author) &&
              (FindRole(guild.roles, MUTED).None? || FindRole(guild.roles, MUTED).value.id !in member.roleIds)
    ensures r == Performed <==>
              Authorized(ManageRoles, author) && FindRole(guild.roles, MUTED).Some? &&
              FindRole(guild.roles, MUTED).value.id in member.roleIds && resp.mutation == Done
    ensures r == BotForbidden <==>
              Authorized(ManageRoles, author) && FindRole(guild.roles, MUTED).Some? &&
              FindRole(guild.roles, MUTED).value.id in member.roleIds && resp.mutation == Forbidden
    ensures r == Raised <==>
              Authorized(ManageRoles, author) && FindRole(guild.roles, MUTED).Some? &&
              FindRole(guild.roles, MUTED).value.id in member.roleIds && resp.mutation == Errored
  {
    if !Authorized(ManageRoles, author) then Rejected(MissingPermissions)
    else
      match FindRole(guild.roles, MUTED)
      case None => NotMuted
      case Some(role) => if role.id !in member.roleIds then NotMuted else Outcome(resp.mutation)
  }

  /**
   * Unmute looks at neither the target's id nor its rank: the owner, or a
   * member ranked above the invoker, can be unmuted like anyone else.
   */
  lemma UnmuteIgnoresOwnerAndRank(author: Member, member: Member, guild: Guild, resp: Responses, id: int, rank: int)
    ensures UnmuteReply(author, member.(id := id, topRank := rank), guild, resp) == UnmuteReply(author, member, guild, resp)
  {
  }

  /**
   * Once a mute has gone through and the member holds the role, muting again
   * is answered "already muted" whatever the platform would do.
   */
  lemma SecondMuteIsAlreadyMuted(author: Member, member: Member, guild: Guild, resp: Responses, again: Responses)
    requires MuteReply(author, member, guild, resp) == Performed
    ensures MuteReply(author, member.(roleIds := member.roleIds + {ResolveMuteRole(guild, resp).0.role.id}),
                      ResolveMuteRole(guild, resp).1, again) == AlreadyMuted
  {
    ResolveIsIdempotent(guild, resp, again);
  }

  /**
   * A mute followed by an unmute of the same member in the same guild goes
   * through and leaves the record as it was before the mute.
   */
  lemma MuteThenUnmuteRestoresRecord(t: MuteTable, author: Member, member: Member, guild: Guild,
                                     resp: Responses, again: Responses)
    requires Tidy(t) && Lookup(t, member.id, guild.id).None?
    requires MuteReply(author, member, guild, resp) == Performed && again.mutation == Done
    ensures UnmuteReply(author, member.(roleIds := member.roleIds + {ResolveMuteRole(guild, resp).0.role.id}),
                        ResolveMuteRole(guild, resp).1, again) == Performed
    ensures Delete(Insert(t, member.id, guild.id, ResolveMuteRole(guild, resp).0.role.id), member.id, guild.id) == t
  {
    DeleteUndoesInsert(t, member.id, guild.id, ResolveMuteRole(guild, resp).0.role.id);
  }

  /**
   * The moderation cog. Its one piece of state is the mute record, which
   * mute and unmute update in place.
   */
  class ModerationSlash {
    var mutedUsers: MuteTable

    ghost predicate Valid()
      reads this
    {
      Tidy(mutedUsers)
    }

    constructor ()
      ensures Valid() && mutedUsers == map[]
    {
      mutedUsers := map[];
    }

    /**
     * `mute_user`: decide as `MuteReply`; the guild changes only through
     * the mute role's creation; the record gains the entry only when
     * `add_roles` succeeded.
     */
    method MuteUser(author: Member, member: Member, guild: Guild, resp: Responses) returns (reply: Reply, guild': Guild)
      requires Valid()
      modifies this
      ensures Valid()
      ensures reply == MuteReply(author, member, guild, resp)
      ensures guild' == if Guard(ManageRoles, author, member) == Proceed then ResolveMuteRole(guild, resp).1 else guild
      ensures mutedUsers ==
                if reply == Performed then Insert(old(mutedUsers), member.id, guild.id, ResolveMuteRole(guild, resp).0.role.id)
                else old(mutedUsers)
    {
      guild' := guild;
      var v := Guard(ManageRoles, author, member);
      if v != Proceed {
        return Rejected(v), guild';
      }
      var muteRole;
      muteRole, guild' := CreateMuteRole(guild, resp);
      if muteRole == NoRole {
        return RoleUnavailable, guild';
      } else if muteRole == Aborted {
        return Raised, guild';
      }
      if muteRole.role.id in member.roleIds {
        return AlreadyMuted, guild';
      }
      match resp.mutation
      case Done =>
        var inner := if member.id in mutedUsers then mutedUsers[member.id] else map[];
        mutedUsers := mutedUsers[member.id := inner[guild.id := muteRole.role.id]];
        reply := Performed;
      case Forbidden =>
        reply := BotForbidden;
      case Errored =>
        reply := Raised;
    }

    /**
     * `unmute_user`: decide as `UnmuteReply`; when `remove_roles` succeeded
     * the entry is forgotten, and the user too once no guild is left.
     */
    method UnmuteUser(author: Member, member: Member, guild: Guild, resp: Responses) returns (reply: Reply)
      requires Valid()
      modifies this
      ensures Valid()
      ensures reply == UnmuteReply(author, member, guild, resp)
      ensures mutedUsers == if reply == Performed then Delete(old(mutedUsers), member.id, guild.id) else old(mutedUsers)
    {
      if ManageRoles !in author.perms && author.id != OWNER_ID {
        return Rejected(MissingPermissions);
      }
      var muteRole := FindRole(guild.roles, MUTED);
      if muteRole.None? || muteRole.value.id !in member.roleIds {
        return NotMuted;
      }
      match resp.mutation
      case Done =>
        if member.id in mutedUsers && guild.id in mutedUsers[member.id] {
          mutedUsers := mutedUsers[member.id := mutedUsers[member.id] - {guild.id}];
          if |mutedUsers[member.id]| == 0 {
            mutedUsers := mutedUsers - {member.id};
          }
        }
        reply := Performed;
      case Forbidden =>
        reply := BotForbidden;
      case Errored =>
        reply := Raised;
    }
  }
}
