/**
 * The chat platform as the bot sees it, reduced to values: roles, members,
 * channels and guilds, and the way each call the bot makes can end.
 */
module Platform {

  datatype Option<+T> = None | Some(value: T)

  /** How one platform call ends: success, a refusal (`Forbidden`), or any other error. */
  datatype ApiResult = Done | Forbidden | Errored

  datatype Role = Role(id: int, name: string)

  /** The capability bits the handlers consult. */
  datatype Capability = BanMembers | KickMembers | ManageRoles

  /**
   * A member of one guild. `topRank` places the member's highest role in the
   * guild's role order (a higher rank is a higher role); `roleIds` are the
   * roles the member holds.
   */
  datatype Member = Member(id: int, topRank: int, perms: set<Capability>, roleIds: set<int>)

  datatype ChannelKind = TextChannel | VoiceChannel | OtherChannel

  /** A channel, with what the platform answers when the bot sets a role override on it. */
  datatype Channel = Channel(id: int, kind: ChannelKind, overrideResult: ApiResult)

  datatype Permission = SendMessages | AddReactions | Speak | Connect

  /** A channel-level override denying `denied` to the role `roleId`. */
  datatype Override = Override(channelId: int, roleId: int, denied: set<Permission>)

  /**
   * A guild: its roles in the platform's order, its channels, the overrides
   * set so far and the members the bot can see, by user id.
   */
  datatype Guild = Guild(
    id: int,
    name: string,
    memberCount: int,
    roles: seq<Role>,
    channels: seq<Channel>,
    overrides: seq<Override>,
    members: map<int, Member>)

  /**
   * What the platform answers to the bot's calls in one guild during one
   * command: creating a role (and the id the new role gets), and the one
   * moderation call (ban, kick, add or remove a role).
   */
  datatype Responses = Responses(createRole: ApiResult, newRoleId: int, mutation: ApiResult)

  /** The first role called `name`, as a lookup by attribute over the role list returns it. */
  function FindRole(roles: seq<Role>, name: string): (r: Option<Role>)
    ensures r.None? <==> forall i :: 0 <= i < |roles| ==> roles[i].name != name
    ensures r.Some? ==> exists i :: 0 <= i < |roles| && roles[i] == r.value && r.value.name == name &&
                                    forall j :: 0 <= j < i ==> roles[j].name != name
  {
    if roles == [] then None
    else if roles[0].name == name then Some(roles[0])
    else
      var r := FindRole(roles[1..], name);
      assert r.Some? ==> exists i :: 1 <= i < |roles| && roles[i] == r.value && r.value.name == name &&
                                     forall j :: 0 <= j < i ==> roles[j].name != name by {
        if r.Some? {
          var i :| 0 <= i < |roles[1..]| && roles[1..][i] == r.value && r.value.name == name &&
                   forall j :: 0 <= j < i ==> roles[1..][j].name != name;
          assert roles[i + 1] == r.value;
        }
      }
      r
  }

  /** Appending a role changes the lookup only when no earlier role has the name. */
  lemma {:induction false} FindRoleAppend(roles: seq<Role>, x: Role, name: string)
    ensures FindRole(roles + [x], name) ==
              if FindRole(roles, name).Some? then FindRole(roles, name)
              else if x.name == name then Some(x)
              else None
  {
    if roles != [] {
      assert (roles + [x])[1..] == roles[1..] + [x];
      FindRoleAppend(roles[1..], x, name);
    }
  }
}
