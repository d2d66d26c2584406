# Moderation bot core, modelled in Dafny

This project models the decision and bookkeeping logic of a chat-platform
moderation bot. The bot serves slash commands in two cogs:

- **Single-guild moderation** (`cogs/moderation_slash.py`). `ban`, `kick`,
  `mute` and `unmute` act in the guild where they are invoked. Each runs an
  ordered guard chain (capability, owner protection, role hierarchy,
  already muted / not muted) and then makes one platform call. The cog finds
  or creates a role named exactly `"Muted"` and gives every channel a deny
  override for it. It keeps an in-memory record `user id -> (guild id -> role
  id)` of the mutes it has made.
- **Owner-only commands** (`cogs/owner_slash.py`). `globalban`, `globalkick`,
  `globalmute` and `globalunmute` check the caller and the argument, then
  sweep every guild the bot is in. Each guild's name goes into a success list
  or a failure list, or into neither. The reply shows both counts and at most
  ten names per list. `servers` lists the guilds in pages of twenty.
  `leaveserver` checks the caller and finds the guild to leave.
- **Permission predicates** (`utils/checks.py`): owner identity,
  owner-or-permission flags, and `can_moderate`.

Platform calls are not modelled as behaviour. Each call is an outcome given
as a parameter: `Done`, `Forbidden` or `Errored`, which stands for any other
exception. `Responses` holds the answers in one guild: the role creation,
the new role's id, and the one moderation call. Each `Channel` carries the
answer to its override call. Only `Forbidden` is caught where the source
catches only `Forbidden`. Any other error that escapes a single-guild
handler is the reply `Raised`.

Files and modules:

| file | module | models |
|---|---|---|
| `config.dfy` | `Config` | the owner id constant (`config.py:10`) |
| `platform.dfy` | `Platform` | roles, members, channels, guilds, call outcomes; lookup of a role by name |
| `checks.dfy` | `Checks` | `utils/checks.py` |
| `moderation.dfy` | `Moderation` | `cogs/moderation_slash.py`; class `ModerationSlash` holds the mute record |
| `int_parse.dfy` | `IntParse` | the `int(...)` conversion of command arguments |
| `owner.dfy` | `Owner` | `cogs/owner_slash.py` |

Modelling choices:

- A member's highest role is an integer `topRank`. The platform orders roles
  by position and then by id, so any two distinct roles compare. An integer
  rank keeps that total order and `>=`.
- A guild's roles are a sequence, because the lookup by name returns the
  first match. A member's roles are a set of role ids, because role equality
  is id equality.
- `guild.get_member` is membership in `Guild.members`: the members the bot
  can see.
- `create_mute_role` changes none of the cog's state, so it is a module-level
  method, `Moderation.CreateMuteRole`. `global_mute` repeats the same steps
  inline at `cogs/owner_slash.py:239-268`, with the same outcome: no role or
  an escaped error fails the guild. So the global sweep calls the same
  method.
- `is_owner_or_has_permissions` reads only the names of its keyword
  arguments, never their values. The model keeps that: see
  `Checks.RequestedValuesIgnored`.

## Model

| member | source | states |
|---|---|---|
| `Checks.OwnerIsOneUser` | utils/checks.py:5-9 | the owner check (also the gate of every owner command, cogs/owner_slash.py:20, 106, 192, 311, 388, 434) admits the configured owner and no other user |
| `Checks.AllGranted` | utils/checks.py:19 | the `all(...)` over the requested names holds iff every requested name reads as a granted flag |
| `Checks.IsOwnerOrHasPermissions` | utils/checks.py:13-19 | the owner always passes; anyone else passes iff every requested flag is granted |
| `Checks.EmptyRequirementPassesEveryone` | utils/checks.py:19 | with no requested flag everyone passes, owner or not |
| `Checks.UnknownFlagFails` | utils/checks.py:19 | for a non-owner, a requested name that is no attribute of the permissions object reads as false and fails the check |
| `Checks.RequestedValuesIgnored` | utils/checks.py:11-19 | the result depends on the requested names only; the values given with them are never read |
| `Checks.CanModerate` | utils/checks.py:23-37 | the owner may moderate exactly the non-owners; nobody may moderate the owner; a non-owner may not moderate a target ranked at or above them; a non-owner may moderate a lower-ranked non-owner; no capability is consulted |
| `Platform.FindRole` | cogs/moderation_slash.py:17 | the lookup by name returns the first role with that exact name, or nothing iff no role has it |
| `Platform.FindRoleAppend` | cogs/moderation_slash.py:17-21 | appending a role changes the lookup only when no earlier role had the name |
| `Moderation.Guard` | cogs/moderation_slash.py:57-82 | the chain stops with missing permissions iff the author lacks the capability and is not the owner; then with owner protection iff the target is the owner, even for the owner; it lets the command through iff the author is authorized and `CanModerate` holds |
| `Moderation.BanOrKick` | cogs/moderation_slash.py:54-104 | ban (and kick, lines 108-158, the same with the kick capability): rejected exactly when the guard chain stops it; performed iff the author is authorized, `CanModerate` holds and the ban succeeds; a refused ban is reported as such; any other error escapes the handler |
| `Moderation.ResolveMuteRole` | cogs/moderation_slash.py:15-50 | an existing "Muted" role is returned with nothing changed; no role comes back iff none existed and creation was refused, and then nothing changes; at most one role is created, and only when none existed; a returned role is the one the lookup then finds; the walk aborts iff no role existed and either creation raised an error other than a refusal, or creation succeeded and some text or voice channel's override raised one, and then the created role stays; only roles and overrides change |
| `Moderation.CreateMuteRole` | cogs/moderation_slash.py:15-50 | the lookup, the creation and the loop over channels produce exactly `ResolveMuteRole`'s role and guild |
| `Moderation.MuteOverridesExact` | cogs/moderation_slash.py:28-44 | every text or voice channel whose override call succeeds gets its deny set: send, react and speak for text; speak and connect for voice; every override comes from such a channel, so refused channels and other kinds get none |
| `Moderation.CreatedRoleCoversChannels` | cogs/moderation_slash.py:20-46 | with no mute role, creation succeeding and no override call raising, the new "Muted" role is returned and the overrides of all channels are appended |
| `Moderation.ResolveIsIdempotent` | cogs/moderation_slash.py:17-19 | resolving again after a role was returned gives the identical role and changes nothing, whatever the platform would answer |
| `Moderation.Insert` | cogs/moderation_slash.py:213-215 | recording a mute sets exactly that (user, guild) entry and keeps all others; the user key is added if absent; no user is left with an empty inner map |
| `Moderation.Delete` | cogs/moderation_slash.py:263-266 | forgetting a mute removes exactly that entry; the user key goes iff it was the user's last guild; with no entry the record is unchanged |
| `Moderation.DeleteUndoesInsert` | cogs/moderation_slash.py:213-266 | on a record with no empty inner map, forgetting a fresh mute restores the record exactly |
| `Moderation.MuteReply` | cogs/moderation_slash.py:162-234 | mute is rejected exactly when the guard chain stops it; a refused role creation means no role and an error reply; a member who holds the role is "already muted"; performed iff the chain passes, the role is ready and not held, and `add_roles` succeeds; a refused `add_roles` is reported as the bot's missing permission; any other error, in the role's creation or in `add_roles`, escapes the handler |
| `Moderation.UnmuteReply` | cogs/moderation_slash.py:238-284 | unmute is rejected only for a missing manage-roles capability of a non-owner; "not muted" iff there is no "Muted" role or the member lacks it; performed iff the role is held and `remove_roles` succeeds; a refused `remove_roles` is reported as the bot's missing permission, and any other error escapes |
| `Moderation.UnmuteIgnoresOwnerAndRank` | cogs/moderation_slash.py:241-257 | unmute reads neither the target's id nor its rank: no owner protection, no hierarchy |
| `Moderation.SecondMuteIsAlreadyMuted` | cogs/moderation_slash.py:192-207 | after a performed mute, muting the member again in the resulting guild is "already muted" |
| `Moderation.MuteThenUnmuteRestoresRecord` | cogs/moderation_slash.py:209-266 | a performed mute followed by an unmute of the same member goes through and leaves the record as before the mute |
| `Moderation.ModerationSlash.constructor` | cogs/moderation_slash.py:11-13 | the record starts empty |
| `Moderation.ModerationSlash.MuteUser` | cogs/moderation_slash.py:162-234 | replies as `MuteReply`; the guild changes only through the mute role's creation; the record gains the (member, guild) entry iff the mute was performed and is otherwise unchanged; no inner map is ever empty |
| `Moderation.ModerationSlash.UnmuteUser` | cogs/moderation_slash.py:238-284 | replies as `UnmuteReply`; the record loses the (member, guild) entry, and the member key once empty, iff the unmute was performed, and is otherwise unchanged |
| `IntParse.Trim` | cogs/owner_slash.py:29 | the result is the argument with leading and trailing whitespace removed, and nothing else: a slice of it, everything cut off is whitespace, and it neither starts nor ends with whitespace |
| `IntParse.ParseInt` | cogs/owner_slash.py:28-36 | the conversion succeeds iff the trimmed argument is an optional sign followed by one to 4300 digits (the interpreter's limit on converting decimal text) |
| `IntParse.ParseWrittenNumber` | cogs/owner_slash.py:28-29 | any number written with surrounding whitespace, an optional `+` or `-`, leading zeros and at most 4300 digits converts to that signed number |
| `IntParse.ParseShow` | cogs/owner_slash.py:28-36 | every integer of at most 4300 digits, written in decimal, parses back to itself |
| `Owner.GlobalGate` | cogs/owner_slash.py:20-57 | a non-owner caller is denied first; then a malformed id; ban, kick and mute never pass the owner's id; a user that is not found gives "user not found", and any other fetch error escapes; the sweep starts iff the caller is the owner, the id parses, the owner guard allows it and the user is found |
| `Owner.RefusedBeforeFetch` | cogs/owner_slash.py:20-45 | the caller, argument and owner-id refusals do not depend on fetching the user |
| `Owner.UnmuteMayTargetOwner` | cogs/owner_slash.py:319-337 | global unmute passes the owner's own id while ban, kick and mute refuse it |
| `Owner.GuildOutcome` | cogs/owner_slash.py:62-73 | a guild without the user is skipped, and a guild succeeds only when the moderation call returned |
| `Owner.GuildOutcomeCases` | cogs/owner_slash.py:62-73 | ban (and kick, mute at lines 234-278, unmute at lines 344-357): a guild without the user is skipped; ban and kick succeed iff the call succeeds and fail otherwise; mute fails when the role is neither found nor created, or its overrides raise; mute skips exactly the members already holding the role and otherwise succeeds iff `add_roles` returns; unmute attempts exactly where the role exists and is held, and succeeds iff `remove_roles` returns; success always means the moderation call returned |
| `Owner.NamesWithAppend` | cogs/owner_slash.py:62-73 | sweeping two runs of guilds gives the two sweeps' lists concatenated: each guild is judged alone and in order, and no guild stops the ones after it |
| `Owner.NamesWithOne` | cogs/owner_slash.py:62-73 | a single guild lands in exactly the list its own fate names |
| `Owner.SweepCountsEveryGuild` | cogs/owner_slash.py:59-73 | succeeded, failed and skipped guilds add up to all guilds |
| `Owner.BanSweepExample` | cogs/owner_slash.py:62-73 | a member guild that bans, a guild without the user and a member guild that refuses give success [first] and failure [third] |
| `Owner.ActInGuild` | cogs/owner_slash.py:234-278 | one iteration of a sweep, including the mute role's creation, yields that guild's `GuildOutcome` |
| `Owner.Sweep` | cogs/owner_slash.py:59-73 | the loop builds the success and failure lists of `NamesWith`, in guild order |
| `Owner.GlobalCommand` | cogs/owner_slash.py:17-99 | a refused gate is the reply; otherwise the reply holds the sweep's two lists for the parsed id |
| `Owner.SummaryField` | cogs/owner_slash.py:84-96 | a field is present iff its list is non-empty |
| `Owner.Summarize` | cogs/owner_slash.py:81-96 | the counts shown equal the list lengths; each names field is present iff its list is non-empty |
| `Owner.SplitJoin` | cogs/owner_slash.py:87 | names without newlines joined by newlines split back into the same names |
| `Owner.JoinAppend` | cogs/owner_slash.py:87 | text appended to a join ends up on its last line |
| `Owner.SummaryLines` | cogs/owner_slash.py:84-96 | read line by line, a field shows all names when there are at most ten, and otherwise the first ten with "..." after the tenth |
| `Owner.Chunks` | cogs/owner_slash.py:409-410 | there are as many chunks as the list needs in slices of twenty |
| `Owner.FlattenChunks` | cogs/owner_slash.py:409-410 | the chunks read in order are exactly the lines |
| `Owner.ChunkSizes` | cogs/owner_slash.py:409-410 | every chunk but the last has twenty lines, the last has one to twenty, and there are no chunks iff there are no lines |
| `Owner.ChunksStep` | cogs/owner_slash.py:410 | after the first twenty lines, the chunks are the chunks of the rest |
| `Owner.MorePages` | cogs/owner_slash.py:421-427 | the pages after the first are numbered 2, 3, ... and hold the chunks after the first |
| `Owner.ListServers` | cogs/owner_slash.py:385-427 | a non-owner is denied; no guild gives the early reply; otherwise the total, the first chunk and the numbered follow-up pages of one line per guild in guild order |
| `Owner.FindGuild` | cogs/owner_slash.py:452 | the lookup finds a guild with the id iff the bot is in one |
| `Owner.LeaveServer` | cogs/owner_slash.py:431-463 | a non-owner is denied; a malformed id is refused; "not found" iff no guild has the id; the bot leaves iff the caller is the owner, the id parses and the bot is in a guild with that id, and then it names that guild |

## Left out

- Every platform call (`fetch_user`, `ban`, `kick`, `add_roles`, `remove_roles`, `create_role`, `set_permissions`, `get_guild`, `leave`, sending replies, `defer`): each is an outcome given as a parameter. Rate limits and retries belong to the client library.
- Embeds, titles, colours, emoji, log lines and the reason strings: only the kind of reply, the counts, the truncated names and the chunks are kept.
- async/await and concurrent invocations: each command runs alone, from start to finish.
- The role, channel and member changes a call makes on the platform, apart from the role creation and overrides of the mute role: after a mute or an unmute, the member's role set is not updated. Lemmas that chain two commands pass the updated member explicitly.
- `Moderation.Guard`, `Moderation.BanOrKick`, `Moderation.MuteReply`, `Moderation.UnmuteReply` and the class methods: the author is the member `guild.get_member` returns in all four handlers (cogs/moderation_slash.py:57, 111, 165, 241). The case where it returns nothing, which crashes the handler, is not modelled.
- `IntParse.ParseInt`: underscores between digits and non-ASCII digits, which `int()` also accepts, are refused. Only ASCII whitespace is trimmed. The 4300-digit limit is the default of interpreters that have one (3.11 on, and the 3.7.14, 3.8.14, 3.9.14 and 3.10.7 releases); it can be changed at run time, and older interpreters have no limit.
- `leave_server` after the lookup (cogs/owner_slash.py:463 on): the source text ends there, so the model stops at the decision to leave the named guild.
- `bot.py` (event wiring, error handlers, the help command, cog loading, the unused module-level `muted_users`), `utils/logger.py` and the rest of `config.py`: no decision logic beyond the owner id.
- `Platform.Responses`: the id a newly created role gets is taken as given. The model does not require it to differ from the ids of the roles a member already holds, which the platform guarantees. With a clashing id, `Moderation.MuteReply` can answer "already muted", and `Owner.GuildOutcome` can skip a guild, for a role created in the same call.
- `Checks.Flag`: the attributes of the permissions object are taken as truth values. The model does not distinguish flags from other attributes, such as methods, that also read as true.
- Channel overrides are set once, when the mute role is created. Channels created later never get them, as in the source.
