/**
 * The owner-only cog: global ban, kick, mute and unmute swept over every
 * guild the bot is in, the summary of a sweep, the paginated server list and
 * the guards of leaving a server.
 */
module Owner {
  import opened Config
  import opened Platform
  import Checks
  import IntParse
  import Moderation

  // ---------------------------------------------------------------------------
  // Guards of the global commands
  // ---------------------------------------------------------------------------

  datatype GlobalAction = GlobalBan | GlobalKick | GlobalMute | GlobalUnmute

  /** How fetching the user by id ends: found, `NotFound`, or another error. */
  datatype Fetch = UserFound | UserNotFound | FetchFailed

  /** How a global command ends. */
  datatype GlobalReply =
    | AccessDenied
    | InvalidId
    | OwnerProtected
    | NoSuchUser
    | Raised
    | Swept(succeeded: seq<string>, failed: seq<string>)

  /** The checks before any guild is touched: either the user id to sweep with, or the reply. */
  datatype Gate = Pass(userId: int) | Stop(reply: GlobalReply)

  /**
   * In order: the caller must be the owner; the argument must parse as an
   * integer; ban, kick and mute refuse the owner's id (unmute does not);
   * the user must then be found.
   */
  function GlobalGate(action: GlobalAction, callerId: int, userIdText: string, fetch: Fetch): (g: Gate)
    ensures !Checks.IsOwner(callerId) ==> g == Stop(AccessDenied)
    ensures Checks.IsOwner(callerId) && IntParse.ParseInt(userIdText).None? ==> g == Stop(InvalidId)
    ensures g.Pass? <==>
              Checks.IsOwner(callerId) && IntParse.ParseInt(userIdText).Some? &&
              (action != GlobalUnmute ==> IntParse.ParseInt(userIdText).value != OWNER_ID) &&
              fetch == UserFound
    ensures (Checks.IsOwner(callerId) && IntParse.ParseInt(userIdText).Some? &&
             (action != GlobalUnmute ==> IntParse.ParseInt(userIdText).value != OWNER_ID)) ==>
              (fetch == UserNotFound ==> g == Stop(NoSuchUser)) && (fetch == FetchFailed ==> g == Stop(Raised))
    ensures (Checks.IsOwner(callerId) && IntParse.ParseInt(userIdText).Some? &&
             action != GlobalUnmute && IntParse.ParseInt(userIdText).value == OWNER_ID) ==> g == Stop(OwnerProtected)
    ensures g.Pass? ==> IntParse.ParseInt(userIdText) == Some(g.userId)
    ensures g.Pass? && action != GlobalUnmute ==> g.userId != OWNER_ID
  {
    if !Checks.IsOwner(callerId) then Stop(AccessDenied)
    else
      match IntParse.ParseInt(userIdText)
      case None => Stop(InvalidId)
      case Some(id) =>
        if action != GlobalUnmute && id == OWNER_ID then Stop(OwnerProtected)
        else
          match fetch
          case UserNotFound => Stop(NoSuchUser)
          case FetchFailed => Stop(Raised)
          case UserFound => Pass(id)
  }

  /**
   * A non-owner caller, a malformed id, and (for ban, kick and mute) the
   * owner's id are all refused before the user is fetched: the reply does
   * not depend on the fetch.
   */
  lemma RefusedBeforeFetch(action: GlobalAction, callerId: int, userIdText: string, fetch: Fetch, other: Fetch)
    requires GlobalGate(action, callerId, userIdText, fetch) in {Stop(AccessDenied), Stop(InvalidId), Stop(OwnerProtected)}
    ensures GlobalGate(action, callerId, userIdText, other) == GlobalGate(action, callerId, userIdText, fetch)
  {
  }

  /** Global unmute alone may target the owner's own id. */
  lemma UnmuteMayTargetOwner(text: string)
    requires IntParse.ParseInt(text) == Some(OWNER_ID)
    ensures GlobalGate(GlobalUnmute, OWNER_ID, text, UserFound) == Pass(OWNER_ID)
    ensures forall a :: a != GlobalUnmute ==> GlobalGate(a, OWNER_ID, text, UserFound) == Stop(OwnerProtected)
  {
  }

  // ---------------------------------------------------------------------------
  // The sweep
  // ---------------------------------------------------------------------------

  /** One guild of the bot, with the platform's answers to the calls made in it. */
  datatype Site = Site(guild: Guild, resp: Responses)

  /** Where a guild's name ends up after the sweep. */
  datatype GuildResult = Skipped | Succeeded | Failed

  function Attempt(result: ApiResult): GuildResult {
    if result == Done then Succeeded else Failed
  }

  /**
   * One guild's fate. A guild where the user is no member is skipped. Ban and
   * kick attempt the call. Mute finds or creates the mute role (a failure
   * there fails the guild) and skips a member who already holds it. Unmute
   * attempts only where the "Muted" role exists and is held. Every error is
   * caught, so the guild fails and the sweep goes on.
   */
  function GuildOutcome(action: GlobalAction, userId: int, site: Site): (r: GuildResult)
    ensures userId !in site.guild.members ==> r == Skipped
    ensures r == Succeeded ==> site.resp.mutation == Done
  {
    if userId !in site.guild.members then Skipped
    else
      var member := site.guild.members[userId];
      match action
      case GlobalBan => Attempt(site.resp.mutation)
      case GlobalKick => Attempt(site.resp.mutation)
      case GlobalMute =>
        (match Moderation.ResolveMuteRole(site.guild, site.resp).0
         case RoleReady(role) => if role.id in member.roleIds then Skipped else Attempt(site.resp.mutation)
         case NoRole => Failed
         case Aborted => Failed)
      case GlobalUnmute =>
        (match FindRole(site.guild.roles, Moderation.MUTED)
         case Some(role) => if role.id in member.roleIds then Attempt(site.resp.mutation) else Skipped
         case None => Skipped)
  }

  /**
   * Each action's fate in one guild: ban and kick attempt the call; mute
   * fails without a ready role, skips a member already holding it and
   * otherwise attempts `add_roles`; unmute attempts `remove_roles` exactly
   * where the "Muted" role exists and is held.
   */
  lemma GuildOutcomeCases(action: GlobalAction, userId: int, site: Site, r: GuildResult)
    requires r == GuildOutcome(action, userId, site)
    ensures (action == GlobalBan || action == GlobalKick) && userId in site.guild.members ==>
              r == Attempt(site.resp.mutation)
    ensures action == GlobalMute && userId in site.guild.members ==>
              (r == Skipped <==>
                 Moderation.ResolveMuteRole(site.guild, site.resp).0.RoleReady? &&
                 Moderation.ResolveMuteRole(site.guild, site.resp).0.role.id in site.guild.members[userId].roleIds)
    ensures (action == GlobalMute && userId in site.guild.members &&
             FindRole(site.guild.roles, Moderation.MUTED).None? && site.resp.createRole != Done) ==> r == Failed
    ensures (action == GlobalMute && userId in site.guild.members &&
             !Moderation.ResolveMuteRole(site.guild, site.resp).0.RoleReady?) ==> r == Failed
    ensures (action == GlobalMute && userId in site.guild.members &&
             Moderation.ResolveMuteRole(site.guild, site.resp).0.RoleReady? &&
             Moderation.ResolveMuteRole(site.guild, site.resp).0.role.id !in site.guild.members[userId].roleIds) ==>
              r == Attempt(site.resp.mutation)
    ensures action == GlobalUnmute && r != Skipped ==> r == Attempt(site.resp.mutation)
    ensures action == GlobalUnmute ==>
              (r != Skipped <==>
                 userId in site.guild.members && FindRole(site.guild.roles, Moderation.MUTED).Some? &&
                 FindRole(site.guild.roles, Moderation.MUTED).value.id in site.guild.members[userId].roleIds)
  {
  }

  /** The names of the guilds whose fate is `kind`, in guild order. */
  function NamesWith(action: GlobalAction, userId: int, sites: seq<Site>, kind: GuildResult): (names: seq<string>)
    ensures |names| <= |sites|
  {
    if sites == [] then []
    else
      var last := sites[|sites| - 1];
      NamesWith(action, userId, sites[..|sites| - 1], kind) +
      (if GuildOutcome(action, userId, last) == kind then [last.guild.name] else [])
  }

  /**
   * Sweeping two runs of guilds one after the other gives the two sweeps'
   * lists one after the other: each guild is judged on its own, in order,
   * and no guild's failure stops the guilds after it.
   */
  lemma {:induction false} NamesWithAppend(action: GlobalAction, userId: int, a: seq<Site>, b: seq<Site>, kind: GuildResult)
    ensures NamesWith(action, userId, a + b, kind) == NamesWith(action, userId, a, kind) + NamesWith(action, userId, b, kind)
    decreases |b|
  {
    if b == [] {
      assert a + b == a;
    } else {
      var front, last := b[..|b| - 1], b[|b| - 1];
      assert a + b == (a + front) + [last];
      assert b == front + [last];
      NamesWithSnoc(action, userId, a + front, last, kind);
      NamesWithSnoc(action, userId, front, last, kind);
      NamesWithAppend(action, userId, a, front, kind);
    }
  }

  /** One more guild at the end adds its own name, or nothing, to the end of the list. */
  lemma NamesWithSnoc(action: GlobalAction, userId: int, sites: seq<Site>, site: Site, kind: GuildResult)
    ensures NamesWith(action, userId, sites + [site], kind) ==
              NamesWith(action, userId, sites, kind) + (if GuildOutcome(action, userId, site) == kind then [site.guild.name] else [])
  {
    assert (sites + [site])[..|sites|] == sites;
  }

  /** A single guild lands in exactly the list its own fate names. */
  lemma NamesWithOne(action: GlobalAction, userId: int, site: Site, kind: GuildResult)
    ensures NamesWith(action, userId, [site], kind) ==
              if GuildOutcome(action, userId, site) == kind then [site.guild.name] else []
  {
    assert [site][..0] == [];
  }

  /** Every guild is counted once: succeeded, failed and skipped add up to all guilds. */
  lemma {:induction false} SweepCountsEveryGuild(action: GlobalAction, userId: int, sites: seq<Site>)
    ensures |NamesWith(action, userId, sites, Succeeded)| + |NamesWith(action, userId, sites, Failed)| +
            |NamesWith(action, userId, sites, Skipped)| == |sites|
  {
    if sites != [] {
      SweepCountsEveryGuild(action, userId, sites[..|sites| - 1]);
    }
  }

  /**
   * The three-guild scenario: a member guild where the ban succeeds, a guild
   * without the user, and a member guild where the ban is refused.
   */
  lemma BanSweepExample(g1: Guild, g2: Guild, g3: Guild, userId: int, r1: Responses, r2: Responses, r3: Responses)
    requires userId in g1.members && userId !in g2.members && userId in g3.members
    requires r1.mutation == Done && r3.mutation == Forbidden
    ensures NamesWith(GlobalBan, userId, [Site(g1, r1), Site(g2, r2), Site(g3, r3)], Succeeded) == [g1.name]
    ensures NamesWith(GlobalBan, userId, [Site(g1, r1), Site(g2, r2), Site(g3, r3)], Failed) == [g3.name]
  {
    var s1, s2, s3 := Site(g1, r1), Site(g2, r2), Site(g3, r3);
    assert [s1, s2, s3] == [s1] + [s2] + [s3];
    forall kind: GuildResult
      ensures NamesWith(GlobalBan, userId, [s1, s2, s3], kind) ==
              NamesWith(GlobalBan, userId, [s1], kind) + NamesWith(GlobalBan, userId, [s2], kind) +
              NamesWith(GlobalBan, userId, [s3], kind)
    {
      NamesWithAppend(GlobalBan, userId, [s1] + [s2], [s3], kind);
      NamesWithAppend(GlobalBan, userId, [s1], [s2], kind);
      NamesWithOne(GlobalBan, userId, s1, kind);
      NamesWithOne(GlobalBan, userId, s2, kind);
      NamesWithOne(GlobalBan, userId, s3, kind);
    }
  }

  /** One iteration of the sweep: the calls in one guild, every error caught. */
  method ActInGuild(action: GlobalAction, userId: int, site: Site) returns (r: GuildResult)
    ensures r == GuildOutcome(action, userId, site)
  {
    var guild := site.guild;
    if userId !in guild.members {
      return Skipped;
    }
    var member := guild.members[userId];
    match action
    case GlobalBan =>
      r := Attempt(site.resp.mutation);
    case GlobalKick =>
      r := Attempt(site.resp.mutation);
    case GlobalMute =>
      var muteRole, _ := Moderation.CreateMuteRole(guild, site.resp);
      if !muteRole.RoleReady? {
        r := Failed;
      } else if muteRole.role.id in member.roleIds {
        r := Skipped;
      } else {
        r := Attempt(site.resp.mutation);
      }
    case GlobalUnmute =>
      var muteRole := FindRole(guild.roles, Moderation.MUTED);
      if muteRole.Some? && muteRole.value.id in member.roleIds {
        r := Attempt(site.resp.mutation);
      } else {
        r := Skipped;
      }
  }

  /** The loop over the bot's guilds, appending each guild's name to the list its fate names. */
  method Sweep(action: GlobalAction, userId: int, sites: seq<Site>) returns (succeeded: seq<string>, failed: seq<string>)
    ensures succeeded == NamesWith(action, userId, sites, Succeeded)
    ensures failed == NamesWith(action, userId, sites, Failed)
  {
    succeeded, failed := [], [];
    for i := 0 to |sites|
      invariant succeeded == NamesWith(action, userId, sites[..i], Succeeded)
      invariant failed == NamesWith(action, userId, sites[..i], Failed)
    {
      assert sites[..i + 1] == sites[..i] + [sites[i]];
      NamesWithSnoc(action, userId, sites[..i], sites[i], Succeeded);
      NamesWithSnoc(action, userId, sites[..i], sites[i], Failed);
      var r := ActInGuild(action, userId, sites[i]);
      if r == Succeeded {
        succeeded := succeeded + [sites[i].guild.name];
      } else if r == Failed {
        failed := failed + [sites[i].guild.name];
      }
    }
    assert sites[..|sites|] == sites;
  }

  /** A global command: the gate, then the sweep over every guild. */
  method GlobalCommand(action: GlobalAction, callerId: int, userIdText: string, fetch: Fetch, sites: seq<Site>)
    returns (reply: GlobalReply)
    ensures GlobalGate(action, callerId, userIdText, fetch).Stop? ==>
              reply == GlobalGate(action, callerId, userIdText, fetch).reply
    ensures GlobalGate(action, callerId, userIdText, fetch).Pass? ==>
              var id := GlobalGate(action, callerId, userIdText, fetch).userId;
              reply == Swept(NamesWith(action, id, sites, Succeeded), NamesWith(action, id, sites, Failed))
  {
    var gate := GlobalGate(action, callerId, userIdText, fetch);
    if gate.Stop? {
      return gate.reply;
    }
    var succeeded, failed := Sweep(action, gate.userId, sites);
    reply := Swept(succeeded, failed);
  }

  // ---------------------------------------------------------------------------
  // The summary of a sweep
  // ---------------------------------------------------------------------------

  /** At most this many names are shown in a summary field. */
  const SHOWN: nat := 10

  /** The lines joined with newlines between them. */
  function Join(lines: seq<string>): string {
    if lines == [] then ""
    else if |lines| == 1 then lines[0]
    else lines[0] + "\n" + Join(lines[1..])
  }

  /** The pieces of `s` between newlines (there is always at least one). */
  function Split(s: string): (parts: seq<string>)
    ensures |parts| > 0
  {
    if s == [] then [""]
    else
      var rest := Split(s[1..]);
      if s[0] == '\n' then [""] + rest else [[s[0]] + rest[0]] + rest[1..]
  }

  /**
   * A summary field: absent for an empty list; otherwise the first names
   * (at most ten) one per line, with "..." appended when names were left out.
   */
  function SummaryField(names: seq<string>): (field: Option<string>)
    ensures field.None? <==> names == []
  {
    if names == [] then None
    else
      var shown := if |names| > SHOWN then names[..SHOWN] else names;
      Some(Join(shown) + (if |names| > SHOWN then "..." else ""))
  }

  /** The summary of a sweep: both counts and both optional fields. */
  datatype Report = Report(succeededCount: nat, failedCount: nat, successField: Option<string>, failedField: Option<string>)

  function Summarize(succeeded: seq<string>, failed: seq<string>): (r: Report)
    ensures r.succeededCount == |succeeded| && r.failedCount == |failed|
    ensures r.successField.Some? <==> succeeded != []
    ensures r.failedField.Some? <==> failed != []
  {
    Report(|succeeded|, |failed|, SummaryField(succeeded), SummaryField(failed))
  }

  predicate OneLine(s: string) {
    forall i :: 0 <= i < |s| ==> s[i] != '\n'
  }

  lemma {:induction false} SplitOneLine(s: string)
    requires OneLine(s)
    ensures Split(s) == [s]
  {
    if s != [] {
      SplitOneLine(s[1..]);
      assert [s[0]] + s[1..] == s;
    }
  }

  lemma {:induction false} SplitAtNewline(x: string, y: string)
    requires OneLine(x)
    ensures Split(x + "\n" + y) == [x] + Split(y)
  {
    if x == [] {
      assert x + "\n" + y == "\n" + y;
      assert ("\n" + y)[1..] == y;
    } else {
      var s := x + "\n" + y;
      assert s[1..] == x[1..] + "\n" + y;
      SplitAtNewline(x[1..], y);
      assert [x[0]] + x[1..] == x;
    }
  }

  /** Splitting the joined names at newlines gives the names back. */
  lemma {:induction false} SplitJoin(lines: seq<string>)
    requires lines != []
    requires forall i :: 0 <= i < |lines| ==> OneLine(lines[i])
    ensures Split(Join(lines)) == lines
  {
    if |lines| == 1 {
      SplitOneLine(lines[0]);
    } else {
      SplitJoin(lines[1..]);
      SplitAtNewline(lines[0], Join(lines[1..]));
      assert [lines[0]] + lines[1..] == lines;
    }
  }

  /** Text appended to a join lands on its last line. */
  lemma {:induction false} JoinAppend(lines: seq<string>, t: string)
    requires lines != []
    ensures Join(lines) + t == Join(lines[..|lines| - 1] + [lines[|lines| - 1] + t])
  {
    if |lines| > 1 {
      var rest := lines[1..];
      JoinAppend(rest, t);
      var m := lines[..|lines| - 1] + [lines[|lines| - 1] + t];
      assert m[1..] == rest[..|rest| - 1] + [rest[|rest| - 1] + t];
      assert m[0] == lines[0];
    }
  }

  /**
   * Read line by line, a summary field shows exactly the names when there
   * are at most ten, and otherwise the first ten with "..." after the tenth.
   */
  lemma SummaryLines(names: seq<string>)
    requires names != []
    requires forall i :: 0 <= i < |names| ==> OneLine(names[i])
    ensures Split(SummaryField(names).value) ==
              if |names| <= SHOWN then names else names[..SHOWN - 1] + [names[SHOWN - 1] + "..."]
  {
    if |names| <= SHOWN {
      assert Join(names) + "" == Join(names);
      SplitJoin(names);
    } else {
      var shown := names[..SHOWN];
      JoinAppend(shown, "...");
      var lines := shown[..SHOWN - 1] + [shown[SHOWN - 1] + "..."];
      assert OneLine(shown[SHOWN - 1] + "...") by {
        assert OneLine(names[SHOWN - 1]);
      }
      assert forall i :: 0 <= i < |lines| ==> OneLine(lines[i]);
      SplitJoin(lines);
      assert shown[..SHOWN - 1] == names[..SHOWN - 1];
    }
  }

  // ---------------------------------------------------------------------------
  // The server list
  // ---------------------------------------------------------------------------

  /** One line of the server list: a guild's name, id and member count. */
  datatype ServerInfo = ServerInfo(name: string, id: int, memberCount: int)

  /** A follow-up page of the list, with its page number. */
  datatype Page = Page(number: nat, lines: seq<ServerInfo>)

  /** How `servers` ends: refused, no guild at all, or the first chunk under a header and numbered further pages. */
  datatype ServersReply =
    | ServersDenied
    | NoServers
    | Listing(total: nat, first: seq<ServerInfo>, more: seq<Page>)

  const CHUNK_SIZE: nat := 20

  function Info(g: Guild): ServerInfo {
    ServerInfo(g.name, g.id, g.memberCount)
  }

  function Min(a: int, b: int): int {
    if a < b then a else b
  }

  /** The lines cut into consecutive slices of `CHUNK_SIZE`, starting at 0, 20, 40, ... */
  function Chunks<T>(xs: seq<T>): (cs: seq<seq<T>>)
    ensures |cs| == (|xs| + CHUNK_SIZE - 1) / CHUNK_SIZE
  {
    seq((|xs| + CHUNK_SIZE - 1) / CHUNK_SIZE,
        i requires 0 <= i < (|xs| + CHUNK_SIZE - 1) / CHUNK_SIZE =>
          xs[i * CHUNK_SIZE .. Min(i * CHUNK_SIZE + CHUNK_SIZE, |xs|)])
  }

  function Flatten<T>(css: seq<seq<T>>): seq<T> {
    if css == [] then [] else css[0] + Flatten(css[1..])
  }

  /** The pages after the first, numbered from 2 on. */
  function MorePages(cs: seq<seq<ServerInfo>>): (pages: seq<Page>)
    ensures |pages| == if |cs| > 0 then |cs| - 1 else 0
    ensures forall j :: 0 <= j < |pages| ==> pages[j].number == j + 2 && pages[j].lines == cs[j + 1]
  {
    if |cs| <= 1 then [] else seq(|cs| - 1, j requires 0 <= j < |cs| - 1 => Page(j + 2, cs[j + 1]))
  }

  /** Past the first slice, the chunks are the chunks of the rest. */
  lemma ChunksStep<T>(xs: seq<T>)
    requires |xs| > CHUNK_SIZE
    ensures Chunks(xs) == [xs[..CHUNK_SIZE]] + Chunks(xs[CHUNK_SIZE..])
  {
    var cs, rest := Chunks(xs), Chunks(xs[CHUNK_SIZE..]);
    assert |cs| == |rest| + 1;
    assert cs[0] == xs[..CHUNK_SIZE];
    forall i | 0 <= i < |rest| ensures cs[i + 1] == rest[i] {
      var lo := i * CHUNK_SIZE;
      var hi := Min(lo + CHUNK_SIZE, |xs| - CHUNK_SIZE);
      assert (i + 1) * CHUNK_SIZE == lo + CHUNK_SIZE;
      assert Min(lo + CHUNK_SIZE + CHUNK_SIZE, |xs|) == hi + CHUNK_SIZE;
      assert xs[CHUNK_SIZE..][lo..hi] == xs[lo + CHUNK_SIZE..hi + CHUNK_SIZE];
    }
    assert cs == [cs[0]] + cs[1..];
  }

  /** The chunks, read in order, are exactly the lines: nothing lost, repeated or reordered. */
  lemma {:induction false} FlattenChunks<T>(xs: seq<T>)
    ensures Flatten(Chunks(xs)) == xs
    decreases |xs|
  {
    var cs := Chunks(xs);
    if |xs| == 0 {
    } else if |xs| <= CHUNK_SIZE {
      assert |cs| == 1;
      assert cs[0] == xs[0..|xs|] == xs;
      assert cs == [xs];
      assert cs[1..] == [];
    } else {
      ChunksStep(xs);
      FlattenChunks(xs[CHUNK_SIZE..]);
      assert cs[1..] == Chunks(xs[CHUNK_SIZE..]);
      assert xs[..CHUNK_SIZE] + xs[CHUNK_SIZE..] == xs;
    }
  }

  /** Every chunk but the last holds exactly twenty lines; the last holds one to twenty. */
  lemma ChunkSizes<T>(xs: seq<T>)
    ensures forall i :: 0 <= i < |Chunks(xs)| - 1 ==> |Chunks(xs)[i]| == CHUNK_SIZE
    ensures Chunks(xs) != [] ==> 0 < |Chunks(xs)[|Chunks(xs)| - 1]| <= CHUNK_SIZE
    ensures Chunks(xs) == [] <==> xs == []
  {
  }

  /**
   * `servers`: the owner check, the early reply for no guild, the loop
   * collecting one line per guild, then the first chunk and the numbered
   * follow-up pages.
   */
  method ListServers(callerId: int, guilds: seq<Guild>) returns (reply: ServersReply)
    ensures !Checks.IsOwner(callerId) ==> reply == ServersDenied
    ensures Checks.IsOwner(callerId) && guilds == [] ==> reply == NoServers
    ensures Checks.IsOwner(callerId) && guilds != [] ==>
              var infos := seq(|guilds|, i requires 0 <= i < |guilds| => Info(guilds[i]));
              reply == Listing(|guilds|, Chunks(infos)[0], MorePages(Chunks(infos)))
  {
    if !Checks.IsOwner(callerId) {
      return ServersDenied;
    }
    if guilds == [] {
      return NoServers;
    }
    var infos: seq<ServerInfo> := [];
    for i := 0 to |guilds|
      invariant |infos| == i
      invariant forall j :: 0 <= j < i ==> infos[j] == Info(guilds[j])
    {
      infos := infos + [Info(guilds[i])];
    }
    var chunks := Chunks(infos);
    var more: seq<Page> := [];
    for i := 1 to |chunks|
      invariant |more| == i - 1
      invariant forall j :: 0 <= j < i - 1 ==> more[j] == Page(j + 2, chunks[j + 1])
    {
      more := more + [Page(i + 1, chunks[i])];
    }
    assert infos == seq(|guilds|, i requires 0 <= i < |guilds| => Info(guilds[i]));
    assert more == MorePages(chunks);
    reply := Listing(|guilds|, chunks[0], more);
  }

  // ---------------------------------------------------------------------------
  // Leaving a server
  // ---------------------------------------------------------------------------

  /** How `leaveserver` ends, up to the point where the bot leaves the guild it names. */
  datatype LeaveReply = LeaveDenied | InvalidServerId | ServerNotFound | Leaving(guildName: string)

  /** The bot's guild with this id, if it is in one. */
  function FindGuild(guilds: seq<Guild>, id: int): (g: Option<Guild>)
    ensures g.None? <==> forall i :: 0 <= i < |guilds| ==> guilds[i].id != id
    ensures g.Some? ==> g.value in guilds && g.value.id == id
  {
    if guilds == [] then None
    else if guilds[0].id == id then Some(guilds[0])
    else FindGuild(guilds[1..], id)
  }

  /** The owner check, then the id must parse, then the bot must be in that guild. */
  function LeaveServer(callerId: int, serverIdText: string, guilds: seq<Guild>): (r: LeaveReply)
    ensures !Checks.IsOwner(callerId) ==> r == LeaveDenied
    ensures Checks.IsOwner(callerId) && IntParse.ParseInt(serverIdText).None? ==> r == InvalidServerId
    ensures r == ServerNotFound <==>
              Checks.IsOwner(callerId) && IntParse.ParseInt(serverIdText).Some? &&
              forall i :: 0 <= i < |guilds| ==> guilds[i].id != IntParse.ParseInt(serverIdText).value
    ensures r.Leaving? <==>
              Checks.IsOwner(callerId) && IntParse.ParseInt(serverIdText).Some? &&
              exists i :: 0 <= i < |guilds| && guilds[i].id == IntParse.ParseInt(serverIdText).value
    ensures r.Leaving? ==>
              Checks.IsOwner(callerId) && IntParse.ParseInt(serverIdText).Some? &&
              exists i :: 0 <= i < |guilds| && guilds[i].id == IntParse.ParseInt(serverIdText).value &&
                          guilds[i].name == r.guildName
  {
    if !Checks.IsOwner(callerId) then LeaveDenied
    else
      match IntParse.ParseInt(serverIdText)
      case None => InvalidServerId
      case Some(id) =>
        match FindGuild(guilds, id)
        case None => ServerNotFound
        case Some(g) => Leaving(g.name)
  }
}
