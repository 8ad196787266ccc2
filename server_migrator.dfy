/** The guild migration engine (migrators/server_migrator.py): roles, then
    categories and channels with their permission overwrites, then emoji,
    recreated on the destination platform while four tables record which
    destination id each source id became.

    The platforms are reduced to a `Remote`: Discord's answers to the three
    guild reads, a script of outcomes for the destination's write calls (a new
    id, or a failure) and for image downloads, and the record of every request
    issued. Each stage is specified by a pure step function over the abstract
    state `World`; the methods of `ServerMigrator` run the source's loops and
    are proved to produce exactly the state those functions describe. */
module ServerMigration {
  import opened Common
  import opened Ordering
  import Logger

  // ---------------------------------------------------------------------------
  // Source descriptors, as Discord's JSON gives them. A field read with
  // `.get(key, default)` is an Option; fields read with `d[key]` are plain.
  // Permission bit sets arrive as decimal strings.

  datatype Role = Role(
    id: Id, name: Option<string>, position: Option<int>, permissions: Option<string>,
    color: Option<int>, hoist: Option<bool>, mentionable: Option<bool>)

  /** A JSON string field that may be absent, null, or a string. */
  datatype JsonText = Absent | Null | Text(text: string)

  /** A permission overwrite: kind 0 targets a role, 1 a member. */
  datatype Overwrite = Overwrite(target: Option<Id>, kind: Option<int>, allow: Option<string>, deny: Option<string>)

  /** `int(d.get(key, 0))`: None when `int` raises. */
  function IntField(f: Option<string>): (r: Option<int>)
    ensures f.None? ==> r == Some(0)
    ensures f.Some? ==> r == ParseInt(f.value)
  {
    match f
    case None => Some(0)
    case Some(text) => ParseInt(text)
  }

  /** Type codes: 0 text, 2 voice, 4 category, 5 announcement, 10-12 threads,
      13 stage, 15 forum. */
  datatype Channel = Channel(
    id: Id, name: Option<string>, kind: Option<int>, position: Option<int>,
    parent: Option<Id>, topic: JsonText, nsfw: Option<bool>, bitrate: Option<int>,
    userLimit: Option<int>, overwrites: seq<Overwrite>)

  datatype Emoji = Emoji(id: Id, name: Option<string>, animated: Option<bool>)

  datatype Guild = Guild(id: Id, name: string, icon: Option<string>)

  /** Discord's answer to each guild read, by guild id; a missing id means the
      request raises. */
  datatype SourceData = SourceData(
    roles: map<Id, seq<Role>>, channels: map<Id, seq<Channel>>, emojis: map<Id, seq<Emoji>>)

  // ---------------------------------------------------------------------------
  // Requests issued to the platforms.

  /** What `create_guild_channel` is given besides the guild and the name. */
  datatype ChannelSpec =
    | CategorySpec(position: int)
    | TextSpec(topic: Option<string>, nsfw: bool, position: int, parent: Option<Id>)
    | VoiceSpec(bitrate: int, userLimit: int, position: int, parent: Option<Id>)
  {
    /** The `type` argument of the call. */
    function TypeCode(): int {
      match this
      case CategorySpec(_) => 4
      case TextSpec(_, _, _, _) => 0
      case VoiceSpec(_, _, _, _) => 2
    }
  }

  datatype Request =
    | FetchRoles(guild: Id)
    | FetchChannels(guild: Id)
    | FetchEmojis(guild: Id)
    | DownloadImage(url: string)
    | CreateGuild(name: string, icon: Option<Bytes>)
    | CreateRole(guild: Id, name: string, permissions: int, color: int, hoist: bool, mentionable: bool)
    | CreateChannel(guild: Id, name: string, spec: ChannelSpec)
    | EditPermissions(channel: Id, target: Id, allow: int, deny: int, targetKind: int)
    | CreateEmoji(guild: Id, name: string, image: Bytes)

  // ---------------------------------------------------------------------------
  // Abstract state and its primitive transitions.

  /** Everything a migration can change: the requests issued so far, the
      outcomes still to come, the four id tables and the unsupported notices. */
  datatype World = World(
    requests: seq<Request>,
    replies: seq<Option<Id>>,
    images: seq<Option<Bytes>>,
    guildMap: map<Id, Id>,
    roleMap: map<Id, Id>,
    categoryMap: map<Id, Id>,
    channelMap: map<Id, Id>,
    notices: seq<string>)

  /** The i-th scripted outcome; an exhausted script fails. */
  function Reply<T>(outcomes: seq<Option<T>>, i: nat): Option<T> {
    if i < |outcomes| then outcomes[i] else None
  }

  /** The outcomes left after `n` have been used. */
  function Drop<T>(s: seq<T>, n: nat): seq<T> {
    if n <= |s| then s[n..] else []
  }

  datatype Sent = Sent(reply: Option<Id>, world: World)
  datatype Downloaded = Downloaded(image: Option<Bytes>, world: World)

  /** A destination write: recorded, and answered by the next scripted outcome. */
  function Send(w: World, req: Request): (s: Sent)
    ensures s.world.requests == w.requests + [req] && s.world.replies == Drop(w.replies, 1)
  {
    Sent(Reply(w.replies, 0), w.(requests := w.requests + [req], replies := Drop(w.replies, 1)))
  }

  /** `_download_image`: recorded, and answered by the next scripted image. */
  function Download(w: World, url: string): (d: Downloaded)
    ensures d.world.requests == w.requests + [DownloadImage(url)] && d.world.images == Drop(w.images, 1)
  {
    Downloaded(Reply(w.images, 0), w.(requests := w.requests + [DownloadImage(url)], images := Drop(w.images, 1)))
  }

  /** `logger.log_unsupported(feature, details)` as seen in the notice list. */
  function Notify(w: World, feature: string, details: string): World {
    w.(notices := w.notices + [Logger.UnsupportedMessage(feature, details)])
  }

  // ---------------------------------------------------------------------------
  // Running a step over a list: the loops of the source, as a function.

  /** The state a step leaves, whether it raised (which ends its loop and the
      stage), and how many items it counted. */
  datatype Outcome = Outcome(world: World, raised: bool, done: nat)

  /** Apply `step` to each item in order, stopping at the first that raises. */
  function Run<T>(w: World, items: seq<T>, step: (World, T) -> Outcome): Outcome
    decreases |items|
  {
    if items == [] then Outcome(w, false, 0)
    else
      var first := step(w, items[0]);
      if first.raised then first
      else
        var rest := Run(first.world, items[1..], step);
        Outcome(rest.world, rest.raised, first.done + rest.done)
  }

  /** One step of a run that does not raise, taken off the front. */
  lemma RunFirst<T>(w: World, items: seq<T>, step: (World, T) -> Outcome)
    requires items != [] && !step(w, items[0]).raised
    ensures var first := step(w, items[0]);
      var rest := Run(first.world, items[1..], step);
      Run(w, items, step) == Outcome(rest.world, rest.raised, first.done + rest.done)
  {
  }

  // ---------------------------------------------------------------------------
  // Roles (`_migrate_roles`).

  predicate NotEveryone(r: Role) {
    r.name != Some("@everyone")
  }

  function RolePosition(r: Role): int {
    r.position.GetOr(0)
  }

  /** The roles attempted, in the order attempted: `@everyone` dropped, then a
      stable sort by position. */
  function RolesToCreate(roles: seq<Role>): seq<Role> {
    SortBy(Keep(roles, NotEveryone), RolePosition)
  }

  function RoleRequest(guild: Id, name: string, permissions: int, r: Role): Request {
    CreateRole(guild, name, permissions, r.color.GetOr(0), r.hoist.GetOr(false), r.mentionable.GetOr(false))
  }

  /** A role the loop can read: it has a name and its permissions parse. */
  predicate Readable(r: Role) {
    r.name.Some? && IntField(r.permissions).Some?
  }

  /** One role: a missing name or unparsable permissions raise (outside the
      per-role handler); otherwise one create call, and the id is recorded
      only when the call succeeds. */
  function RoleStep(w: World, guild: Id, r: Role): Outcome {
    if !Readable(r) then Outcome(w, true, 0)
    else
      var sent := Send(w, RoleRequest(guild, r.name.value, IntField(r.permissions).value, r));
      if sent.reply.Some? then Outcome(sent.world.(roleMap := sent.world.roleMap[r.id := sent.reply.value]), false, 1)
      else Outcome(sent.world, false, 0)
  }

  function RoleStepOf(guild: Id): (World, Role) -> Outcome {
    (w: World, r: Role) => RoleStep(w, guild, r)
  }

  // ---------------------------------------------------------------------------
  // Permission overwrites (`_apply_channel_permissions`).

  /** The destination role an overwrite is applied to: only role overwrites
      whose role has a non-empty mapped id. */
  function OverwriteTarget(roleMap: map<Id, Id>, ow: Overwrite): (t: Option<Id>)
    ensures t.Some? <==> ow.kind == Some(0) && ow.target.Some? && ow.target.value in roleMap && roleMap[ow.target.value] != ""
    ensures t.Some? ==> t.value == roleMap[ow.target.value]
  {
    if ow.kind != Some(0) then None
    else if ow.target.Some? && ow.target.value in roleMap && roleMap[ow.target.value] != "" then Some(roleMap[ow.target.value])
    else None
  }

  /** One overwrite: skipped unless it has a target; then unparsable bit sets
      raise (outside the per-overwrite handler), and otherwise one edit call
      is issued, whose failure is ignored. */
  function OverwriteStep(w: World, channel: Id, ow: Overwrite): Outcome {
    match OverwriteTarget(w.roleMap, ow)
    case None => Outcome(w, false, 0)
    case Some(target) =>
      var allow := IntField(ow.allow);
      var deny := IntField(ow.deny);
      if allow.None? || deny.None? then Outcome(w, true, 0)
      else
        var sent := Send(w, EditPermissions(channel, target, allow.value, deny.value, 0));
        Outcome(sent.world, false, 1)
  }

  function OverwriteStepOf(channel: Id): (World, Overwrite) -> Outcome {
    (w: World, ow: Overwrite) => OverwriteStep(w, channel, ow)
  }

  // ---------------------------------------------------------------------------
  // Channels (`_migrate_channels`).

  function ChannelPosition(c: Channel): int {
    c.position.GetOr(0)
  }

  predicate IsCategory(c: Channel) {
    c.kind == Some(4)
  }

  /** First pass: the categories, in ascending position. */
  function CategoriesToCreate(channels: seq<Channel>): seq<Channel> {
    SortBy(Keep(channels, IsCategory), ChannelPosition)
  }

  /** One category: a missing name raises; otherwise one create call with type
      4 and the source position, recorded on success. No overwrites. */
  function CategoryStep(w: World, guild: Id, c: Channel): Outcome {
    match c.name
    case None => Outcome(w, true, 0)
    case Some(name) =>
      var sent := Send(w, CreateChannel(guild, name, CategorySpec(ChannelPosition(c))));
      if sent.reply.Some? then Outcome(sent.world.(categoryMap := sent.world.categoryMap[c.id := sent.reply.value]), false, 1)
      else Outcome(sent.world, false, 0)
  }

  function CategoryStepOf(guild: Id): (World, Channel) -> Outcome {
    (w: World, c: Channel) => CategoryStep(w, guild, c)
  }

  /** The destination parent of a leaf channel: the mapped category when the
      source parent is set and mapped, otherwise top level (None). */
  function ParentFor(categoryMap: map<Id, Id>, c: Channel): (p: Option<Id>)
    ensures p.Some? <==> Truthy(c.parent) && c.parent.value in categoryMap
    ensures p.Some? ==> p.value == categoryMap[c.parent.value]
  {
    if Truthy(c.parent) && c.parent.value in categoryMap then Some(categoryMap[c.parent.value]) else None
  }

  /** `channel.get("topic")` for a text channel. */
  function TextTopic(t: JsonText): Option<string> {
    match t
    case Text(s) => Some(s)
    case _ => None
  }

  const ForumMarker: string := "Converted from forum. "

  /** The forum topic as the source builds it: the marker followed by the
      topic's Python rendering, stripped; a JSON null topic shows as "None". */
  function ForumTopicAsWritten(t: JsonText): string {
    var shown := if t.Text? then t.text else if t.Null? then "None" else "";
    Strip(ForumMarker + shown, Whitespace)
  }

  /** The forum topic with a null topic treated like a missing one. */
  function ForumTopic(t: JsonText): string {
    var shown := if t.Text? then t.text else "";
    Strip(ForumMarker + shown, Whitespace)
  }

  /** The create arguments of a text (0/5), voice (2) or forum (15) channel. */
  function LeafSpec(c: Channel, kind: int, parent: Option<Id>): ChannelSpec {
    var position := ChannelPosition(c);
    if kind == 2 then VoiceSpec(c.bitrate.GetOr(64000), c.userLimit.GetOr(0), position, parent)
    else if kind == 15 then TextSpec(Some(ForumTopicAsWritten(c.topic)), c.nsfw.GetOr(false), position, parent)
    else TextSpec(TextTopic(c.topic), c.nsfw.GetOr(false), position, parent)
  }

  /** The feature named in the notice for a channel type that is skipped. */
  function SkippedFeature(kind: int): string {
    if kind == 13 then "Stage channel"
    else if 10 <= kind <= 12 then "Thread"
    else "Channel type: " + IntToString(kind)
  }

  predicate IsCreatedKind(kind: int) {
    kind == 0 || kind == 5 || kind == 2 || kind == 15
  }

  /** Create one leaf channel; on success record it and apply its overwrites
      when enabled. It is counted unless the creation failed or applying the
      overwrites raised (both caught by the channel's handler). */
  function CreateLeaf(w: World, guild: Id, permissions: bool, c: Channel, name: string, spec: ChannelSpec): Outcome {
    var sent := Send(w, CreateChannel(guild, name, spec));
    match sent.reply
    case None => Outcome(sent.world, false, 0)
    case Some(id) =>
      var recorded := sent.world.(channelMap := sent.world.channelMap[c.id := id]);
      var applied := if permissions then Run(recorded, c.overwrites, OverwriteStepOf(id)) else Outcome(recorded, false, 0);
      Outcome(applied.world, false, if applied.raised then 0 else 1)
  }

  /** Second pass, one channel: categories are skipped, text, announcement,
      voice and forum channels are created (forum as text, with a notice),
      every other type is skipped with a notice. */
  function LeafStep(w: World, guild: Id, permissions: bool, c: Channel): Outcome {
    var kind := c.kind.GetOr(0);
    var name := c.name.GetOr("unnamed");
    if kind == 4 then Outcome(w, false, 0)
    else if kind == 0 || kind == 5 || kind == 2 then
      CreateLeaf(w, guild, permissions, c, name, LeafSpec(c, kind, ParentFor(w.categoryMap, c)))
    else if kind == 15 then
      var noted := Notify(w, "Forum channel", "Converting '" + name + "' to text channel");
      CreateLeaf(noted, guild, permissions, c, name, LeafSpec(c, kind, ParentFor(w.categoryMap, c)))
    else Outcome(Notify(w, SkippedFeature(kind), "Skipped '" + name + "'"), false, 0)
  }

  function LeafStepOf(guild: Id, permissions: bool): (World, Channel) -> Outcome {
    (w: World, c: Channel) => LeafStep(w, guild, permissions, c)
  }

  /** Both passes. The count is the number of leaf channels created. */
  function ChannelsRun(w: World, guild: Id, permissions: bool, channels: seq<Channel>): Outcome {
    var categories := Run(w, CategoriesToCreate(channels), CategoryStepOf(guild));
    if categories.raised then Outcome(categories.world, true, 0)
    else Run(categories.world, SortBy(channels, ChannelPosition), LeafStepOf(guild, permissions))
  }

  // ---------------------------------------------------------------------------
  // Emoji (`_migrate_emojis`).

  function EmojiExtension(animated: bool): (ext: string)
    ensures ext == "gif" <==> animated
    ensures ext == "gif" || ext == "png"
  {
    if animated then "gif" else "png"
  }

  function EmojiUrl(e: Emoji): string {
    "https://cdn.discordapp.com/emojis/" + e.id + "." + EmojiExtension(e.animated.GetOr(false)) + "?size=128"
  }

  /** One emoji: download; an empty or failed download ends the item, otherwise
      one upload, counted when it succeeds. */
  function EmojiStep(w: World, guild: Id, e: Emoji): Outcome {
    var got := Download(w, EmojiUrl(e));
    match got.image
    case None => Outcome(got.world, false, 0)
    case Some(data) =>
      if data == [] then Outcome(got.world, false, 0)
      else
        var sent := Send(got.world, CreateEmoji(guild, e.name.GetOr("unnamed"), data));
        Outcome(sent.world, false, if sent.reply.Some? then 1 else 0)
  }

  function EmojiStepOf(guild: Id): (World, Emoji) -> Outcome {
    (w: World, e: Emoji) => EmojiStep(w, guild, e)
  }

  // ---------------------------------------------------------------------------
  // One guild (`migrate_server`).

  /** A stage toggle: on when no options were given or the key is missing. */
  function Enabled(options: Option<map<string, bool>>, key: string): bool {
    match options
    case None => true
    case Some(m) => if key in m then m[key] else true
  }

  function IconUrl(guild: Id, hash: string): string {
    "https://cdn.discordapp.com/icons/" + guild + "/" + hash + "." + AssetExtension(hash) + "?size=4096"
  }

  /** The destination guild: the existing one when given, otherwise a new guild
      carrying the downloaded icon, if any. A failed creation gives None. */
  function ResolveGuild(w: World, guild: Guild, existing: Option<Id>): Sent {
    if Truthy(existing) then Sent(existing, w)
    else
      var icon := if Truthy(guild.icon) then Download(w, IconUrl(guild.id, guild.icon.value)) else Downloaded(None, w);
      Send(icon.world, CreateGuild(guild.name, icon.image))
  }

  datatype SourceLists = SourceLists(roles: seq<Role>, channels: seq<Channel>, emojis: seq<Emoji>)
  datatype Fetched = Fetched(lists: Option<SourceLists>, world: World)

  predicate FetchesChannels(options: Option<map<string, bool>>) {
    Enabled(options, "channels") || Enabled(options, "permissions")
  }

  /** The reads of the enabled kinds, in order; a failed read gives None. */
  function FetchSource(w: World, src: SourceData, guild: Id, options: Option<map<string, bool>>): Fetched {
    var w1 := if Enabled(options, "roles") then w.(requests := w.requests + [FetchRoles(guild)]) else w;
    if Enabled(options, "roles") && guild !in src.roles then Fetched(None, w1)
    else
      var w2 := if FetchesChannels(options) then w1.(requests := w1.requests + [FetchChannels(guild)]) else w1;
      if FetchesChannels(options) && guild !in src.channels then Fetched(None, w2)
      else
        var w3 := if Enabled(options, "emojis") then w2.(requests := w2.requests + [FetchEmojis(guild)]) else w2;
        if Enabled(options, "emojis") && guild !in src.emojis then Fetched(None, w3)
        else
          Fetched(Some(SourceLists(
            if Enabled(options, "roles") then src.roles[guild] else [],
            if FetchesChannels(options) then src.channels[guild] else [],
            if Enabled(options, "emojis") then src.emojis[guild] else [])), w3)
  }

  function EmojisRun(w: World, guild: Id, emojis: seq<Emoji>): Outcome {
    if emojis == [] then Outcome(w, false, 0) else Run(w, emojis, EmojiStepOf(guild))
  }

  datatype Result = Result(world: World, success: bool)

  /** The stages after the destination guild is known: roles, channels, emoji. */
  function StagesRun(w: World, target: Id, lists: SourceLists, options: Option<map<string, bool>>): Result {
    var roles := if Enabled(options, "roles") then Run(w, RolesToCreate(lists.roles), RoleStepOf(target)) else Outcome(w, false, 0);
    if roles.raised then Result(roles.world, false)
    else
      var channels := if Enabled(options, "channels") then ChannelsRun(roles.world, target, Enabled(options, "permissions"), lists.channels) else Outcome(roles.world, false, 0);
      if channels.raised then Result(channels.world, false)
      else
        var emojis := if Enabled(options, "emojis") then EmojisRun(channels.world, target, lists.emojis) else Outcome(channels.world, false, 0);
        Result(emojis.world, true)
  }

  /** The whole of `migrate_server`. */
  function ServerRun(w: World, src: SourceData, clientsReady: bool, guild: Guild, existing: Option<Id>, options: Option<map<string, bool>>): Result {
    if !clientsReady then Result(w, false)
    else
      var resolved := ResolveGuild(w, guild, existing);
      match resolved.reply
      case None => Result(resolved.world, false)
      case Some(target) =>
        var mapped := resolved.world.(guildMap := resolved.world.guildMap[guild.id := target]);
        var fetched := FetchSource(mapped, src, guild.id, options);
        match fetched.lists
        case None => Result(fetched.world, false)
        case Some(lists) => StagesRun(fetched.world, target, lists, options)
  }

  // ---------------------------------------------------------------------------
  // The platforms and the migrator object.

  /** Both platform clients and the image CDN, as the migrator sees them. */
  class Remote {
    const source: SourceData
    var requests: seq<Request>
    var replies: seq<Option<Id>>
    var images: seq<Option<Bytes>>

    constructor (source: SourceData, replies: seq<Option<Id>>, images: seq<Option<Bytes>>)
      ensures this.source == source && this.replies == replies && this.images == images && requests == []
    {
      this.source := source;
      this.replies := replies;
      this.images := images;
      requests := [];
    }

    /** A destination write call; None is a call that raised. */
    method Write(req: Request) returns (reply: Option<Id>)
      modifies this
      ensures reply == Reply(old(replies), 0)
      ensures requests == old(requests) + [req] && replies == Drop(old(replies), 1) && images == old(images)
    {
      reply := Reply(replies, 0);
      requests := requests + [req];
      replies := Drop(replies, 1);
    }

    method DownloadImage(url: string) returns (image: Option<Bytes>)
      modifies this
      ensures image == Reply(old(images), 0)
      ensures requests == old(requests) + [Request.DownloadImage(url)] && images == Drop(old(images), 1) && replies == old(replies)
    {
      image := Reply(images, 0);
      requests := requests + [Request.DownloadImage(url)];
      images := Drop(images, 1);
    }

    /** A Discord read of one guild's list; None is a read that raised. */
    method Fetch(req: Request) returns (found: bool)
      requires req.FetchRoles? || req.FetchChannels? || req.FetchEmojis?
      modifies this
      ensures found == (if req.FetchRoles? then req.guild in source.roles
                        else if req.FetchChannels? then req.guild in source.channels
                        else req.guild in source.emojis)
      ensures requests == old(requests) + [req] && replies == old(replies) && images == old(images)
    {
      requests := requests + [req];
      found := if req.FetchRoles? then req.guild in source.roles
               else if req.FetchChannels? then req.guild in source.channels
               else req.guild in source.emojis;
    }
  }

  class ServerMigrator {
    const remote: Remote
    const logger: Logger.MigrationLogger
    /** Whether `discord_http` and `fluxer_http` are set (truthy). */
    const hasDiscordClient: bool
    const hasFluxerClient: bool
    var guildIdMap: map<Id, Id>
    var roleIdMap: map<Id, Id>
    var categoryIdMap: map<Id, Id>
    var channelIdMap: map<Id, Id>

    constructor (remote: Remote, logger: Logger.MigrationLogger, hasDiscordClient: bool, hasFluxerClient: bool)
      ensures this.remote == remote && this.logger == logger
      ensures this.hasDiscordClient == hasDiscordClient && this.hasFluxerClient == hasFluxerClient
      ensures guildIdMap == map[] && roleIdMap == map[] && categoryIdMap == map[] && channelIdMap == map[]
    {
      this.remote := remote;
      this.logger := logger;
      this.hasDiscordClient := hasDiscordClient;
      this.hasFluxerClient := hasFluxerClient;
      guildIdMap, roleIdMap, categoryIdMap, channelIdMap := map[], map[], map[], map[];
    }

    ghost function State(): World
      reads this, remote, logger
    {
      World(remote.requests, remote.replies, remote.images,
            guildIdMap, roleIdMap, categoryIdMap, channelIdMap, logger.unsupportedFeatures)
    }

    /** One iteration of the role loop. */
    method MigrateRole(r: Role, guild: Id) returns (raised: bool)
      modifies this, remote
      ensures State() == RoleStep(old(State()), guild, r).world
      ensures raised == RoleStep(old(State()), guild, r).raised
    {
      if r.name.None? {
        return true;
      }
      var permissions := IntField(r.permissions);
      if permissions.None? {
        return true;
      }
      var reply := remote.Write(RoleRequest(guild, r.name.value, permissions.value, r));
      if reply.Some? {
        roleIdMap := roleIdMap[r.id := reply.value];
      }
      raised := false;
    }

    /** `_migrate_roles`: the roles other than `@everyone`, by position. The
        reported number is the number of such roles, not of successes. */
    method MigrateRoles(roles: seq<Role>, guild: Id) returns (reported: nat, raised: bool)
      modifies this, remote
      ensures State() == Run(old(State()), RolesToCreate(roles), RoleStepOf(guild)).world
      ensures raised == Run(old(State()), RolesToCreate(roles), RoleStepOf(guild)).raised
      ensures !raised ==> reported == |Keep(roles, NotEveryone)|
    {
      var kept := Keep(roles, NotEveryone);
      var order := SortBy(kept, RolePosition);
      ghost var step := RoleStepOf(guild);
      var i := 0;
      while i < |order|
        invariant 0 <= i <= |order|
        invariant Run(old(State()), order, step).world == Run(State(), order[i..], step).world
        invariant Run(old(State()), order, step).raised == Run(State(), order[i..], step).raised
      {
        raised := MigrateRole(order[i], guild);
        if raised {
          return 0, true;
        }
        i := i + 1;
      }
      reported, raised := |kept|, false;
    }

    /** One overwrite of `_apply_channel_permissions`. */
    method ApplyOverwrite(channel: Id, ow: Overwrite) returns (raised: bool)
      modifies remote
      ensures State() == OverwriteStep(old(State()), channel, ow).world
      ensures raised == OverwriteStep(old(State()), channel, ow).raised
    {
      var target := OverwriteTarget(roleIdMap, ow);
      if target.None? {
        return false;
      }
      var allow := IntField(ow.allow);
      var deny := IntField(ow.deny);
      if allow.None? || deny.None? {
        return true;
      }
      var _ := remote.Write(EditPermissions(channel, target.value, allow.value, deny.value, 0));
      raised := false;
    }

    /** `_apply_channel_permissions`; raised when a bit set does not parse. */
    method ApplyChannelPermissions(c: Channel, channel: Id) returns (raised: bool)
      modifies remote
      ensures State() == Run(old(State()), c.overwrites, OverwriteStepOf(channel)).world
      ensures raised == Run(old(State()), c.overwrites, OverwriteStepOf(channel)).raised
    {
      if c.overwrites == [] {
        return false;
      }
      ghost var step := OverwriteStepOf(channel);
      var i := 0;
      while i < |c.overwrites|
        invariant 0 <= i <= |c.overwrites|
        invariant Run(old(State()), c.overwrites, step).world == Run(State(), c.overwrites[i..], step).world
        invariant Run(old(State()), c.overwrites, step).raised == Run(State(), c.overwrites[i..], step).raised
      {
        raised := ApplyOverwrite(channel, c.overwrites[i]);
        if raised {
          return;
        }
        i := i + 1;
      }
      raised := false;
    }

    /** One iteration of the first (category) pass. */
    method MigrateCategory(c: Channel, guild: Id) returns (raised: bool)
      modifies this, remote
      ensures State() == CategoryStep(old(State()), guild, c).world
      ensures raised == CategoryStep(old(State()), guild, c).raised
    {
      if c.name.None? {
        return true;
      }
      var reply := remote.Write(CreateChannel(guild, c.name.value, CategorySpec(ChannelPosition(c))));
      if reply.Some? {
        categoryIdMap := categoryIdMap[c.id := reply.value];
      }
      raised := false;
    }

    /** Create one leaf channel and, on success, record and configure it. */
    method CreateLeafChannel(c: Channel, guild: Id, permissions: bool, name: string, spec: ChannelSpec) returns (created: bool)
      modifies this, remote
      ensures State() == CreateLeaf(old(State()), guild, permissions, c, name, spec).world
      ensures CreateLeaf(old(State()), guild, permissions, c, name, spec).done == if created then 1 else 0
    {
      var reply := remote.Write(CreateChannel(guild, name, spec));
      if reply.None? {
        return false;
      }
      channelIdMap := channelIdMap[c.id := reply.value];
      var raised := false;
      if permissions {
        raised := ApplyChannelPermissions(c, reply.value);
      }
      created := !raised;
    }

    /** One iteration of the second pass. */
    method MigrateLeaf(c: Channel, guild: Id, permissions: bool, now: string) returns (created: bool)
      modifies this, remote, logger
      ensures State() == LeafStepOf(guild, permissions)(old(State()), c).world
      ensures LeafStepOf(guild, permissions)(old(State()), c).done == if created then 1 else 0
      ensures !LeafStepOf(guild, permissions)(old(State()), c).raised
    {
      var kind := c.kind.GetOr(0);
      var name := c.name.GetOr("unnamed");
      if kind == 4 {
        return false;
      }
      var parent := ParentFor(categoryIdMap, c);
      if kind == 0 || kind == 5 || kind == 2 {
        created := CreateLeafChannel(c, guild, permissions, name, LeafSpec(c, kind, parent));
      } else if kind == 15 {
        logger.LogUnsupported("Forum channel", now, "Converting '" + name + "' to text channel");
        created := CreateLeafChannel(c, guild, permissions, name, LeafSpec(c, kind, parent));
      } else {
        logger.LogUnsupported(SkippedFeature(kind), now, "Skipped '" + name + "'");
        created := false;
      }
    }

    /** `_migrate_channels`: categories first, then every other channel by
        position; returns the number of channels created. */
    method MigrateChannels(channels: seq<Channel>, guild: Id, permissions: bool, now: string) returns (count: nat, raised: bool)
      modifies this, remote, logger
      ensures State() == ChannelsRun(old(State()), guild, permissions, channels).world
      ensures raised == ChannelsRun(old(State()), guild, permissions, channels).raised
      ensures !raised ==> count == ChannelsRun(old(State()), guild, permissions, channels).done
    {
      raised := MigrateCategories(channels, guild);
      if raised {
        return 0, true;
      }
      count := MigrateLeaves(SortBy(channels, ChannelPosition), guild, permissions, now);
    }

    /** The first pass: every category, by position. */
    method MigrateCategories(channels: seq<Channel>, guild: Id) returns (raised: bool)
      modifies this, remote
      ensures State() == Run(old(State()), CategoriesToCreate(channels), CategoryStepOf(guild)).world
      ensures raised == Run(old(State()), CategoriesToCreate(channels), CategoryStepOf(guild)).raised
    {
      var categories := CategoriesToCreate(channels);
      ghost var step := CategoryStepOf(guild);
      var i := 0;
      while i < |categories|
        invariant 0 <= i <= |categories|
        invariant Run(old(State()), categories, step).world == Run(State(), categories[i..], step).world
        invariant Run(old(State()), categories, step).raised == Run(State(), categories[i..], step).raised
      {
        raised := MigrateCategory(categories[i], guild);
        if raised {
          return true;
        }
        i := i + 1;
      }
      raised := false;
    }

    /** The second pass over the ordered channels; it never raises, and
        counts the channels created. */
    method MigrateLeaves(ordered: seq<Channel>, guild: Id, permissions: bool, now: string) returns (count: nat)
      modifies this, remote, logger
      ensures State() == Run(old(State()), ordered, LeafStepOf(guild, permissions)).world
      ensures !Run(old(State()), ordered, LeafStepOf(guild, permissions)).raised
      ensures count == Run(old(State()), ordered, LeafStepOf(guild, permissions)).done
    {
      ghost var step := LeafStepOf(guild, permissions);
      count := 0;
      var j := 0;
      while j < |ordered|
        invariant 0 <= j <= |ordered|
        invariant Run(old(State()), ordered, step).world == Run(State(), ordered[j..], step).world
        invariant Run(old(State()), ordered, step).raised == Run(State(), ordered[j..], step).raised
        invariant Run(old(State()), ordered, step).done == count + Run(State(), ordered[j..], step).done
      {
        ghost var before := State();
        var created := MigrateLeaf(ordered[j], guild, permissions, now);
        RunFirst(before, ordered[j..], step);
        assert ordered[j..][1..] == ordered[j + 1..];
        if created {
          count := count + 1;
        }
        j := j + 1;
      }
    }

    /** One iteration of the emoji loop. */
    method MigrateEmoji(e: Emoji, guild: Id) returns (uploaded: bool)
      modifies remote
      ensures State() == EmojiStep(old(State()), guild, e).world
      ensures EmojiStep(old(State()), guild, e).done == if uploaded then 1 else 0
    {
      var data := remote.DownloadImage(EmojiUrl(e));
      if data.None? || data.value == [] {
        return false;
      }
      var reply := remote.Write(CreateEmoji(guild, e.name.GetOr("unnamed"), data.value));
      uploaded := reply.Some?;
    }

    /** `_migrate_emojis`: returns the number of emoji uploaded. */
    method MigrateEmojis(emojis: seq<Emoji>, guild: Id) returns (count: nat)
      modifies remote
      ensures State() == EmojisRun(old(State()), guild, emojis).world
      ensures count == EmojisRun(old(State()), guild, emojis).done
    {
      if emojis == [] {
        return 0;
      }
      ghost var step := EmojiStepOf(guild);
      count := 0;
      var i := 0;
      while i < |emojis|
        invariant 0 <= i <= |emojis|
        invariant Run(old(State()), emojis, step).world == Run(State(), emojis[i..], step).world
        invariant Run(old(State()), emojis, step).done == count + Run(State(), emojis[i..], step).done
      {
        var uploaded := MigrateEmoji(emojis[i], guild);
        if uploaded {
          count := count + 1;
        }
        i := i + 1;
      }
    }
  

    /** The destination guild: the existing one when given, otherwise a new
        one carrying the downloaded icon; None when the creation failed. */
    method ResolveDestination(guild: Guild, existing: Option<Id>) returns (target: Option<Id>)
      modifies remote
      ensures State() == ResolveGuild(old(State()), guild, existing).world
      ensures target == ResolveGuild(old(State()), guild, existing).reply
    {
      if Truthy(existing) {
        return existing;
      }
      var icon: Option<Bytes> := None;
      if Truthy(guild.icon) {
        icon := remote.DownloadImage(IconUrl(guild.id, guild.icon.value));
      }
      target := remote.Write(CreateGuild(guild.name, icon));
    }

    /** The Discord reads of the enabled kinds; None when one raised. */
    method FetchLists(guild: Id, options: Option<map<string, bool>>) returns (lists: Option<SourceLists>)
      modifies remote
      ensures State() == FetchSource(old(State()), remote.source, guild, options).world
      ensures lists == FetchSource(old(State()), remote.source, guild, options).lists
    {
      var roles: seq<Role> := [];
      var channels: seq<Channel> := [];
      var emojis: seq<Emoji> := [];
      if Enabled(options, "roles") {
        var found := remote.Fetch(FetchRoles(guild));
        if !found {
          return None;
        }
        roles := remote.source.roles[guild];
      }
      if Enabled(options, "channels") || Enabled(options, "permissions") {
        var found := remote.Fetch(FetchChannels(guild));
        if !found {
          return None;
        }
        channels := remote.source.channels[guild];
      }
      if Enabled(options, "emojis") {
        var found := remote.Fetch(FetchEmojis(guild));
        if !found {
          return None;
        }
        emojis := remote.source.emojis[guild];
      }
      lists := Some(SourceLists(roles, channels, emojis));
    }

    /** `migrate_server`: true exactly when every enabled stage ran to its end;
        anything raised on the way gives false. */
    method MigrateServer(guild: Guild, existing: Option<Id>, options: Option<map<string, bool>>, now: string) returns (success: bool)
      modifies this, remote, logger
      ensures State() == ServerRun(old(State()), remote.source, hasDiscordClient && hasFluxerClient, guild, existing, options).world
      ensures success == ServerRun(old(State()), remote.source, hasDiscordClient && hasFluxerClient, guild, existing, options).success
    {
      if !hasFluxerClient || !hasDiscordClient {
        return false;
      }
      var target := ResolveDestination(guild, existing);
      if target.None? {
        return false;
      }
      guildIdMap := guildIdMap[guild.id := target.value];
      var lists := FetchLists(guild.id, options);
      if lists.None? {
        return false;
      }
      if Enabled(options, "roles") {
        var _, raised := MigrateRoles(lists.value.roles, target.value);
        if raised {
          return false;
        }
      }
      if Enabled(options, "channels") {
        var _, raised := MigrateChannels(lists.value.channels, target.value, Enabled(options, "permissions"), now);
        if raised {
          return false;
        }
      }
      if Enabled(options, "emojis") {
        var _ := MigrateEmojis(lists.value.emojis, target.value);
      }
      success := true;
    }
  }
}
