/** The interactive front end of the migration tool (`MigrationOrchestrator`
    in `main.py`): the Discord token check and display name, the choice of
    owned servers, the per-server options and destination, and the loop that
    hands each chosen server to the guild migration. Every prompt reads the
    next line typed on the `Console`. */
module Orchestration {
  import opened Common
  import opened Ordering
  import Config
  import Logger
  import opened ServerMigration
  import Properties = ServerProperties

  // ---------------------------------------------------------------------------
  // The console.

  /** The lines the user types, in order; reading past the last one is
      Python's EOFError. */
  class Console {
    var answers: seq<string>

    constructor (answers: seq<string>)
      ensures this.answers == answers
    {
      this.answers := answers;
    }

    /** `input()`: the next line, or None at the end of input. */
    method Input() returns (line: Option<string>)
      modifies this
      ensures old(answers) == [] ==> line == None && answers == []
      ensures old(answers) != [] ==> line == Some(old(answers)[0]) && answers == old(answers)[1..]
    {
      if answers == [] {
        return None;
      }
      line := Some(answers[0]);
      answers := answers[1..];
    }
  }

  /** What a prompt leaves behind: the value chosen and the lines not yet
      read, or the end of input. */
  datatype Asked<T> = Asked(value: T, rest: seq<string>) | EndOfInput

  /** `answer.strip().lower() == 'y'`. */
  predicate Yes(answer: string) {
    Lower(Strip(answer, Whitespace)) == "y"
  }

  // ---------------------------------------------------------------------------
  // Connecting to Discord.

  /** The Discord account as `get_current_user` returns it. */
  datatype Account = Account(id: Id, username: Option<string>, discriminator: Option<string>)

  const MinTokenLength: nat := 20

  /** `setup_discord`'s check: the cleaned token is non-empty and at least 20
      characters long. */
  predicate TokenAccepted(token: string) {
    var t := Config.CleanToken(token);
    t != [] && |t| >= MinTokenLength
  }

  /** Cleaning never lengthens a token, so a token shorter than 20 characters
      as typed is always rejected; and a token that was accepted is its own
      cleaned form's length or longer. */
  lemma TokenLength(token: string)
    ensures TokenAccepted(token) ==> |token| >= |Config.CleanToken(token)| >= MinTokenLength
    ensures |token| < MinTokenLength ==> !TokenAccepted(token)
  {
  }

  /** The name shown after connecting: `username#discriminator`, or just the
      username when the discriminator is missing, empty or "0"; "Unknown"
      when there is no username. */
  function DisplayName(username: Option<string>, discriminator: Option<string>): string {
    var name := username.GetOr("Unknown");
    if Truthy(discriminator) && discriminator.value != "0" then name + "#" + discriminator.value else name
  }

  /** Whether the discriminator is shown. */
  predicate ShowsDiscriminator(discriminator: Option<string>) {
    Truthy(discriminator) && discriminator.value != "0"
  }

  /** The position of the first `c` in `s`, or `|s|` when there is none. */
  function IndexOf(s: string, c: char): (k: nat)
    ensures k <= |s|
    ensures k < |s| ==> s[k] == c
    ensures forall i :: 0 <= i < k ==> s[i] != c
    decreases |s|
  {
    if s == [] || s[0] == c then 0 else 1 + IndexOf(s[1..], c)
  }

  /** Reading a display name back: the part before the first '#', and the
      part after it when there is one. */
  function DisplayNameParts(shown: string): (string, Option<string>) {
    var k := IndexOf(shown, '#');
    if k == |shown| then (shown, None) else (shown[..k], Some(shown[k + 1..]))
  }

  /** The display name determines the username and the discriminator shown,
      because a username never contains '#'. */
  lemma DisplayNameRoundTrip(username: Option<string>, discriminator: Option<string>)
    requires '#' !in username.GetOr("Unknown")
    ensures DisplayNameParts(DisplayName(username, discriminator))
         == (username.GetOr("Unknown"), if ShowsDiscriminator(discriminator) then discriminator else None)
  {
    var name := username.GetOr("Unknown");
    var shown := DisplayName(username, discriminator);
    var k := IndexOf(shown, '#');
    if ShowsDiscriminator(discriminator) {
      assert shown == name + "#" + discriminator.value;
      assert shown[|name|] == '#';
      assert k == |name|;
      assert shown[..k] == name;
      assert shown[k + 1..] == discriminator.value;
    } else {
      assert shown == name;
    }
  }

  /** A guild as `get_guilds` lists it: the guild and its ownership fields. */
  datatype GuildEntry = GuildEntry(guild: Guild, owner: bool, ownerId: Option<Id>)

  /** `g.get("owner") or g.get("owner_id") == user_id`. */
  function OwnedBy(userId: Id): GuildEntry -> bool {
    (g: GuildEntry) => g.owner || g.ownerId == Some(userId)
  }

  /** The guilds the user owns, in their listed order. */
  function Owned(guilds: seq<GuildEntry>, userId: Id): seq<GuildEntry> {
    Keep(guilds, OwnedBy(userId))
  }

  /** A guild is offered exactly when it is listed and owned, and the owned
      guilds of two lists are those of each, in order. */
  lemma OwnedGuilds(guilds: seq<GuildEntry>, more: seq<GuildEntry>, userId: Id)
    ensures forall g :: g in Owned(guilds, userId) <==> g in guilds && (g.owner || g.ownerId == Some(userId))
    ensures Owned(guilds + more, userId) == Owned(guilds, userId) + Owned(more, userId)
  {
    KeepAppend(guilds, more, OwnedBy(userId));
    forall g | g in guilds && OwnedBy(userId)(g) ensures g in Owned(guilds, userId) {
      var i :| 0 <= i < |guilds| && guilds[i] == g;
    }
    forall g | g in Owned(guilds, userId) ensures g in guilds && OwnedBy(userId)(g) {
      var i :| 0 <= i < |Owned(guilds, userId)| && Owned(guilds, userId)[i] == g;
    }
  }

  // ---------------------------------------------------------------------------
  // Choosing servers (`select_servers`).

  /** `s.split(sep)`: the pieces between separators; there is always one more
      piece than there are separators. */
  function Split(s: string, sep: char): (parts: seq<string>)
    ensures |parts| >= 1
    ensures forall i :: 0 <= i < |parts| ==> sep !in parts[i]
    decreases |s|
  {
    var k := IndexOf(s, sep);
    if k == |s| then [s] else [s[..k]] + Split(s[k + 1..], sep)
  }

  /** `sep.join(parts)`. */
  function Join(parts: seq<string>, sep: char): string
    requires |parts| >= 1
    decreases |parts|
  {
    if |parts| == 1 then parts[0] else parts[0] + [sep] + Join(parts[1..], sep)
  }

  /** Joining the pieces gives back the string that was split. */
  lemma {:induction false} JoinSplit(s: string, sep: char)
    ensures Join(Split(s, sep), sep) == s
    decreases |s|
  {
    var k := IndexOf(s, sep);
    if k < |s| {
      var tail := Split(s[k + 1..], sep);
      var parts := [s[..k]] + tail;
      assert Split(s, sep) == parts;
      assert parts[1..] == tail;
      JoinSplit(s[k + 1..], sep);
      assert Join(parts, sep) == s[..k] + [sep] + s[k + 1..];
      assert s == s[..k] + [sep] + s[k + 1..];
    }
  }

  /** Splitting a join of separator-free pieces gives back the pieces. */
  lemma {:induction false} SplitJoin(parts: seq<string>, sep: char)
    requires |parts| >= 1
    requires forall i :: 0 <= i < |parts| ==> sep !in parts[i]
    ensures Split(Join(parts, sep), sep) == parts
    decreases |parts|
  {
    if |parts| > 1 {
      var s := Join(parts, sep);
      var rest := Join(parts[1..], sep);
      assert s == parts[0] + [sep] + rest;
      var k := IndexOf(s, sep);
      assert s[|parts[0]|] == sep;
      assert k == |parts[0]|;
      assert s[..k] == parts[0];
      assert s[k + 1..] == rest;
      SplitJoin(parts[1..], sep);
    } else {
      assert Join(parts, sep) == parts[0];
      assert IndexOf(parts[0], sep) == |parts[0]|;
    }
  }

  /** Reading every piece with `read`: None as soon as one piece cannot be
      read. */
  function ReadAll<T>(parts: seq<string>, read: string -> Option<T>): (r: Option<seq<T>>)
    ensures r.Some? <==> forall i :: 0 <= i < |parts| ==> read(parts[i]).Some?
    ensures r.Some? ==> |r.value| == |parts|
    ensures r.Some? ==> forall i :: 0 <= i < |parts| ==> read(parts[i]) == Some(r.value[i])
    decreases |parts|
  {
    if parts == [] then Some([])
    else
      var head := read(parts[0]);
      var tail := ReadAll(parts[1..], read);
      assert forall i :: 1 <= i < |parts| ==> parts[i] == parts[1..][i - 1];
      if head.Some? && tail.Some? then Some([head.value] + tail.value) else None
  }

  /** `[int(x.strip()) for x in parts]`, or None when a piece does not parse
      (the ValueError). `int` strips surrounding whitespace itself, so the
      explicit strip changes nothing and each piece is read by `ParseInt`. */
  function ParseAll(parts: seq<string>): Option<seq<int>> {
    ReadAll(parts, ParseInt)
  }

  /** `[owned[i - 1] for i in indices if 1 <= i <= len(owned)]`. */
  function Picks(owned: seq<GuildEntry>, indices: seq<int>): (r: seq<GuildEntry>)
    ensures forall g :: g in r ==> g in owned
    decreases |indices|
  {
    if indices == [] then []
    else (if 1 <= indices[0] <= |owned| then [owned[indices[0] - 1]] else []) + Picks(owned, indices[1..])
  }

  function InRange(n: nat): int -> bool {
    i => 1 <= i <= n
  }

  /** The picks are the owned guilds at the in-range indices, in the order
      typed, repeats kept: out-of-range indices are simply dropped. */
  lemma {:induction false} PicksAreInRangeIndices(owned: seq<GuildEntry>, indices: seq<int>)
    ensures var kept := Keep(indices, InRange(|owned|));
      |Picks(owned, indices)| == |kept|
      && forall k :: 0 <= k < |kept| ==> Picks(owned, indices)[k] == owned[kept[k] - 1]
    decreases |indices|
  {
    if indices != [] {
      var inRange := InRange(|owned|);
      var tail := Keep(indices[1..], inRange);
      var picked := Picks(owned, indices[1..]);
      PicksAreInRangeIndices(owned, indices[1..]);
      KeepFirst(indices, inRange);
      if inRange(indices[0]) {
        assert Picks(owned, indices) == [owned[indices[0] - 1]] + picked;
      } else {
        assert Picks(owned, indices) == [] + picked;
        assert [] + picked == picked;
      }
    }
  }

  /** One answer to the server prompt: "cancel", "all", or a comma list of
      one-based positions; None asks again (no valid pick, or a piece that is
      not an integer). */
  function ServerChoice(owned: seq<GuildEntry>, answer: string): (r: Option<seq<GuildEntry>>)
    ensures r.Some? ==> forall g :: g in r.value ==> g in owned
  {
    var choice := Lower(Strip(answer, Whitespace));
    if choice == "cancel" then Some([])
    else if choice == "all" then Some(owned)
    else
      match ParseAll(Split(choice, ','))
      case None => None
      case Some(indices) =>
        var picked := Picks(owned, indices);
        if picked == [] then None else Some(picked)
  }

  /** With some owned guild, the only answer that selects nothing is "cancel";
      "all" selects every owned guild. */
  lemma ServerChoiceEmpty(owned: seq<GuildEntry>, answer: string)
    requires owned != []
    ensures ServerChoice(owned, answer) == Some([]) <==> Lower(Strip(answer, Whitespace)) == "cancel"
    ensures Lower(Strip(answer, Whitespace)) == "all" ==> ServerChoice(owned, answer) == Some(owned)
  {
  }

  /** A prompt asked again until `choose` accepts an answer: the first
      accepted answer, every earlier one rejected; the end of input when
      none is accepted. */
  function FirstAccepted<X>(answers: seq<string>, choose: string -> Option<X>): (r: Asked<X>)
    ensures r.Asked? ==> |r.rest| < |answers| && r.rest == answers[|answers| - |r.rest|..]
    ensures r.Asked? ==> |r.rest| + 1 <= |answers| && choose(answers[|answers| - |r.rest| - 1]) == Some(r.value)
    ensures r.Asked? ==> forall i :: 0 <= i < |answers| - |r.rest| - 1 ==> choose(answers[i]).None?
    ensures r.EndOfInput? <==> forall i :: 0 <= i < |answers| ==> choose(answers[i]).None?
    decreases |answers|
  {
    if answers == [] then EndOfInput
    else
      match choose(answers[0])
      case Some(x) => Asked(x, answers[1..])
      case None =>
        assert forall i :: 1 <= i < |answers| ==> answers[i] == answers[1..][i - 1];
        FirstAccepted(answers[1..], choose)
  }

  /** The server prompt, asked again until an answer is accepted. */
  function ServersChosen(owned: seq<GuildEntry>, answers: seq<string>): Asked<seq<GuildEntry>> {
    FirstAccepted(answers, (a: string) => ServerChoice(owned, a))
  }

  /** `select_servers`: nothing without guilds, without a user, or without an
      owned guild; otherwise the owned guilds the user picks. */
  function SelectedServers(guilds: seq<GuildEntry>, user: Option<Account>, answers: seq<string>): Asked<seq<GuildEntry>> {
    if guilds == [] || user.None? then Asked([], answers)
    else
      var owned := Owned(guilds, user.value.id);
      if owned == [] then Asked([], answers) else ServersChosen(owned, answers)
  }

  /** Every server selected is one the user owns. */
  lemma SelectedServersOwned(guilds: seq<GuildEntry>, user: Option<Account>, answers: seq<string>)
    ensures var r := SelectedServers(guilds, user, answers);
      r.Asked? ==> forall g :: g in r.value ==> g in guilds && user.Some? && (g.owner || g.ownerId == Some(user.value.id))
  {
    if guilds != [] && user.Some? {
      OwnedGuilds(guilds, [], user.value.id);
    }
  }

  // ---------------------------------------------------------------------------
  // What to migrate (`select_migration_options`).

  datatype Options = Options(roles: bool, channels: bool, permissions: bool, emojis: bool)

  /** The options dictionary handed to `migrate_server`. */
  function OptionsMap(o: Options): map<string, bool> {
    map["roles" := o.roles, "channels" := o.channels, "permissions" := o.permissions, "emojis" := o.emojis]
  }

  /** Each stage of the guild migration runs exactly when its option is set. */
  lemma OptionsMapEnabled(o: Options)
    ensures Enabled(Some(OptionsMap(o)), "roles") == o.roles
    ensures Enabled(Some(OptionsMap(o)), "channels") == o.channels
    ensures Enabled(Some(OptionsMap(o)), "permissions") == o.permissions
    ensures Enabled(Some(OptionsMap(o)), "emojis") == o.emojis
  {
  }

  /** The menu: "1" everything, "2" a custom selection, anything else cancels. */
  function OptionsChosen(answers: seq<string>): (r: Asked<Option<Options>>)
    ensures r.Asked? ==> |r.rest| < |answers| && r.rest == answers[|answers| - |r.rest|..]
  {
    if answers == [] then EndOfInput
    else
      var choice := Strip(answers[0], Whitespace);
      if choice == "1" then Asked(Some(Options(true, true, true, true)), answers[1..])
      else if choice == "2" then CustomOptions(answers[1..])
      else Asked(None, answers[1..])
  }

  /** The custom selection: roles, channels, channel permissions (asked only
      when channels are migrated), emoji, then the confirmation, each answer
      read as a yes or a no. */
  function CustomOptions(answers: seq<string>): Asked<Option<Options>> {
    CustomOptionsRead(answers, Yes)
  }

  /** The custom selection with each answer read by `yes`. */
  function CustomOptionsRead(answers: seq<string>, yes: string -> bool): (r: Asked<Option<Options>>)
    ensures r.Asked? ==> |r.rest| < |answers| && r.rest == answers[|answers| - |r.rest|..]
    ensures r.Asked? && r.value.Some? ==> |r.rest| + 1 <= |answers| && yes(answers[|answers| - |r.rest| - 1])
    ensures r.Asked? && r.value.Some? ==> (r.value.value.permissions ==> r.value.value.channels)
  {
    if |answers| < 2 then EndOfInput
    else
      var roles := yes(answers[0]);
      var channels := yes(answers[1]);
      var asked := if channels then 3 else 2;
      if |answers| < asked + 2 then EndOfInput
      else
        var permissions := channels && yes(answers[2]);
        var emojis := yes(answers[asked]);
        var confirmed := yes(answers[asked + 1]);
        Asked(if confirmed then Some(Options(roles, channels, permissions, emojis)) else None, answers[asked + 2..])
  }

  /** Options are only ever chosen through "1" (everything) or "2"; channel
      permissions are never chosen without channels; and a custom selection
      is only returned when the last answer read confirmed it. */
  lemma OptionsChosenMeaning(answers: seq<string>)
    ensures var r := OptionsChosen(answers);
      r.Asked? && r.value.Some? ==>
        && |r.rest| + 1 <= |answers|
        && (r.value.value.permissions ==> r.value.value.channels)
        && (Strip(answers[0], Whitespace) == "1" || Strip(answers[0], Whitespace) == "2")
        && (Strip(answers[0], Whitespace) == "1" <==> r.value == Some(Options(true, true, true, true)) && r.rest == answers[1..])
        && (Strip(answers[0], Whitespace) == "2" ==> Yes(answers[|answers| - |r.rest| - 1]))
  {
    if answers != [] && Strip(answers[0], Whitespace) == "2" {
      var custom := answers[1..];
      var c := CustomOptionsRead(custom, Yes);
      assert OptionsChosen(answers) == c;
      if c.Asked? && c.value.Some? {
        assert custom[|custom| - |c.rest| - 1] == answers[|answers| - |c.rest| - 1];
      }
    }
  }

  // ---------------------------------------------------------------------------
  // Where to migrate (`select_fluxer_guild_for_migration`).

  /** A Fluxer guild as `get_current_user_guilds` lists it. */
  datatype FluxerGuild = FluxerGuild(id: Id, name: string)

  /** The answer that skips a server. */
  const Skip: string := "SKIP"

  /** The menu: "1" a new guild (None); "2" an existing guild; anything else
      skips the server. `listed` is the outcome of reading the user's Fluxer
      guilds, None when that read raised; it is read only on "2". */
  function TargetChosen(answers: seq<string>, listed: Option<seq<FluxerGuild>>): (r: Asked<Option<string>>)
    ensures r.Asked? ==> |r.rest| < |answers| && r.rest == answers[|answers| - |r.rest|..]
  {
    if answers == [] then EndOfInput
    else
      var choice := Strip(answers[0], Whitespace);
      if choice == "1" then Asked(None, answers[1..])
      else if choice == "2" then
        match listed
        case None => Asked(None, answers[1..])
        case Some(guilds) => if guilds == [] then Asked(None, answers[1..]) else GuildPicked(guilds, answers[1..])
      else Asked(Some(Skip), answers[1..])
  }

  /** One answer to the existing-guild prompt: "cancel" (in any case) gives
      a new guild, a one-based position picks a listed guild, anything else
      (not an integer, or out of range) is rejected. */
  function GuildChoice(guilds: seq<FluxerGuild>, answer: string): (r: Option<Option<string>>)
    ensures r == Some(None) <==> Lower(Strip(answer, Whitespace)) == "cancel"
    ensures r.Some? && r.value.Some? ==> exists i :: 0 <= i < |guilds| && guilds[i].id == r.value.value
  {
    var choice := Strip(answer, Whitespace);
    if Lower(choice) == "cancel" then Some(None)
    else
      match ParseInt(choice)
      case Some(n) => if 1 <= n <= |guilds| then Some(Some(guilds[n - 1].id)) else None
      case None => None
  }

  /** The existing-guild prompt, asked again on a rejected answer. The
      surrounding handler catches the end of input, which also gives a new
      guild. */
  function GuildPicked(guilds: seq<FluxerGuild>, answers: seq<string>): (r: Asked<Option<string>>)
    ensures r.Asked?
    ensures r.Asked? ==> |r.rest| <= |answers| && r.rest == answers[|answers| - |r.rest|..]
    ensures r.Asked? && r.value.Some? ==> exists i :: 0 <= i < |guilds| && guilds[i].id == r.value.value
  {
    match FirstAccepted(answers, (a: string) => GuildChoice(guilds, a))
    case EndOfInput => Asked(None, [])
    case Asked(target, rest) => Asked(target, rest)
  }

  /** The destination is a new guild, the skip marker, or a listed guild; the
      end of input only escapes at the first prompt; and "1", a failed or
      empty guild list under "2" give a new guild. */
  lemma TargetChosenMeaning(answers: seq<string>, listed: Option<seq<FluxerGuild>>)
    ensures var r := TargetChosen(answers, listed);
      && (r.EndOfInput? <==> answers == [])
      && (r.Asked? && r.value.Some? ==>
            r.value.value == Skip || (listed.Some? && exists i :: 0 <= i < |listed.value| && listed.value[i].id == r.value.value))
      && (answers != [] && Strip(answers[0], Whitespace) == "2" && (listed.None? || listed.value == []) ==> r == Asked(None, answers[1..]))
      && (r.Asked? && r.value == Some(Skip) && (listed.None? || forall i :: 0 <= i < |listed.value| ==> listed.value[i].id != Skip) ==>
            Strip(answers[0], Whitespace) != "1" && Strip(answers[0], Whitespace) != "2")
  {
  }

  // ---------------------------------------------------------------------------
  // Migrating the chosen servers (`migrate_servers`).

  /** One guild migration the user asked for: the server, its destination
      (None for a new guild) and the options. */
  datatype Migration = Migration(guild: Guild, target: Option<Id>, options: Options)

  /** The state of the platforms after a run of servers, the lines left,
      whether the end of input interrupted the run, and the migrations made,
      in order. */
  datatype Progress = Progress(world: World, rest: seq<string>, interrupted: bool, migrations: seq<Migration>)

  /** `migrate_server` with the chosen destination and options. */
  function MigrationOf(src: SourceData, ready: bool): (World, Migration) -> World {
    (v: World, m: Migration) => ServerRun(v, src, ready, m.guild, m.target, Some(OptionsMap(m.options))).world
  }

  /** The two questions asked for each server, each reading lines from the
      front of the input. */
  datatype Prompts = Prompts(options: seq<string> -> Asked<Option<Options>>, target: seq<string> -> Asked<Option<string>>)

  /** The prompts of `migrate_servers`; `listed` is the outcome of reading
      the user's Fluxer guilds. */
  function PromptsOf(listed: Option<seq<FluxerGuild>>): Prompts {
    Prompts(OptionsChosen, (answers: seq<string>) => TargetChosen(answers, listed))
  }

  /** What the prompts decide for one server. */
  datatype Turn = Ended | Skipped(rest: seq<string>) | Migrates(m: Migration, rest: seq<string>)

  /** Ask the options (none skips the server), then the destination (the
      skip marker skips it). */
  function TurnOf(server: Guild, answers: seq<string>, prompts: Prompts): (t: Turn)
    ensures t.Migrates? ==> t.m.guild == server && t.m.target != Some(Skip)
  {
    match prompts.options(answers)
    case EndOfInput => Ended
    case Asked(options, afterOptions) =>
      if options.None? then Skipped(afterOptions)
      else
        match prompts.target(afterOptions)
        case EndOfInput => Ended
        case Asked(target, afterTarget) =>
          if target == Some(Skip) then Skipped(afterTarget)
          else Migrates(Migration(server, target, options.value), afterTarget)
  }

  /** For each server in turn: its prompts, then the migration with
      `migrate` unless it was skipped; the end of input interrupts the run. */
  function ServersRun(w: World, servers: seq<Guild>, answers: seq<string>, prompts: Prompts,
                      migrate: (World, Migration) -> World): (p: Progress)
    ensures |p.migrations| <= |servers|
    ensures p.interrupted ==> p.rest == []
    ensures forall m :: m in p.migrations ==> m.guild in servers && m.target != Some(Skip)
    decreases |servers|
  {
    if servers == [] then Progress(w, answers, false, [])
    else
      match TurnOf(servers[0], answers, prompts)
      case Ended => Progress(w, [], true, [])
      case Skipped(rest) => ServersRun(w, servers[1..], rest, prompts, migrate)
      case Migrates(m, rest) =>
        var p := ServersRun(migrate(w, m), servers[1..], rest, prompts, migrate);
        p.(migrations := [m] + p.migrations)
  }

  /** One step of a run of servers: the first server's turn decides whether
      the run stops, moves on, or migrates it first. */
  lemma ServersRunStep(w: World, servers: seq<Guild>, answers: seq<string>, prompts: Prompts, migrate: (World, Migration) -> World)
    requires servers != []
    ensures var t := TurnOf(servers[0], answers, prompts);
      var p := ServersRun(w, servers, answers, prompts, migrate);
      && (t.Ended? ==> p == Progress(w, [], true, []))
      && (t.Skipped? ==> p == ServersRun(w, servers[1..], t.rest, prompts, migrate))
      && (t.Migrates? ==> Continues(p, [t.m], ServersRun(migrate(w, t.m), servers[1..], t.rest, prompts, migrate)))
  {
  }

  /** `whole` is `part` preceded by the migrations `done`. */
  predicate Continues(whole: Progress, done: seq<Migration>, part: Progress) {
    whole == part.(migrations := done + part.migrations)
  }

  lemma ContinuesAfter(whole: Progress, done: seq<Migration>, m: Migration, part: Progress)
    requires Continues(whole, done, part.(migrations := [m] + part.migrations))
    ensures Continues(whole, done + [m], part)
  {
    assert done + ([m] + part.migrations) == done + [m] + part.migrations;
  }

  /** The migrations applied one after the other. */
  function Applied(w: World, ms: seq<Migration>, migrate: (World, Migration) -> World): World
    decreases |ms|
  {
    if ms == [] then w else Applied(migrate(w, ms[0]), ms[1..], migrate)
  }

  /** The platforms after a run of servers are exactly the migrations it
      reports, applied in order: skipped servers leave no trace. */
  lemma {:induction false} ServersRunApplies(w: World, servers: seq<Guild>, answers: seq<string>, prompts: Prompts,
                                             migrate: (World, Migration) -> World)
    ensures var p := ServersRun(w, servers, answers, prompts, migrate);
      p.world == Applied(w, p.migrations, migrate)
    decreases |servers|
  {
    if servers != [] {
      match TurnOf(servers[0], answers, prompts)
      case Ended =>
      case Skipped(rest) => ServersRunApplies(w, servers[1..], rest, prompts, migrate);
      case Migrates(m, rest) =>
        ServersRunApplies(migrate(w, m), servers[1..], rest, prompts, migrate);
        var p := ServersRun(migrate(w, m), servers[1..], rest, prompts, migrate);
        assert ([m] + p.migrations)[1..] == p.migrations;
    }
  }

  /** Options that never ask for channel permissions without channels. */
  ghost predicate ChannelsFirst(prompts: Prompts, answers: seq<string>) {
    var r := prompts.options(answers);
    r.Asked? && r.value.Some? ==> (r.value.value.permissions ==> r.value.value.channels)
  }

  /** A destination that is a new guild, the skip marker or a listed guild. */
  ghost predicate KnownTarget(prompts: Prompts, listed: Option<seq<FluxerGuild>>, answers: seq<string>) {
    var r := prompts.target(answers);
    r.Asked? && r.value.Some? ==>
      r.value.value == Skip || (listed.Some? && exists i :: 0 <= i < |listed.value| && listed.value[i].id == r.value.value)
  }

  /** Every migration made went to a new guild or a listed guild, with
      options that never ask for permissions without channels. */
  lemma {:induction false} ServersRunMigrationsWith(w: World, servers: seq<Guild>, answers: seq<string>, prompts: Prompts,
                                                    listed: Option<seq<FluxerGuild>>, migrate: (World, Migration) -> World)
    requires forall a :: ChannelsFirst(prompts, a) && KnownTarget(prompts, listed, a)
    ensures forall m :: m in ServersRun(w, servers, answers, prompts, migrate).migrations ==>
      && (m.options.permissions ==> m.options.channels)
      && (m.target == None || (listed.Some? && exists i :: 0 <= i < |listed.value| && listed.value[i].id == m.target.value))
    decreases |servers|
  {
    if servers != [] {
      var o := prompts.options(answers);
      assert ChannelsFirst(prompts, answers);
      if o.Asked? && o.value.Some? {
        assert KnownTarget(prompts, listed, o.rest);
      }
      match TurnOf(servers[0], answers, prompts)
      case Ended =>
      case Skipped(rest) => ServersRunMigrationsWith(w, servers[1..], rest, prompts, listed, migrate);
      case Migrates(m, rest) => ServersRunMigrationsWith(migrate(w, m), servers[1..], rest, prompts, listed, migrate);
    }
  }

  /** In `migrate_servers`, every migration made goes to a new guild or to a
      listed Fluxer guild, and never asks for channel permissions without
      channels. */
  lemma ServersRunMigrations(w: World, servers: seq<Guild>, answers: seq<string>, listed: Option<seq<FluxerGuild>>, src: SourceData, ready: bool)
    ensures forall m :: m in ServersRun(w, servers, answers, PromptsOf(listed), MigrationOf(src, ready)).migrations ==>
      && (m.options.permissions ==> m.options.channels)
      && (m.target == None || (listed.Some? && exists i :: 0 <= i < |listed.value| && listed.value[i].id == m.target.value))
  {
    var prompts := PromptsOf(listed);
    forall a ensures ChannelsFirst(prompts, a) && KnownTarget(prompts, listed, a) {
      OptionsChosenMeaning(a);
      TargetChosenMeaning(a, listed);
    }
    ServersRunMigrationsWith(w, servers, answers, prompts, listed, MigrationOf(src, ready));
  }

  /** `after` keeps every request issued before, in order, and may add more. */
  ghost predicate Extends(before: World, after: World) {
    |before.requests| <= |after.requests| && after.requests[..|before.requests|] == before.requests
  }

  lemma ExtendsTrans(a: World, b: World, c: World)
    requires Extends(a, b) && Extends(b, c)
    ensures Extends(a, c)
  {
    assert c.requests[..|a.requests|] == c.requests[..|b.requests|][..|a.requests|];
  }

  ghost predicate KeepsRequests(migrate: (World, Migration) -> World, v: World, m: Migration) {
    Extends(v, migrate(v, m))
  }

  /** When each migration keeps the requests issued before it, so does any
      sequence of them. */
  lemma {:induction false} AppliedExtends(w: World, ms: seq<Migration>, migrate: (World, Migration) -> World)
    requires forall v, m :: KeepsRequests(migrate, v, m)
    ensures Extends(w, Applied(w, ms, migrate))
    decreases |ms|
  {
    if ms != [] {
      assert KeepsRequests(migrate, w, ms[0]);
      AppliedExtends(migrate(w, ms[0]), ms[1..], migrate);
      ExtendsTrans(w, migrate(w, ms[0]), Applied(w, ms, migrate));
    }
  }

  /** A single guild migration keeps the requests issued before it. */
  lemma ServerRunExtends(w: World, src: SourceData, ready: bool, guild: Guild, existing: Option<Id>, options: Option<map<string, bool>>)
    ensures Extends(w, ServerRun(w, src, ready, guild, existing, options).world)
  {
    Properties.ServerRunGuild(w, src, ready, guild, existing, options);
    if ready {
      var resolved := ResolveGuild(w, guild, existing);
      Properties.ResolveGuildRequests(w, guild, existing);
      Properties.ServerRunAfterResolution(w, src, guild, existing, options);
      assert Extends(w, resolved.world);
      ExtendsTrans(w, resolved.world, ServerRun(w, src, ready, guild, existing, options).world);
    }
  }

  /** A run of servers only ever adds requests to those issued before. */
  lemma ServersRunExtends(w: World, src: SourceData, ready: bool, servers: seq<Guild>, answers: seq<string>, listed: Option<seq<FluxerGuild>>)
    ensures Extends(w, ServersRun(w, servers, answers, PromptsOf(listed), MigrationOf(src, ready)).world)
  {
    var migrate := MigrationOf(src, ready);
    forall v, m ensures KeepsRequests(migrate, v, m) {
      ServerRunExtends(v, src, ready, m.guild, m.target, Some(OptionsMap(m.options)));
    }
    ServersRunApplies(w, servers, answers, PromptsOf(listed), migrate);
    AppliedExtends(w, ServersRun(w, servers, answers, PromptsOf(listed), migrate).migrations, migrate);
  }

  /** Without both clients, a run of servers changes nothing on the platforms,
      whatever the user answers. */
  lemma ServersRunNotReady(w: World, src: SourceData, servers: seq<Guild>, answers: seq<string>, listed: Option<seq<FluxerGuild>>)
    ensures ServersRun(w, servers, answers, PromptsOf(listed), MigrationOf(src, false)).world == w
  {
    var migrate := MigrationOf(src, false);
    var ms := ServersRun(w, servers, answers, PromptsOf(listed), migrate).migrations;
    ServersRunApplies(w, servers, answers, PromptsOf(listed), migrate);
    AppliedIdentity(w, ms, migrate);
  }

  lemma {:induction false} AppliedIdentity(w: World, ms: seq<Migration>, migrate: (World, Migration) -> World)
    requires forall v, m :: migrate(v, m) == v
    ensures Applied(w, ms, migrate) == w
    decreases |ms|
  {
    if ms != [] {
      AppliedIdentity(migrate(w, ms[0]), ms[1..], migrate);
    }
  }

  // ---------------------------------------------------------------------------
  // The orchestrator object.

  datatype Setup = Connected | TokenRejected | ConnectionFailed

  class Orchestrator {
    /** The platforms and the CDN behind both clients. */
    const remote: Remote
    const logger: Logger.MigrationLogger
    /** Whether `discord_http` and `fluxer_http` have been set. */
    var discordReady: bool
    var fluxerReady: bool
    var discordUser: Option<Account>
    var discordGuilds: seq<GuildEntry>

    constructor (remote: Remote, startTime: string)
      ensures this.remote == remote && fresh(logger)
      ensures logger.logEntries == [] && logger.unsupportedFeatures == []
      ensures !discordReady && !fluxerReady && discordUser == None && discordGuilds == []
    {
      this.remote := remote;
      logger := new Logger.MigrationLogger(None, startTime);
      discordReady, fluxerReady := false, false;
      discordUser, discordGuilds := None, [];
    }

    /** The platforms as a new guild migrator sees them: no ids mapped yet. */
    ghost function Platforms(): World
      reads remote, logger
    {
      World(remote.requests, remote.replies, remote.images, map[], map[], map[], map[], logger.unsupportedFeatures)
    }

    /** `setup_discord`: reject a short token before building the client,
        then connect. */
    method SetupDiscord(token: string, me: Option<Account>, guilds: Option<seq<GuildEntry>>, now: string) returns (outcome: Setup)
      modifies this, logger
      ensures outcome == TokenRejected <==> !TokenAccepted(token)
      ensures !TokenAccepted(token) ==>
        (discordReady == old(discordReady) && discordUser == old(discordUser)
         && discordGuilds == old(discordGuilds) && logger.logEntries == old(logger.logEntries))
      ensures TokenAccepted(token) ==> discordReady && ConnectedAs(old(discordUser), old(discordGuilds), old(logger.logEntries), outcome, me, guilds, now)
      ensures fluxerReady == old(fluxerReady) && logger.unsupportedFeatures == old(logger.unsupportedFeatures)
    {
      if !TokenAccepted(token) {
        return TokenRejected;
      }
      outcome := ConnectDiscord(me, guilds, now);
    }

    /** What connecting leaves behind: the user when `get_current_user`
        answered, the guild list when `get_guilds` answered too, and a log
        line for each. */
    ghost predicate ConnectedAs(user: Option<Account>, guilds: seq<GuildEntry>, entries: seq<string>,
                                outcome: Setup, me: Option<Account>, listed: Option<seq<GuildEntry>>, now: string)
      reads this, logger
    {
      && (outcome == Connected <==> me.Some? && listed.Some?)
      && outcome != TokenRejected
      && discordUser == (if me.Some? then me else user)
      && discordGuilds == (if outcome == Connected then listed.value else guilds)
      && logger.logEntries == entries
        + (if me.Some? then [Logger.Entry(now, "INFO", "Connected to Discord as " + DisplayName(me.value.username, me.value.discriminator))] else [])
        + (if outcome == Connected then [Logger.Entry(now, "INFO", "Found " + IntToString(|listed.value|) + " Discord servers")] else [])
    }

    /** The connection part of `setup_discord`, once the token is accepted:
        `me` and `guilds` are the outcomes of the two reads (None when the
        read raised). */
    method ConnectDiscord(me: Option<Account>, guilds: Option<seq<GuildEntry>>, now: string) returns (outcome: Setup)
      modifies this, logger
      ensures discordReady
      ensures ConnectedAs(old(discordUser), old(discordGuilds), old(logger.logEntries), outcome, me, guilds, now)
      ensures fluxerReady == old(fluxerReady) && logger.unsupportedFeatures == old(logger.unsupportedFeatures)
    {
      discordReady := true;
      if me.None? {
        return ConnectionFailed;
      }
      discordUser := me;
      logger.Log("Connected to Discord as " + DisplayName(me.value.username, me.value.discriminator), now);
      if guilds.None? {
        return ConnectionFailed;
      }
      discordGuilds := guilds.value;
      logger.Log("Found " + IntToString(|guilds.value|) + " Discord servers", now);
      outcome := Connected;
    }

    /** `setup_fluxer`: the client is set before the connection test, so it
        stays set when the test fails. `me` is the account read (None when it
        raised, with `failure` the exception's text): either way one line is
        logged, an ERROR line on failure. */
    method SetupFluxer(me: Option<Account>, failure: string, now: string) returns (outcome: Setup)
      modifies this, logger
      ensures fluxerReady
      ensures outcome == (if me.Some? then Connected else ConnectionFailed)
      ensures logger.logEntries == old(logger.logEntries)
        + [if me.Some? then Logger.Entry(now, "INFO", "Connected to Fluxer as " + me.value.username.GetOr("Unknown"))
           else Logger.Entry(now, "ERROR", "Failed to connect to Fluxer: " + failure)]
      ensures discordReady == old(discordReady) && discordUser == old(discordUser) && discordGuilds == old(discordGuilds)
      ensures logger.unsupportedFeatures == old(logger.unsupportedFeatures)
    {
      fluxerReady := true;
      if me.None? {
        logger.Log("Failed to connect to Fluxer: " + failure, now, "ERROR");
        return ConnectionFailed;
      }
      logger.Log("Connected to Fluxer as " + me.value.username.GetOr("Unknown"), now);
      outcome := Connected;
    }

    /** `select_servers`: the guilds chosen, or None when the input ran out. */
    method SelectServers(console: Console, now: string) returns (selected: Option<seq<GuildEntry>>)
      modifies console, logger
      ensures var r := SelectedServers(discordGuilds, discordUser, old(console.answers));
        && selected == (if r.EndOfInput? then None else Some(r.value))
        && console.answers == (if r.EndOfInput? then [] else r.rest)
      ensures logger.logEntries == old(logger.logEntries)
        + (if discordGuilds != [] && discordUser.Some? && Owned(discordGuilds, discordUser.value.id) == []
           then [Logger.Entry(now, "WARN", "You don't own any servers")] else [])
      ensures logger.unsupportedFeatures == old(logger.unsupportedFeatures)
    {
      if discordGuilds == [] || discordUser.None? {
        return Some([]);
      }
      var owned := Owned(discordGuilds, discordUser.value.id);
      if owned == [] {
        logger.Log("You don't own any servers", now, "WARN");
        return Some([]);
      }
      while true
        invariant ServersChosen(owned, console.answers) == ServersChosen(owned, old(console.answers))
        invariant logger.logEntries == old(logger.logEntries) && logger.unsupportedFeatures == old(logger.unsupportedFeatures)
        decreases |console.answers|
      {
        var line := console.Input();
        if line.None? {
          return None;
        }
        var choice := ServerChoice(owned, line.value);
        if choice.Some? {
          return choice;
        }
      }
    }

    /** `select_migration_options`: `ended` when the input ran out. */
    method SelectMigrationOptions(console: Console) returns (options: Option<Options>, ended: bool)
      modifies console
      ensures var r := OptionsChosen(old(console.answers));
        && ended == r.EndOfInput?
        && (r.Asked? ==> options == r.value && console.answers == r.rest)
        && (r.EndOfInput? ==> console.answers == [])
    {
      var line := console.Input();
      if line.None? {
        return None, true;
      }
      var choice := Strip(line.value, Whitespace);
      if choice == "1" {
        return Some(Options(true, true, true, true)), false;
      }
      if choice != "2" {
        return None, false;
      }
      options, ended := SelectCustomOptions(console);
    }

    /** The custom selection, one answer at a time; channel permissions are
        asked only when channels are migrated. */
    method SelectCustomOptions(console: Console) returns (options: Option<Options>, ended: bool)
      modifies console
      ensures var r := CustomOptions(old(console.answers));
        && ended == r.EndOfInput?
        && (r.Asked? ==> options == r.value && console.answers == r.rest)
        && (r.EndOfInput? ==> console.answers == [])
    {
      var yes := Yes;
      ghost var answers := console.answers;
      var roles := console.Input();
      var channels := console.Input();
      if channels.None? {
        return None, true;
      }
      assert console.answers == answers[2..];
      var permissions := false;
      if yes(channels.value) {
        var answer := console.Input();
        if answer.None? {
          return None, true;
        }
        permissions := yes(answer.value);
      }
      var emojis := console.Input();
      var confirm := console.Input();
      if confirm.None? {
        return None, true;
      }
      options := if yes(confirm.value) then Some(Options(yes(roles.value), yes(channels.value), permissions, yes(emojis.value))) else None;
      ended := false;
    }

    /** `select_fluxer_guild_for_migration`: None for a new guild, the skip
        marker, or a listed guild's id; `listed` is the outcome of reading the
        user's Fluxer guilds. `ended` when the input ran out at the first
        prompt. */
    method SelectTarget(console: Console, listed: Option<seq<FluxerGuild>>) returns (target: Option<string>, ended: bool)
      modifies console
      ensures var r := TargetChosen(old(console.answers), listed);
        && ended == r.EndOfInput?
        && (r.Asked? ==> target == r.value && console.answers == r.rest)
        && (r.EndOfInput? ==> console.answers == [])
    {
      var line := console.Input();
      if line.None? {
        return None, true;
      }
      ended := false;
      var choice := Strip(line.value, Whitespace);
      if choice == "1" {
        return None, false;
      }
      if choice != "2" {
        return Some(Skip), false;
      }
      if listed.None? || listed.value == [] {
        return None, false;
      }
      var guilds := listed.value;
      while true
        invariant GuildPicked(guilds, console.answers) == TargetChosen(old(console.answers), listed)
        decreases |console.answers|
      {
        var answer := console.Input();
        if answer.None? {
          return None, false;
        }
        var picked := GuildChoice(guilds, answer.value);
        if picked.Some? {
          return picked.value, false;
        }
      }
    }

    /** One server's turn in `migrate_servers`: the options, then the
        destination, then the migration unless the server is skipped. */
    method MigrateNext(migrator: ServerMigrator, server: Guild, console: Console, listed: Option<seq<FluxerGuild>>, now: string) returns (ended: bool)
      requires migrator.remote == remote && migrator.logger == logger
      modifies migrator, remote, logger, console
      ensures var t := TurnOf(server, old(console.answers), PromptsOf(listed));
        && ended == t.Ended?
        && console.answers == (if t.Ended? then [] else t.rest)
        && migrator.State() == (if t.Migrates? then MigrationOf(remote.source, migrator.hasDiscordClient && migrator.hasFluxerClient)(old(migrator.State()), t.m) else old(migrator.State()))
    {
      var options, optionsEnded := SelectMigrationOptions(console);
      if optionsEnded {
        return true;
      }
      if options.None? {
        return false;
      }
      var target, targetEnded := SelectTarget(console, listed);
      if targetEnded {
        return true;
      }
      if target == Some(Skip) {
        return false;
      }
      var _ := migrator.MigrateServer(server, target, Some(OptionsMap(options.value)), now);
      ended := false;
    }

    /** The next server of a run: its turn, after which the run either ended
        or goes on with the remaining servers, having recorded the migration
        made. */
    method MigrateFirst(migrator: ServerMigrator, servers: seq<Guild>, console: Console, listed: Option<seq<FluxerGuild>>, now: string,
                        ghost goal: Progress, ghost done: seq<Migration>) returns (ended: bool, ghost doneAfter: seq<Migration>)
      requires servers != []
      requires migrator.remote == remote && migrator.logger == logger
      requires migrator.hasDiscordClient == discordReady && migrator.hasFluxerClient == fluxerReady
      requires Continues(goal, done, ServersRun(migrator.State(), servers, console.answers, PromptsOf(listed), MigrationOf(remote.source, discordReady && fluxerReady)))
      modifies migrator, remote, logger, console
      ensures ended ==> goal == Progress(migrator.State(), console.answers, true, done)
      ensures !ended ==> Continues(goal, doneAfter, ServersRun(migrator.State(), servers[1..], console.answers, PromptsOf(listed), MigrationOf(remote.source, discordReady && fluxerReady)))
    {
      ghost var t := TurnOf(servers[0], console.answers, PromptsOf(listed));
      ServersRunStep(migrator.State(), servers, console.answers, PromptsOf(listed), MigrationOf(remote.source, discordReady && fluxerReady));
      ended := MigrateNext(migrator, servers[0], console, listed, now);
      doneAfter := done;
      if !ended && t.Migrates? {
        ContinuesAfter(goal, done, t.m, ServersRun(migrator.State(), servers[1..], console.answers, PromptsOf(listed), MigrationOf(remote.source, discordReady && fluxerReady)));
        doneAfter := done + [t.m];
      }
    }

    /** `migrate_servers`: one new guild migrator for the whole run, so the
        id tables carry over from one server to the next; `interrupted` when
        the input ran out. */
    method MigrateServers(servers: seq<Guild>, console: Console, listed: Option<seq<FluxerGuild>>, now: string) returns (interrupted: bool)
      modifies remote, logger, console
      ensures var p := ServersRun(old(Platforms()), servers, old(console.answers), PromptsOf(listed), MigrationOf(remote.source, discordReady && fluxerReady));
        && Platforms() == p.world.(guildMap := map[], roleMap := map[], categoryMap := map[], channelMap := map[])
        && console.answers == p.rest
        && interrupted == p.interrupted
    {
      var migrator := new ServerMigrator(remote, logger, discordReady, fluxerReady);
      ghost var goal := ServersRun(old(Platforms()), servers, old(console.answers), PromptsOf(listed), MigrationOf(remote.source, discordReady && fluxerReady));
      ghost var done: seq<Migration> := [];
      var i := 0;
      while i < |servers|
        invariant 0 <= i <= |servers|
        invariant migrator.remote == remote && migrator.logger == logger
        invariant migrator.hasDiscordClient == discordReady && migrator.hasFluxerClient == fluxerReady
        invariant Continues(goal, done, ServersRun(migrator.State(), servers[i..], console.answers, PromptsOf(listed), MigrationOf(remote.source, discordReady && fluxerReady)))
        invariant Platforms() == migrator.State().(guildMap := map[], roleMap := map[], categoryMap := map[], channelMap := map[])
        decreases |servers| - i
      {
        var ended;
        ended, done := MigrateFirst(migrator, servers[i..], console, listed, now, goal, done);
        if ended {
          return true;
        }
        assert servers[i..][1..] == servers[i + 1..];
        i := i + 1;
      }
      interrupted := false;
    }
  }
}
