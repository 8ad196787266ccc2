/** `ProfileMigrator.migrate` (migrators/profile_migrator.py): copy the avatar,
    banner, display name, bio, pronouns and accent colour of the Discord
    account onto the Fluxer account. The Fluxer client and the image CDN are
    scripted; the colour prompt's answer is a parameter. */
module ProfileMigration {
  import opened Common
  import opened Ordering
  import Logger

  /** The fields of the Discord account that the migration reads; `id` is
      read with `[...]`, the others with `.get`. */
  datatype DiscordUser = DiscordUser(
    id: Id,
    avatar: Option<string>,
    banner: Option<string>,
    globalName: Option<string>,
    bio: Option<string>,
    pronouns: Option<string>,
    themeColors: Option<seq<int>>)

  /** The Fluxer account as `get_current_user` returns it. */
  datatype FluxerUser = FluxerUser(
    bio: Option<string>,
    globalName: Option<string>,
    pronouns: Option<string>,
    accentColor: Option<int>)

  /** The keys of the single text-and-colour update. */
  datatype Field = Bio | GlobalName | Pronouns | AccentColor

  datatype Value = Str(s: string) | Color(c: int)
  datatype Update = Update(field: Field, value: Value)

  function FieldName(f: Field): string {
    match f
    case Bio => "bio"
    case GlobalName => "global_name"
    case Pronouns => "pronouns"
    case AccentColor => "accent_color"
  }

  // ---------------------------------------------------------------------------
  // Colour choice and the update payload.

  /** The accent colour to send: none without theme colours, the only one when
      there is one, and with two or more the second exactly when the stripped
      answer to the prompt is "2". */
  function ChooseColor(colors: Option<seq<int>>, answer: string): (c: Option<int>)
    ensures c.None? <==> colors.None? || colors.value == []
    ensures c.Some? ==> c.value == colors.value[0] || (|colors.value| >= 2 && c.value == colors.value[1])
    ensures colors.Some? && |colors.value| == 1 ==> c == Some(colors.value[0])
    ensures colors.Some? && |colors.value| >= 2 && Strip(answer, Whitespace) == "2" ==> c == Some(colors.value[1])
    ensures colors.Some? && |colors.value| >= 2 && Strip(answer, Whitespace) != "2" ==> c == Some(colors.value[0])
  {
    match colors
    case None => None
    case Some(cs) =>
      if cs == [] then None
      else if |cs| == 1 then Some(cs[0])
      else if Strip(answer, Whitespace) == "2" then Some(cs[1])
      else Some(cs[0])
  }

  /** A text field is sent when Discord has a non-empty value that differs
      from the current Fluxer value (which may be missing). */
  predicate TextChanged(discord: Option<string>, current: Option<string>) {
    Truthy(discord) && discord != current
  }

  /** The value a field is sent with, or None when it is left out. */
  function Wanted(f: Field, d: DiscordUser, current: FluxerUser, chosen: Option<int>): Option<Value> {
    match f
    case Bio => if TextChanged(d.bio, current.bio) then Some(Str(d.bio.value)) else None
    case GlobalName => if TextChanged(d.globalName, current.globalName) then Some(Str(d.globalName.value)) else None
    case Pronouns => if TextChanged(d.pronouns, current.pronouns) then Some(Str(d.pronouns.value)) else None
    case AccentColor => if chosen.Some? && chosen != current.accentColor then Some(Color(chosen.value)) else None
  }

  function WantedOf(d: DiscordUser, current: FluxerUser, chosen: Option<int>): Field -> bool {
    f => Wanted(f, d, current, chosen).Some?
  }

  /** The order in which the fields are added to the update. */
  const FieldOrder: seq<Field> := [Bio, GlobalName, Pronouns, AccentColor]

  function PayloadOf(fields: seq<Field>, d: DiscordUser, current: FluxerUser, chosen: Option<int>): seq<Update>
    decreases |fields|
  {
    if fields == [] then [] else Part(fields[0], d, current, chosen) + PayloadOf(fields[1..], d, current, chosen)
  }

  /** The update for one field: one entry when it is wanted, none otherwise. */
  function Part(f: Field, d: DiscordUser, current: FluxerUser, chosen: Option<int>): seq<Update> {
    var v := Wanted(f, d, current, chosen);
    if v.Some? then [Update(f, v.value)] else []
  }

  /** The `updates` dictionary, in insertion order. */
  function Payload(d: DiscordUser, current: FluxerUser, chosen: Option<int>): seq<Update> {
    PayloadOf(FieldOrder, d, current, chosen)
  }

  function FieldsOf(updates: seq<Update>): seq<Field> {
    seq(|updates|, i requires 0 <= i < |updates| => updates[i].field)
  }

  // ---------------------------------------------------------------------------
  // The calls and the scripted Fluxer account.

  datatype Asset = Avatar | Banner

  /** The CDN address of an avatar or banner at its largest size. */
  function AssetUrl(kind: Asset, user: Id, hash: string): string {
    var dir := if kind == Avatar then "avatars" else "banners";
    "https://cdn.discordapp.com/" + dir + "/" + user + "/" + hash + "." + AssetExtension(hash) + "?size=4096"
  }

  datatype Call =
    | GetCurrentUser
    | DownloadImage(url: string)
    | UploadAvatar(image: Bytes)
    | UploadBanner(image: Bytes)
    | ModifyFields(updates: seq<Update>)

  /** The account fields `modify_current_user` reports after a change. */
  type Answer = map<Field, Value>

  /** What the migration can change: the calls made, the unused scripted
      answers and images, the unsupported-feature notices and the log. */
  datatype ProfileWorld = ProfileWorld(
    calls: seq<Call>,
    answers: seq<Option<Answer>>,
    images: seq<Option<Bytes>>,
    notices: seq<string>,
    log: seq<string>)

  function Next<T>(outcomes: seq<Option<T>>): Option<T> {
    if outcomes == [] then None else outcomes[0]
  }

  function Rest<T>(s: seq<T>): seq<T> {
    if s == [] then [] else s[1..]
  }

  datatype Written = Written(answer: Option<Answer>, world: ProfileWorld)
  datatype Fetched = Fetched(image: Option<Bytes>, world: ProfileWorld)

  /** A `modify_current_user` call; None is a call that raised. */
  function Write(w: ProfileWorld, call: Call): (r: Written)
    ensures r.world.calls == w.calls + [call] && r.world.notices == w.notices && r.world.log == w.log
  {
    Written(Next(w.answers), w.(calls := w.calls + [call], answers := Rest(w.answers)))
  }

  /** `_download_image`; None is a failed download. */
  function Download(w: ProfileWorld, url: string): (r: Fetched)
    ensures r.world.calls == w.calls + [DownloadImage(url)] && r.world.notices == w.notices && r.world.log == w.log
  {
    Fetched(Next(w.images), w.(calls := w.calls + [DownloadImage(url)], images := Rest(w.images)))
  }

  const BannerNotice: string := Logger.UnsupportedMessage("Banner", "Fluxer may not support banners yet")

  function UploadCall(kind: Asset, image: Bytes): Call {
    if kind == Avatar then UploadAvatar(image) else UploadBanner(image)
  }

  /** The block uploads when the hash is truthy and the next download gives
      a non-empty image. */
  predicate Uploads(w: ProfileWorld, hash: Option<string>) {
    Truthy(hash) && Next(w.images).Some? && Next(w.images).value != []
  }

  /** A banner upload that raises. */
  predicate Refused(w: ProfileWorld, kind: Asset, hash: Option<string>) {
    kind == Banner && Uploads(w, hash) && Next(w.answers).None?
  }

  /** The avatar or banner block: download when the hash is set, upload when
      the download gave a non-empty image; a refused banner is noted as
      unsupported. */
  function AssetStep(w: ProfileWorld, kind: Asset, user: Id, hash: Option<string>, now: string): (r: ProfileWorld)
    ensures |w.calls| <= |r.calls| <= |w.calls| + 2 && r.calls[..|w.calls|] == w.calls
    ensures forall i :: |w.calls| <= i < |r.calls| ==> !r.calls[i].ModifyFields?
    ensures r.calls == w.calls <==> !Truthy(hash)
    ensures Truthy(hash) ==> |w.calls| < |r.calls| && r.calls[|w.calls|] == DownloadImage(AssetUrl(kind, user, hash.value))
    ensures |r.calls| == |w.calls| + 2 <==> Uploads(w, hash)
    ensures Uploads(w, hash) ==> |r.calls| == |w.calls| + 2 && r.calls[|w.calls| + 1] == UploadCall(kind, Next(w.images).value)
    ensures r.notices == w.notices + (if Refused(w, kind, hash) then [BannerNotice] else [])
    ensures r.log == w.log + (if Refused(w, kind, hash) then [Logger.Entry(now, "WARN", BannerNotice)] else [])
    ensures r.images == (if Truthy(hash) then Rest(w.images) else w.images)
    ensures r.answers == (if Uploads(w, hash) then Rest(w.answers) else w.answers)
  {
    if !Truthy(hash) then w
    else
      var fetched := Download(w, AssetUrl(kind, user, hash.value));
      if fetched.image.None? || fetched.image.value == [] then fetched.world
      else
        var sent := Write(fetched.world, UploadCall(kind, fetched.image.value));
        if kind == Banner && sent.answer.None? then
          sent.world.(notices := sent.world.notices + [BannerNotice], log := sent.world.log + [Logger.Entry(now, "WARN", BannerNotice)])
        else sent.world
  }

  datatype ProfileResult = ProfileResult(world: ProfileWorld, ok: bool)

  /** The whole of `migrate`: false when a client is missing or reading the
      Fluxer account raised; otherwise true, whatever the uploads did. */
  function ProfileRun(w: ProfileWorld, user: Option<DiscordUser>, fluxerReady: bool, current: Option<FluxerUser>, answer: string, now: string): ProfileResult {
    if user.None? || !fluxerReady then ProfileResult(w, false)
    else
      var w1 := w.(calls := w.calls + [GetCurrentUser]);
      match current
      case None => ProfileResult(w1, false)
      case Some(account) =>
        ProfileResult(AccountRun(w1, user.value, account, ChooseColor(user.value.themeColors, answer), now), true)
  }

  /** What follows a successful account read: the avatar and banner blocks,
      then the single field update when there is anything to send, and the
      check of its answer when it did not raise. */
  function AccountRun(w: ProfileWorld, d: DiscordUser, account: FluxerUser, chosen: Option<int>, now: string): ProfileWorld {
    var assets := AssetSteps(w, d, now);
    var updates := Payload(d, account, chosen);
    if updates == [] then assets
    else
      var sent := Write(assets, ModifyFields(updates));
      if sent.answer.None? then sent.world
      else sent.world.(log := sent.world.log + VerificationLines(updates, sent.answer.value, now))
  }

  function AssetSteps(w: ProfileWorld, d: DiscordUser, now: string): ProfileWorld {
    AssetStep(AssetStep(w, Avatar, d.id, d.avatar, now), Banner, d.id, d.banner, now)
  }

  // ---------------------------------------------------------------------------
  // Checking the answer of the single update.

  /** `result.get(field)`. */
  function Reported(result: Answer, f: Field): Option<Value> {
    if f in result then Some(result[f]) else None
  }

  /** A value as an f-string shows it; a missing one is "None". */
  function Shown(v: Option<Value>): string {
    match v
    case None => "None"
    case Some(Str(s)) => s
    case Some(Color(c)) => IntToString(c)
  }

  /** The log line for one sent field: confirmed, or a warning with both values. */
  function VerificationLine(u: Update, result: Answer, now: string): string {
    var actual := Reported(result, u.field);
    if actual == Some(u.value) then Logger.Entry(now, "INFO", "  \U{2713} " + FieldName(u.field) + " updated")
    else Logger.Entry(now, "WARN", "  \U{26A0} " + FieldName(u.field) + ": API accepted but value is '" + Shown(actual)
                                   + "' (expected '" + Shown(Some(u.value)) + "')")
  }

  function VerificationLines(updates: seq<Update>, result: Answer, now: string): (lines: seq<string>)
    ensures |lines| == |updates|
  {
    Map(updates, (u: Update) => VerificationLine(u, result, now))
  }

  // ---------------------------------------------------------------------------
  // The objects.

  /** The Fluxer client and the CDN as the profile migration sees them. */
  class ProfileRemote {
    /** What `get_current_user` returns; None when it raises. */
    const current: Option<FluxerUser>
    var calls: seq<Call>
    var answers: seq<Option<Answer>>
    var images: seq<Option<Bytes>>

    constructor (current: Option<FluxerUser>, answers: seq<Option<Answer>>, images: seq<Option<Bytes>>)
      ensures this.current == current && this.answers == answers && this.images == images && calls == []
    {
      this.current := current;
      this.answers := answers;
      this.images := images;
      calls := [];
    }

    method GetCurrentUser() returns (account: Option<FluxerUser>)
      modifies this
      ensures account == current
      ensures calls == old(calls) + [Call.GetCurrentUser] && answers == old(answers) && images == old(images)
    {
      calls := calls + [Call.GetCurrentUser];
      account := current;
    }

    method Modify(call: Call) returns (answer: Option<Answer>)
      modifies this
      ensures answer == Next(old(answers))
      ensures calls == old(calls) + [call] && answers == Rest(old(answers)) && images == old(images)
    {
      answer := Next(answers);
      calls := calls + [call];
      answers := Rest(answers);
    }

    method Download(url: string) returns (image: Option<Bytes>)
      modifies this
      ensures image == Next(old(images))
      ensures calls == old(calls) + [DownloadImage(url)] && images == Rest(old(images)) && answers == old(answers)
    {
      image := Next(images);
      calls := calls + [DownloadImage(url)];
      images := Rest(images);
    }
  }

  class ProfileMigrator {
    /** `discord_user`; None stands for a missing or empty account. */
    const discordUser: Option<DiscordUser>
    /** Whether `fluxer_http` is set. */
    const hasFluxerClient: bool
    const remote: ProfileRemote
    const logger: Logger.MigrationLogger

    constructor (discordUser: Option<DiscordUser>, hasFluxerClient: bool, remote: ProfileRemote, logger: Logger.MigrationLogger)
      ensures this.discordUser == discordUser && this.hasFluxerClient == hasFluxerClient
      ensures this.remote == remote && this.logger == logger
    {
      this.discordUser := discordUser;
      this.hasFluxerClient := hasFluxerClient;
      this.remote := remote;
      this.logger := logger;
    }

    ghost function State(): ProfileWorld
      reads remote, logger
    {
      ProfileWorld(remote.calls, remote.answers, remote.images, logger.unsupportedFeatures, logger.logEntries)
    }

    /** The avatar or banner block of `migrate`. */
    method MigrateAsset(kind: Asset, user: Id, hash: Option<string>, now: string)
      modifies remote, logger
      ensures State() == AssetStep(old(State()), kind, user, hash, now)
    {
      if !Truthy(hash) {
        return;
      }
      var image := remote.Download(AssetUrl(kind, user, hash.value));
      if image.None? || image.value == [] {
        return;
      }
      var answer := remote.Modify(UploadCall(kind, image.value));
      if kind == Banner && answer.None? {
        logger.LogUnsupported("Banner", now, "Fluxer may not support banners yet");
      }
    }

    /** The `updates` dictionary, filled field by field. */
    method CollectUpdates(d: DiscordUser, account: FluxerUser, chosen: Option<int>) returns (updates: seq<Update>)
      ensures updates == Payload(d, account, chosen)
    {
      updates := [];
      if TextChanged(d.bio, account.bio) {
        updates := updates + [Update(Bio, Str(d.bio.value))];
      }
      assert updates == Part(Bio, d, account, chosen);
      if TextChanged(d.globalName, account.globalName) {
        updates := updates + [Update(GlobalName, Str(d.globalName.value))];
      }
      assert updates == Part(Bio, d, account, chosen) + Part(GlobalName, d, account, chosen);
      if TextChanged(d.pronouns, account.pronouns) {
        updates := updates + [Update(Pronouns, Str(d.pronouns.value))];
      }
      assert updates == Part(Bio, d, account, chosen) + Part(GlobalName, d, account, chosen) + Part(Pronouns, d, account, chosen);
      if chosen.Some? && chosen != account.accentColor {
        updates := updates + [Update(AccentColor, Color(chosen.value))];
      }
      PayloadUnfolds(d, account, chosen);
    }

    /** The loop that compares each sent field with the answer. */
    method VerifyUpdates(updates: seq<Update>, result: Answer, now: string)
      modifies logger
      ensures logger.logEntries == old(logger.logEntries) + VerificationLines(updates, result, now)
      ensures logger.unsupportedFeatures == old(logger.unsupportedFeatures)
    {
      var i := 0;
      while i < |updates|
        invariant 0 <= i <= |updates|
        invariant logger.logEntries == old(logger.logEntries) + VerificationLines(updates[..i], result, now)
        invariant logger.unsupportedFeatures == old(logger.unsupportedFeatures)
      {
        VerifyUpdate(updates[i], result, now);
        VerificationLinesSnoc(updates, i, result, now);
        i := i + 1;
      }
      assert updates[..i] == updates;
    }

    /** One comparison: the field is confirmed when the answer reports the
        value sent, and warned about otherwise. */
    method VerifyUpdate(u: Update, result: Answer, now: string)
      modifies logger
      ensures logger.logEntries == old(logger.logEntries) + [VerificationLine(u, result, now)]
      ensures logger.unsupportedFeatures == old(logger.unsupportedFeatures)
    {
      var actual := Reported(result, u.field);
      if actual == Some(u.value) {
        logger.Log("  \U{2713} " + FieldName(u.field) + " updated", now);
      } else {
        logger.Log("  \U{26A0} " + FieldName(u.field) + ": API accepted but value is '" + Shown(actual)
                   + "' (expected '" + Shown(Some(u.value)) + "')", now, "WARN");
      }
    }

    /** `migrate`: true unless a client is missing or reading the Fluxer
        account raised. */
    method Migrate(answer: string, now: string) returns (ok: bool)
      modifies remote, logger
      ensures State() == ProfileRun(old(State()), discordUser, hasFluxerClient, remote.current, answer, now).world
      ensures ok == ProfileRun(old(State()), discordUser, hasFluxerClient, remote.current, answer, now).ok
    {
      if discordUser.None? || !hasFluxerClient {
        return false;
      }
      var account := remote.GetCurrentUser();
      if account.None? {
        return false;
      }
      var d := discordUser.value;
      var chosen := ChooseColor(d.themeColors, answer);
      MigrateAsset(Avatar, d.id, d.avatar, now);
      MigrateAsset(Banner, d.id, d.banner, now);
      var updates := CollectUpdates(d, account.value, chosen);
      if updates != [] {
        var result := remote.Modify(ModifyFields(updates));
        if result.Some? {
          VerifyUpdates(updates, result.value, now);
        }
      }
      ok := true;
    }
  }

  // ---------------------------------------------------------------------------
  // Properties.

  lemma PayloadUnfolds(d: DiscordUser, account: FluxerUser, chosen: Option<int>)
    ensures Payload(d, account, chosen)
         == Part(Bio, d, account, chosen) + Part(GlobalName, d, account, chosen)
          + Part(Pronouns, d, account, chosen) + Part(AccentColor, d, account, chosen)
  {
    assert FieldOrder[1..] == [GlobalName, Pronouns, AccentColor];
    assert FieldOrder[1..][1..] == [Pronouns, AccentColor];
    assert FieldOrder[1..][1..][1..] == [AccentColor];
    assert FieldOrder[1..][1..][1..][1..] == [];
    assert [AccentColor][1..] == [];
    var p4 := Part(AccentColor, d, account, chosen);
    assert PayloadOf([AccentColor], d, account, chosen) == p4;
  }

  lemma VerificationLinesSnoc(updates: seq<Update>, i: nat, result: Answer, now: string)
    requires i < |updates|
    ensures VerificationLines(updates[..i + 1], result, now)
         == VerificationLines(updates[..i], result, now) + [VerificationLine(updates[i], result, now)]
  {
    MapSnoc(updates, i, (u: Update) => VerificationLine(u, result, now));
  }

  lemma FieldsOfAppend(a: seq<Update>, b: seq<Update>)
    ensures FieldsOf(a + b) == FieldsOf(a) + FieldsOf(b)
  {
    var l := FieldsOf(a + b);
    var r := FieldsOf(a) + FieldsOf(b);
    assert |l| == |r|;
    forall k | 0 <= k < |l| ensures l[k] == r[k] {
      if k < |a| {
        assert (a + b)[k] == a[k];
      } else {
        assert (a + b)[k] == b[k - |a|];
      }
    }
  }

  /** The fields of a payload are the wanted ones, in the given order. */
  lemma {:induction false} PayloadOfFields(fields: seq<Field>, d: DiscordUser, account: FluxerUser, chosen: Option<int>)
    ensures FieldsOf(PayloadOf(fields, d, account, chosen)) == Keep(fields, WantedOf(d, account, chosen))
    decreases |fields|
  {
    if fields != [] {
      PayloadOfFields(fields[1..], d, account, chosen);
      FieldsOfAppend(Part(fields[0], d, account, chosen), PayloadOf(fields[1..], d, account, chosen));
    }
  }

  /** Each update of a payload carries the value its field is wanted with. */
  lemma {:induction false} PayloadOfValues(fields: seq<Field>, d: DiscordUser, account: FluxerUser, chosen: Option<int>)
    ensures forall u :: u in PayloadOf(fields, d, account, chosen) ==> Wanted(u.field, d, account, chosen) == Some(u.value)
    decreases |fields|
  {
    if fields != [] {
      PayloadOfValues(fields[1..], d, account, chosen);
    }
  }

  /** Each of bio, display name and pronouns is sent exactly when Discord's
      value is non-empty and differs from Fluxer's, and the accent colour
      exactly when a colour was chosen (0 included) and differs; the sent
      fields keep the order bio, display name, pronouns, accent colour. */
  lemma PayloadFields(d: DiscordUser, account: FluxerUser, chosen: Option<int>)
    ensures var sent := FieldsOf(Payload(d, account, chosen));
      && (Bio in sent <==> Truthy(d.bio) && d.bio != account.bio)
      && (GlobalName in sent <==> Truthy(d.globalName) && d.globalName != account.globalName)
      && (Pronouns in sent <==> Truthy(d.pronouns) && d.pronouns != account.pronouns)
      && (AccentColor in sent <==> chosen.Some? && chosen != account.accentColor)
      && sent == Keep(FieldOrder, WantedOf(d, account, chosen))
  {
    PayloadOfFields(FieldOrder, d, account, chosen);
    var sent := FieldsOf(Payload(d, account, chosen));
    var keep := WantedOf(d, account, chosen);
    assert FieldOrder[0] == Bio && FieldOrder[1] == GlobalName && FieldOrder[2] == Pronouns && FieldOrder[3] == AccentColor;
    assert Bio in sent <==> keep(Bio);
    assert GlobalName in sent <==> keep(GlobalName);
    assert Pronouns in sent <==> keep(Pronouns);
    assert AccentColor in sent <==> keep(AccentColor);
  }

  /** Every sent field carries the Discord value, or the chosen colour. */
  lemma PayloadValues(d: DiscordUser, account: FluxerUser, chosen: Option<int>)
    ensures forall u :: u in Payload(d, account, chosen) ==>
      u.value == (match u.field
                  case Bio => Str(d.bio.value)
                  case GlobalName => Str(d.globalName.value)
                  case Pronouns => Str(d.pronouns.value)
                  case AccentColor => Color(chosen.value))
  {
    PayloadOfValues(FieldOrder, d, account, chosen);
  }

  predicate IsFieldsCall(c: Call) {
    c.ModifyFields?
  }

  lemma NoneKept(calls: seq<Call>)
    requires forall i :: 0 <= i < |calls| ==> !calls[i].ModifyFields?
    ensures Keep(calls, IsFieldsCall) == []
  {
  }
  /** Without both clients nothing is called and the result is false; with
      them, the result is true exactly when the Fluxer account could be read,
      whatever the uploads and the update did. */
  lemma ProfileRunResult(w: ProfileWorld, user: Option<DiscordUser>, fluxerReady: bool, current: Option<FluxerUser>, answer: string, now: string)
    ensures var r := ProfileRun(w, user, fluxerReady, current, answer, now);
      && (r.ok <==> user.Some? && fluxerReady && current.Some?)
      && (user.None? || !fluxerReady ==> r.world == w)
      && (user.Some? && fluxerReady && current.None? ==> r.world.calls == w.calls + [GetCurrentUser])
  {
  }

  /** The avatar and banner blocks together only append calls, none of them
      a field update. The avatar block adds no notice and no log line; the
      banner notice, with its warning, is added exactly when the banner
      upload raises. */
  lemma AssetStepsEffect(w: ProfileWorld, d: DiscordUser, now: string)
    ensures var mid := AssetStep(w, Avatar, d.id, d.avatar, now);
      var after := AssetSteps(w, d, now);
      var refused := Refused(mid, Banner, d.banner);
      && |w.calls| <= |after.calls| && after.calls == w.calls + after.calls[|w.calls|..]
      && (forall i :: |w.calls| <= i < |after.calls| ==> !after.calls[i].ModifyFields?)
      && mid.notices == w.notices && mid.log == w.log
      && after.notices == w.notices + (if refused then [BannerNotice] else [])
      && after.log == w.log + (if refused then [Logger.Entry(now, "WARN", BannerNotice)] else [])
  {
    var w2 := AssetStep(w, Avatar, d.id, d.avatar, now);
    var w3 := AssetStep(w2, Banner, d.id, d.banner, now);
    assert w3.calls == w.calls + w3.calls[|w.calls|..];
    forall i | |w.calls| <= i < |w3.calls|
      ensures !w3.calls[i].ModifyFields?
    {
      if i < |w2.calls| {
        assert w3.calls[i] == w2.calls[i];
      }
    }
  }

  /** The calls of `AccountRun`: the asset blocks' calls, then the field
      update when the payload is non-empty. */
  lemma AccountRunCalls(w: ProfileWorld, d: DiscordUser, account: FluxerUser, chosen: Option<int>, now: string)
    ensures var payload := Payload(d, account, chosen);
      var assets := AssetSteps(w, d, now);
      var r := AccountRun(w, d, account, chosen, now);
      r.calls == assets.calls + (if payload == [] then [] else [ModifyFields(payload)]) && r.notices == assets.notices
  {
  }

  /** The log of `AccountRun`: after the asset blocks' lines, one
      verification line per field sent when the update did not raise, and
      nothing when there was nothing to send or the update raised. */
  lemma AccountRunLog(w: ProfileWorld, d: DiscordUser, account: FluxerUser, chosen: Option<int>, now: string)
    ensures var payload := Payload(d, account, chosen);
      var assets := AssetSteps(w, d, now);
      var reply := Next(assets.answers);
      var r := AccountRun(w, d, account, chosen, now);
      r.log == assets.log + (if payload != [] && reply.Some? then VerificationLines(payload, reply.value, now) else [])
  {
  }

  /** A trace extended by calls none of which is a field update, and then by
      the payload when it is non-empty, gains one field update exactly when
      the payload is non-empty, and that one carries it. */
  lemma FieldCallsOf(before: seq<Call>, calls: seq<Call>, assets: seq<Call>, payload: seq<Update>)
    requires forall i :: 0 <= i < |assets| ==> !assets[i].ModifyFields?
    requires calls == before + assets + (if payload == [] then [] else [ModifyFields(payload)])
    ensures |before| <= |calls| && calls[..|before|] == before
    ensures |Keep(calls[|before|..], IsFieldsCall)| == (if payload == [] then 0 else 1)
    ensures forall c :: c in calls[|before|..] && c.ModifyFields? ==> c.updates == payload
  {
    var last: seq<Call> := if payload == [] then [] else [ModifyFields(payload)];
    assert calls[|before|..] == assets + last;
    assert calls[..|before|] == before;
    NoneKept(assets);
    KeepAppend(assets, last, IsFieldsCall);
  }

  /** After the account read, the run makes exactly one field update call,
      carrying the whole payload, when the payload is non-empty, and none
      otherwise; the only notice it may add is the refused banner's. */
  lemma AccountRunFieldUpdate(w: ProfileWorld, d: DiscordUser, account: FluxerUser, chosen: Option<int>, now: string)
    ensures var r := AccountRun(w, d, account, chosen, now);
      var payload := Payload(d, account, chosen);
      && |w.calls| <= |r.calls| && r.calls[..|w.calls|] == w.calls
      && |Keep(r.calls[|w.calls|..], IsFieldsCall)| == (if payload == [] then 0 else 1)
      && (forall c :: c in r.calls[|w.calls|..] && c.ModifyFields? ==> c.updates == payload)
      && (r.notices == w.notices || r.notices == w.notices + [BannerNotice])
  {
    var assets := AssetSteps(w, d, now);
    AssetStepsEffect(w, d, now);
    AccountRunCalls(w, d, account, chosen, now);
    var added := assets.calls[|w.calls|..];
    assert forall i :: 0 <= i < |added| ==> added[i] == assets.calls[|w.calls| + i];
    FieldCallsOf(w.calls, AccountRun(w, d, account, chosen, now).calls, added, Payload(d, account, chosen));
  }

  /** With an account to read, the run reads it first, then behaves as
      `AccountRun` says: one field update exactly when the payload is
      non-empty. */
  lemma ProfileRunFieldUpdate(w: ProfileWorld, user: DiscordUser, account: FluxerUser, answer: string, now: string)
    ensures var r := ProfileRun(w, Some(user), true, Some(account), answer, now);
      var payload := Payload(user, account, ChooseColor(user.themeColors, answer));
      && |w.calls| < |r.world.calls|
      && r.world.calls[..|w.calls| + 1] == w.calls + [GetCurrentUser]
      && |Keep(r.world.calls[|w.calls| + 1..], IsFieldsCall)| == (if payload == [] then 0 else 1)
      && (forall c :: c in r.world.calls[|w.calls| + 1..] && c.ModifyFields? ==> c.updates == payload)
      && (r.world.notices == w.notices || r.world.notices == w.notices + [BannerNotice])
  {
    AccountRunFieldUpdate(w.(calls := w.calls + [GetCurrentUser]), user, account, ChooseColor(user.themeColors, answer), now);
  }

  /** With an account to read, the log gains the asset blocks' lines, then
      one verification line per field sent when there is something to send
      and the update does not raise. */
  lemma ProfileRunLog(w: ProfileWorld, user: DiscordUser, account: FluxerUser, answer: string, now: string)
    ensures var payload := Payload(user, account, ChooseColor(user.themeColors, answer));
      var assets := AssetSteps(w, user, now);
      var reply := Next(assets.answers);
      ProfileRun(w, Some(user), true, Some(account), answer, now).world.log
        == assets.log + (if payload != [] && reply.Some? then VerificationLines(payload, reply.value, now) else [])
  {
    var chosen := ChooseColor(user.themeColors, answer);
    var w1 := w.(calls := w.calls + [GetCurrentUser]);
    var mid, mid1 := AssetStep(w, Avatar, user.id, user.avatar, now), AssetStep(w1, Avatar, user.id, user.avatar, now);
    assert mid1.answers == mid.answers && mid1.images == mid.images && mid1.log == mid.log;
    var assets, assets1 := AssetSteps(w, user, now), AssetSteps(w1, user, now);
    assert assets1.answers == assets.answers && assets1.log == assets.log;
    AccountRunLog(w1, user, account, chosen, now);
  }

  /** With an account to read, a non-empty payload and an answered update,
      the log ends with one verification line per field sent, a warning
      exactly for the fields the answer does not confirm. */
  lemma ProfileRunVerifies(w: ProfileWorld, user: DiscordUser, account: FluxerUser, answer: string, now: string)
    requires Payload(user, account, ChooseColor(user.themeColors, answer)) != []
    requires Next(AssetSteps(w, user, now).answers).Some?
    ensures var payload := Payload(user, account, ChooseColor(user.themeColors, answer));
      var result := Next(AssetSteps(w, user, now).answers).value;
      var log := ProfileRun(w, Some(user), true, Some(account), answer, now).world.log;
      && |payload| <= |log|
      && log[|log| - |payload|..] == VerificationLines(payload, result, now)
      && forall j :: 0 <= j < |payload| ==>
           (StartsWith(log[|log| - |payload| + j], "[" + now + "] [WARN]") <==> Reported(result, payload[j].field) != Some(payload[j].value))
  {
    var payload := Payload(user, account, ChooseColor(user.themeColors, answer));
    var result := Next(AssetSteps(w, user, now).answers).value;
    var log := ProfileRun(w, Some(user), true, Some(account), answer, now).world.log;
    var lines := VerificationLines(payload, result, now);
    ProfileRunLog(w, user, account, answer, now);
    SuffixLines(AssetSteps(w, user, now).log, lines, log);
    VerificationWarns(payload, result, now);
  }

  lemma SuffixLines(prefix: seq<string>, lines: seq<string>, log: seq<string>)
    requires log == prefix + lines
    ensures |lines| <= |log| && log[|log| - |lines|..] == lines
    ensures forall j :: 0 <= j < |lines| ==> log[|log| - |lines| + j] == lines[j]
  {
  }

  /** An entry logged at level "WARN" is recognisable by its prefix; one at
      another four-letter level is not. */
  lemma EntryLevel(now: string, level: string, message: string)
    requires |level| == 4
    ensures StartsWith(Logger.Entry(now, level, message), "[" + now + "] [WARN]") <==> level == "WARN"
  {
    var e := Logger.Entry(now, level, message);
    var n := |now|;
    var head := "[" + now + "] [" + level + "]";
    assert e == head + (" " + message);
    assert e[..n + 9] == head;
    if StartsWith(e, "[" + now + "] [WARN]") {
      assert level == e[n + 4..n + 8] == ("[" + now + "] [WARN]")[n + 4..n + 8];
    }
  }

  /** The check logs one line per sent field, in order, and a line is a
      warning exactly when the reported value differs from the one sent. */
  lemma VerificationWarns(updates: seq<Update>, result: Answer, now: string)
    ensures var lines := VerificationLines(updates, result, now);
      forall i :: 0 <= i < |updates| ==>
        (StartsWith(lines[i], "[" + now + "] [WARN]") <==> Reported(result, updates[i].field) != Some(updates[i].value))
  {
    var lines := VerificationLines(updates, result, now);
    forall i | 0 <= i < |updates|
      ensures StartsWith(lines[i], "[" + now + "] [WARN]") <==> Reported(result, updates[i].field) != Some(updates[i].value)
    {
      var u := updates[i];
      var actual := Reported(result, u.field);
      if actual == Some(u.value) {
        EntryLevel(now, "INFO", "  \U{2713} " + FieldName(u.field) + " updated");
      } else {
        EntryLevel(now, "WARN", "  \U{26A0} " + FieldName(u.field) + ": API accepted but value is '" + Shown(actual)
                                + "' (expected '" + Shown(Some(u.value)) + "')");
      }
    }
  }
}
