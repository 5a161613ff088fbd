/** The monitoring cycle: choosing the notification channels from the
    user's settings row and the environment configuration, one evaluation
    cycle (engine, then alert service), and the default user. */
module Monitor {
  import opened Common
  import opened Records
  import opened Engine
  import opened AlertStore
  import opened RuleStore
  import opened AlertService

  /** A delivery channel.  The Telegram channel carries the bot token and
      chat id it was built with. */
  datatype Channel = Console | Telegram(botToken: string, chatId: string)

  /** What `get_notifier` hands back: one channel, or a multi-channel
      wrapper over a list of them. */
  datatype Notifier = Single(channel: Channel) | Multi(channels: seq<Channel>)

  /** The channels a notifier delivers to, in order. */
  function Delivers(n: Notifier): seq<Channel> {
    match n
    case Single(c) => [c]
    case Multi(cs) => cs
  }

  /** A `notification_settings` row.  `telegramChatId` is nullable. */
  datatype NotificationSettings = NotificationSettings(
    userId: Id,
    telegramEnabled: bool,
    telegramChatId: Option<string>,
    consoleEnabled: bool)

  /** The environment configuration: both values default to "". */
  datatype Config = Config(telegramBotToken: string, telegramChatId: string)

  /** `filter_by(user_id=...).first()` on the settings table. */
  function SettingsOf(table: seq<NotificationSettings>, userId: Id): (r: Option<NotificationSettings>)
    ensures r.Some? ==> r.value in table && r.value.userId == userId
    ensures r.None? <==> forall i :: 0 <= i < |table| ==> table[i].userId != userId
  {
    match FirstIndex((s: NotificationSettings) => s.userId == userId, table)
    case Some(i) => Some(table[i])
    case None => None
  }

  /** Console is on unless a settings row turns it off. */
  predicate ConsoleWanted(ns: Option<NotificationSettings>) {
    ns.None? || ns.value.consoleEnabled
  }

  /** The chat id a Telegram channel is built with, or None when no
      Telegram channel is built.  A row with Telegram enabled uses its own
      non-empty chat id, falling back on the configured one; without such a
      row the configured token and chat id alone decide, whatever the row
      says. */
  function TelegramChat(ns: Option<NotificationSettings>, config: Config): (r: Option<string>)
    ensures r.Some? ==> config.telegramBotToken != "" && r.value != ""
    ensures ns.Some? && ns.value.telegramEnabled ==>
              (r.Some? <==> config.telegramBotToken != ""
                            && ((ns.value.telegramChatId.Some? && ns.value.telegramChatId.value != "")
                                || config.telegramChatId != ""))
              && (ns.value.telegramChatId.Some? && ns.value.telegramChatId.value != "" && r.Some? ==>
                    r.value == ns.value.telegramChatId.value)
    ensures !(ns.Some? && ns.value.telegramEnabled) ==>
              (r.Some? <==> config.telegramBotToken != "" && config.telegramChatId != "")
              && (r.Some? ==> r.value == config.telegramChatId)
  {
    if ns.Some? && ns.value.telegramEnabled then
      var chat := if ns.value.telegramChatId.Some? && ns.value.telegramChatId.value != ""
                  then ns.value.telegramChatId.value else config.telegramChatId;
      if config.telegramBotToken != "" && chat != "" then Some(chat) else None
    else if config.telegramBotToken != "" && config.telegramChatId != "" then Some(config.telegramChatId)
    else None
  }

  /** The notifier `get_notifier` builds for the user: console first when
      wanted, then Telegram when configured; no channel falls back on the
      console, one channel is returned alone, two are wrapped in that
      order. */
  predicate ChosenNotifier(table: seq<NotificationSettings>, userId: Id, config: Config, n: Notifier) {
    var ns := SettingsOf(table, userId);
    var chat := TelegramChat(ns, config);
    && |Delivers(n)| >= 1
    && (n.Multi? <==> ConsoleWanted(ns) && chat.Some?)
    && (n.Multi? ==> n.channels == [Console, Telegram(config.telegramBotToken, chat.value)])
    && (n.Single? ==> n.channel == if chat.Some? then Telegram(config.telegramBotToken, chat.value)
                                  else Console)
  }

  /** `get_notifier(db, user_id)` */
  method GetNotifier(table: seq<NotificationSettings>, userId: Id, config: Config) returns (n: Notifier)
    ensures ChosenNotifier(table, userId, config, n)
  {
    var ns := SettingsOf(table, userId);
    var notifiers: seq<Channel> := [];
    if ns.None? || ns.value.consoleEnabled {
      notifiers := notifiers + [Console];
    }
    if ns.Some? && ns.value.telegramEnabled {
      var chat := if ns.value.telegramChatId.Some? && ns.value.telegramChatId.value != ""
                  then ns.value.telegramChatId.value else config.telegramChatId;
      if config.telegramBotToken != "" && chat != "" {
        notifiers := notifiers + [Telegram(config.telegramBotToken, chat)];
      }
    } else if config.telegramBotToken != "" && config.telegramChatId != "" {
      notifiers := notifiers + [Telegram(config.telegramBotToken, config.telegramChatId)];
    }
    if |notifiers| == 0 {
      n := Single(Console);
    } else if |notifiers| == 1 {
      n := Single(notifiers[0]);
    } else {
      n := Multi(notifiers);
    }
  }

  /** Turning Telegram off in the settings row does not stop a Telegram
      channel built from the environment configuration, and a row with
      Telegram on never gets one without a bot token. */
  lemma TelegramDisabledStillSends(ns: NotificationSettings, config: Config)
    ensures !ns.telegramEnabled && config.telegramBotToken != "" && config.telegramChatId != "" ==>
              TelegramChat(Some(ns), config) == Some(config.telegramChatId)
    ensures config.telegramBotToken == "" ==> TelegramChat(Some(ns), config).None?
    ensures TelegramChat(None, config) == TelegramChat(Some(ns.(telegramEnabled := false)), config)
  {
  }

  /** `MonitorService.run_cycle(db, user_id)` at time `now` with the given
      prices.  The engine runs with cooldowns on unless `ignoreCooldown`;
      an engine failure propagates; when nothing is returned the cycle ends
      with no alert, no notifier and no table change; otherwise the
      notifier is chosen from the settings row and the configuration, and
      the alert service turns the triggered results into alerts, stamps
      their rules and notifies.  `notifier` is the notifier built (None when
      none was), `sent` what it was handed.  The `market_provider`
      argument passed to the alert service is not one its constructor
      takes, so it plays no part here. */
  method RunCycle(holdingTable: seq<Holding>, settingsTable: seq<NotificationSettings>, config: Config,
                  alertRepo: AlertRepository, ruleRepo: RuleRepository, userId: Id,
                  useAi: bool, ignoreCooldown: bool, generator: AlertContext -> Option<string>,
                  now: int, prices: map<string, real>)
    returns (r: Result<seq<Alert>>, notifier: Option<Notifier>, sent: seq<Alert>)
    requires alertRepo.Valid() && ruleRepo.Valid()
    modifies alertRepo, ruleRepo
    ensures alertRepo.Valid() && ruleRepo.Valid()
    ensures var outcome := AllOutcome(holdingTable, old(ruleRepo.rows), userId, !ignoreCooldown, now, prices);
            && (outcome.Err? ==> r == Err(outcome.error))
            && (outcome.Err? || outcome == Ok([]) ==>
                  notifier.None? && sent == []
                  && alertRepo.rows == old(alertRepo.rows) && alertRepo.nextId == old(alertRepo.nextId)
                  && ruleRepo.rows == old(ruleRepo.rows) && ruleRepo.nextId == old(ruleRepo.nextId))
            && (outcome == Ok([]) ==> r == Ok([]))
            && (outcome.Ok? && outcome.value != [] ==>
                  && r.Ok?
                  && notifier.Some? && ChosenNotifier(settingsTable, userId, config, notifier.value)
                  && alertRepo.rows == old(alertRepo.rows) + r.value
                  && |r.value| == |Triggered(outcome.value)|
                  && (forall i :: 0 <= i < |r.value| ==>
                        r.value[i] == NewAlert(Triggered(outcome.value)[i], userId, old(alertRepo.nextId) + i, now,
                                               Summary(Triggered(outcome.value)[i], useAi, Some(generator))))
                  && sent == r.value
                  && alertRepo.nextId == old(alertRepo.nextId) + |r.value|
                  && ruleRepo.nextId == old(ruleRepo.nextId) && |ruleRepo.rows| == |old(ruleRepo.rows)|
                  && (forall j :: 0 <= j < |ruleRepo.rows| ==>
                        ruleRepo.rows[j] == if old(ruleRepo.rows)[j].id in RuleIds(Triggered(outcome.value))
                                            then Stamped(old(ruleRepo.rows)[j], now)
                                            else old(ruleRepo.rows)[j]))
  {
    var results := EvaluateAll(holdingTable, ruleRepo.rows, userId, !ignoreCooldown, now, prices);
    if results.Err? {
      return Err(results.error), None, [];
    }
    if results.value == [] {
      return Ok([]), None, [];
    }
    var contextGenerator := if useAi then Some(generator) else None;
    var n := GetNotifier(settingsTable, userId, config);
    var alerts;
    alerts, sent := ProcessEvaluationResults(alertRepo, ruleRepo, results.value, userId, true,
                                             useAi, contextGenerator, now);
    SummaryOff(Triggered(results.value), generator, useAi);
    return Ok(alerts), Some(n), sent;
  }

  /** The summary is the same whether AI is off or no generator is passed. */
  lemma SummaryOff(ts: seq<EvaluationResult>, generator: AlertContext -> Option<string>, useAi: bool)
    ensures forall i :: 0 <= i < |ts| ==>
              Summary(ts[i], useAi, if useAi then Some(generator) else None) == Summary(ts[i], useAi, Some(generator))
  {
  }

  /** A row of the users table. */
  datatype User = User(id: Id, email: string)

  /** `filter_by(email=...).first()` on the users table. */
  function UserByEmail(rows: seq<User>, email: string): (r: Option<User>)
    ensures r.Some? ==> r.value in rows && r.value.email == email
    ensures r.None? <==> forall i :: 0 <= i < |rows| ==> rows[i].email != email
  {
    match FirstIndex((u: User) => u.email == email, rows)
    case Some(i) => Some(rows[i])
    case None => None
  }

  /** The users table; new ids come from a counter. */
  class UserTable {
    var rows: seq<User>
    var nextId: nat

    ghost predicate Valid()
      reads this
    {
      TableValid((u: User) => u.id, rows, nextId)
    }

    constructor()
      ensures Valid() && rows == [] && nextId == 0
    {
      rows := [];
      nextId := 0;
    }

    /** `get_default_user_id(db)` for the configured default email: the id
        of the first user with that email, creating the user when there is
        none.  Afterwards the lookup finds the returned user, so a second
        call creates nothing. */
    method DefaultUserId(email: string) returns (id: Id)
      requires Valid()
      modifies this
      ensures Valid()
      ensures UserByEmail(rows, email) == Some(User(id, email))
      ensures UserByEmail(old(rows), email).Some? ==>
                id == UserByEmail(old(rows), email).value.id && rows == old(rows) && nextId == old(nextId)
      ensures UserByEmail(old(rows), email).None? ==>
                id == old(nextId) && rows == old(rows) + [User(id, email)] && nextId == old(nextId) + 1
    {
      var found := UserByEmail(rows, email);
      if found.Some? {
        return found.value.id;
      }
      var user := User(nextId, email);
      AppendValid((u: User) => u.id, rows, nextId, user);
      FirstIndexSnoc(rows, user, email);
      rows := rows + [user];
      nextId := nextId + 1;
      id := user.id;
    }
  }

  /** A lookup that finds nothing in `rows` finds the appended row. */
  lemma FirstIndexSnoc(rows: seq<User>, user: User, email: string)
    requires UserByEmail(rows, email).None? && user.email == email
    ensures UserByEmail(rows + [user], email) == Some(user)
  {
    var s := rows + [user];
    assert s[|rows|].email == email;
    assert forall i :: 0 <= i < |rows| ==> s[i] == rows[i];
  }

  /** The configured default email. */
  const DefaultUserEmail := "user@localhost"
}
