/** The handlers of the bot: the conversation gate (`process_send_message`,
    `handle_request`, `handle_other_messages`, `start_command`) and the
    `ADMIN_IDS` check in front of the three aggregate queries. The chat
    transport is left out: a handler's effect is its reply and its change to
    the per-user conversation state and to the ledger. */
module Bot {
  import opened Wrappers
  import opened Text
  import opened Classifier
  import opened Ledger
  import opened Ranking
  import opened Aggregate

  /** `ADMIN_IDS`. */
  const AdminIds: set<int> := {935535807}

  /** What a handler answers. */
  datatype Reply =
    | Greeting                                    // `start_command`
    | AskForRequest                               // "send_message" button
    | HelpText                                    // "help" button
    | Submitted                                   // `handle_request`
    | Prompt                                      // `handle_other_messages`
    | Denied                                      // admin button, sender not an admin
    | StatsReport(stats: Stats)                   // `admin_stats`
    | CategoriesReport(categories: seq<(Category, nat)>) // `admin_top_categories`
    | UsersReport(users: seq<(Json, nat)>)       // `admin_top_users`
    | Aborted                                     // the handler raised before answering
    | Unhandled                                   // no handler matches the button data

  /** The `Command("start")` filter: the message has text whose first
      whitespace-separated word is `/start`. */
  predicate IsStartCommand(text: Option<string>) {
    text.Some? && var words := Split(text.value); |words| > 0 && words[0] == "/start"
  }

  /** The category `handle_request` files a message under. A message
      without text makes language detection raise, which yields
      "unknown" and so gibberish. */
  function Classify(text: Option<string>, lang: string, labels: seq<string>): (c: Category)
    ensures c == Personal <==>
      && text.Some? && Supported(lang)
      && (NamesPerson(labels) || MentionsKeyword(text.value, PersonalKeywords))
    ensures c == Offers <==>
      && text.Some? && Supported(lang)
      && !(NamesPerson(labels) || MentionsKeyword(text.value, PersonalKeywords))
      && MentionsKeyword(text.value, OfferKeywords)
  {
    match text
    case None => Gibberish
    case Some(t) => Categorize(t, lang, labels)
  }

  class Bot {
    /** The `requests/` tree. */
    var store: RequestStore
    /** The senders whose conversation is in `Form.waiting_for_request`;
        every other sender has no state. */
    var waiting: set<int>

    constructor ()
      ensures fresh(store) && store.files == map[] && waiting == {}
    {
      store := new RequestStore();
      waiting := {};
    }

    /** A chat message from `user`. `lang` and `labels` are what language
        detection and entity recognition make of its text, `timestamp` the
        clock's second. The `/start` handler is tried first; text from a
        waiting sender is classified, saved and ends the wait; text from any
        other sender is answered with a prompt and touches nothing. */
    method OnMessage(user: int, text: Option<string>, lang: string, labels: seq<string>, timestamp: string)
      returns (reply: Reply)
      modifies this, store
      ensures store == old(store)
      ensures IsStartCommand(text) ==>
        reply == Greeting && waiting == old(waiting) && store.files == old(store.files)
      ensures !IsStartCommand(text) && user in old(waiting) ==>
        && reply == Submitted
        && waiting == old(waiting) - {user}
        && store.files == Saved(old(store.files), user, text, Classify(text, lang, labels), timestamp)
      ensures !IsStartCommand(text) && user !in old(waiting) ==>
        reply == Prompt && waiting == old(waiting) && store.files == old(store.files)
    {
      if IsStartCommand(text) {
        reply := Greeting;
      } else if user in waiting {
        var category := Classify(text, lang, labels);
        store.SaveRequest(user, text, category, timestamp);
        waiting := waiting - {user};
        reply := Submitted;
      } else {
        reply := Prompt;
      }
    }

    /** An inline-button press. "send_message" puts the sender in the
        waiting state; the admin buttons answer a denial to anyone outside
        `ADMIN_IDS` and otherwise run the scan. Only "send_message" changes
        anything. */
    method OnButton(user: int, data: string) returns (reply: Reply)
      modifies this
      ensures data == "send_message" ==> reply == AskForRequest && waiting == old(waiting) + {user}
      ensures data != "send_message" ==> waiting == old(waiting)
      ensures store == old(store)
      ensures data == "help" ==> reply == HelpText
      ensures IsAdminQuery(data) ==> (reply == Denied <==> user !in AdminIds)
      ensures IsAdminQuery(data) && user in AdminIds ==> AdminAnswer(store.files, data, reply)
      ensures !IsAdminQuery(data) && data != "send_message" && data != "help" ==> reply == Unhandled
    {
      if data == "send_message" {
        waiting := waiting + {user};
        reply := AskForRequest;
      } else if data == "help" {
        reply := HelpText;
      } else if IsAdminQuery(data) {
        reply := AdminQuery(user, data);
      } else {
        reply := Unhandled;
      }
    }

    /** The three admin handlers, behind the `ADMIN_IDS` gate; they read
        the ledger and change nothing. */
    method AdminQuery(user: int, data: string) returns (reply: Reply)
      requires IsAdminQuery(data)
      ensures user !in AdminIds <==> reply == Denied
      ensures user in AdminIds ==> AdminAnswer(store.files, data, reply)
    {
      if user !in AdminIds {
        return Denied;
      }
      if data == "admin_stats" {
        var r := AdminStats(store.files);
        reply := if r.Some? then StatsReport(r.value) else Aborted;
      } else if data == "admin_top_categories" {
        var top := AdminTopCategories(store.files);
        reply := CategoriesReport(top);
      } else {
        var r := AdminTopUsers(store.files);
        reply := if r.Some? then UsersReport(r.value) else Aborted;
      }
    }
  }

  /** What an admin's press of admin button `data` answers: the report of
      the matching handler, or `Aborted` exactly when that handler raises. */
  ghost predicate AdminAnswer(files: Store, data: string, reply: Reply) {
    if data == "admin_stats" then
      && (reply == Aborted <==> HasUnparsable(files))
      && (reply == Aborted || (reply.StatsReport? && IsStatsOf(files, reply.stats)))
    else if data == "admin_top_categories" then
      reply.CategoriesReport? && IsTopCategoriesOf(files, reply.categories)
    else if data == "admin_top_users" then
      && (reply == Aborted <==> HasUnhashableSender(files))
      && (reply == Aborted || (reply.UsersReport? && IsTopUsersOf(files, reply.users)))
    else
      false
  }

  predicate IsAdminQuery(data: string) {
    data == "admin_stats" || data == "admin_top_categories" || data == "admin_top_users"
  }

  /** Text sent without pressing "send_message" first is never classified
      or saved; after the button, the same text is saved once and the
      conversation returns to idle. */
  method GateScenario(text: string, lang: string, labels: seq<string>)
    requires !IsStartCommand(Some(text))
  {
    var bot := new Bot();
    var r := bot.OnMessage(42, Some(text), lang, labels, "2024-01-01_00-00-00");
    assert r == Prompt && bot.store.files == map[];
    r := bot.OnButton(42, "send_message");
    assert bot.waiting == {42};
    r := bot.OnMessage(42, Some(text), lang, labels, "2024-01-01_00-00-01");
    assert r == Submitted && bot.waiting == {};
    var c := Categorize(text, lang, labels);
    assert bot.store.files.Keys == {RecordPath(c, "2024-01-01_00-00-01")};
    r := bot.OnMessage(42, Some(text), lang, labels, "2024-01-01_00-00-02");
    assert r == Prompt && |bot.store.files| == 1;
  }

  /** Sender 7's text in a language detection cannot name is filed as
      gibberish, in the gibberish partition; a non-admin asking for
      statistics is denied. */
  method UndetectedLanguageScenario(text: string, timestamp: string)
    requires !IsStartCommand(Some(text))
  {
    var bot := new Bot();
    var r := bot.OnButton(7, "send_message");
    r := bot.OnMessage(7, Some(text), "unknown", [], timestamp);
    var path := RecordPath(Gibberish, timestamp);
    assert path.dir == "gibberish" && path in bot.store.files;
    assert RecordIn(bot.store.files[path]) == Some(NewRequest(7, Some(text), Gibberish, timestamp));
    r := bot.OnButton(7, "admin_stats");
    assert r == Denied;
  }

  /** An admin pressing the admin buttons on an empty ledger gets the
      reports themselves, not a denial: statistics with a total of 0, and
      no senders. */
  method AdminScenario()
  {
    var bot := new Bot();
    var admin := 935535807;
    var r := bot.OnButton(admin, "admin_stats");
    assert Scanned(bot.store.files) == {};
    assert r.StatsReport? && r.stats.total == 0;
    r := bot.OnButton(admin, "admin_top_categories");
    assert r.CategoriesReport?;
    r := bot.OnButton(admin, "admin_top_users");
    assert r.UsersReport? && |r.users| == 0;
  }
}
