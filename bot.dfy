/** The running bot: the module-level store of collected criteria, updated in place by
    the handlers, and the conversation handler's table of open conversations. */
module Bot {
  import opened PyStr
  import opened Wrappers
  import opened PyInt
  import opened Vocabulary
  import opened Handlers
  import opened Conversation

  class Bot {
    /** The collected criteria, per chat. */
    var store: Store
    /** The open conversations and the state each is in. */
    var conv: map<Key, State>

    ghost function Config(): Conversation.Config
      reads this
    {
      Conversation.Config(conv, store)
    }

    ghost predicate Valid()
      reads this
    {
      Inv(Config())
    }

    constructor ()
      ensures Config() == Initial && Valid()
    {
      store := map[];
      conv := map[];
      InitialInv();
    }

    /** start */
    method Start() returns (o: Outcome)
      ensures Effect(store, o) == Handlers.Start(store)
    {
      o := Moved(Greeting, AskKeyword);
    }

    /** ask_salary: the stripped text replaces the chat's entry. */
    method ReadKeyword(chat: ChatId, text: string) returns (o: Outcome)
      modifies this`store
      ensures Effect(store, o) == Handlers.ReadKeyword(old(store), chat, text)
    {
      var keyword := Strip(text);
      store := store[chat := map[Keyword := Str(keyword)]];
      o := Moved(SalaryPrompt, AskSalary);
    }

    /** ask_employment: stores int() of the stripped text as the salary. */
    method ReadSalary(chat: ChatId, text: string) returns (o: Outcome)
      modifies this`store
      ensures Effect(store, o) == Handlers.ReadSalary(old(store), chat, text)
    {
      var salary := ParseInt(Strip(text));
      if salary.None? {
        return Moved(BadSalary, AskSalary);
      }
      if chat !in store {
        return Raised(NoEntry(chat));
      }
      store := store[chat := store[chat][Salary := Int(salary.value)]];
      if EmploymentMap == map[] {
        return Moved(KeyboardFailed, AskSalary);
      }
      o := Moved(EmploymentMenu, AskEmployment);
    }

    /** ask_schedule: stores the code of the chosen employment type. */
    method ReadEmployment(chat: ChatId, text: string) returns (o: Outcome)
      modifies this`store
      ensures Effect(store, o) == Handlers.ReadEmployment(old(store), chat, text)
    {
      var employment := Normalise(text);
      if employment !in EmploymentMap {
        return Moved(BadEmployment, AskEmployment);
      }
      if chat !in store {
        return Raised(NoEntry(chat));
      }
      store := store[chat := store[chat][Employment := Str(EmploymentMap[employment])]];
      o := Moved(ScheduleMenu, AskSchedule);
    }

    /** ask_city: stores the code of the chosen schedule. */
    method ReadSchedule(chat: ChatId, text: string) returns (o: Outcome)
      modifies this`store
      ensures Effect(store, o) == Handlers.ReadSchedule(old(store), chat, text)
    {
      var schedule := Normalise(text);
      if schedule !in ScheduleMap {
        return Moved(BadSchedule, AskSchedule);
      }
      if chat !in store {
        return Raised(NoEntry(chat));
      }
      store := store[chat := store[chat][Schedule := Str(ScheduleMap[schedule])]];
      o := Moved(CityMenu, AskCity);
    }

    /** perform_search: stores the region code, then reads the entry for the summary. */
    method PerformSearch(chat: ChatId, text: string) returns (o: Outcome)
      modifies this`store
      ensures Effect(store, o) == Handlers.PerformSearch(old(store), chat, text)
    {
      var city := Normalise(text);
      var areaId: Option<int> := if city in AreaMap then Some(AreaMap[city]) else None;
      if areaId.None? || areaId.value == 0 {
        return Moved(BadCity, AskCity);
      }
      if chat !in store {
        return Raised(NoEntry(chat));
      }
      store := store[chat := store[chat][Area := Int(areaId.value)]];
      var data := store[chat];
      var missing := FirstMissing(data);
      if missing.Some? {
        return Raised(NoField(missing.value));
      }
      o := Moved(Summary(data[Keyword], data[Salary], data[Employment], data[Schedule], data[Area]), End);
    }

    /** cancel */
    method Cancel() returns (o: Outcome)
      ensures Effect(store, o) == Handlers.Cancel(store)
    {
      o := Moved(Cancelled, End);
    }

    /** One message through the conversation handler: route it, run the handler, and
        record the state it returns. From a reachable configuration the bot stays in
        one, and no handler raises. */
    method Receive(key: Key, m: Message) returns (response: Response)
      modifies this
      ensures Conversation.Result(Config(), response) == Handle(old(Config()), key, m)
      ensures old(Valid()) ==> Valid() && !response.Failed?
    {
      ghost var before := Config();
      if Valid() {
        HandlePreserves(before, key, m);
      }
      var o: Outcome;
      if key !in conv {
        if m != Command("start") {
          return Ignored;
        }
        o := Start();
      } else if m.Text? && conv[key] != End {
        ghost var e := OnText(conv[key], store, key.chat, m.text);
        match conv[key] {
          case AskKeyword => o := ReadKeyword(key.chat, m.text);
          case AskSalary => o := ReadSalary(key.chat, m.text);
          case AskEmployment => o := ReadEmployment(key.chat, m.text);
          case AskSchedule => o := ReadSchedule(key.chat, m.text);
          case AskCity => o := PerformSearch(key.chat, m.text);
        }
        assert Effect(store, o) == e;
        assert Handle(before, key, m) == Apply(before, key, e);
      } else if m == Command("cancel") {
        o := Cancel();
      } else {
        return Ignored;
      }
      match o
      case Raised(err) =>
        response := Failed(err);
      case Moved(reply, next) =>
        if next == End {
          conv := conv - {key};
        } else {
          conv := conv[key := next];
        }
        response := Answered(reply);
    }
  }
}
