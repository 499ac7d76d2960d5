/** The routing the dialogue is registered with: "/start" opens a conversation, plain
    text goes to the current state's handler, "/cancel" is the fallback, and anything
    else is not handled. The library keeps one conversation per (chat, user) pair and
    drops it when a handler returns End; the store of criteria is shared per chat. */
module Conversation {
  import opened PyInt
  import opened Vocabulary
  import opened Handlers

  type UserId = int

  /** Conversations are keyed by the chat and the user who writes in it. */
  datatype Key = Key(chat: ChatId, user: UserId)

  /** An incoming message as the registered filters see it. */
  datatype Message =
    | Text(text: string)      // text that does not start with a bot command
    | Command(name: string)   // text starting with the bot command "/name"
    | NoText                  // a message without text (a sticker, a photo without caption, ...)

  datatype Event = Event(key: Key, message: Message)

  datatype Config = Config(conv: map<Key, State>, store: Store)

  /** What the bot did with a message: nothing, an answer, or a handler's KeyError, which
      the library passes to the error handler. */
  datatype Response = Ignored | Answered(reply: Reply) | Failed(error: Error)

  datatype Result = Result(config: Config, response: Response)

  /** Records a handler's effect: End drops the conversation, another state is stored
      for the key. A raising handler leaves the conversation where it was, but the
      writes it made before raising stay in the store. */
  function Apply(c: Config, key: Key, e: Effect): Result {
    match e.outcome
    case Raised(err) => Result(Config(c.conv, e.store), Failed(err))
    case Moved(reply, next) =>
      Result(Config(if next == End then c.conv - {key} else c.conv[key := next], e.store), Answered(reply))
  }

  /** One message through the conversation handler. Without a conversation only the
      entry point "/start" is handled; inside one, text goes to the state's handler
      and otherwise only the "/cancel" fallback applies. */
  function Handle(c: Config, key: Key, m: Message): Result {
    if key !in c.conv then
      if m == Command("start") then Apply(c, key, Start(c.store)) else Result(c, Ignored)
    else
      var st := c.conv[key];
      if m.Text? && st != End then Apply(c, key, OnText(st, c.store, key.chat, m.text))
      else if m == Command("cancel") then Apply(c, key, Cancel(c.store))
      else Result(c, Ignored)
  }

  datatype Trace = Trace(config: Config, responses: seq<Response>)

  /** A sequence of messages, handled one after another. */
  function Run(c: Config, events: seq<Event>): (t: Trace)
    ensures |t.responses| == |events|
    decreases |events|
  {
    if events == [] then Trace(c, [])
    else
      var r := Handle(c, events[0].key, events[0].message);
      var t := Run(r.config, events[1..]);
      Trace(t.config, [r.response] + t.responses)
  }

  /** The bot as it starts: no conversation, an empty store. */
  const Initial := Config(map[], map[])

  // ---------------------------------------------------------------------------
  // The invariant of every reachable configuration

  /** What a chat's entry can hold: a text keyword, an integer salary, one of the two
      employment codes title() lets through, and never a schedule or a city. */
  predicate WellFormed(e: Entry) {
    && (Keyword in e ==> e[Keyword].Str?)
    && (Salary in e ==> e[Salary].Int?)
    && (Employment in e ==> e[Employment] in {Str("volunteer"), Str("probation")})
    && Schedule !in e && Area !in e
  }

  predicate StoreWellFormed(s: Store) {
    forall ch :: ch in s ==> WellFormed(s[ch])
  }

  /** No conversation is recorded as ended or at the city step; a conversation past the
      keyword step has an entry for its chat; every entry is well formed. */
  predicate Inv(c: Config) {
    && (forall k :: k in c.conv ==> c.conv[k] != End && c.conv[k] != AskCity)
    && (forall k :: k in c.conv && c.conv[k] != AskKeyword ==> k.chat in c.store)
    && StoreWellFormed(c.store)
  }

  lemma InitialInv()
    ensures Inv(Initial)
  {
  }

  lemma UpdateWellFormed(s: Store, chat: ChatId, e: Entry)
    requires StoreWellFormed(s) && WellFormed(e)
    ensures StoreWellFormed(s[chat := e])
  {
  }

  lemma KeywordKeepsWellFormed(s: Store, chat: ChatId, text: string)
    requires StoreWellFormed(s)
    ensures StoreWellFormed(ReadKeyword(s, chat, text).store)
  {
    UpdateWellFormed(s, chat, map[Keyword := Str(PyStr.Strip(text))]);
  }

  lemma SalaryKeepsWellFormed(s: Store, chat: ChatId, text: string)
    requires StoreWellFormed(s)
    ensures ReadSalary(s, chat, text).outcome in
      {Moved(BadSalary, AskSalary), Moved(EmploymentMenu, AskEmployment), Raised(NoEntry(chat))}
    ensures StoreWellFormed(ReadSalary(s, chat, text).store)
  {
    SalaryAcceptsIff(s, chat, text);
    if ParseInt(text).Some? && chat in s {
      UpdateWellFormed(s, chat, s[chat][Salary := Int(ParseInt(text).value)]);
    }
  }

  lemma EmploymentKeepsWellFormed(s: Store, chat: ChatId, text: string)
    requires StoreWellFormed(s)
    ensures ReadEmployment(s, chat, text).outcome in
      {Moved(BadEmployment, AskEmployment), Moved(ScheduleMenu, AskSchedule), Raised(NoEntry(chat))}
    ensures StoreWellFormed(ReadEmployment(s, chat, text).store)
  {
    EmploymentAcceptsIff(s, chat, text);
    var k := Normalise(text);
    if k in EmploymentMap && chat in s {
      UpdateWellFormed(s, chat, s[chat][Employment := Str(EmploymentMap[k])]);
    }
  }

  /** A text message in a reachable configuration: the handler does not raise, does not
      produce a summary, stops short of the city step, keeps every entry well formed and
      leaves the chat with an entry. */
  lemma OnTextPreserves(st: State, s: Store, chat: ChatId, text: string)
    requires st != End && st != AskCity && (st != AskKeyword ==> chat in s) && StoreWellFormed(s)
    ensures var e := OnText(st, s, chat, text);
      && e.outcome.Moved? && !e.outcome.reply.Summary? && e.outcome.next != AskCity
      && StoreWellFormed(e.store) && chat in e.store && s.Keys <= e.store.Keys
  {
    var e := OnText(st, s, chat, text);
    StepFrame(st, s, chat, text);
    match st
    case AskKeyword =>
      assert e == ReadKeyword(s, chat, text);
      KeywordKeepsWellFormed(s, chat, text);
    case AskSalary =>
      assert e == ReadSalary(s, chat, text);
      SalaryKeepsWellFormed(s, chat, text);
    case AskEmployment =>
      assert e == ReadEmployment(s, chat, text);
      EmploymentKeepsWellFormed(s, chat, text);
    case AskSchedule =>
      assert e == ReadSchedule(s, chat, text);
      ScheduleAlwaysRejects(s, chat, text);
  }

  /** Recording an effect touches only the sender's conversation. */
  lemma ApplyFrame(c: Config, key: Key, e: Effect)
    ensures var r := Apply(c, key, e).config;
      && r.store == e.store
      && (forall k :: k in c.conv && k != key ==> k in r.conv && r.conv[k] == c.conv[k])
      && (forall k :: k in r.conv && k != key ==> k in c.conv)
  {
  }

  /** Recording an answer that keeps the store well formed, removes no entry and leaves
      the sender's chat with an entry keeps the invariant, unless it reaches the city step. */
  lemma ApplyKeeps(c: Config, key: Key, e: Effect)
    requires Inv(c) && e.outcome.Moved? && e.outcome.next != AskCity && StoreWellFormed(e.store)
    requires c.store.Keys <= e.store.Keys
    requires e.outcome.next != AskKeyword && e.outcome.next != End ==> key.chat in e.store
    ensures Inv(Apply(c, key, e).config)
  {
    var r := Apply(c, key, e).config;
    ApplyFrame(c, key, e);
    forall k | k in r.conv && r.conv[k] != AskKeyword
      ensures k.chat in r.store
    {
      if k != key {
        assert k in c.conv && c.conv[k] == r.conv[k];
      }
    }
  }

  /** Every message keeps the invariant, and in a reachable configuration no handler
      raises and no search summary is produced. */
  lemma HandlePreserves(c: Config, key: Key, m: Message)
    requires Inv(c)
    ensures var r := Handle(c, key, m);
      Inv(r.config) && !r.response.Failed? && !(r.response.Answered? && r.response.reply.Summary?)
  {
    if key !in c.conv {
      if m == Command("start") {
        ApplyKeeps(c, key, Start(c.store));
      }
    } else if m.Text? {
      var st := c.conv[key];
      var e := OnText(st, c.store, key.chat, m.text);
      assert Handle(c, key, m) == Apply(c, key, e);
      OnTextPreserves(st, c.store, key.chat, m.text);
      ApplyKeeps(c, key, e);
    } else if m == Command("cancel") {
      ApplyKeeps(c, key, Cancel(c.store));
    }
  }

  /** Only the sender's conversation and the sender's chat entry can change: every
      other conversation keeps its state, every other chat its entry, and no entry is
      removed. */
  lemma HandleFrame(c: Config, key: Key, m: Message)
    ensures var r := Handle(c, key, m).config;
      && (forall k :: k in c.conv && k != key ==> k in r.conv && r.conv[k] == c.conv[k])
      && (forall k :: k in r.conv && k != key ==> k in c.conv)
      && (r.store == c.store || (key.chat in r.store && r.store == c.store[key.chat := r.store[key.chat]]))
  {
    if key !in c.conv {
      if m == Command("start") {
        ApplyFrame(c, key, Start(c.store));
      }
    } else if m.Text? && c.conv[key] != End {
      var e := OnText(c.conv[key], c.store, key.chat, m.text);
      assert Handle(c, key, m) == Apply(c, key, e);
      ApplyFrame(c, key, e);
      StepFrame(c.conv[key], c.store, key.chat, m.text);
    } else if m == Command("cancel") {
      ApplyFrame(c, key, Cancel(c.store));
    }
  }

  /** A conversation only moves forward: its state stays or becomes the next one, or it
      ends; "/start" inside a conversation is ignored. */
  lemma HandleMovesForward(c: Config, key: Key, m: Message)
    requires key in c.conv && c.conv[key] != End
    ensures var r := Handle(c, key, m).config;
      key in r.conv ==> r.conv[key] == c.conv[key] || r.conv[key] == Succ(c.conv[key])
    ensures Handle(c, key, Command("start")) == Result(c, Ignored)
  {
    if m.Text? {
      var e := OnText(c.conv[key], c.store, key.chat, m.text);
      assert Handle(c, key, m) == Apply(c, key, e);
      Progression(c.conv[key], c.store, key.chat, m.text);
    }
  }

  /** "/cancel" ends a running conversation and keeps what the chat had collected. */
  lemma CancelKeepsEntry(c: Config, key: Key)
    requires key in c.conv
    ensures Handle(c, key, Command("cancel")) == Result(Config(c.conv - {key}, c.store), Answered(Cancelled))
  {
  }

  /** A message from someone with no conversation does nothing unless it is "/start",
      which opens one at the keyword step without touching the store. */
  lemma OnlyStartOpens(c: Config, key: Key, m: Message)
    requires key !in c.conv
    ensures Handle(c, key, m)
      == if m == Command("start") then Result(Config(c.conv[key := AskKeyword], c.store), Answered(Greeting))
         else Result(c, Ignored)
  {
  }

  /** Whatever is sent, from the initial state on: the invariant holds, no handler raises
      and no summary is ever produced, since no conversation gets past the schedule step. */
  lemma {:induction false} RunPreserves(c: Config, events: seq<Event>)
    requires Inv(c)
    decreases |events|
    ensures var t := Run(c, events);
      && Inv(t.config)
      && forall i :: 0 <= i < |t.responses| ==>
           !t.responses[i].Failed? && !(t.responses[i].Answered? && t.responses[i].reply.Summary?)
  {
    if events != [] {
      var r := Handle(c, events[0].key, events[0].message);
      HandlePreserves(c, events[0].key, events[0].message);
      RunPreserves(r.config, events[1..]);
    }
  }

  /** The whole dialogue as the bot runs it never produces a search summary. */
  lemma NeverSummarises(events: seq<Event>)
    ensures forall i :: 0 <= i < |events| ==> !Run(Initial, events).responses[i].Failed?
    ensures forall i :: 0 <= i < |events| ==>
      !(Run(Initial, events).responses[i].Answered? && Run(Initial, events).responses[i].reply.Summary?)
  {
    InitialInv();
    RunPreserves(Initial, events);
  }
}
