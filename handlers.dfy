/** The dialogue's handlers as transitions over the per-chat store of collected search
    criteria. Each handler reads the message text, may update the sending chat's
    entry, and either names the state the conversation moves to or raises (the
    KeyError a missing entry or field causes in the original). */
module Handlers {
  import opened PyStr
  import opened Wrappers
  import opened PyInt
  import opened Vocabulary

  type ChatId = int

  /** The conversation states; End is the library's "conversation over" marker. */
  datatype State = AskKeyword | AskSalary | AskEmployment | AskSchedule | AskCity | End

  /** The keys of a chat's entry. */
  datatype Field = Keyword | Salary | Employment | Schedule | Area

  datatype Value = Str(s: string) | Int(n: int)

  type Entry = map<Field, Value>

  /** The collected criteria, per chat. */
  type Store = map<ChatId, Entry>

  /** What the bot answers; keyboards and wording are not modelled, only which answer it is. */
  datatype Reply =
    | Greeting
    | SalaryPrompt
    | BadSalary
    | EmploymentMenu
    | KeyboardFailed
    | BadEmployment
    | ScheduleMenu
    | BadSchedule
    | CityMenu
    | BadCity
    | Summary(keyword: Value, salary: Value, employment: Value, schedule: Value, area: Value)
    | Cancelled

  /** A KeyError: the chat has no entry, or its entry lacks a field. */
  datatype Error = NoEntry(chat: ChatId) | NoField(field: Field)

  datatype Outcome = Moved(reply: Reply, next: State) | Raised(error: Error)

  /** The store after a handler ran, and how the handler ended. A handler that raises
      keeps the writes it made before raising. */
  datatype Effect = Effect(store: Store, outcome: Outcome)

  /** Position of a state along the dialogue. */
  function Rank(st: State): nat {
    match st
    case AskKeyword => 0
    case AskSalary => 1
    case AskEmployment => 2
    case AskSchedule => 3
    case AskCity => 4
    case End => 5
  }

  /** The state after st in the routing table, ending with End. */
  function Succ(st: State): (n: State)
    requires st != End
    ensures Rank(n) == Rank(st) + 1
  {
    match st
    case AskKeyword => AskSalary
    case AskSalary => AskEmployment
    case AskEmployment => AskSchedule
    case AskSchedule => AskCity
    case AskCity => End
  }

  /** start: greets and asks for the keyword. */
  function Start(s: Store): Effect {
    Effect(s, Moved(Greeting, AskKeyword))
  }

  /** ask_salary: the stripped text becomes the chat's whole entry. */
  function ReadKeyword(s: Store, chat: ChatId, text: string): Effect {
    Effect(s[chat := map[Keyword := Str(Strip(text))]], Moved(SalaryPrompt, AskSalary))
  }

  /** ask_employment: int() of the stripped text is stored as the salary. A text int()
      rejects re-asks; a chat without an entry raises. The empty-keyboard branch is
      kept as written, after the salary has been stored. */
  function ReadSalary(s: Store, chat: ChatId, text: string): Effect {
    match ParseInt(Strip(text))
    case None => Effect(s, Moved(BadSalary, AskSalary))
    case Some(n) =>
      if chat !in s then Effect(s, Raised(NoEntry(chat)))
      else
        var s' := s[chat := s[chat][Salary := Int(n)]];
        if EmploymentMap == map[] then Effect(s', Moved(KeyboardFailed, AskSalary))
        else Effect(s', Moved(EmploymentMenu, AskEmployment))
  }

  /** ask_schedule: the normalised text is looked up among the employment labels. */
  function ReadEmployment(s: Store, chat: ChatId, text: string): Effect {
    var k := Normalise(text);
    if k !in EmploymentMap then Effect(s, Moved(BadEmployment, AskEmployment))
    else if chat !in s then Effect(s, Raised(NoEntry(chat)))
    else Effect(s[chat := s[chat][Employment := Str(EmploymentMap[k])]], Moved(ScheduleMenu, AskSchedule))
  }

  /** ask_city: the normalised text is looked up among the schedule labels. */
  function ReadSchedule(s: Store, chat: ChatId, text: string): Effect {
    var k := Normalise(text);
    if k !in ScheduleMap then Effect(s, Moved(BadSchedule, AskSchedule))
    else if chat !in s then Effect(s, Raised(NoEntry(chat)))
    else Effect(s[chat := s[chat][Schedule := Str(ScheduleMap[k])]], Moved(CityMenu, AskCity))
  }

  /** The order in which the summary reads the entry's fields. */
  function SummaryPosition(f: Field): nat {
    match f
    case Keyword => 0
    case Salary => 1
    case Employment => 2
    case Schedule => 3
    case Area => 4
  }

  /** The entry holds all five fields. */
  predicate Complete(e: Entry) {
    Keyword in e && Salary in e && Employment in e && Schedule in e && Area in e
  }

  /** The field whose lookup raises first while the summary is built, if any. */
  function FirstMissing(e: Entry): (r: Option<Field>)
    ensures r.None? <==> Complete(e)
    ensures r.Some? ==> r.value !in e && forall f: Field :: SummaryPosition(f) < SummaryPosition(r.value) ==> f in e
  {
    if Keyword !in e then Some(Keyword)
    else if Salary !in e then Some(Salary)
    else if Employment !in e then Some(Employment)
    else if Schedule !in e then Some(Schedule)
    else if Area !in e then Some(Area)
    else None
  }

  /** perform_search: AREA_MAP.get of the normalised text; a miss or a code of 0 re-asks.
      Otherwise the code is stored first, and then the summary reads the five fields. */
  function PerformSearch(s: Store, chat: ChatId, text: string): Effect {
    var k := Normalise(text);
    var areaId: Option<int> := if k in AreaMap then Some(AreaMap[k]) else None;
    if areaId.None? || areaId.value == 0 then Effect(s, Moved(BadCity, AskCity))
    else if chat !in s then Effect(s, Raised(NoEntry(chat)))
    else
      var e := s[chat][Area := Int(areaId.value)];
      var s' := s[chat := e];
      match FirstMissing(e)
      case Some(f) => Effect(s', Raised(NoField(f)))
      case None => Effect(s', Moved(Summary(e[Keyword], e[Salary], e[Employment], e[Schedule], e[Area]), End))
  }

  /** cancel: ends the conversation and leaves the store alone. */
  function Cancel(s: Store): Effect {
    Effect(s, Moved(Cancelled, End))
  }

  /** The routing table: the handler registered for plain text in each state. */
  function OnText(st: State, s: Store, chat: ChatId, text: string): Effect
    requires st != End
  {
    match st
    case AskKeyword => ReadKeyword(s, chat, text)
    case AskSalary => ReadSalary(s, chat, text)
    case AskEmployment => ReadEmployment(s, chat, text)
    case AskSchedule => ReadSchedule(s, chat, text)
    case AskCity => PerformSearch(s, chat, text)
  }

  // ---------------------------------------------------------------------------
  // Each step: what it accepts, what it writes, when it raises

  lemma EmploymentNonEmpty()
    ensures EmploymentMap != map[]
  {
    assert "Стажировка" in EmploymentMap;
  }

  /** The keyword step discards whatever the chat had collected before; the keyword is
      the message without its surrounding whitespace, and may be empty. */
  lemma KeywordResets(s: Store, chat: ChatId, pre: string, k: string, post: string)
    requires AllSpace(pre) && AllSpace(post) && Trimmed(k)
    ensures ReadKeyword(s, chat, pre + k + post)
      == Effect(s[chat := map[Keyword := Str(k)]], Moved(SalaryPrompt, AskSalary))
  {
    StripPadded(pre, k, post);
  }

  /** The salary step accepts exactly what int() accepts and stores that number; a
      rejected text changes nothing, and an accepted one raises if the chat has no entry. */
  lemma SalaryAcceptsIff(s: Store, chat: ChatId, text: string)
    ensures var e := ReadSalary(s, chat, text);
      && (e.outcome == Moved(EmploymentMenu, AskEmployment) <==> ParseInt(text).Some? && chat in s)
      && (ParseInt(text).Some? && chat in s ==> e.store == s[chat := s[chat][Salary := Int(ParseInt(text).value)]])
      && (ParseInt(text).Some? && chat !in s ==> e == Effect(s, Raised(NoEntry(chat))))
      && (ParseInt(text).None? ==> e == Effect(s, Moved(BadSalary, AskSalary)))
  {
    StripIdempotent(text);
    EmploymentNonEmpty();
  }

  /** Every integer is accepted as a salary, negative ones included, however it is
      padded with whitespace. */
  lemma SalaryAcceptsEveryInteger(s: Store, chat: ChatId, pre: string, n: int, post: string)
    requires chat in s && AllSpace(pre) && AllSpace(post)
    ensures ReadSalary(s, chat, pre + ShowInt(n) + post)
      == Effect(s[chat := s[chat][Salary := Int(n)]], Moved(EmploymentMenu, AskEmployment))
  {
    ParsePaddedShow(pre, n, post);
    SalaryAcceptsIff(s, chat, pre + ShowInt(n) + post);
  }

  /** Of the five employment labels only "Волонтёрство" and "Стажировка" can ever be
      matched, and the code stored is the one the label maps to. */
  lemma EmploymentAcceptsIff(s: Store, chat: ChatId, text: string)
    ensures var e := ReadEmployment(s, chat, text); var k := Normalise(text);
      && (e.outcome.Moved? && e.outcome.next == AskSchedule <==> k in {"Волонтёрство", "Стажировка"} && chat in s)
      && (k in EmploymentMap && chat in s ==>
            e.store == s[chat := s[chat][Employment := Str(EmploymentMap[k])]]
            && EmploymentMap[k] in {"volunteer", "probation"})
      && (k in EmploymentMap && chat !in s ==> e == Effect(s, Raised(NoEntry(chat))))
      && (k !in EmploymentMap ==> e == Effect(s, Moved(BadEmployment, AskEmployment)))
  {
    EmploymentMatches(Normalise(text));
  }

  /** Both reachable employment labels are matched when sent as they are. */
  lemma EmploymentReachable(s: Store, chat: ChatId, pre: string, k: string, post: string)
    requires chat in s && k in {"Волонтёрство", "Стажировка"} && AllSpace(pre) && AllSpace(post)
    ensures ReadEmployment(s, chat, pre + k + post)
      == Effect(s[chat := s[chat][Employment := Str(EmploymentMap[k])]], Moved(ScheduleMenu, AskSchedule))
  {
    EmploymentKeysReachable();
    ReachedByItself(k, pre, post);
  }

  /** No message gets past the schedule step: title() never yields a schedule label. */
  lemma ScheduleAlwaysRejects(s: Store, chat: ChatId, text: string)
    ensures ReadSchedule(s, chat, text) == Effect(s, Moved(BadSchedule, AskSchedule))
  {
    ScheduleNeverMatches(Normalise(text));
  }

  /** The city step's `not area_id` test rejects exactly the texts that match no city
      label, and "Россия (вся)" is never matched. A matched city raises if the chat has
      no entry. */
  lemma CityAcceptsIff(s: Store, chat: ChatId, text: string)
    ensures var e := PerformSearch(s, chat, text); var k := Normalise(text);
      && (e.outcome == Moved(BadCity, AskCity) <==> k !in AreaMap)
      && (k !in AreaMap ==> e.store == s)
      && (k in AreaMap && chat !in s ==> e == Effect(s, Raised(NoEntry(chat))))
      && k != "Россия (вся)"
  {
    AreaMatches(Normalise(text));
  }

  /** A matched city is stored first; then the summary is built from the complete entry,
      or the first field the entry lacks raises, the city already stored. */
  lemma CitySummary(s: Store, chat: ChatId, text: string)
    requires chat in s && Normalise(text) in AreaMap
    ensures var e := PerformSearch(s, chat, text);
      var entry := s[chat][Area := Int(AreaMap[Normalise(text)])];
      && e.store == s[chat := entry]
      && (Complete(entry) ==>
          e.outcome == Moved(Summary(entry[Keyword], entry[Salary], entry[Employment], entry[Schedule],
                                     Int(AreaMap[Normalise(text)])), End))
      && (!Complete(entry) ==> e.outcome.Raised? && e.outcome.error.NoField?
                               && e.outcome.error.field !in s[chat] && e.outcome.error.field != Area)
  {
    AreaMatches(Normalise(text));
  }

  /** Every city label but "Россия (вся)" is matched when sent as it is. */
  lemma CityReachable(s: Store, chat: ChatId, pre: string, k: string, post: string)
    requires k in AreaMap && k != "Россия (вся)" && AllSpace(pre) && AllSpace(post)
    ensures PerformSearch(s, chat, pre + k + post).outcome != Moved(BadCity, AskCity)
  {
    AreaKeysReachable();
    ReachedByItself(k, pre, post);
    CityAcceptsIff(s, chat, pre + k + post);
  }

  // ---------------------------------------------------------------------------
  // Properties of every step

  /** The dialogue is linear: a text message either keeps the state (a re-prompt) or
      moves to the next one, never back; start and cancel lead to AskKeyword and End. */
  lemma Progression(st: State, s: Store, chat: ChatId, text: string)
    requires st != End
    ensures var o := OnText(st, s, chat, text).outcome;
      o.Moved? ==> (o.next == st || o.next == Succ(st)) && Rank(o.next) >= Rank(st)
    ensures Start(s).outcome.next == AskKeyword && Cancel(s).outcome.next == End
  {
    match st
    case AskKeyword =>
    case AskSalary => SalaryAcceptsIff(s, chat, text);
    case AskEmployment => EmploymentAcceptsIff(s, chat, text);
    case AskSchedule => ScheduleAlwaysRejects(s, chat, text);
    case AskCity => CityOutcomes(s, chat, text);
  }

  /** The city step either re-asks with the store unchanged, raises, or ends with a summary. */
  lemma CityOutcomes(s: Store, chat: ChatId, text: string)
    ensures var e := PerformSearch(s, chat, text);
      || e == Effect(s, Moved(BadCity, AskCity))
      || e.outcome.Raised?
      || (e.outcome.Moved? && e.outcome.reply.Summary? && e.outcome.next == End)
  {
    CityAcceptsIff(s, chat, text);
    if Normalise(text) in AreaMap && chat in s {
      CitySummary(s, chat, text);
    }
  }

  /** A step writes at most the sending chat's entry: the store is unchanged or differs
      only at that chat, so every other chat keeps its entry and no entry is removed.
      Only the keyword step can create an entry. */
  lemma StepFrame(st: State, s: Store, chat: ChatId, text: string)
    requires st != End
    ensures var s' := OnText(st, s, chat, text).store;
      || s' == s
      || (chat in s' && s' == s[chat := s'[chat]] && (st != AskKeyword ==> chat in s))
  {
    match st
    case AskKeyword =>
    case AskSalary => SalaryAcceptsIff(s, chat, text);
    case AskEmployment => EmploymentAcceptsIff(s, chat, text);
    case AskSchedule => ScheduleAlwaysRejects(s, chat, text);
    case AskCity =>
      CityAcceptsIff(s, chat, text);
      if Normalise(text) in AreaMap && chat in s {
        CitySummary(s, chat, text);
      }
  }

  /** A step that keeps the state (a rejected message) leaves the store as it was. */
  lemma RepromptChangesNothing(st: State, s: Store, chat: ChatId, text: string)
    requires st != End
    ensures var e := OnText(st, s, chat, text);
      e.outcome.Moved? && e.outcome.next == st ==> e.store == s
  {
    match st
    case AskKeyword =>
    case AskSalary => SalaryAcceptsIff(s, chat, text);
    case AskEmployment => EmploymentAcceptsIff(s, chat, text);
    case AskSchedule => ScheduleAlwaysRejects(s, chat, text);
    case AskCity => CityAcceptsIff(s, chat, text);
  }
}
