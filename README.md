# Vacancy-search Telegram bot: the criteria dialogue

The bot in `bot_file_parse_vacancies.py` asks a user for job-search criteria, one step at a time, in five steps:

1. a keyword;
2. a minimum salary;
3. an employment type;
4. a work schedule;
5. a city.

It then answers with a summary of the criteria. The answers are collected in `user_data_store`, a dictionary from chat id to a dictionary of fields. The python-telegram-bot `ConversationHandler` routes each message to the handler of the state the user's conversation is in.

This project models that dialogue and proves what it does:

- **`PyStr`** models `str.strip()` and `str.title()`, as the handlers use them to normalise a message.
- **`PyInt`** models `int()` on a string, and `str()` of an integer as its inverse.
- **`Vocabulary`** holds `EMPLOYMENT_MAP`, `SCHEDULE_MAP` and `AREA_MAP` as written. It also models the normalisation `text.strip().title()` and establishes which labels that normalisation can ever produce.
- **`Handlers`** has one pure function per handler. Each takes the store and the message and gives the new store and either the next state or the `KeyError` the handler raises. The lemmas state, per step:
  - what the step accepts;
  - what it writes;
  - when it raises;
  - that it only moves forward.
- **`Conversation`** models the routing table and the library's bookkeeping:
  - one conversation per (chat, user);
  - `/start` as the only entry point and `/cancel` as the fallback;
  - `END` drops the conversation;
  - an exception leaves the state unchanged.

  It proves an invariant of every configuration reachable from the empty one.
- **`Bot`** is the running bot as a class. `store` and `conv` are its fields, and it has one imperative method per handler. Each method is proved to have the effect of the corresponding `Handlers` function. `Receive` performs one routed message.

What the proofs show about the dialogue as written:

- **Employment step.** `title()` lower-cases every character that follows a cased character, and title-cases (here: upper-cases) every other one. So "Полная занятость", "Частичная занятость" and "Проектная занятость" can never match, because `title()` makes their second word start with a capital. Only "Волонтёрство" and "Стажировка" are accepted.
- **Schedule step.** No schedule label survives `title()` unchanged, so the schedule step rejects every message.
- **City step and summary.** As a consequence, no conversation ever reaches the city step. From the bot's initial state, no sequence of new messages produces a search summary, and no handler raises on a new message (`Conversation.NeverSummarises`). Edited messages are a different matter; see "## Left out".
- **City labels.** "Россия (вся)" could not be matched either, but every other city label could be.

Behaviours of the code a reader might not expect, which the model keeps as written:

- The keyword may be empty: `strip()` of a blank message is stored as it is.
- A negative salary is accepted, since `int()` takes a sign.
- An unknown city re-asks for the city; there is no fall-back to a default region.
- `cancel` and a finished search leave the chat's entry in the store.
- No vacancy search, pagination or export exists; the summary text only announces one.

## Model

| member | source | states |
|---|---|---|
| `PyStr.Strip` | bot_file_parse_vacancies.py:52 | `strip()` returns a string with no whitespace at either end, no longer than its input |
| `PyStr.IsSpace` | bot_file_parse_vacancies.py:52 | the characters `str.isspace()` accepts, which `strip()` removes from both ends |
| `PyStr.StripUnpads` | bot_file_parse_vacancies.py:52 | what `strip()` removes is whitespace, and only from the two ends |
| `PyStr.StripUnique` | bot_file_parse_vacancies.py:52 | the stripped string is the only string without end whitespace that the input pads with whitespace |
| `PyStr.StripTrimmed` | bot_file_parse_vacancies.py:52 | a string without end whitespace is returned unchanged |
| `PyStr.StripIdempotent` | bot_file_parse_vacancies.py:60 | stripping twice, as `int(text.strip())` does, equals stripping once |
| `PyStr.StripPadded` | bot_file_parse_vacancies.py:52 | surrounding a string that has no end whitespace with whitespace on either side does not change what `strip()` returns |
| `PyStr.Lower` | bot_file_parse_vacancies.py:91 | lower-case mapping (ASCII and basic Cyrillic): the result is never upper-case, is cased exactly when the input is, and equals the input when the input is not upper-case |
| `PyStr.Upper` | bot_file_parse_vacancies.py:91 | upper-case mapping, which `title()` uses for a character that follows no cased character: the result is never lower-case, is cased exactly when the input is, and has the input's lower-case form |
| `PyStr.Title` | bot_file_parse_vacancies.py:91 | `title()` keeps the length, changes only the case of each character, and yields a titled string |
| `PyStr.TitleFixedIffTitled` | bot_file_parse_vacancies.py:91 | `title()` leaves a string unchanged if and only if the string is titled |
| `PyStr.TitleIdempotent` | bot_file_parse_vacancies.py:91 | applying `title()` twice equals applying it once |
| `PyStr.TitledExcludes` | bot_file_parse_vacancies.py:91-93 | a label with a lower-case letter after an uncased character differs from every titled string |
| `PyInt.ParseLiteral` | bot_file_parse_vacancies.py:60 | `int()` yields a negative number only for text starting with '-' |
| `PyInt.ParseInt` | bot_file_parse_vacancies.py:60 | `int(text.strip())`: strips the message, then reads it as a base-10 literal; `None` stands for the `ValueError` the handler catches |
| `PyInt.ParseAcceptsIff` | bot_file_parse_vacancies.py:59-64 | `int()` accepts a message if and only if its stripped form is a digit run, optionally after one sign; an accepted value is negative only after a '-' |
| `PyInt.ShowInt` | bot_file_parse_vacancies.py:145 | `str()` of an integer is non-empty with no whitespace at either end |
| `PyInt.ShowNatValue` | bot_file_parse_vacancies.py:145 | the decimal digits `str()` writes for a natural number spell that number |
| `PyInt.ParseShow` | bot_file_parse_vacancies.py:60 | `int(str(n)) == n` for every integer n, negative ones included |
| `PyInt.ParsePaddedShow` | bot_file_parse_vacancies.py:60 | `int()` ignores whitespace around the rendering of any integer |
| `PyInt.ParseUnderscore` | bot_file_parse_vacancies.py:60 | `int("1_000")` is 1000: an underscore between digits is accepted and ignored |
| `PyInt.ParseRejectsLetter` | bot_file_parse_vacancies.py:59-64 | `int("100k")` raises, which the salary step turns into a re-prompt |
| `Vocabulary.Normalise` | bot_file_parse_vacancies.py:91 | `text.strip().title()` is titled and has no whitespace at either end |
| `Vocabulary.ReachedByItself` | bot_file_parse_vacancies.py:91 | a titled label without end whitespace normalises to itself, with or without surrounding whitespace |
| `Vocabulary.EmploymentMatches` | bot_file_parse_vacancies.py:10-16 | a normalised text is an employment key if and only if it is "Волонтёрство" or "Стажировка"; their codes are "volunteer" and "probation" |
| `Vocabulary.ScheduleNeverMatches` | bot_file_parse_vacancies.py:18-24 | no normalised text is a schedule key |
| `Vocabulary.AreaMatches` | bot_file_parse_vacancies.py:26-33 | a normalised text is never "Россия (вся)", and every region code it can select is non-zero |
| `Vocabulary.EmploymentKeysReachable` | bot_file_parse_vacancies.py:10-16 | "Волонтёрство" and "Стажировка" are titled and have no end whitespace, so they normalise to themselves |
| `Vocabulary.AreaKeysReachable` | bot_file_parse_vacancies.py:26-33 | every city label except "Россия (вся)" is titled and has no end whitespace, so it normalises to itself |
| `Handlers.Succ` | bot_file_parse_vacancies.py:170-176 | the routing table's next state is one step further along the dialogue |
| `Handlers.Start` | bot_file_parse_vacancies.py:46-49 | `start`: greets, leaves the store alone, and enters the keyword step |
| `Handlers.ReadKeyword` | bot_file_parse_vacancies.py:51-56 | `ask_salary`: the whole chat entry becomes the stripped keyword, then the salary prompt |
| `Handlers.ReadSalary` | bot_file_parse_vacancies.py:58-88 | `ask_employment`: a text `int()` rejects re-asks; otherwise the salary is written to the existing entry (a missing entry raises `KeyError`), then the employment menu, or the keyboard error when the map is empty |
| `Handlers.ReadEmployment` | bot_file_parse_vacancies.py:90-108 | `ask_schedule`: a normalised text missing from the employment map re-asks; otherwise its code is written (a missing entry raises), then the schedule menu |
| `Handlers.ReadSchedule` | bot_file_parse_vacancies.py:110-127 | `ask_city`: a normalised text missing from the schedule map re-asks; otherwise its code is written (a missing entry raises), then the city menu |
| `Handlers.PerformSearch` | bot_file_parse_vacancies.py:129-152 | `perform_search`: a missing or zero region code re-asks; otherwise the code is written (a missing entry raises), then the five fields are read for the summary and the conversation ends |
| `Handlers.Cancel` | bot_file_parse_vacancies.py:154-157 | `cancel`: leaves the store alone and ends the conversation |
| `Handlers.OnText` | bot_file_parse_vacancies.py:170-176 | the `states` table: which handler a text message runs in each state |
| `Handlers.EmploymentNonEmpty` | bot_file_parse_vacancies.py:72-75 | the employment keyboard is never empty, so the error branch is dead |
| `Handlers.FirstMissing` | bot_file_parse_vacancies.py:141-148 | the summary raises exactly when the entry lacks a field, and it raises on the first missing field in the order it reads them |
| `Handlers.KeywordResets` | bot_file_parse_vacancies.py:51-56 | the keyword step replaces the chat's whole entry with the stripped text, which may be empty, and moves to the salary step |
| `Handlers.SalaryAcceptsIff` | bot_file_parse_vacancies.py:58-66 | the salary step moves on if and only if `int()` accepts the text and the chat has an entry. It stores that integer; a rejected text changes nothing; a missing entry raises |
| `Handlers.SalaryAcceptsEveryInteger` | bot_file_parse_vacancies.py:58-88 | every integer, negative ones included and however padded, is stored as the salary and leads to the employment step |
| `Handlers.EmploymentAcceptsIff` | bot_file_parse_vacancies.py:90-108 | the employment step moves on if and only if the text normalises to "Волонтёрство" or "Стажировка" and the chat has an entry. It stores the label's code; a rejected text changes nothing |
| `Handlers.EmploymentReachable` | bot_file_parse_vacancies.py:90-108 | sending either reachable employment label stores its code and moves to the schedule step |
| `Handlers.ScheduleAlwaysRejects` | bot_file_parse_vacancies.py:110-127 | every message at the schedule step re-asks and leaves the store unchanged |
| `Handlers.CityAcceptsIff` | bot_file_parse_vacancies.py:129-138 | the `not area_id` test re-asks exactly when the text matches no city. A re-ask changes nothing, and a match without an entry raises |
| `Handlers.CitySummary` | bot_file_parse_vacancies.py:140-152 | a matched city is stored before the summary is built. A complete entry yields a summary of its five fields and ends the conversation; otherwise a missing field other than the city raises |
| `Handlers.CityReachable` | bot_file_parse_vacancies.py:129-138 | every city label except "Россия (вся)", sent as it is, passes the `not area_id` test |
| `Handlers.CityOutcomes` | bot_file_parse_vacancies.py:129-152 | the city step re-asks with the store unchanged, raises, or ends with a summary |
| `Handlers.Progression` | bot_file_parse_vacancies.py:170-176 | every text handler returns its own state or the next one, never an earlier one; `start` returns the keyword step and `cancel` returns END |
| `Handlers.StepFrame` | bot_file_parse_vacancies.py:51-152 | a handler changes at most the sending chat's entry and removes none; only the keyword step can create an entry |
| `Handlers.RepromptChangesNothing` | bot_file_parse_vacancies.py:58-138 | a handler that stays in its state leaves the store unchanged |
| `Conversation.Apply` | bot_file_parse_vacancies.py:168-178 | how the conversation handler records a handler's result: END drops the conversation, another state replaces it, an exception keeps it |
| `Conversation.Handle` | bot_file_parse_vacancies.py:168-178 | one update through the conversation handler: only `/start` opens a conversation; in a state, a text runs that state's handler and `/cancel` the fallback; anything else is ignored |
| `Conversation.Run` | bot_file_parse_vacancies.py:168-178 | a sequence of updates handled in order, one response per update |
| `Conversation.InitialInv` | bot_file_parse_vacancies.py:44 | the empty store with no conversation satisfies the invariant |
| `Conversation.KeywordKeepsWellFormed` | bot_file_parse_vacancies.py:51-56 | the keyword step keeps every entry well formed |
| `Conversation.SalaryKeepsWellFormed` | bot_file_parse_vacancies.py:58-88 | the salary step re-asks, moves on or raises, and keeps every entry well formed |
| `Conversation.EmploymentKeepsWellFormed` | bot_file_parse_vacancies.py:90-108 | the employment step re-asks, moves on or raises, and stores only "volunteer" or "probation" |
| `Conversation.OnTextPreserves` | bot_file_parse_vacancies.py:170-175 | in a reachable configuration, a text handler does not raise, produces no summary, never reaches the city step, and keeps the entries well formed |
| `Conversation.HandlePreserves` | bot_file_parse_vacancies.py:168-178 | every routed message keeps the invariant; in a reachable configuration no handler raises and no summary is produced |
| `Conversation.HandleFrame` | bot_file_parse_vacancies.py:168-178 | a message changes only its sender's conversation and its sender's chat entry, and removes no entry |
| `Conversation.HandleMovesForward` | bot_file_parse_vacancies.py:168-178 | a conversation's state stays, advances by one, or the conversation ends; `/start` inside a conversation is ignored |
| `Conversation.CancelKeepsEntry` | bot_file_parse_vacancies.py:154-157 | `/cancel` ends a running conversation and keeps the chat's collected criteria |
| `Conversation.OnlyStartOpens` | bot_file_parse_vacancies.py:169 | without a conversation, only `/start` does anything: it opens one at the keyword step and leaves the store alone |
| `Conversation.RunPreserves` | bot_file_parse_vacancies.py:168-178 | over any sequence of messages the invariant holds, no handler raises, and no summary is produced |
| `Conversation.NeverSummarises` | bot_file_parse_vacancies.py:129-152 | from the bot's initial state, no sequence of messages produces a search summary or an exception |
| `Bot.Bot.constructor` | bot_file_parse_vacancies.py:44 | the bot starts with an empty store and no conversation, which satisfies the invariant |
| `Bot.Bot.Start` | bot_file_parse_vacancies.py:46-49 | `start` greets, changes no data, and leads to the keyword step |
| `Bot.Bot.ReadKeyword` | bot_file_parse_vacancies.py:51-56 | updates the store in place as the keyword step does |
| `Bot.Bot.ReadSalary` | bot_file_parse_vacancies.py:58-88 | updates the store in place as the salary step does, including the raise and the empty-keyboard branch |
| `Bot.Bot.ReadEmployment` | bot_file_parse_vacancies.py:90-108 | updates the store in place as the employment step does |
| `Bot.Bot.ReadSchedule` | bot_file_parse_vacancies.py:110-127 | updates the store in place as the schedule step does |
| `Bot.Bot.PerformSearch` | bot_file_parse_vacancies.py:129-152 | stores the region code in place, then reads the entry for the summary as the city step does |
| `Bot.Bot.Cancel` | bot_file_parse_vacancies.py:154-157 | `cancel` changes no data and ends the conversation |
| `Bot.Bot.Receive` | bot_file_parse_vacancies.py:168-178 | a routed message changes the bot's fields as `Conversation.Handle` says; from a reachable configuration the bot stays in one and no handler raises |

## Left out

- Telegram I/O is not modelled. Replies are tags standing for the texts sent, and keyboards, `ReplyKeyboardRemove` and the wording are left out. `Updater`, polling and `main`'s wiring are left out too; only the routing table `main` registers is modelled.
- Logging is not modelled; it has no effect on the dialogue.
- Reading the bot token from the environment is configuration I/O and is not part of this model.
- `error_handler` only reports through Telegram. A handler's exception appears as the `Failed` response, and the conversation keeps its state.
- The library's message classification is abstracted as `Message`:
  - A `Command(name)` stands for any text starting with a bot command, with the name as the library reads it; upper/lower case and the `@botname` suffix are not modelled.
  - Edited messages are not modelled. The library's handlers accept them by default and route them to the current state's handler. For such an update `update.message` is `None`, so every handler (`start` and `cancel` included) raises `AttributeError` and the conversation keeps its state. The claim that no handler raises (`Conversation.NeverSummarises`, `Conversation.RunPreserves`, `Bot.Bot.Receive`) holds for new messages only.
  - Channel posts and concurrency (`run_async`) are not modelled.
- `PyStr.Lower`: case mapping covers ASCII and the basic Cyrillic block only. Other cased scripts, title-case digraphs and special casings such as 'ß' are treated as uncased. Python maps some of these characters into the two alphabets: for example, Cyrillic Extended-C U+1C83 title-cases to 'С'. So Python accepts "\u1c83тажировка" as "Стажировка", and the model rejects it. The accept sets stated by `Handlers.EmploymentAcceptsIff` and `Handlers.CityAcceptsIff` are therefore exact only for text written in ASCII and basic Cyrillic.
- `PyInt.ParseInt` reads only ASCII digits. Python's `int()` also accepts other Unicode decimal digits, and refuses literals longer than 4300 digits; the model accepts any length.
- No vacancy search, results list or export is modelled; the source has only a placeholder text for them.
