/** The three closed vocabularies the dialogue offers as keyboard buttons, and the
    normalisation the choice steps apply before looking a message up in them. */
module Vocabulary {
  import opened PyStr

  /** Employment type label -> the code the job-listings API expects. */
  const EmploymentMap: map<string, string> := map[
    "Полная занятость" := "full",
    "Частичная занятость" := "part",
    "Проектная занятость" := "project",
    "Волонтёрство" := "volunteer",
    "Стажировка" := "probation"
  ]

  /** Work schedule label -> API code. */
  const ScheduleMap: map<string, string> := map[
    "Полный день" := "fullDay",
    "Сменный график" := "shift",
    "Гибкий график" := "flexible",
    "Удалённая работа" := "remote",
    "Вахтовый метод" := "flyInFlyOut"
  ]

  /** City label -> region code. */
  const AreaMap: map<string, int> := map[
    "Москва" := 1,
    "Санкт-Петербург" := 2,
    "Новосибирск" := 4,
    "Екатеринбург" := 3,
    "Краснодар" := 53,
    "Россия (вся)" := 113
  ]

  /** What the employment, schedule and city steps compare with the keys: text.strip().title(). */
  function Normalise(text: string): (k: string)
    ensures IsTitled(k) && Trimmed(k)
  {
    var t := Strip(text);
    var k := Title(t);
    assert k == [] || (Lower(k[0]) == Lower(t[0]) && Lower(k[|k| - 1]) == Lower(t[|t| - 1]));
    LowerKeepsSpace(k, t);
    k
  }

  /** Changing the case of the end characters cannot turn them into whitespace. */
  lemma LowerKeepsSpace(k: string, t: string)
    requires |k| == |t| && Trimmed(t)
    requires k == [] || (Lower(k[0]) == Lower(t[0]) && Lower(k[|k| - 1]) == Lower(t[|t| - 1]))
    ensures Trimmed(k)
  {
    if k != [] {
      NotSpaceByLower(k[0], t[0]);
      NotSpaceByLower(k[|k| - 1], t[|t| - 1]);
    }
  }

  lemma NotSpaceByLower(a: char, b: char)
    requires Lower(a) == Lower(b) && !IsSpace(b)
    ensures !IsSpace(a)
  {
    assert IsSpace(a) ==> !IsCased(a) && Lower(a) == a;
  }

  /** A key that Normalise returns unchanged is accepted when the user sends it as it is,
      with or without surrounding whitespace. */
  lemma ReachedByItself(k: string, pre: string, post: string)
    requires IsTitled(k) && Trimmed(k) && AllSpace(pre) && AllSpace(post)
    ensures Normalise(pre + k + post) == k
  {
    StripPadded(pre, k, post);
    TitleFixedIffTitled(k);
  }

  /** Of the employment labels only "Волонтёрство" and "Стажировка" are titled: each of
      the other three has a lower-case letter starting its second word. As Normalise
      returns titled strings only, those two are the only labels the step can match. */
  lemma EmploymentMatches(k: string)
    requires IsTitled(k)
    ensures k in EmploymentMap <==> k in {"Волонтёрство", "Стажировка"}
    ensures k in EmploymentMap ==> EmploymentMap[k] in {"volunteer", "probation"}
  {
    TitledExcludes(k, "Полная занятость", 7);
    TitledExcludes(k, "Частичная занятость", 10);
    TitledExcludes(k, "Проектная занятость", 10);
  }

  /** No schedule label is titled, so the schedule step can match none of them. */
  lemma ScheduleNeverMatches(k: string)
    requires IsTitled(k)
    ensures k !in ScheduleMap
  {
    TitledExcludes(k, "Полный день", 7);
    TitledExcludes(k, "Сменный график", 8);
    TitledExcludes(k, "Гибкий график", 7);
    TitledExcludes(k, "Удалённая работа", 10);
    TitledExcludes(k, "Вахтовый метод", 9);
  }

  /** Every city label but "Россия (вся)" is titled ("(вся)" would come out as "(Вся)"),
      and no region code is 0, so the handler's `not area_id` test is exactly a failed lookup. */
  lemma AreaMatches(k: string)
    requires IsTitled(k)
    ensures k in AreaMap <==> k in AreaMap && k != "Россия (вся)"
    ensures k in AreaMap ==> AreaMap[k] != 0
  {
    TitledExcludes(k, "Россия (вся)", 8);
  }

  /** The other direction: the employment labels left reachable above are titled and
      trimmed, so by ReachedByItself each is matched when sent as it is. */
  lemma EmploymentKeysReachable()
    ensures forall k :: k in {"Волонтёрство", "Стажировка"} ==> k in EmploymentMap && IsTitled(k) && Trimmed(k)
  {
    VolunteerTitled();
    ProbationTitled();
  }

  lemma VolunteerTitled() ensures IsTitled("Волонтёрство") && Trimmed("Волонтёрство") { }
  lemma ProbationTitled() ensures IsTitled("Стажировка") && Trimmed("Стажировка") { }

  /** Likewise every city label but "Россия (вся)". */
  lemma AreaKeysReachable()
    ensures forall k :: k in AreaMap && k != "Россия (вся)" ==> IsTitled(k) && Trimmed(k)
  {
    MoscowTitled();
    PetersburgTitled();
    NovosibirskTitled();
    YekaterinburgTitled();
    KrasnodarTitled();
  }

  lemma MoscowTitled() ensures IsTitled("Москва") && Trimmed("Москва") { }
  lemma PetersburgTitled() ensures IsTitled("Санкт-Петербург") && Trimmed("Санкт-Петербург") { }
  lemma NovosibirskTitled() ensures IsTitled("Новосибирск") && Trimmed("Новосибирск") { }
  lemma YekaterinburgTitled() ensures IsTitled("Екатеринбург") && Trimmed("Екатеринбург") { }
  lemma KrasnodarTitled() ensures IsTitled("Краснодар") && Trimmed("Краснодар") { }
}
