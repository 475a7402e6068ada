/** Concrete conversations: the keyboard buttons, a first application on a
    new database, and a summary rejected and filled in again. */
module Scenarios {
  import opened Text
  import opened Database
  import opened Handlers
  import opened FormProperties
  import opened Walks

  /** The texts the reply keyboards send. */
  const StartButton: string := "Оставить заявку"
  const ConfirmButton: string := "Да, отправить"
  const RestartButton: string := "Нет, начать заново"

  /** Pressing a button sends text the matching phrase filter accepts. */
  lemma StartButtonMatches()
    ensures Norm(StartButton) == StartFormPhrase
  {
    assert Lower(StartButton) == StartFormPhrase;
    StripTrimmed(StartFormPhrase);
  }

  lemma ConfirmButtonMatches()
    ensures Norm(ConfirmButton) == ConfirmPhrase
  {
    assert Lower(ConfirmButton) == ConfirmPhrase;
    StripTrimmed(ConfirmPhrase);
  }

  lemma RestartButtonMatches()
    ensures Norm(RestartButton) == RestartPhrase
  {
    assert Lower(RestartButton) == RestartPhrase;
    StripTrimmed(RestartPhrase);
  }

  /** Text shorter than the start-form phrase that starts with a visible
      character other than '/' reaches the per-state handlers, and is
      neither answer to the summary when shorter than both. */
  lemma PlainShort(text: string, botUsername: string)
    requires text != [] && !IsSpace(text[0]) && text[0] != '/'
    requires |text| < |StartFormPhrase|
    ensures Plain(text, botUsername)
    ensures |text| < |ConfirmPhrase| ==> Norm(text) != ConfirmPhrase && Norm(text) != RestartPhrase
  {
    assert TrimStart(text) == text;
    var w := FirstWord(text);
    assert w == [] || w[0] == text[0];
    assert |Norm(text)| <= |text|;
  }

  /** A name, a phone and a topic as typed. */
  datatype Answers = Answers(name: string, phone: string, topic: string)

  predicate PlainAnswers(a: Answers, botUsername: string) {
    Plain(a.name, botUsername) && Plain(a.phone, botUsername) && Plain(a.topic, botUsername)
  }

  /** Typical answers reach the form's handlers. */
  lemma SampleAnswersPlain(botUsername: string)
    ensures PlainAnswers(Answers("Alice", "+1000", "Billing"), botUsername)
  {
    PlainShort("Alice", botUsername);
    PlainShort("+1000", botUsername);
    PlainShort("Billing", botUsername);
  }

  /** The start button, a name, a phone, a topic and the confirm button. */
  function FormEvents(a: Answers, os: seq<Oracle>): (es: seq<Event>)
    requires |os| == 5
    ensures |es| == 5
    ensures es[1].text == a.name && es[2].text == a.phone && es[3].text == a.topic
    ensures es[4].oracle == os[4]
    ensures Norm(es[0].text) == StartFormPhrase && Norm(es[4].text) == ConfirmPhrase
  {
    StartButtonMatches();
    ConfirmButtonMatches();
    [Event(StartButton, os[0]), Event(a.name, os[1]), Event(a.phone, os[2]), Event(a.topic, os[3]),
     Event(ConfirmButton, os[4])]
  }

  /** On a database `init_db` has just created, filling in the form with the
      keyboard and confirming stores one row with id 1 holding exactly the
      answers, and leaves the conversation cleared. */
  lemma FirstApplication(cfg: BotConfig, a: Answers, os: seq<Oracle>)
    requires PlainAnswers(a, cfg.botUsername)
    requires |os| == 5 && os[4].written
    ensures var r := Run(cfg, Fresh, InitDb(NoDatabase), FormEvents(a, os));
      && r.session == Fresh
      && r.store.rows == [Application(1, a.name, a.phone, a.topic, FormatTimestamp(os[4].now))]
  {
    var events := FormEvents(a, os);
    var store := InitDb(NoDatabase);
    FreshWalk(cfg, Fresh, store, events);
    var r := Run(cfg, Fresh, store, events);
    SubmittedRow(cfg, store, a.name, a.phone, a.topic, os[4], StepResult(r.session, r.store, r.effects[4..]));
  }

  /** A first set of answers, the restart button, a second set and the
      confirm button.  */
  function RestartEvents(first: Answers, second: Answers, os: seq<Oracle>): (es: seq<Event>)
    requires |os| == 9
    ensures |es| == 9
    ensures es[..4] == FormEvents(first, os[..5])[..4]
    ensures es[5].text == second.name && es[6].text == second.phone && es[7].text == second.topic
    ensures es[8].oracle == os[8]
    ensures Norm(es[4].text) == RestartPhrase && Norm(es[8].text) == ConfirmPhrase
  {
    RestartButtonMatches();
    ConfirmButtonMatches();
    FormEvents(first, os[..5])[..4]
      + [Event(RestartButton, os[4]), Event(second.name, os[5]), Event(second.phone, os[6]), Event(second.topic, os[7]),
         Event(ConfirmButton, os[8])]
  }

  /** A summary rejected and filled in again: the stored row holds only the
      second set of answers, although the first set was never cleared from
      the conversation's data. */
  lemma RestartedApplication(cfg: BotConfig, first: Answers, second: Answers,
                             os: seq<Oracle>)
    requires PlainAnswers(first, cfg.botUsername) && PlainAnswers(second, cfg.botUsername)
    requires |os| == 9 && os[8].written
    ensures var r := Run(cfg, Fresh, InitDb(NoDatabase), RestartEvents(first, second, os));
      && r.session == Fresh
      && r.store.rows == [Application(1, second.name, second.phone, second.topic, FormatTimestamp(os[8].now))]
  {
    var events := RestartEvents(first, second, os);
    var a, b := events[..4], events[4..];
    assert events == a + b;
    var store := InitDb(NoDatabase);
    WalkToSummary(cfg, Fresh, store, a);
    var mid := Run(cfg, Fresh, store, a);
    RestartWalk(cfg, mid.session, store, b);
    var r2 := Run(cfg, mid.session, store, b);
    SubmittedRow(cfg, store, second.name, second.phone, second.topic, os[8], StepResult(r2.session, r2.store, r2.effects[4..]));
    RunAppend(cfg, Fresh, store, a, b);
  }

  /** Any other answer to the summary is met with the button hint and changes
      nothing; the confirm button then still submits the answers on file. */
  lemma HesitantConfirmation(cfg: BotConfig, s: Session, store: Store, text: string, o1: Oracle, o2: Oracle)
    requires s.state == AwaitingConfirmation && Complete(s.data)
    requires Plain(text, cfg.botUsername) && Norm(text) != ConfirmPhrase && Norm(text) != RestartPhrase
    ensures var r := Run(cfg, s, store, [Event(text, o1), Event(ConfirmButton, o2)]);
      && |r.effects| >= 1
      && r.effects[0] == Reply(UseButtons)
      && Submitted(cfg, store, s.data[Name], s.data[Phone], s.data[Topic], o2,
                   StepResult(r.session, r.store, r.effects[1..]))
  {
    ConfirmButtonMatches();
    OtherTextAtConfirmationWaits(cfg, s, store, text, o1);
    ConfirmIsProcessed(cfg, s, store, ConfirmButton, o2);
    ConfirmSubmitted(cfg, s, store, o2);
    var e1, e2 := Event(text, o1), Event(ConfirmButton, o2);
    assert [e1, e2] == [e1] + [e2];
    assert [e2] == [e2] + [];
    RunFirst(cfg, s, store, e1, [e2]);
    RunFirst(cfg, s, store, e2, []);
    assert Run(cfg, s, store, []) == StepResult(s, store, []);
    var last := ProcessConfirmationYes(cfg, s, store, o2);
    var r := Run(cfg, s, store, [e1, e2]);
    assert r == StepResult(last.session, last.store, [Reply(UseButtons)] + last.effects);
    assert r.effects[1..] == last.effects;
  }
}
