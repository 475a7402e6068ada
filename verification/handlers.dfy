/** The application form of `handlers.py`: the five form states, the order in
    which the router tries its handlers, and what each handler does to the
    conversation's state and data, to the application store, and to the
    outside world (replies to the user, notifications to the admins). */
module Handlers {
  import opened Text
  import opened Database

  // ---------------------------------------------------------------------------
  // Conversation state
  // ---------------------------------------------------------------------------

  /** `ApplicationForm`'s states, plus `Idle` for "no state set". */
  datatype FormState = Idle | AwaitingName | AwaitingPhone | AwaitingTopic | AwaitingConfirmation

  /** The keys the handlers store in the FSM data. */
  datatype Field = Name | Phone | Topic

  /** One user's FSM context: the current state and the collected data. */
  datatype Session = Session(state: FormState, data: map<Field, string>)

  /** A user who has not talked to the bot yet, or whose context was cleared. */
  const Fresh: Session := Session(Idle, map[])

  predicate Complete(data: map<Field, string>) {
    Name in data && Phone in data && Topic in data
  }

  /** What `main` hands the handlers: the numeric id of the user-facing bot
      (shown in admin notifications), its username (checked against command
      mentions), the notification bot's token ("" when none) and the admin ids. */
  datatype BotConfig = BotConfig(botId: string, botUsername: string,
                                 notificationToken: string, adminIds: seq<string>)

  /** What the outside world answers while one message is handled: the clock,
      whether the database write goes through, and per admin whether
      `send_message` succeeds (a missing entry counts as a failure). */
  datatype Oracle = Oracle(now: Clock, written: bool, delivered: seq<bool>)

  /** Something the bot sends: a reply to the user, or one notification attempt. */
  datatype Effect = Reply(message: Message) | Notify(chatId: string, message: Message, delivered: bool)

  datatype StepResult = StepResult(session: Session, store: Store, effects: seq<Effect>)

  // ---------------------------------------------------------------------------
  // Fixed phrases and texts
  // ---------------------------------------------------------------------------

  /** The phrases the filters compare `text.lower().strip()` against. */
  const StartFormPhrase: string := "оставить заявку"
  const ConfirmPhrase: string := "да, отправить"
  const RestartPhrase: string := "нет, начать заново"

  /** The messages the bot sends; `Render` gives their exact text. */
  datatype Message =
    | Welcome | HelpInfo
    | AskName | AskPhone | AskTopic
    | Summary(name: string, phone: string, topic: string)
    | Accepted | SaveFailed | OfferAnother
    | AskNameAgain | UseButtons
    | NewApplication(botId: string, name: string, phone: string, topic: string)

  function Render(m: Message): string {
    match m
    case Welcome =>
      "Добро пожаловать! 👋\nЯ помогу вам оставить заявку на консультацию.\nНажмите кнопку ниже, чтобы начать."
    case HelpInfo =>
      "Я бот для сбора заявок на консультацию. 📝\nВы можете оставить заявку, указав ваше имя, телефон и тему консультации.\nДля начала, используйте команду /start или нажмите кнопку 'Оставить заявку'."
    case AskName => "Пожалуйста, введите ваше имя:"
    case AskPhone => "Спасибо! Теперь введите ваш номер телефона:"
    case AskTopic => "Отлично! Укажите тему консультации:"
    case Summary(name, phone, topic) =>
      "Спасибо! Давайте проверим данные:\nИмя: " + name + "\nТелефон: " + phone + "\nТема: " + topic + "\n\nВсе верно?"
    case Accepted => "Спасибо! Ваша заявка принята. Мы скоро с вами свяжемся. ✅"
    case SaveFailed =>
      "Произошла ошибка при сохранении вашей заявки. Пожалуйста, попробуйте еще раз позже. ⚠️"
    case OfferAnother => "Вы можете оставить еще одну заявку или использовать команду /help."
    case AskNameAgain => "Хорошо, давайте начнем заново. Введите ваше имя:"
    case UseButtons => "Пожалуйста, используйте кнопки для ответа: 'Да, отправить' или 'Нет, начать заново'."
    case NewApplication(botId, name, phone, topic) =>
      "📬 Новая заявка на консультацию (через @" + botId + "):\n👤 Имя: " + name + "\n📞 Телефон: " + phone + "\n📌 Тема: " + topic
  }

  // ---------------------------------------------------------------------------
  // Filters and handler order
  // ---------------------------------------------------------------------------

  /** aiogram's `Command(command)` filter: the first whitespace-separated word
      is '/' followed by the command, optionally followed by "@mention", and a
      mention must name this bot (compared lower-cased). */
  predicate IsCommand(text: string, command: string, botUsername: string) {
    var word := FirstWord(text);
    && word != []
    && word[0] == '/'
    && var parts := Partition(word[1..], '@');
    && parts.0 == command
    && (parts.1 == [] || botUsername == [] || Lower(parts.1) == Lower(botUsername))
  }

  /** Text no handler ahead of the per-state handlers claims: neither command,
      nor the start-form phrase. Only such text is ever stored in the form. */
  predicate Plain(text: string, botUsername: string) {
    && !IsCommand(text, "start", botUsername)
    && !IsCommand(text, "help", botUsername)
    && Norm(text) != StartFormPhrase
  }

  /** A message whose normal form is a phrase that does not begin with '/' is
      never a command. */
  lemma PhraseIsNotCommand(text: string, phrase: string, command: string, botUsername: string)
    requires Norm(text) == phrase && phrase != [] && phrase[0] != '/'
    ensures !IsCommand(text, command, botUsername)
  {
    NormHead(text);
    var l := TrimStart(text);
    assert LowerChar(l[0]) == phrase[0];
    assert l[0] != '/';
    var w := FirstWord(text);
    assert w == [] || w[0] == l[0];
  }

  /** The three phrases are distinct and none of them starts with '/'. */
  lemma PhraseFacts()
    ensures StartFormPhrase != [] && StartFormPhrase[0] != '/'
    ensures ConfirmPhrase != [] && ConfirmPhrase[0] != '/'
    ensures RestartPhrase != [] && RestartPhrase[0] != '/'
    ensures StartFormPhrase != ConfirmPhrase && StartFormPhrase != RestartPhrase
    ensures ConfirmPhrase != RestartPhrase
  {
    assert StartFormPhrase[0] == 'о';
    assert ConfirmPhrase[0] == 'д';
    assert RestartPhrase[0] == 'н';
  }

  /** A message that normalises to one of the three phrases is neither command. */
  lemma PhrasesAreNotCommands(text: string, botUsername: string)
    ensures Norm(text) == StartFormPhrase || Norm(text) == ConfirmPhrase || Norm(text) == RestartPhrase ==>
      !IsCommand(text, "start", botUsername) && !IsCommand(text, "help", botUsername)
    ensures StartFormPhrase != ConfirmPhrase && StartFormPhrase != RestartPhrase
    ensures ConfirmPhrase != RestartPhrase
  {
    PhraseFacts();
    var n := Norm(text);
    if n == StartFormPhrase || n == ConfirmPhrase || n == RestartPhrase {
      PhraseIsNotCommand(text, n, "start", botUsername);
      PhraseIsNotCommand(text, n, "help", botUsername);
    }
  }

  /** The handlers of `handlers.py`, one per decorated function. */
  datatype Handler =
    | OnStart | OnHelp | OnFormTrigger
    | OnName | OnPhone | OnTopic
    | OnConfirmYes | OnConfirmNo | OnConfirmInvalid
    | Unhandled

  /** Which fixed phrase, if any, a normal form is. */
  datatype Phrase = FormTrigger | Confirm | Restart | NoPhrase

  function PhraseOf(norm: string): Phrase {
    if norm == StartFormPhrase then FormTrigger
    else if norm == ConfirmPhrase then Confirm
    else if norm == RestartPhrase then Restart
    else NoPhrase
  }

  /** What the filters see in a message: the two command tests and which
      phrase its normal form is. */
  datatype Words = Words(isStart: bool, isHelp: bool, phrase: Phrase)

  /** The classification of text that reaches the per-state handlers. */
  predicate PlainWords(w: Words) {
    !w.isStart && !w.isHelp && w.phrase != FormTrigger
  }

  function Classify(text: string, botUsername: string): Words {
    Words(IsCommand(text, "start", botUsername), IsCommand(text, "help", botUsername), PhraseOf(Norm(text)))
  }

  /** The handler the router picks: the first registered one whose filters all
      pass, or none. */
  function Route(state: FormState, w: Words): Handler {
    if w.isStart then OnStart
    else if w.isHelp then OnHelp
    else if w.phrase == FormTrigger then OnFormTrigger
    else match state
      case Idle => Unhandled
      case AwaitingName => OnName
      case AwaitingPhone => OnPhone
      case AwaitingTopic => OnTopic
      case AwaitingConfirmation =>
        if w.phrase == Confirm then OnConfirmYes
        else if w.phrase == Restart then OnConfirmNo
        else OnConfirmInvalid
  }

  /** How `Classify` reads the phrases: each phrase is recognised exactly when
      the normal form equals it, and a phrase is never a command. */
  lemma ClassifyPhrases(text: string, botUsername: string)
    ensures var w := Classify(text, botUsername);
      && (w.phrase == FormTrigger <==> Norm(text) == StartFormPhrase)
      && (w.phrase == Confirm <==> Norm(text) == ConfirmPhrase)
      && (w.phrase == Restart <==> Norm(text) == RestartPhrase)
      && (w.phrase != NoPhrase ==> !w.isStart && !w.isHelp)
      && (Plain(text, botUsername) <==> PlainWords(w))
  {
    PhrasesAreNotCommands(text, botUsername);
  }

  /** The router's choice, handler by handler: commands first, then the
      start-form phrase in any state, then the handlers of the current state,
      with the confirmation handlers tried in the order yes, no, anything else. */
  lemma RoutePrecedence(state: FormState, text: string, botUsername: string)
    ensures var h := Route(state, Classify(text, botUsername));
      && (h == OnStart <==> IsCommand(text, "start", botUsername))
      && (h == OnHelp <==> IsCommand(text, "help", botUsername) && !IsCommand(text, "start", botUsername))
      && (h == OnFormTrigger <==> Norm(text) == StartFormPhrase)
      && (h == OnName <==> state == AwaitingName && Plain(text, botUsername))
      && (h == OnPhone <==> state == AwaitingPhone && Plain(text, botUsername))
      && (h == OnTopic <==> state == AwaitingTopic && Plain(text, botUsername))
      && (h == OnConfirmYes <==> state == AwaitingConfirmation && Norm(text) == ConfirmPhrase)
      && (h == OnConfirmNo <==> state == AwaitingConfirmation && Norm(text) == RestartPhrase)
      && (h == OnConfirmInvalid <==>
            && state == AwaitingConfirmation && Plain(text, botUsername)
            && Norm(text) != ConfirmPhrase && Norm(text) != RestartPhrase)
      && (h == Unhandled <==> state == Idle && Plain(text, botUsername))
  {
    ClassifyPhrases(text, botUsername);
  }

  // ---------------------------------------------------------------------------
  // The handlers
  // ---------------------------------------------------------------------------

  function CmdStart(s: Session, store: Store): StepResult {
    StepResult(s, store, [Reply(Welcome)])
  }

  function CmdHelp(s: Session, store: Store): StepResult {
    StepResult(s, store, [Reply(HelpInfo)])
  }

  /** Sets the state only; whatever was collected before stays in the data. */
  function StartApplicationForm(s: Session, store: Store): StepResult {
    StepResult(Session(AwaitingName, s.data), store, [Reply(AskName)])
  }

  function ProcessName(s: Session, store: Store, text: string): StepResult {
    StepResult(Session(AwaitingPhone, s.data[Name := text]), store, [Reply(AskPhone)])
  }

  function ProcessPhone(s: Session, store: Store, text: string): StepResult {
    StepResult(Session(AwaitingTopic, s.data[Phone := text]), store, [Reply(AskTopic)])
  }

  /** Stores the topic, then shows the summary. Building the summary reads the
      name and the phone; were either missing, the KeyError would end the
      handler there, leaving the topic stored, no reply, and the state as it was. */
  function ProcessTopic(s: Session, store: Store, text: string): StepResult {
    var d := s.data[Topic := text];
    if Name in d && Phone in d then
      StepResult(Session(AwaitingConfirmation, d), store, [Reply(Summary(d[Name], d[Phone], d[Topic]))])
    else
      StepResult(Session(s.state, d), store, [])
  }

  /** One notification attempt per admin, in list order; a failed send is
      logged and the loop goes on. */
  function NotifyEach(ids: seq<string>, m: Message, delivered: seq<bool>): seq<Effect> {
    if ids == [] then []
    else
      [Notify(ids[0], m, |delivered| > 0 && delivered[0])]
      + NotifyEach(ids[1..], m, if delivered == [] then [] else delivered[1..])
  }

  /** The notification block: it runs only with a notification token and at
      least one admin id. */
  function Notifications(cfg: BotConfig, name: string, phone: string, topic: string,
                         delivered: seq<bool>): seq<Effect> {
    if cfg.notificationToken != [] && cfg.adminIds != [] then
      NotifyEach(cfg.adminIds, NewApplication(cfg.botId, name, phone, topic), delivered)
    else []
  }

  /** Saves the application; on success thanks the user and notifies the
      admins; on any failure (the write, or a missing data key) reports the
      error instead. Either way the context is cleared and the closing hint sent. */
  function ProcessConfirmationYes(cfg: BotConfig, s: Session, store: Store, o: Oracle): StepResult {
    var d := s.data;
    if Complete(d) then
      match AddApplication(store, d[Name], d[Phone], d[Topic], o.now, o.written)
      case Success(saved) =>
        StepResult(Fresh, saved,
          [Reply(Accepted)] + Notifications(cfg, d[Name], d[Phone], d[Topic], o.delivered) + [Reply(OfferAnother)])
      case Failure(_) =>
        StepResult(Fresh, store, [Reply(SaveFailed), Reply(OfferAnother)])
    else
      StepResult(Fresh, store, [Reply(SaveFailed), Reply(OfferAnother)])
  }

  /** Sets the state back to the name question; the data is not cleared. */
  function ProcessConfirmationNo(s: Session, store: Store): StepResult {
    StepResult(Session(AwaitingName, s.data), store, [Reply(AskNameAgain)])
  }

  function ProcessConfirmationInvalid(s: Session, store: Store): StepResult {
    StepResult(s, store, [Reply(UseButtons)])
  }

  /** One incoming text message in one conversation. */
  function Step(cfg: BotConfig, s: Session, store: Store, text: string, o: Oracle): StepResult {
    Handle(cfg, s, store, text, Classify(text, cfg.botUsername), o)
  }

  /** The chosen handler applied to a message the filters have classified as `w`. */
  function Handle(cfg: BotConfig, s: Session, store: Store, text: string, w: Words, o: Oracle): StepResult {
    match Route(s.state, w)
    case OnStart => CmdStart(s, store)
    case OnHelp => CmdHelp(s, store)
    case OnFormTrigger => StartApplicationForm(s, store)
    case OnName => ProcessName(s, store, text)
    case OnPhone => ProcessPhone(s, store, text)
    case OnTopic => ProcessTopic(s, store, text)
    case OnConfirmYes => ProcessConfirmationYes(cfg, s, store, o)
    case OnConfirmNo => ProcessConfirmationNo(s, store)
    case OnConfirmInvalid => ProcessConfirmationInvalid(s, store)
    case Unhandled => StepResult(s, store, [])
  }
}
