/** What one message does to a conversation, stated per handler, and the
    invariants every step of the form keeps. */
module FormProperties {
  import opened Text
  import opened Database
  import opened Handlers

  // ---------------------------------------------------------------------------
  // Observing effects
  // ---------------------------------------------------------------------------

  /** The chats a sequence of effects sends notifications to, in order. */
  function Notified(effects: seq<Effect>): seq<string> {
    if effects == [] then []
    else (if effects[0].Notify? then [effects[0].chatId] else []) + Notified(effects[1..])
  }

  lemma {:induction false} NotifiedConcat(a: seq<Effect>, b: seq<Effect>)
    ensures Notified(a + b) == Notified(a) + Notified(b)
    decreases |a|
  {
    if a == [] {
      assert a + b == b;
    } else {
      assert (a + b)[0] == a[0];
      assert (a + b)[1..] == a[1..] + b;
      NotifiedConcat(a[1..], b);
    }
  }

  /** A run of notifications is observed as its chats, one for one. */
  lemma {:induction false} NotifiedAllNotify(effects: seq<Effect>)
    requires forall k :: 0 <= k < |effects| ==> effects[k].Notify?
    ensures |Notified(effects)| == |effects|
    ensures forall k :: 0 <= k < |effects| ==> Notified(effects)[k] == effects[k].chatId
    decreases |effects|
  {
    if effects != [] {
      NotifiedAllNotify(effects[1..]);
    }
  }

  /** The notification loop makes one attempt per admin, in list order, each
      with the outcome the transport reported for it (a missing report counts
      as a failed send). */
  lemma {:induction false} NotifyEachAttempts(ids: seq<string>, m: Message, delivered: seq<bool>)
    ensures var r := NotifyEach(ids, m, delivered);
      && |r| == |ids|
      && forall k :: 0 <= k < |ids| ==> r[k] == Notify(ids[k], m, k < |delivered| && delivered[k])
    decreases |ids|
  {
    if ids != [] {
      var rest := if delivered == [] then [] else delivered[1..];
      NotifyEachAttempts(ids[1..], m, rest);
      var r := NotifyEach(ids, m, delivered);
      forall k | 1 <= k < |ids| ensures r[k] == Notify(ids[k], m, k < |delivered| && delivered[k]) {
        assert r[k] == NotifyEach(ids[1..], m, rest)[k - 1];
      }
    }
  }

  /** The notification loop attempts every admin once, in list order, whatever
      the individual sends report. */
  lemma NotifyEachReachesAll(ids: seq<string>, m: Message, delivered: seq<bool>)
    ensures Notified(NotifyEach(ids, m, delivered)) == ids
  {
    NotifyEachAttempts(ids, m, delivered);
    NotifiedAllNotify(NotifyEach(ids, m, delivered));
  }

  // ---------------------------------------------------------------------------
  // One step on a classified message
  // ---------------------------------------------------------------------------

  /** Text the per-state handlers receive is stored verbatim under the current
      state's key, ignored in `Idle`, and answered with the button hint at the
      confirmation question unless it is one of the two answers. At the topic
      question without a stored name or phone, the summary's KeyError ends the
      handler: the topic stays stored, the state is kept and nothing is sent. */
  lemma HandlePlain(cfg: BotConfig, s: Session, store: Store, text: string, w: Words, o: Oracle)
    requires PlainWords(w)
    ensures var r := Handle(cfg, s, store, text, w, o);
      && (s.state == Idle ==> r == StepResult(s, store, []))
      && (s.state == AwaitingName ==>
            r == StepResult(Session(AwaitingPhone, s.data[Name := text]), store, [Reply(AskPhone)]))
      && (s.state == AwaitingPhone ==>
            r == StepResult(Session(AwaitingTopic, s.data[Phone := text]), store, [Reply(AskTopic)]))
      && (s.state == AwaitingTopic && Name in s.data && Phone in s.data ==>
            && r.session == Session(AwaitingConfirmation, s.data[Topic := text])
            && r.store == store
            && r.effects == [Reply(Summary(s.data[Name], s.data[Phone], text))])
      && (s.state == AwaitingTopic && !(Name in s.data && Phone in s.data) ==>
            r == StepResult(Session(AwaitingTopic, s.data[Topic := text]), store, []))
      && (s.state == AwaitingConfirmation && w.phrase == NoPhrase ==>
            r == StepResult(s, store, [Reply(UseButtons)]))
  {
  }

  /** A message that is one of the fixed phrases (and so no command). */
  predicate Says(w: Words, p: Phrase) {
    !w.isStart && !w.isHelp && w.phrase == p
  }

  /** The start-form phrase reaches `start_application_form` in every state. */
  lemma HandleFormTrigger(cfg: BotConfig, s: Session, store: Store, text: string, w: Words, o: Oracle)
    requires Says(w, FormTrigger)
    ensures Handle(cfg, s, store, text, w, o) == StartApplicationForm(s, store)
  {
  }

  /** The confirmation answer reaches `process_confirmation_yes`. */
  lemma HandleConfirm(cfg: BotConfig, s: Session, store: Store, text: string, w: Words, o: Oracle)
    requires s.state == AwaitingConfirmation && Says(w, Confirm)
    ensures Handle(cfg, s, store, text, w, o) == ProcessConfirmationYes(cfg, s, store, o)
  {
  }

  /** The restart answer reaches `process_confirmation_no`. */
  lemma HandleRestart(cfg: BotConfig, s: Session, store: Store, text: string, w: Words, o: Oracle)
    requires s.state == AwaitingConfirmation && Says(w, Restart)
    ensures Handle(cfg, s, store, text, w, o) == ProcessConfirmationNo(s, store)
  {
  }

  /** `Step` is `Handle` on the message's classification, and that
      classification reads the phrases as `ClassifyPhrases` states. */
  lemma StepClassified(cfg: BotConfig, s: Session, store: Store, text: string, o: Oracle)
    ensures var w := Classify(text, cfg.botUsername);
      && Step(cfg, s, store, text, o) == Handle(cfg, s, store, text, w, o)
      && (w.phrase == FormTrigger <==> Norm(text) == StartFormPhrase)
      && (w.phrase == Confirm <==> Norm(text) == ConfirmPhrase)
      && (w.phrase == Restart <==> Norm(text) == RestartPhrase)
      && (w.phrase != NoPhrase ==> !w.isStart && !w.isHelp)
      && (Plain(text, cfg.botUsername) <==> PlainWords(w))
  {
    ClassifyPhrases(text, cfg.botUsername);
  }

  // ---------------------------------------------------------------------------
  // One step, handler by handler
  // ---------------------------------------------------------------------------

  /** The start-form phrase is honoured in every state, ahead of the per-state
      handlers: it moves to the name question and keeps the data as it was. */
  lemma FormTriggerFromAnyState(cfg: BotConfig, s: Session, store: Store, text: string, o: Oracle)
    requires Norm(text) == StartFormPhrase
    ensures Step(cfg, s, store, text, o)
         == StepResult(Session(AwaitingName, s.data), store, [Reply(AskName)])
  {
    StepClassified(cfg, s, store, text, o);
  }

  /** `/start` and `/help` answer in every state and touch neither the
      conversation nor the store. */
  lemma CommandsKeepSession(cfg: BotConfig, s: Session, store: Store, text: string, o: Oracle)
    requires IsCommand(text, "start", cfg.botUsername) || IsCommand(text, "help", cfg.botUsername)
    ensures var r := Step(cfg, s, store, text, o);
      && r.session == s
      && r.store == store
      && r.effects == [Reply(if IsCommand(text, "start", cfg.botUsername) then Welcome else HelpInfo)]
  {
    StepClassified(cfg, s, store, text, o);
  }

  /** Each collecting state stores the message verbatim under its own key and
      moves exactly one state on; once name and phone are present the topic
      step replies with a summary of exactly the stored values. */
  lemma CollectStepStoresVerbatim(cfg: BotConfig, s: Session, store: Store, text: string, o: Oracle)
    requires Plain(text, cfg.botUsername)
    ensures var r := Step(cfg, s, store, text, o);
      && (s.state == AwaitingName ==>
            r == StepResult(Session(AwaitingPhone, s.data[Name := text]), store, [Reply(AskPhone)]))
      && (s.state == AwaitingPhone ==>
            r == StepResult(Session(AwaitingTopic, s.data[Phone := text]), store, [Reply(AskTopic)]))
      && (s.state == AwaitingTopic && Name in s.data && Phone in s.data ==>
            && r.session == Session(AwaitingConfirmation, s.data[Topic := text])
            && r.store == store
            && r.effects == [Reply(Summary(s.data[Name], s.data[Phone], text))])
  {
    StepClassified(cfg, s, store, text, o);
    HandlePlain(cfg, s, store, text, Classify(text, cfg.botUsername), o);
  }

  /** In `Idle`, text that is neither a command nor the start-form phrase is
      ignored. */
  lemma IdleIgnoresText(cfg: BotConfig, s: Session, store: Store, text: string, o: Oracle)
    requires s.state == Idle && Plain(text, cfg.botUsername)
    ensures Step(cfg, s, store, text, o) == StepResult(s, store, [])
  {
    StepClassified(cfg, s, store, text, o);
    HandlePlain(cfg, s, store, text, Classify(text, cfg.botUsername), o);
  }

  /** The confirmation answer at the confirmation question is handed to
      `ProcessConfirmationYes`. */
  lemma ConfirmIsProcessed(cfg: BotConfig, s: Session, store: Store, text: string, o: Oracle)
    requires s.state == AwaitingConfirmation && Norm(text) == ConfirmPhrase
    ensures Step(cfg, s, store, text, o) == ProcessConfirmationYes(cfg, s, store, o)
  {
    StepClassified(cfg, s, store, text, o);
    HandleConfirm(cfg, s, store, text, Classify(text, cfg.botUsername), o);
  }

  /** Confirming saves exactly one application holding the collected name,
      phone and topic, or, if the save fails, leaves the store as it was and
      reports the error; either way the context ends cleared. */
  lemma ConfirmSubmits(cfg: BotConfig, s: Session, store: Store, text: string, o: Oracle)
    requires s.state == AwaitingConfirmation && Complete(s.data)
    requires Norm(text) == ConfirmPhrase
    ensures var r := Step(cfg, s, store, text, o);
      var saved := AddApplication(store, s.data[Name], s.data[Phone], s.data[Topic], o.now, o.written);
      && r.session == Fresh
      && (saved.Success? ==>
            && |r.store.rows| == |store.rows| + 1
            && r.store.rows[..|store.rows|] == store.rows
            && r.store.rows[|store.rows|].name == s.data[Name]
            && r.store.rows[|store.rows|].phone == s.data[Phone]
            && r.store.rows[|store.rows|].topic == s.data[Topic]
            && r.store.rows[|store.rows|].datetime == FormatTimestamp(o.now)
            && |r.effects| >= 2
            && r.effects[0] == Reply(Accepted)
            && r.effects[|r.effects| - 1] == Reply(OfferAnother))
      && (saved.Failure? ==>
            && r.store == store
            && r.effects == [Reply(SaveFailed), Reply(OfferAnother)])
  {
    ConfirmIsProcessed(cfg, s, store, text, o);
  }

  /** A failed save sends no notification at all. */
  lemma FailedSaveNotifiesNobody(cfg: BotConfig, s: Session, store: Store, text: string, o: Oracle)
    requires s.state == AwaitingConfirmation && Norm(text) == ConfirmPhrase
    requires !Complete(s.data) ||
             AddApplication(store, s.data[Name], s.data[Phone], s.data[Topic], o.now, o.written).Failure?
    ensures var r := Step(cfg, s, store, text, o);
      Notified(r.effects) == [] && r.store == store && Reply(SaveFailed) in r.effects
  {
    ConfirmIsProcessed(cfg, s, store, text, o);
    var r := Step(cfg, s, store, text, o);
    assert r.effects == [Reply(SaveFailed), Reply(OfferAnother)];
    assert Notified(r.effects) == Notified([Reply(OfferAnother)]);
  }

  /** The effects of a successful confirmation: thanks, the notification
      block, then the closing hint. */
  lemma SavedEffects(cfg: BotConfig, s: Session, store: Store, text: string, o: Oracle)
    requires s.state == AwaitingConfirmation && Complete(s.data)
    requires Norm(text) == ConfirmPhrase
    requires AddApplication(store, s.data[Name], s.data[Phone], s.data[Topic], o.now, o.written).Success?
    ensures Step(cfg, s, store, text, o).effects
         == [Reply(Accepted)] + Notifications(cfg, s.data[Name], s.data[Phone], s.data[Topic], o.delivered)
            + [Reply(OfferAnother)]
  {
    ConfirmIsProcessed(cfg, s, store, text, o);
  }

  /** The admins named by the configuration are notified of the application
      `name`, `phone`, `topic`: only when there is a notification token and
      at least one admin id, and then every admin once, in list order, right
      after the thanks, each with the outcome reported for it. */
  predicate AnnouncedToAdmins(cfg: BotConfig, name: string, phone: string, topic: string,
                              delivered: seq<bool>, effects: seq<Effect>) {
    && Notified(effects) == (if cfg.notificationToken != [] && cfg.adminIds != [] then cfg.adminIds else [])
    && (cfg.notificationToken != [] ==>
          forall k :: 0 <= k < |cfg.adminIds| ==>
            && 1 + k < |effects|
            && effects[1 + k]
               == Notify(cfg.adminIds[k], NewApplication(cfg.botId, name, phone, topic),
                         k < |delivered| && delivered[k]))
  }

  /** The notifications in the effects of a successful confirmation. */
  lemma SavedBlock(cfg: BotConfig, name: string, phone: string, topic: string, delivered: seq<bool>)
    ensures AnnouncedToAdmins(cfg, name, phone, topic, delivered,
                              [Reply(Accepted)] + Notifications(cfg, name, phone, topic, delivered) + [Reply(OfferAnother)])
  {
    var ns := Notifications(cfg, name, phone, topic, delivered);
    var effects := [Reply(Accepted)] + ns + [Reply(OfferAnother)];
    NotifiedConcat([Reply(Accepted)] + ns, [Reply(OfferAnother)]);
    NotifiedConcat([Reply(Accepted)], ns);
    assert Notified([Reply(Accepted)]) == [];
    assert Notified([Reply(OfferAnother)]) == [];
    if cfg.notificationToken != [] && cfg.adminIds != [] {
      var msg := NewApplication(cfg.botId, name, phone, topic);
      NotifyEachReachesAll(cfg.adminIds, msg, delivered);
      NotifyEachAttempts(cfg.adminIds, msg, delivered);
      forall k | 0 <= k < |cfg.adminIds|
        ensures 1 + k < |effects| && effects[1 + k] == Notify(cfg.adminIds[k], msg, k < |delivered| && delivered[k])
      {
        assert effects[1 + k] == ns[k];
      }
    } else {
      assert ns == [];
    }
  }

  /** After a successful save the admins are notified only when there is a
      notification token and at least one admin id; then every admin is
      attempted exactly once, in list order, with the application's details,
      and a failed send does not stop the others. */
  lemma SavedNotifiesEachAdmin(cfg: BotConfig, s: Session, store: Store, text: string, o: Oracle)
    requires s.state == AwaitingConfirmation && Complete(s.data)
    requires Norm(text) == ConfirmPhrase
    requires AddApplication(store, s.data[Name], s.data[Phone], s.data[Topic], o.now, o.written).Success?
    ensures AnnouncedToAdmins(cfg, s.data[Name], s.data[Phone], s.data[Topic], o.delivered,
                              Step(cfg, s, store, text, o).effects)
  {
    SavedEffects(cfg, s, store, text, o);
    SavedBlock(cfg, s.data[Name], s.data[Phone], s.data[Topic], o.delivered);
  }

  /** "нет, начать заново" goes back to the name question, writes nothing and
      leaves the data as it was. */
  lemma RejectRestarts(cfg: BotConfig, s: Session, store: Store, text: string, o: Oracle)
    requires s.state == AwaitingConfirmation && Norm(text) == RestartPhrase
    ensures Step(cfg, s, store, text, o)
         == StepResult(Session(AwaitingName, s.data), store, [Reply(AskNameAgain)])
  {
    StepClassified(cfg, s, store, text, o);
    HandleRestart(cfg, s, store, text, Classify(text, cfg.botUsername), o);
  }

  /** Any other text at the confirmation question re-asks it and changes nothing. */
  lemma OtherTextAtConfirmationWaits(cfg: BotConfig, s: Session, store: Store, text: string, o: Oracle)
    requires s.state == AwaitingConfirmation && Plain(text, cfg.botUsername)
    requires Norm(text) != ConfirmPhrase && Norm(text) != RestartPhrase
    ensures Step(cfg, s, store, text, o) == StepResult(s, store, [Reply(UseButtons)])
  {
    StepClassified(cfg, s, store, text, o);
    HandlePlain(cfg, s, store, text, Classify(text, cfg.botUsername), o);
  }

  // ---------------------------------------------------------------------------
  // Invariants of the form
  // ---------------------------------------------------------------------------

  /** Every field the current state relies on has been collected, and an idle
      conversation holds no data. */
  predicate Collected(s: Session) {
    && (s.state == Idle ==> s.data == map[])
    && (s.state == AwaitingPhone ==> Name in s.data)
    && (s.state == AwaitingTopic ==> Name in s.data && Phone in s.data)
    && (s.state == AwaitingConfirmation ==> Complete(s.data))
  }

  /** Every collected value is text the per-state handlers were allowed to see. */
  predicate FieldsPlain(s: Session, botUsername: string) {
    && (Name in s.data ==> Plain(s.data[Name], botUsername))
    && (Phone in s.data ==> Plain(s.data[Phone], botUsername))
    && (Topic in s.data ==> Plain(s.data[Topic], botUsername))
  }

  /** `b` holds `a`'s rows unchanged, possibly followed by more. */
  predicate Extends(a: Store, b: Store) {
    |a.rows| <= |b.rows| && b.rows[..|a.rows|] == a.rows
  }

  /** A row holds plain text in its name, phone and topic. */
  predicate RowPlain(row: Application, botUsername: string) {
    Plain(row.name, botUsername) && Plain(row.phone, botUsername) && Plain(row.topic, botUsername)
  }

  /** Every row holds plain text. */
  predicate RowsPlain(rows: seq<Application>, botUsername: string) {
    rows != [] ==> RowsPlain(rows[..|rows| - 1], botUsername) && RowPlain(rows[|rows| - 1], botUsername)
  }

  /** One step's change to the store: `b` is `a`, or `a` followed by one row
      of plain text. */
  predicate GrowsByPlainRow(a: Store, b: Store, botUsername: string) {
    && Extends(a, b)
    && |b.rows| <= |a.rows| + 1
    && (|b.rows| == |a.rows| + 1 ==> RowPlain(b.rows[|a.rows|], botUsername))
  }

  /** A store of plain rows stays one after such a change. */
  lemma GrowsKeepsRowsPlain(a: Store, b: Store, botUsername: string)
    requires GrowsByPlainRow(a, b, botUsername) && RowsPlain(a.rows, botUsername)
    ensures RowsPlain(b.rows, botUsername)
  {
    if |b.rows| == |a.rows| {
      assert b.rows == a.rows;
    } else {
      assert b.rows[..|b.rows| - 1] == a.rows;
    }
  }

  /** The transitions of the form: stay, jump to the name question, or move
      one state along Name -> Phone -> Topic -> Confirmation -> Idle. */
  predicate Transition(a: FormState, b: FormState) {
    || b == a
    || b == AwaitingName
    || (a == AwaitingName && b == AwaitingPhone)
    || (a == AwaitingPhone && b == AwaitingTopic)
    || (a == AwaitingTopic && b == AwaitingConfirmation)
    || (a == AwaitingConfirmation && b == Idle)
  }

  lemma HandleFollowsTable(cfg: BotConfig, s: Session, store: Store, text: string, w: Words, o: Oracle)
    ensures var r := Handle(cfg, s, store, text, w, o);
      && Transition(s.state, r.session.state)
      && (r.session.state != s.state && r.session.state == AwaitingName ==>
            w.phrase == FormTrigger || (s.state == AwaitingConfirmation && w.phrase == Restart))
      && (r.session.state != s.state && r.session.state == Idle ==>
            s.state == AwaitingConfirmation && w.phrase == Confirm)
      && (r.session.state != s.state && r.session.state != AwaitingName && r.session.state != Idle ==>
            PlainWords(w))
  {
  }

  /** Every step follows the form's transition table, and each change of state
      has its own trigger. */
  lemma StepFollowsTable(cfg: BotConfig, s: Session, store: Store, text: string, o: Oracle)
    ensures var r := Step(cfg, s, store, text, o);
      && Transition(s.state, r.session.state)
      && (r.session.state != s.state && r.session.state == AwaitingName ==>
            Norm(text) == StartFormPhrase || (s.state == AwaitingConfirmation && Norm(text) == RestartPhrase))
      && (r.session.state != s.state && r.session.state == Idle ==>
            s.state == AwaitingConfirmation && Norm(text) == ConfirmPhrase)
      && (r.session.state != s.state && r.session.state != AwaitingName && r.session.state != Idle ==>
            Plain(text, cfg.botUsername))
  {
    StepClassified(cfg, s, store, text, o);
    HandleFollowsTable(cfg, s, store, text, Classify(text, cfg.botUsername), o);
  }

  /** The conversation after a step, handler by handler. */
  lemma HandleSession(cfg: BotConfig, s: Session, store: Store, text: string, w: Words, o: Oracle)
    ensures Handle(cfg, s, store, text, w, o).session ==
      match Route(s.state, w)
      case OnName => Session(AwaitingPhone, s.data[Name := text])
      case OnPhone => Session(AwaitingTopic, s.data[Phone := text])
      case OnTopic =>
        if Name in s.data && Phone in s.data then Session(AwaitingConfirmation, s.data[Topic := text])
        else Session(s.state, s.data[Topic := text])
      case OnConfirmYes => Fresh
      case OnFormTrigger => Session(AwaitingName, s.data)
      case OnConfirmNo => Session(AwaitingName, s.data)
      case _ => s
  {
  }

  /** Storing plain text under a key keeps every field plain. */
  lemma PlainUpdate(s: Session, state: FormState, f: Field, text: string, u: string)
    requires FieldsPlain(s, u) && Plain(text, u)
    ensures FieldsPlain(Session(state, s.data[f := text]), u)
  {
  }

  lemma HandleKeepsForm(cfg: BotConfig, s: Session, store: Store, text: string, w: Words, o: Oracle)
    requires Collected(s) && FieldsPlain(s, cfg.botUsername)
    requires PlainWords(w) ==> Plain(text, cfg.botUsername)
    ensures var r := Handle(cfg, s, store, text, w, o);
      Collected(r.session) && FieldsPlain(r.session, cfg.botUsername)
  {
    HandleSession(cfg, s, store, text, w, o);
    var r := Handle(cfg, s, store, text, w, o);
    var u := cfg.botUsername;
    match Route(s.state, w)
    case OnName => PlainUpdate(s, AwaitingPhone, Name, text, u);
    case OnPhone => PlainUpdate(s, AwaitingTopic, Phone, text, u);
    case OnTopic => PlainUpdate(s, r.session.state, Topic, text, u);
    case _ =>
  }

  /** Every step keeps the form's invariants: the fields the state relies on
      are present and every stored value is plain text. */
  lemma StepKeepsForm(cfg: BotConfig, s: Session, store: Store, text: string, o: Oracle)
    requires Collected(s) && FieldsPlain(s, cfg.botUsername)
    ensures var r := Step(cfg, s, store, text, o);
      Collected(r.session) && FieldsPlain(r.session, cfg.botUsername)
  {
    StepClassified(cfg, s, store, text, o);
    HandleKeepsForm(cfg, s, store, text, Classify(text, cfg.botUsername), o);
  }

  /** Only the confirmation handler touches the store. */
  lemma HandleStore(cfg: BotConfig, s: Session, store: Store, text: string, w: Words, o: Oracle)
    ensures Handle(cfg, s, store, text, w, o).store ==
      if Route(s.state, w) == OnConfirmYes then ProcessConfirmationYes(cfg, s, store, o).store else store
  {
  }

  /** The confirmation handler keeps a consistent store consistent and at
      most appends one row, built from the collected fields. */
  lemma ConfirmKeepsStore(cfg: BotConfig, s: Session, store: Store, o: Oracle)
    requires Complete(s.data) && FieldsPlain(s, cfg.botUsername) && StoreInv(store)
    ensures var r := ProcessConfirmationYes(cfg, s, store, o).store;
      StoreInv(r) && GrowsByPlainRow(store, r, cfg.botUsername)
  {
    var d := s.data;
    var r := ProcessConfirmationYes(cfg, s, store, o).store;
    AddApplicationKeepsInv(store, d[Name], d[Phone], d[Topic], o.now, o.written);
    match AddApplication(store, d[Name], d[Phone], d[Topic], o.now, o.written)
    case Success(saved) =>
      assert r == saved;
    case Failure(_) =>
      assert r == store;
  }

  lemma HandleKeepsStore(cfg: BotConfig, s: Session, store: Store, text: string, w: Words, o: Oracle)
    requires Collected(s) && FieldsPlain(s, cfg.botUsername) && StoreInv(store)
    ensures var r := Handle(cfg, s, store, text, w, o);
      StoreInv(r.store) && GrowsByPlainRow(store, r.store, cfg.botUsername)
  {
    HandleStore(cfg, s, store, text, w, o);
    if Route(s.state, w) == OnConfirmYes {
      ConfirmKeepsStore(cfg, s, store, o);
    }
  }

  /** Every step keeps the store consistent and changes it, if at all, by
      appending one row of plain text. */
  lemma StepKeepsStore(cfg: BotConfig, s: Session, store: Store, text: string, o: Oracle)
    requires Collected(s) && FieldsPlain(s, cfg.botUsername) && StoreInv(store)
    ensures var r := Step(cfg, s, store, text, o);
      StoreInv(r.store) && GrowsByPlainRow(store, r.store, cfg.botUsername)
  {
    StepClassified(cfg, s, store, text, o);
    HandleKeepsStore(cfg, s, store, text, Classify(text, cfg.botUsername), o);
  }

  /** Every step keeps the form's invariants and the store's consistency, and
      changes the store, if at all, by appending one row of plain text. */
  lemma StepKeepsInvariants(cfg: BotConfig, s: Session, store: Store, text: string, o: Oracle)
    requires Collected(s) && FieldsPlain(s, cfg.botUsername) && StoreInv(store)
    ensures var r := Step(cfg, s, store, text, o);
      && Collected(r.session)
      && FieldsPlain(r.session, cfg.botUsername)
      && StoreInv(r.store)
      && GrowsByPlainRow(store, r.store, cfg.botUsername)
  {
    StepKeepsForm(cfg, s, store, text, o);
    StepKeepsStore(cfg, s, store, text, o);
  }

  /** On a consistent store a confirmed application gets the id one past the
      last one handed out. */
  lemma ConfirmAssignsNextId(cfg: BotConfig, s: Session, store: Store, text: string, o: Oracle)
    requires s.state == AwaitingConfirmation && Complete(s.data) && Norm(text) == ConfirmPhrase
    requires StoreInv(store)
    ensures var r := Step(cfg, s, store, text, o);
      |r.store.rows| == |store.rows| + 1 ==> r.store.rows[|store.rows|].id == store.sequence + 1
  {
    ConfirmIsProcessed(cfg, s, store, text, o);
    AddApplicationKeepsInv(store, s.data[Name], s.data[Phone], s.data[Topic], o.now, o.written);
  }
}
