/** Conversations as sequences of messages: the invariants every run keeps,
    the full walks through the form, and many conversations sharing one store. */
module Walks {
  import opened Text
  import opened Database
  import opened Handlers
  import opened FormProperties

  // ---------------------------------------------------------------------------
  // Runs of one conversation
  // ---------------------------------------------------------------------------

  /** One incoming text message and what the outside world answers while it
      is handled. */
  datatype Event = Event(text: string, oracle: Oracle)

  /** The filters' verdict on each message. */
  function ClassifyAll(cfg: BotConfig, events: seq<Event>): (ws: seq<Words>)
    ensures |ws| == |events|
    ensures forall i :: 0 <= i < |events| ==> ws[i] == Classify(events[i].text, cfg.botUsername)
  {
    seq(|events|, i requires 0 <= i < |events| => Classify(events[i].text, cfg.botUsername))
  }

  /** The handlers run over messages the filters have classified as `ws`, one
      after the other; the effects are collected in order. */
  function Replay(cfg: BotConfig, s: Session, store: Store, events: seq<Event>, ws: seq<Words>): StepResult
    requires |ws| == |events|
    decreases |events|
  {
    if events == [] then StepResult(s, store, [])
    else
      var first := Handle(cfg, s, store, events[0].text, ws[0], events[0].oracle);
      var rest := Replay(cfg, first.session, first.store, events[1..], ws[1..]);
      StepResult(rest.session, rest.store, first.effects + rest.effects)
  }

  /** The messages of one conversation handled one after the other. */
  function Run(cfg: BotConfig, s: Session, store: Store, events: seq<Event>): StepResult {
    Replay(cfg, s, store, events, ClassifyAll(cfg, events))
  }

  /** `Replay` from position `i` takes the handler's result on message `i`
      and goes on from there. */
  lemma ReplayAt(cfg: BotConfig, s: Session, store: Store, events: seq<Event>, ws: seq<Words>, i: int,
                 first: StepResult)
    requires |ws| == |events| && 0 <= i < |events|
    requires first == Handle(cfg, s, store, events[i].text, ws[i], events[i].oracle)
    ensures var rest := Replay(cfg, first.session, first.store, events[i + 1..], ws[i + 1..]);
      Replay(cfg, s, store, events[i..], ws[i..]) == StepResult(rest.session, rest.store, first.effects + rest.effects)
  {
    assert events[i..][0] == events[i] && ws[i..][0] == ws[i];
    assert events[i..][1..] == events[i + 1..] && ws[i..][1..] == ws[i + 1..];
  }

  /** Putting one element in front of a concatenation. */
  lemma Prepend<T>(x: T, p: seq<T>, l: seq<T>)
    ensures [x] + (p + l) == ([x] + p) + l
  {
  }

  /** One step of `Replay` on a non-empty list. */
  lemma ReplayHead(cfg: BotConfig, s: Session, store: Store, events: seq<Event>, ws: seq<Words>, first: StepResult)
    requires |ws| == |events| && events != []
    requires first == Handle(cfg, s, store, events[0].text, ws[0], events[0].oracle)
    ensures var rest := Replay(cfg, first.session, first.store, events[1..], ws[1..]);
      Replay(cfg, s, store, events, ws) == StepResult(rest.session, rest.store, first.effects + rest.effects)
  {
  }

  /** `Run` is the fold of `Step`: handling `e` and then `events` is one step
      on `e` followed by the run of `events` from where it left off. */
  lemma RunFirst(cfg: BotConfig, s: Session, store: Store, e: Event, events: seq<Event>)
    ensures var first := Step(cfg, s, store, e.text, e.oracle);
      var rest := Run(cfg, first.session, first.store, events);
      Run(cfg, s, store, [e] + events) == StepResult(rest.session, rest.store, first.effects + rest.effects)
  {
    var all := [e] + events;
    var ws := ClassifyAll(cfg, all);
    assert all[0] == e;
    assert all[1..] == events;
    assert ws[1..] == ClassifyAll(cfg, events);
  }

  /** The states a run passes through, starting with the state it starts in. */
  function Trace(cfg: BotConfig, s: Session, store: Store, events: seq<Event>, ws: seq<Words>): (tr: seq<FormState>)
    requires |ws| == |events|
    ensures |tr| == |events| + 1
    ensures tr[0] == s.state
    decreases |events|
  {
    if events == [] then [s.state]
    else
      var first := Handle(cfg, s, store, events[0].text, ws[0], events[0].oracle);
      [s.state] + Trace(cfg, first.session, first.store, events[1..], ws[1..])
  }

  /** Each state of `tr` is reached from the one before by a transition of
      the form's table. */
  predicate FollowsTable(tr: seq<FormState>) {
    forall i :: 0 <= i < |tr| - 1 ==> Transition(tr[i], tr[i + 1])
  }

  /** Every state a run visits is reached from the one before by a transition
      of the form's table. */
  lemma {:induction false} TraceFollowsTable(cfg: BotConfig, s: Session, store: Store,
                                             events: seq<Event>, ws: seq<Words>)
    requires |ws| == |events|
    ensures FollowsTable(Trace(cfg, s, store, events, ws))
    decreases |events|
  {
    if events != [] {
      var first := Handle(cfg, s, store, events[0].text, ws[0], events[0].oracle);
      HandleFollowsTable(cfg, s, store, events[0].text, ws[0], events[0].oracle);
      TraceFollowsTable(cfg, first.session, first.store, events[1..], ws[1..]);
      var tr := Trace(cfg, s, store, events, ws);
      var rest := Trace(cfg, first.session, first.store, events[1..], ws[1..]);
      assert tr == [s.state] + rest;
      assert Transition(tr[0], tr[1]) by {
        assert tr[1] == rest[0];
      }
      forall i | 1 <= i < |events| ensures Transition(tr[i], tr[i + 1]) {
        assert tr[i] == rest[i - 1] && tr[i + 1] == rest[i];
      }
    }
  }

  /** `b` extending `a` and `c` extending `b` means `c` extends `a`. */
  lemma ExtendsTrans(a: Store, b: Store, c: Store)
    requires Extends(a, b) && Extends(b, c)
    ensures Extends(a, c)
  {
    assert c.rows[..|a.rows|] == c.rows[..|b.rows|][..|a.rows|];
  }

  /** Classified messages whose verdict lets them reach the per-state
      handlers are plain text. */
  predicate VerdictsMatchTexts(cfg: BotConfig, events: seq<Event>, ws: seq<Words>)
    requires |ws| == |events|
  {
    forall i :: 0 <= i < |events| ==> PlainWords(ws[i]) ==> Plain(events[i].text, cfg.botUsername)
  }

  lemma {:induction false} ReplayKeepsInvariants(cfg: BotConfig, s: Session, store: Store,
                                                 events: seq<Event>, ws: seq<Words>)
    requires |ws| == |events| && VerdictsMatchTexts(cfg, events, ws)
    requires Collected(s) && FieldsPlain(s, cfg.botUsername)
    requires StoreInv(store) && RowsPlain(store.rows, cfg.botUsername)
    ensures var r := Replay(cfg, s, store, events, ws);
      && Collected(r.session)
      && FieldsPlain(r.session, cfg.botUsername)
      && StoreInv(r.store)
      && RowsPlain(r.store.rows, cfg.botUsername)
      && Extends(store, r.store)
      && |r.store.rows| <= |store.rows| + |events|
    decreases |events|
  {
    if events != [] {
      var first := Handle(cfg, s, store, events[0].text, ws[0], events[0].oracle);
      assert PlainWords(ws[0]) ==> Plain(events[0].text, cfg.botUsername);
      HandleKeepsForm(cfg, s, store, events[0].text, ws[0], events[0].oracle);
      HandleKeepsStore(cfg, s, store, events[0].text, ws[0], events[0].oracle);
      GrowsKeepsRowsPlain(store, first.store, cfg.botUsername);
      assert VerdictsMatchTexts(cfg, events[1..], ws[1..]) by {
        forall i | 0 <= i < |events| - 1
          ensures PlainWords(ws[1..][i]) ==> Plain(events[1..][i].text, cfg.botUsername)
        {
          assert ws[1..][i] == ws[i + 1] && events[1..][i] == events[i + 1];
        }
      }
      ReplayKeepsInvariants(cfg, first.session, first.store, events[1..], ws[1..]);
      var rest := Replay(cfg, first.session, first.store, events[1..], ws[1..]);
      ExtendsTrans(store, first.store, rest.store);
    }
  }

  /** The filters' own verdicts match the texts. */
  lemma ClassifyAllMatchesTexts(cfg: BotConfig, events: seq<Event>)
    ensures VerdictsMatchTexts(cfg, events, ClassifyAll(cfg, events))
  {
    var ws := ClassifyAll(cfg, events);
    forall i | 0 <= i < |events| ensures PlainWords(ws[i]) ==> Plain(events[i].text, cfg.botUsername) {
      ClassifyPhrases(events[i].text, cfg.botUsername);
    }
  }

  /** The form's invariants hold after any run that starts from them; the
      store stays consistent, keeps every row it had, holds only plain rows,
      and grows by at most one row per message. */
  lemma RunKeepsInvariants(cfg: BotConfig, s: Session, store: Store, events: seq<Event>)
    requires Collected(s) && FieldsPlain(s, cfg.botUsername)
    requires StoreInv(store) && RowsPlain(store.rows, cfg.botUsername)
    ensures var r := Run(cfg, s, store, events);
      && Collected(r.session)
      && FieldsPlain(r.session, cfg.botUsername)
      && StoreInv(r.store)
      && RowsPlain(r.store.rows, cfg.botUsername)
      && Extends(store, r.store)
      && |r.store.rows| <= |store.rows| + |events|
  {
    ClassifyAllMatchesTexts(cfg, events);
    ReplayKeepsInvariants(cfg, s, store, events, ClassifyAll(cfg, events));
  }

  /** Every run visits only states the form's table connects. */
  lemma RunFollowsTable(cfg: BotConfig, s: Session, store: Store, events: seq<Event>)
    ensures var tr := Trace(cfg, s, store, events, ClassifyAll(cfg, events));
      && tr[0] == s.state
      && tr[|events|] == Run(cfg, s, store, events).session.state
      && FollowsTable(tr)
  {
    var ws := ClassifyAll(cfg, events);
    TraceFollowsTable(cfg, s, store, events, ws);
    TraceEndsInRunState(cfg, s, store, events, ws);
  }

  lemma {:induction false} TraceEndsInRunState(cfg: BotConfig, s: Session, store: Store,
                                               events: seq<Event>, ws: seq<Words>)
    requires |ws| == |events|
    ensures Trace(cfg, s, store, events, ws)[|events|] == Replay(cfg, s, store, events, ws).session.state
    decreases |events|
  {
    if events != [] {
      var first := Handle(cfg, s, store, events[0].text, ws[0], events[0].oracle);
      TraceEndsInRunState(cfg, first.session, first.store, events[1..], ws[1..]);
      var rest := Trace(cfg, first.session, first.store, events[1..], ws[1..]);
      assert Trace(cfg, s, store, events, ws)[|events|] == rest[|events| - 1];
    }
  }

  /** Running `a` and then `b` is running `a + b`. */
  function Fold(f: (Session, Store, Event, Words) -> StepResult, s: Session, store: Store,
                events: seq<Event>, ws: seq<Words>): StepResult
    requires |ws| == |events|
    decreases |events|
  {
    if events == [] then StepResult(s, store, [])
    else
      var first := f(s, store, events[0], ws[0]);
      var rest := Fold(f, first.session, first.store, events[1..], ws[1..]);
      StepResult(rest.session, rest.store, first.effects + rest.effects)
  }

  function HandleFn(cfg: BotConfig): (Session, Store, Event, Words) -> StepResult {
    (s: Session, st: Store, e: Event, w: Words) => Handle(cfg, s, st, e.text, w, e.oracle)
  }

  lemma {:induction false} ReplayIsFold(cfg: BotConfig, s: Session, store: Store, events: seq<Event>, ws: seq<Words>)
    requires |ws| == |events|
    ensures Replay(cfg, s, store, events, ws) == Fold(HandleFn(cfg), s, store, events, ws)
    decreases |events|
  {
    if events != [] {
      var first := Handle(cfg, s, store, events[0].text, ws[0], events[0].oracle);
      assert HandleFn(cfg)(s, store, events[0], ws[0]) == first;
      ReplayIsFold(cfg, first.session, first.store, events[1..], ws[1..]);
    }
  }

  lemma {:induction false} FoldAppend(f: (Session, Store, Event, Words) -> StepResult, s: Session, store: Store,
                                      a: seq<Event>, wa: seq<Words>, b: seq<Event>, wb: seq<Words>)
    requires |wa| == |a| && |wb| == |b|
    ensures var ra := Fold(f, s, store, a, wa);
      var rb := Fold(f, ra.session, ra.store, b, wb);
      Fold(f, s, store, a + b, wa + wb) == StepResult(rb.session, rb.store, ra.effects + rb.effects)
    decreases |a|
  {
    if a == [] {
      assert a + b == b && wa + wb == wb;
    } else {
      var first := f(s, store, a[0], wa[0]);
      var tail := Fold(f, first.session, first.store, a[1..], wa[1..]);
      var rb := Fold(f, tail.session, tail.store, b, wb);
      FoldAppend(f, first.session, first.store, a[1..], wa[1..], b, wb);
      assert (a + b)[0] == a[0] && (wa + wb)[0] == wa[0];
      assert (a + b)[1..] == a[1..] + b && (wa + wb)[1..] == wa[1..] + wb;
      assert first.effects + (tail.effects + rb.effects) == (first.effects + tail.effects) + rb.effects;
    }
  }

  lemma ReplayAppend(cfg: BotConfig, s: Session, store: Store,
                     a: seq<Event>, wa: seq<Words>, b: seq<Event>, wb: seq<Words>)
    requires |wa| == |a| && |wb| == |b|
    ensures var ra := Replay(cfg, s, store, a, wa);
      var rb := Replay(cfg, ra.session, ra.store, b, wb);
      Replay(cfg, s, store, a + b, wa + wb) == StepResult(rb.session, rb.store, ra.effects + rb.effects)
  {
    var ra := Replay(cfg, s, store, a, wa);
    ReplayIsFold(cfg, s, store, a, wa);
    ReplayIsFold(cfg, ra.session, ra.store, b, wb);
    ReplayIsFold(cfg, s, store, a + b, wa + wb);
    FoldAppend(HandleFn(cfg), s, store, a, wa, b, wb);
  }

  lemma ClassifyAllAppend(cfg: BotConfig, a: seq<Event>, b: seq<Event>)
    ensures ClassifyAll(cfg, a + b) == ClassifyAll(cfg, a) + ClassifyAll(cfg, b)
  {
    var wa, wb := ClassifyAll(cfg, a), ClassifyAll(cfg, b);
    forall i | 0 <= i < |a| + |b| ensures ClassifyAll(cfg, a + b)[i] == (wa + wb)[i] {
      if i < |a| {
        assert (a + b)[i] == a[i];
      } else {
        assert (a + b)[i] == b[i - |a|];
      }
    }
  }

  lemma RunAppend(cfg: BotConfig, s: Session, store: Store, a: seq<Event>, b: seq<Event>)
    ensures var ra := Run(cfg, s, store, a);
      var rb := Run(cfg, ra.session, ra.store, b);
      Run(cfg, s, store, a + b) == StepResult(rb.session, rb.store, ra.effects + rb.effects)
  {
    ClassifyAllAppend(cfg, a, b);
    ReplayAppend(cfg, s, store, a, ClassifyAll(cfg, a), b, ClassifyAll(cfg, b));
  }

  // ---------------------------------------------------------------------------
  // Walks through the form
  // ---------------------------------------------------------------------------

  /** What the confirmation step leaves behind for the values `name`, `phone`
      and `topic`: a cleared conversation, and either the store `add_application`
      produced together with thanks, notifications and the closing hint, or the
      old store together with the error reply and the closing hint. */
  predicate Submitted(cfg: BotConfig, store: Store, name: string, phone: string, topic: string,
                      o: Oracle, r: StepResult)
  {
    && r.session == Fresh
    && match AddApplication(store, name, phone, topic, o.now, o.written)
       case Success(saved) =>
         && r.store == saved
         && r.effects == [Reply(Accepted)] + Notifications(cfg, name, phone, topic, o.delivered) + [Reply(OfferAnother)]
       case Failure(_) =>
         && r.store == store
         && r.effects == [Reply(SaveFailed), Reply(OfferAnother)]
  }

  /** On a consistent store a successful submission appends exactly the row
      holding the submitted values, under the next id; a failed one leaves
      the store as it was. */
  lemma SubmittedRow(cfg: BotConfig, store: Store, name: string, phone: string, topic: string,
                     o: Oracle, r: StepResult)
    requires StoreInv(store) && Submitted(cfg, store, name, phone, topic, o, r)
    ensures AddApplication(store, name, phone, topic, o.now, o.written).Success? ==>
      r.store.rows == store.rows + [Application(store.sequence + 1, name, phone, topic, FormatTimestamp(o.now))]
    ensures AddApplication(store, name, phone, topic, o.now, o.written).Failure? ==> r.store == store
  {
    AddApplicationKeepsInv(store, name, phone, topic, o.now, o.written);
    var saved := AddApplication(store, name, phone, topic, o.now, o.written);
    if saved.Success? {
      assert r.store.rows == r.store.rows[..|store.rows|] + [r.store.rows[|store.rows|]];
    }
  }

  /** The confirmation handler submits the collected values. */
  lemma ConfirmSubmitted(cfg: BotConfig, s: Session, store: Store, o: Oracle)
    requires Complete(s.data)
    ensures Submitted(cfg, store, s.data[Name], s.data[Phone], s.data[Topic], o, ProcessConfirmationYes(cfg, s, store, o))
  {
  }

  /** The confirmation handler's result once the three answers are on file. */
  function Confirmed(cfg: BotConfig, data: map<Field, string>, n: string, p: string, t: string,
                     store: Store, o: Oracle): StepResult {
    ProcessConfirmationYes(cfg, Session(AwaitingConfirmation, data[Name := n][Phone := p][Topic := t]), store, o)
  }

  /** The confirm button, classified, on the summary. */
  lemma ReplayConfirm(cfg: BotConfig, s: Session, store: Store, events: seq<Event>, ws: seq<Words>)
    requires s.state == AwaitingConfirmation
    requires |events| == 1 && |ws| == 1 && Says(ws[0], Confirm)
    ensures Replay(cfg, s, store, events, ws) == ProcessConfirmationYes(cfg, s, store, events[0].oracle)
  {
    var last := ProcessConfirmationYes(cfg, s, store, events[0].oracle);
    HandleConfirm(cfg, s, store, events[0].text, ws[0], events[0].oracle);
    ReplayHead(cfg, s, store, events, ws, last);
    assert events[1..] == [] && ws[1..] == [];
    assert last.effects + [] == last.effects;
  }

  /** Topic and confirmation, classified, from the topic question. */
  lemma ReplayFromTopic(cfg: BotConfig, s: Session, store: Store, events: seq<Event>, ws: seq<Words>)
    requires s.state == AwaitingTopic && Name in s.data && Phone in s.data
    requires |events| == 2 && |ws| == 2 && PlainWords(ws[0]) && Says(ws[1], Confirm)
    ensures var t := events[0].text;
      var last := ProcessConfirmationYes(cfg, Session(AwaitingConfirmation, s.data[Topic := t]), store, events[1].oracle);
      Replay(cfg, s, store, events, ws)
        == StepResult(last.session, last.store, [Reply(Summary(s.data[Name], s.data[Phone], t))] + last.effects)
  {
    var t := events[0].text;
    var s3 := Session(AwaitingConfirmation, s.data[Topic := t]);
    HandlePlain(cfg, s, store, t, ws[0], events[0].oracle);
    var tail, wt := events[1..], ws[1..];
    assert tail[0] == events[1] && wt[0] == ws[1];
    ReplayConfirm(cfg, s3, store, tail, wt);
    ReplayHead(cfg, s, store, events, ws, StepResult(s3, store, [Reply(Summary(s.data[Name], s.data[Phone], t))]));
  }

  /** Phone, topic and confirmation, classified, from the phone question. */
  lemma ReplayFromPhone(cfg: BotConfig, s: Session, store: Store, events: seq<Event>, ws: seq<Words>)
    requires s.state == AwaitingPhone && Name in s.data
    requires |events| == 3 && |ws| == 3
    requires PlainWords(ws[0]) && PlainWords(ws[1]) && Says(ws[2], Confirm)
    ensures var p, t := events[0].text, events[1].text;
      var last := ProcessConfirmationYes(cfg, Session(AwaitingConfirmation, s.data[Phone := p][Topic := t]), store, events[2].oracle);
      Replay(cfg, s, store, events, ws)
        == StepResult(last.session, last.store, [Reply(AskTopic), Reply(Summary(s.data[Name], p, t))] + last.effects)
  {
    var p := events[0].text;
    var s2 := Session(AwaitingTopic, s.data[Phone := p]);
    HandlePlain(cfg, s, store, p, ws[0], events[0].oracle);
    var tail, wt := events[1..], ws[1..];
    assert tail[0] == events[1] && tail[1] == events[2] && wt[0] == ws[1] && wt[1] == ws[2];
    ReplayFromTopic(cfg, s2, store, tail, wt);
    assert s2.data[Name] == s.data[Name] && s2.data[Phone] == p;
    ReplayHead(cfg, s, store, events, ws, StepResult(s2, store, [Reply(AskTopic)]));
    var last := ProcessConfirmationYes(cfg, Session(AwaitingConfirmation, s2.data[Topic := events[1].text]), store, events[2].oracle);
    Prepend(Reply(AskTopic), [Reply(Summary(s.data[Name], p, events[1].text))], last.effects);
  }

  /** Name, phone, topic and confirmation, classified, from the name question. */
  lemma ReplayFromName(cfg: BotConfig, s: Session, store: Store, events: seq<Event>, ws: seq<Words>)
    requires s.state == AwaitingName && |events| == 4 && |ws| == 4
    requires PlainWords(ws[0]) && PlainWords(ws[1]) && PlainWords(ws[2]) && Says(ws[3], Confirm)
    ensures var n, p, t := events[0].text, events[1].text, events[2].text;
      var last := Confirmed(cfg, s.data, n, p, t, store, events[3].oracle);
      Replay(cfg, s, store, events, ws)
        == StepResult(last.session, last.store,
                      [Reply(AskPhone), Reply(AskTopic), Reply(Summary(n, p, t))] + last.effects)
  {
    var n := events[0].text;
    var s1 := Session(AwaitingPhone, s.data[Name := n]);
    HandlePlain(cfg, s, store, n, ws[0], events[0].oracle);
    var tail, wt := events[1..], ws[1..];
    assert tail[0] == events[1] && tail[1] == events[2] && tail[2] == events[3];
    assert wt[0] == ws[1] && wt[1] == ws[2] && wt[2] == ws[3];
    ReplayFromPhone(cfg, s1, store, tail, wt);
    assert s1.data[Name] == n;
    ReplayHead(cfg, s, store, events, ws, StepResult(s1, store, [Reply(AskPhone)]));
    var p, t := events[1].text, events[2].text;
    var last := Confirmed(cfg, s.data, n, p, t, store, events[3].oracle);
    Prepend(Reply(AskPhone), [Reply(AskTopic), Reply(Summary(n, p, t))], last.effects);
  }

  /** A message that leads to the name question with reply `reply`, then a
      full walk. */
  lemma ReplayWalk(cfg: BotConfig, s: Session, store: Store, events: seq<Event>, ws: seq<Words>, reply: Message)
    requires |events| == 5 && |ws| == 5
    requires Handle(cfg, s, store, events[0].text, ws[0], events[0].oracle)
          == StepResult(Session(AwaitingName, s.data), store, [Reply(reply)])
    requires PlainWords(ws[1]) && PlainWords(ws[2]) && PlainWords(ws[3]) && Says(ws[4], Confirm)
    ensures var n, p, t := events[1].text, events[2].text, events[3].text;
      var last := Confirmed(cfg, s.data, n, p, t, store, events[4].oracle);
      Replay(cfg, s, store, events, ws)
        == StepResult(last.session, last.store,
                      [Reply(reply), Reply(AskPhone), Reply(AskTopic), Reply(Summary(n, p, t))] + last.effects)
  {
    var s0 := Session(AwaitingName, s.data);
    var tail, wt := events[1..], ws[1..];
    assert tail[0] == events[1] && tail[1] == events[2] && tail[2] == events[3] && tail[3] == events[4];
    assert wt[0] == ws[1] && wt[1] == ws[2] && wt[2] == ws[3] && wt[3] == ws[4];
    ReplayFromName(cfg, s0, store, tail, wt);
    ReplayHead(cfg, s, store, events, ws, StepResult(s0, store, [Reply(reply)]));
    var n, p, t := events[1].text, events[2].text, events[3].text;
    var last := Confirmed(cfg, s.data, n, p, t, store, events[4].oracle);
    Prepend(Reply(reply), [Reply(AskPhone), Reply(AskTopic), Reply(Summary(n, p, t))], last.effects);
  }

  /** What a full walk ending in the confirmation leaves behind. */
  lemma WalkSubmits(cfg: BotConfig, data: map<Field, string>, n: string, p: string, t: string,
                    store: Store, o: Oracle, prefix: seq<Effect>, r: StepResult)
    requires |prefix| == 4
    requires var last := Confirmed(cfg, data, n, p, t, store, o);
      r == StepResult(last.session, last.store, prefix + last.effects)
    ensures |r.effects| >= 4 && r.effects[..4] == prefix
    ensures Submitted(cfg, store, n, p, t, o, StepResult(r.session, r.store, r.effects[4..]))
  {
    var last := Confirmed(cfg, data, n, p, t, store, o);
    ConfirmSubmitted(cfg, Session(AwaitingConfirmation, data[Name := n][Phone := p][Topic := t]), store, o);
    assert (prefix + last.effects)[4..] == last.effects;
    assert StepResult(r.session, r.store, r.effects[4..]) == last;
  }

  /** From any state and with any data, the start-form phrase followed by a
      name, a phone, a topic and the confirmation submits exactly the three
      new values, and the conversation ends cleared. */
  lemma FreshWalk(cfg: BotConfig, s: Session, store: Store, events: seq<Event>)
    requires |events| == 5
    requires Norm(events[0].text) == StartFormPhrase
    requires Plain(events[1].text, cfg.botUsername)
    requires Plain(events[2].text, cfg.botUsername)
    requires Plain(events[3].text, cfg.botUsername)
    requires Norm(events[4].text) == ConfirmPhrase
    ensures var r := Run(cfg, s, store, events);
      var n, p, t := events[1].text, events[2].text, events[3].text;
      && |r.effects| >= 4
      && r.effects[..4] == [Reply(AskName), Reply(AskPhone), Reply(AskTopic), Reply(Summary(n, p, t))]
      && Submitted(cfg, store, n, p, t, events[4].oracle, StepResult(r.session, r.store, r.effects[4..]))
  {
    var ws := ClassifyAll(cfg, events);
    forall i | 0 <= i < 5 ensures ClassifyFacts(events[i].text, cfg.botUsername, ws[i]) {
      ClassifyPhrases(events[i].text, cfg.botUsername);
    }
    HandleFormTrigger(cfg, s, store, events[0].text, ws[0], events[0].oracle);
    ReplayWalk(cfg, s, store, events, ws, AskName);
    var n, p, q := events[1].text, events[2].text, events[3].text;
    WalkSubmits(cfg, s.data, n, p, q, store, events[4].oracle,
                [Reply(AskName), Reply(AskPhone), Reply(AskTopic), Reply(Summary(n, p, q))], Run(cfg, s, store, events));
  }

  /** Rejecting the summary and walking the form again submits only the new
      values: nothing collected before the restart reaches the store. */
  lemma RestartWalk(cfg: BotConfig, s: Session, store: Store, events: seq<Event>)
    requires s.state == AwaitingConfirmation && |events| == 5
    requires Norm(events[0].text) == RestartPhrase
    requires Plain(events[1].text, cfg.botUsername)
    requires Plain(events[2].text, cfg.botUsername)
    requires Plain(events[3].text, cfg.botUsername)
    requires Norm(events[4].text) == ConfirmPhrase
    ensures var r := Run(cfg, s, store, events);
      var n, p, t := events[1].text, events[2].text, events[3].text;
      && |r.effects| >= 4
      && r.effects[..4] == [Reply(AskNameAgain), Reply(AskPhone), Reply(AskTopic), Reply(Summary(n, p, t))]
      && Submitted(cfg, store, n, p, t, events[4].oracle, StepResult(r.session, r.store, r.effects[4..]))
  {
    var ws := ClassifyAll(cfg, events);
    forall i | 0 <= i < 5 ensures ClassifyFacts(events[i].text, cfg.botUsername, ws[i]) {
      ClassifyPhrases(events[i].text, cfg.botUsername);
    }
    HandleRestart(cfg, s, store, events[0].text, ws[0], events[0].oracle);
    ReplayWalk(cfg, s, store, events, ws, AskNameAgain);
    var n, p, q := events[1].text, events[2].text, events[3].text;
    WalkSubmits(cfg, s.data, n, p, q, store, events[4].oracle,
                [Reply(AskNameAgain), Reply(AskPhone), Reply(AskTopic), Reply(Summary(n, p, q))], Run(cfg, s, store, events));
  }

  /** The start-form phrase and three answers, classified. */
  lemma ReplayToSummary(cfg: BotConfig, s: Session, store: Store, events: seq<Event>, ws: seq<Words>)
    requires |events| == 4 && |ws| == 4
    requires Says(ws[0], FormTrigger) && PlainWords(ws[1]) && PlainWords(ws[2]) && PlainWords(ws[3])
    ensures var n, p, t := events[1].text, events[2].text, events[3].text;
      Replay(cfg, s, store, events, ws) ==
        StepResult(Session(AwaitingConfirmation, s.data[Name := n][Phone := p][Topic := t]), store,
                   [Reply(AskName), Reply(AskPhone), Reply(AskTopic), Reply(Summary(n, p, t))])
  {
    var n, p, t := events[1].text, events[2].text, events[3].text;
    var s0 := Session(AwaitingName, s.data);
    var s1 := Session(AwaitingPhone, s.data[Name := n]);
    var s2 := Session(AwaitingTopic, s.data[Name := n][Phone := p]);
    var s3 := Session(AwaitingConfirmation, s.data[Name := n][Phone := p][Topic := t]);
    HandleFormTrigger(cfg, s, store, events[0].text, ws[0], events[0].oracle);
    HandlePlain(cfg, s0, store, n, ws[1], events[1].oracle);
    HandlePlain(cfg, s1, store, p, ws[2], events[2].oracle);
    HandlePlain(cfg, s2, store, t, ws[3], events[3].oracle);
    assert s2.data[Name] == n && s2.data[Phone] == p;
    assert events[4..] == [] && ws[4..] == [];
    ReplayAt(cfg, s2, store, events, ws, 3, StepResult(s3, store, [Reply(Summary(n, p, t))]));
    ReplayAt(cfg, s1, store, events, ws, 2, StepResult(s2, store, [Reply(AskTopic)]));
    ReplayAt(cfg, s0, store, events, ws, 1, StepResult(s1, store, [Reply(AskPhone)]));
    ReplayAt(cfg, s, store, events, ws, 0, StepResult(s0, store, [Reply(AskName)]));
    assert events[0..] == events && ws[0..] == ws;
  }

  /** From any state, the start-form phrase and three plain answers reach the
      confirmation question with exactly those answers on file, and the store
      untouched. */
  lemma WalkToSummary(cfg: BotConfig, s: Session, store: Store, events: seq<Event>)
    requires |events| == 4
    requires Norm(events[0].text) == StartFormPhrase
    requires Plain(events[1].text, cfg.botUsername)
    requires Plain(events[2].text, cfg.botUsername)
    requires Plain(events[3].text, cfg.botUsername)
    ensures var n, p, t := events[1].text, events[2].text, events[3].text;
      var r := Run(cfg, s, store, events);
      && r.session == Session(AwaitingConfirmation, s.data[Name := n][Phone := p][Topic := t])
      && r.store == store
      && r.effects == [Reply(AskName), Reply(AskPhone), Reply(AskTopic), Reply(Summary(n, p, t))]
  {
    var ws := ClassifyAll(cfg, events);
    forall i | 0 <= i < 4 ensures ClassifyFacts(events[i].text, cfg.botUsername, ws[i]) {
      ClassifyPhrases(events[i].text, cfg.botUsername);
    }
    ReplayToSummary(cfg, s, store, events, ws);
  }

  /** What `ClassifyPhrases` states about the verdict `w` on `text`. */
  predicate ClassifyFacts(text: string, botUsername: string, w: Words) {
    && (w.phrase == FormTrigger <==> Norm(text) == StartFormPhrase)
    && (w.phrase == Confirm <==> Norm(text) == ConfirmPhrase)
    && (w.phrase == Restart <==> Norm(text) == RestartPhrase)
    && (w.phrase != NoPhrase ==> !w.isStart && !w.isHelp)
    && (Plain(text, botUsername) <==> PlainWords(w))
  }

  // ---------------------------------------------------------------------------
  // Many conversations, one store
  // ---------------------------------------------------------------------------

  /** aiogram's storage key: the chat and the user the message came from. */
  datatype Key = Key(chatId: int, userId: int)

  /** A message from the conversation `key`. */
  datatype Update = Update(key: Key, event: Event)

  /** The bot's state: one form session per key and the shared store. */
  datatype Bot = Bot(sessions: map<Key, Session>, store: Store)

  /** A key the storage has never seen is in the cleared state. */
  function SessionOf(b: Bot, k: Key): Session {
    if k in b.sessions then b.sessions[k] else Fresh
  }

  /** One update handled in its own conversation against the shared store. */
  function Dispatch(cfg: BotConfig, b: Bot, u: Update): (r: (Bot, seq<Effect>))
    ensures forall k :: k != u.key ==> SessionOf(r.0, k) == SessionOf(b, k)
  {
    var s := SessionOf(b, u.key);
    var step := Step(cfg, s, b.store, u.event.text, u.event.oracle);
    (Bot(b.sessions[u.key := step.session], step.store), step.effects)
  }

  /** The updates handled one after the other, in arrival order. */
  function DispatchAll(cfg: BotConfig, b: Bot, updates: seq<Update>): Bot
    decreases |updates|
  {
    if updates == [] then b else DispatchAll(cfg, Dispatch(cfg, b, updates[0]).0, updates[1..])
  }

  /** The messages of conversation `k`, in arrival order. */
  function EventsOf(updates: seq<Update>, k: Key): (es: seq<Event>)
    ensures |es| <= |updates|
    decreases |updates|
  {
    if updates == [] then []
    else (if updates[0].key == k then [updates[0].event] else []) + EventsOf(updates[1..], k)
  }

  /** Where a run leaves the conversation does not depend on the store. */
  lemma {:induction false} ReplaySessionIgnoresStore(cfg: BotConfig, s: Session, st1: Store, st2: Store,
                                                     events: seq<Event>, ws: seq<Words>)
    requires |ws| == |events|
    ensures Replay(cfg, s, st1, events, ws).session == Replay(cfg, s, st2, events, ws).session
    decreases |events|
  {
    if events != [] {
      var f1 := Handle(cfg, s, st1, events[0].text, ws[0], events[0].oracle);
      var f2 := Handle(cfg, s, st2, events[0].text, ws[0], events[0].oracle);
      HandleSession(cfg, s, st1, events[0].text, ws[0], events[0].oracle);
      HandleSession(cfg, s, st2, events[0].text, ws[0], events[0].oracle);
      assert f1.session == f2.session;
      ReplaySessionIgnoresStore(cfg, f1.session, f1.store, f2.store, events[1..], ws[1..]);
    }
  }

  lemma RunSessionIgnoresStore(cfg: BotConfig, s: Session, st1: Store, st2: Store, events: seq<Event>)
    ensures Run(cfg, s, st1, events).session == Run(cfg, s, st2, events).session
  {
    ReplaySessionIgnoresStore(cfg, s, st1, st2, events, ClassifyAll(cfg, events));
  }

  /** Conversations do not interfere: however the updates of different
      chats are interleaved, each conversation ends where its own messages,
      run alone, would take it. */
  lemma {:induction false} SessionsIndependent(cfg: BotConfig, b: Bot, updates: seq<Update>, k: Key)
    ensures SessionOf(DispatchAll(cfg, b, updates), k) == Run(cfg, SessionOf(b, k), b.store, EventsOf(updates, k)).session
    decreases |updates|
  {
    if updates == [] {
      assert Run(cfg, SessionOf(b, k), b.store, []) == StepResult(SessionOf(b, k), b.store, []);
    } else {
      var u := updates[0];
      var b1 := Dispatch(cfg, b, u).0;
      var rest := EventsOf(updates[1..], k);
      SessionsIndependent(cfg, b1, updates[1..], k);
      if u.key == k {
        assert EventsOf(updates, k) == [u.event] + rest;
        RunFirst(cfg, SessionOf(b, k), b.store, u.event, rest);
      } else {
        assert EventsOf(updates, k) == rest;
        RunSessionIgnoresStore(cfg, SessionOf(b, k), b1.store, b.store, rest);
      }
    }
  }

  /** The invariants of every conversation and of the shared store. */
  predicate BotInv(cfg: BotConfig, b: Bot) {
    && (forall k :: k in b.sessions ==> Collected(b.sessions[k]))
    && (forall k :: k in b.sessions ==> FieldsPlain(b.sessions[k], cfg.botUsername))
    && StoreInv(b.store)
    && RowsPlain(b.store.rows, cfg.botUsername)
  }

  lemma DispatchKeepsInv(cfg: BotConfig, b: Bot, u: Update)
    requires BotInv(cfg, b)
    ensures var b1 := Dispatch(cfg, b, u).0;
      BotInv(cfg, b1) && GrowsByPlainRow(b.store, b1.store, cfg.botUsername)
  {
    var s := SessionOf(b, u.key);
    assert Collected(s) && FieldsPlain(s, cfg.botUsername);
    StepKeepsInvariants(cfg, s, b.store, u.event.text, u.event.oracle);
    var b1 := Dispatch(cfg, b, u).0;
    GrowsKeepsRowsPlain(b.store, b1.store, cfg.botUsername);
  }

  /** However many conversations interleave, every session keeps the form's
      invariants and the shared store stays consistent, keeps every row it
      had, and grows by at most one row per update. */
  lemma {:induction false} DispatchAllKeepsInv(cfg: BotConfig, b: Bot, updates: seq<Update>)
    requires BotInv(cfg, b)
    ensures var r := DispatchAll(cfg, b, updates);
      BotInv(cfg, r) && Extends(b.store, r.store) && |r.store.rows| <= |b.store.rows| + |updates|
    decreases |updates|
  {
    if updates != [] {
      var b1 := Dispatch(cfg, b, updates[0]).0;
      DispatchKeepsInv(cfg, b, updates[0]);
      DispatchAllKeepsInv(cfg, b1, updates[1..]);
      ExtendsTrans(b.store, b1.store, DispatchAll(cfg, b1, updates[1..]).store);
    }
  }
}
