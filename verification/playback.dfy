/**
 * The live chat page (components/live-chat.tsx): on mount it looks the chat
 * up in the stored list and starts a simulation, which clears the transcript
 * and arms one timer per planned entry; each timer appends its entry to the
 * transcript. The visitor can append messages of their own at any time.
 */
module Playback {
  import opened Wrappers
  import opened Text
  import opened ChatTypes
  import opened Timeouts
  import opened Ordering
  import opened TimerQueue

  /** No chat before position `i` has the id `id`. */
  predicate NoMatchBefore(chats: seq<Chat>, id: string, i: int)
    requires 0 <= i <= |chats|
  {
    forall j :: 0 <= j < i ==> chats[j].id != id
  }

  /** `chats.find(c => c.id === id)`: the first chat with that id, if any. */
  function FindChat(chats: seq<Chat>, id: string): (r: Option<Chat>)
    ensures r.None? <==> NoMatchBefore(chats, id, |chats|)
    ensures r.Some? ==> exists i :: 0 <= i < |chats| && chats[i] == r.value && r.value.id == id && NoMatchBefore(chats, id, i)
  {
    if chats == [] then None
    else if chats[0].id == id then
      assert NoMatchBefore(chats, id, 0);
      Some(chats[0])
    else
      var r := FindChat(chats[1..], id);
      if r.Some? then
        var i :| 0 <= i < |chats[1..]| && chats[1..][i] == r.value && r.value.id == id && NoMatchBefore(chats[1..], id, i);
        assert chats[i + 1] == r.value;
        assert NoMatchBefore(chats, id, i + 1);
        r
      else
        assert NoMatchBefore(chats, id, |chats|) by {
          forall j | 0 <= j < |chats|
            ensures chats[j].id != id
          {
            if j > 0 {
              assert chats[j] == chats[1..][j - 1];
            }
          }
        }
        r
  }

  /**
   * The page's invariant, over its state: the pending timers are in arm order
   * and numbered below the count; the timers' lines in the transcript are the
   * entries emitted so far; the schedule is those entries followed by what the
   * pending timers will emit; and in a run started with nothing pending, the
   * schedule is the plan stably sorted by timeout.
   */
  ghost predicate Consistent(pending: seq<Timer>, armedCount: nat, messages: seq<Message>, fromTimer: seq<bool>,
                             emitted: seq<ScheduledMessage>, schedule: seq<ScheduledMessage>,
                             run: seq<ScheduledMessage>, freshRun: bool)
  {
    && ArmOrdered(pending) && OrdersBelow(pending, armedCount)
    && |fromTimer| == |messages|
    && Picked(Shown(messages), fromTimer) == Lines(emitted)
    && schedule == emitted + Drain(pending)
    && (freshRun ==> schedule == SortByTimeout(run))
  }

  /**
   * Running the earliest timer, which removes it from the pending timers and
   * appends `m`, with its entry's name and text, to the transcript, keeps the
   * invariant.
   */
  lemma {:induction false} FireStepConsistent(pending: seq<Timer>, armedCount: nat, messages: seq<Message>, fromTimer: seq<bool>,
                                              emitted: seq<ScheduledMessage>, schedule: seq<ScheduledMessage>,
                                              run: seq<ScheduledMessage>, freshRun: bool, m: Message,
                                              pending': seq<Timer>, messages': seq<Message>, fromTimer': seq<bool>,
                                              emitted': seq<ScheduledMessage>)
    requires Consistent(pending, armedCount, messages, fromTimer, emitted, schedule, run, freshRun)
    requires pending != []
    requires m.name == pending[NextIndex(pending)].entry.name && m.text == pending[NextIndex(pending)].entry.text
    requires pending' == Without(pending, NextIndex(pending)) && messages' == messages + [m]
    requires fromTimer' == fromTimer + [true] && emitted' == emitted + [pending[NextIndex(pending)].entry]
    ensures Consistent(pending', armedCount, messages', fromTimer', emitted', schedule, run, freshRun)
  {
    var i := NextIndex(pending);
    FireKeepsSchedule(emitted, pending);
    WithoutKeepsArmOrder(pending, i, 0);
    WithoutKeepsBound(pending, i, armedCount);
    TimerMessageExtends(messages, fromTimer, m, emitted, pending[i].entry);
  }

  /**
   * Starting a simulation, which clears the transcript and arms the plan
   * behind the stale timers, sets up the invariant; when nothing was pending,
   * the schedule of the new run is the plan stably sorted by timeout.
   */
  lemma {:induction false} StartConsistent(stale: seq<Timer>, armedCount: nat, now: int, plan: seq<ScheduledMessage>,
                                           pending': seq<Timer>)
    returns (schedule': seq<ScheduledMessage>)
    requires ArmOrdered(stale) && OrdersBelow(stale, armedCount)
    requires pending' == stale + Armed(now, armedCount, plan)
    ensures schedule' == Drain(pending')
    ensures Consistent(pending', armedCount + |plan|, [], [], [], schedule', plan, stale == [])
    ensures stale == [] ==> schedule' == SortByTimeout(plan)
  {
    schedule' := Drain(pending');
    ArmBehind(stale, now, armedCount, plan);
    if stale == [] {
      assert pending' == Armed(now, armedCount, plan);
      OneRunEmitsSortedPlan(now, armedCount, plan);
    }
    assert [] + Drain(pending') == schedule';
  }

  /**
   * When the last timer of a run started with nothing pending has fired, the
   * timers' lines in the transcript are the plan stably sorted by timeout;
   * with no visitor message among them, so is the whole transcript.
   */
  lemma {:induction false} FinishedRunShown(armedCount: nat, messages: seq<Message>, fromTimer: seq<bool>,
                                            emitted: seq<ScheduledMessage>, schedule: seq<ScheduledMessage>,
                                            run: seq<ScheduledMessage>)
    requires Consistent([], armedCount, messages, fromTimer, emitted, schedule, run, true)
    ensures Picked(Shown(messages), fromTimer) == Lines(SortByTimeout(run))
    ensures (forall i :: 0 <= i < |fromTimer| ==> fromTimer[i]) ==> Shown(messages) == Lines(SortByTimeout(run))
  {
    assert emitted + Drain([]) == emitted;
    if forall i :: 0 <= i < |fromTimer| ==> fromTimer[i] {
      PickedAll(Shown(messages), fromTimer);
    }
  }

  class LiveChat {
    const chatId: string
    var chat: Option<Chat>
    var messages: seq<Message>
    var name: string
    var message: string
    var isSimulating: bool
    /** The timers armed and not yet run; nothing ever cancels one. */
    var pending: seq<Timer>
    /** How many timers this page has armed so far; numbers them in arm order. */
    var armedCount: nat
    /** The scheduled entries appended since the last simulation started, in the order their timers ran. */
    ghost var emitted: seq<ScheduledMessage>
    /** One mark per transcript message: set when a timer appended it, clear when the visitor sent it. */
    ghost var fromTimer: seq<bool>
    /** The entries emitted since the last simulation started followed by those still to come, in firing order. */
    ghost var schedule: seq<ScheduledMessage>
    /** The plan of the last simulation started. */
    ghost var run: seq<ScheduledMessage>
    /** No timer was pending when the last simulation started. */
    ghost var freshRun: bool

    ghost predicate Valid()
      reads this
    {
      Consistent(pending, armedCount, messages, fromTimer, emitted, schedule, run, freshRun)
    }

    constructor (chatId: string)
      ensures Valid()
      ensures this.chatId == chatId
      ensures chat == None && messages == [] && name == "" && message == "" && !isSimulating
      ensures pending == [] && armedCount == 0 && emitted == [] && fromTimer == [] && schedule == [] && !freshRun
    {
      this.chatId := chatId;
      chat, messages, name, message, isSimulating := None, [], "", "", false;
      pending, armedCount, emitted, fromTimer, schedule, run, freshRun := [], 0, [], [], [], [], false;
    }

    /**
     * `startSimulation`: mark the page simulating, clear the transcript, and
     * arm at `now` one timer per entry, in plan order, behind any timers
     * still pending.
     */
    method StartSimulation(plan: seq<ScheduledMessage>, now: int)
      requires ArmOrdered(pending) && OrdersBelow(pending, armedCount)
      modifies this`isSimulating, this`messages, this`pending, this`armedCount
      modifies this`emitted, this`fromTimer, this`schedule, this`run, this`freshRun
      ensures Valid()
      ensures isSimulating && messages == [] && emitted == [] && fromTimer == []
      ensures schedule == Drain(pending)
      ensures pending == old(pending) + Armed(now, old(armedCount), plan)
      ensures armedCount == old(armedCount) + |plan|
      ensures run == plan && freshRun == (old(pending) == [])
      ensures old(pending) == [] ==> Drain(pending) == SortByTimeout(plan)
    {
      var base := armedCount;
      var armed := ArmAll(now, base, plan);
      ghost var sch := StartConsistent(pending, base, now, plan, pending + armed);
      freshRun := pending == [];
      run := plan;
      schedule := sch;
      isSimulating := true;
      messages := [];
      emitted := [];
      fromTimer := [];
      pending := pending + armed;
      armedCount := base + |plan|;
    }

    /**
     * The mount effect: when the stored list has a chat with this page's id,
     * show it and start simulating its plan; otherwise change nothing.
     */
    method Mount(stored: Option<seq<Chat>>, now: int)
      requires Valid()
      modifies this`chat, this`isSimulating, this`messages, this`pending, this`armedCount
      modifies this`emitted, this`fromTimer, this`schedule, this`run, this`freshRun
      ensures Valid()
      ensures stored.None? || FindChat(stored.value, chatId).None? ==>
                && chat == old(chat) && messages == old(messages) && isSimulating == old(isSimulating)
                && pending == old(pending) && armedCount == old(armedCount)
                && emitted == old(emitted) && fromTimer == old(fromTimer) && schedule == old(schedule)
                && run == old(run) && freshRun == old(freshRun)
      ensures stored.Some? && FindChat(stored.value, chatId).Some? ==>
                && chat == FindChat(stored.value, chatId)
                && isSimulating && messages == [] && emitted == [] && fromTimer == []
                && pending == old(pending) + Armed(now, old(armedCount), chat.value.messages)
                && armedCount == old(armedCount) + |chat.value.messages|
                && run == chat.value.messages && freshRun == (old(pending) == [])
      ensures stored.Some? && FindChat(stored.value, chatId).Some? && old(pending) == [] ==>
                Drain(pending) == SortByTimeout(chat.value.messages)
    {
      if stored.None? {
        return;
      }
      var current := FindChat(stored.value, chatId);
      if current.None? {
        return;
      }
      chat := current;
      StartSimulation(current.value.messages, now);
    }

    /**
     * A timer's callback: the earliest pending timer runs and appends its
     * entry, under the fresh `id` and `timestamp` of that instant. Once the
     * last timer of a fresh run has fired, the lines the timers put in the
     * transcript are the plan stably sorted by timeout; with no visitor
     * message among them, that is the whole transcript.
     */
    method FireNext(id: string, timestamp: int)
      requires Valid() && pending != []
      modifies this`messages, this`pending, this`emitted, this`fromTimer
      ensures Valid()
      ensures messages == old(messages) + [Message(id, old(pending)[NextIndex(old(pending))].entry.name,
                                                   old(pending)[NextIndex(old(pending))].entry.text, timestamp)]
      ensures emitted == old(emitted) + [old(pending)[NextIndex(old(pending))].entry]
      ensures fromTimer == old(fromTimer) + [true]
      ensures pending == Without(old(pending), NextIndex(old(pending)))
      ensures freshRun && pending == [] ==> Picked(Shown(messages), fromTimer) == Lines(SortByTimeout(run))
      ensures freshRun && pending == [] && (forall i :: 0 <= i < |fromTimer| ==> fromTimer[i]) ==>
                Shown(messages) == Lines(SortByTimeout(run))
    {
      var i := NextIndex(pending);
      var t := pending[i];
      var m := Message(id, t.entry.name, t.entry.text, timestamp);
      ghost var pending0, messages0, fromTimer0, emitted0 := pending, messages, fromTimer, emitted;
      messages := messages + [m];
      emitted := emitted + [t.entry];
      fromTimer := fromTimer + [true];
      pending := Without(pending, i);
      FireStepConsistent(pending0, armedCount, messages0, fromTimer0, emitted0, schedule, run, freshRun, m,
                         pending, messages, fromTimer, emitted);
      if freshRun && pending == [] {
        FinishedRunShown(armedCount, messages, fromTimer, emitted, schedule, run);
      }
    }

    method TypeName(value: string)
      modifies this`name
      ensures name == value
    {
      name := value;
    }

    method TypeMessage(value: string)
      modifies this`message
      ensures message == value
    {
      message := value;
    }

    /**
     * `handleSendMessage`: when neither field is blank, append the untrimmed
     * name and text under `id` and `timestamp`, and clear the text (the name
     * stays); otherwise change nothing.
     */
    method SendMessage(id: string, timestamp: int)
      requires Valid()
      modifies this`messages, this`message, this`fromTimer
      ensures Valid()
      ensures Blank(old(name)) || Blank(old(message)) ==>
                messages == old(messages) && message == old(message) && fromTimer == old(fromTimer)
      ensures !Blank(old(name)) && !Blank(old(message)) ==>
                && messages == old(messages) + [Message(id, old(name), old(message), timestamp)] && message == ""
                && fromTimer == old(fromTimer) + [false]
    {
      if Blank(name) || Blank(message) {
        return;
      }
      var m := Message(id, name, message, timestamp);
      VisitorMessageKeeps(messages, fromTimer, m);
      messages := messages + [m];
      fromTimer := fromTimer + [false];
      message := "";
    }
  }
}
