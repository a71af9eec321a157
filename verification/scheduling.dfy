/**
 * The message scheduler (components/message-scheduler.tsx): the form that
 * appends entries to one chat's plan, the per-entry delete button, the rule
 * that enables the start button, and the page the "Gerar HTML" button
 * exports, whose script replays the plan with one `setTimeout` per entry and
 * echoes what the visitor types.
 */
module Scheduling {
  import opened Wrappers
  import opened Text
  import opened ChatTypes
  import opened Timeouts
  import opened Ordering
  import opened TimerQueue

  /** The sender name the exported page gives the visitor's own lines. */
  const Visitor: string := "Você"

  /**
   * `filter((_, i) => i !== index)`: the plan without its `index`-th entry;
   * an index outside the plan removes nothing.
   */
  function RemoveAt(s: seq<ScheduledMessage>, index: int): (r: seq<ScheduledMessage>)
    ensures 0 <= index < |s| ==> r == s[..index] + s[index + 1..]
    ensures !(0 <= index < |s|) ==> r == s
    decreases |s|
  {
    if s == [] then []
    else if index == 0 then s[1..]
    else
      assert s == [s[0]] + s[1..];
      [s[0]] + RemoveAt(s[1..], index - 1)
  }

  /** The form is accepted when none of its three fields is blank. */
  predicate FormComplete(name: string, message: string, delay: string) {
    !Blank(name) && !Blank(message) && !Blank(delay)
  }

  /** Deleting the entry just submitted, at the last index, gives back the plan as it was. */
  lemma {:induction false} SubmitThenDeleteLastRestores(plan: seq<ScheduledMessage>, m: ScheduledMessage)
    ensures RemoveAt(plan + [m], |plan|) == plan
  {
    assert (plan + [m])[..|plan|] == plan;
  }

  /**
   * Given the same plan, the exported page and the live chat emit it in the
   * same order, wherever and whenever the live chat arms it: the plan stably
   * sorted by timeout.
   */
  lemma {:induction false} ExportedReplayMatchesLive(now: int, base: nat, plan: seq<ScheduledMessage>)
    ensures Drain(Armed(0, 0, plan)) == Drain(Armed(now, base, plan))
    ensures Drain(Armed(0, 0, plan)) == SortByTimeout(plan)
  {
    ReplayIndependentOfArmTime(0, 0, now, base, plan);
    OneRunEmitsSortedPlan(0, 0, plan);
  }

  class MessageScheduler {
    const chatId: string
    var scheduledMessages: seq<ScheduledMessage>
    var name: string
    var message: string
    var delay: string

    constructor (chatId: string)
      ensures this.chatId == chatId
      ensures scheduledMessages == [] && name == "" && message == "" && delay == ""
    {
      this.chatId := chatId;
      scheduledMessages, name, message, delay := [], "", "", "";
    }

    /** The mount effect: adopt this chat's stored plan, when there is one. */
    method Load(stored: Option<seq<ScheduledMessage>>)
      modifies this`scheduledMessages
      ensures scheduledMessages == if stored.Some? then stored.value else old(scheduledMessages)
    {
      if stored.Some? {
        scheduledMessages := stored.value;
      }
    }

    method TypeName(value: string)
      modifies this`name
      ensures name == value
    {
      name := value;
    }

    method TypeMessage(value: string)
      modifies this`message
      ensures message == value
    {
      message := value;
    }

    method TypeDelay(value: string)
      modifies this`delay
      ensures delay == value
    {
      delay := value;
    }

    /**
     * `handleSubmit`: when no field is blank, append an entry without an id
     * holding the untrimmed name and text and `parseInt` of the delay field,
     * and clear the form; otherwise change nothing.
     */
    method Submit(parseInt: string -> Delay)
      modifies this`scheduledMessages, this`name, this`message, this`delay
      ensures !FormComplete(old(name), old(message), old(delay)) ==>
                && scheduledMessages == old(scheduledMessages)
                && name == old(name) && message == old(message) && delay == old(delay)
      ensures FormComplete(old(name), old(message), old(delay)) ==>
                && scheduledMessages == old(scheduledMessages) + [ScheduledMessage(None, old(name), old(message), parseInt(old(delay)))]
                && name == "" && message == "" && delay == ""
    {
      if !FormComplete(name, message, delay) {
        return;
      }
      scheduledMessages := scheduledMessages + [ScheduledMessage(None, name, message, parseInt(delay))];
      name, message, delay := "", "", "";
    }

    /** `handleDeleteMessage(index)`. */
    method DeleteMessage(index: int)
      modifies this`scheduledMessages
      ensures scheduledMessages == RemoveAt(old(scheduledMessages), index)
    {
      scheduledMessages := RemoveAt(scheduledMessages, index);
    }

    /** The start button is enabled exactly when the plan has an entry. */
    method StartEnabled() returns (enabled: bool)
      ensures enabled <==> scheduledMessages != []
    {
      enabled := |scheduledMessages| != 0;
    }
  }

  /**
   * The exported page at run time: the lines shown so far, the text box, and
   * the timers its `forEach` armed when the script ran (at time 0).
   */
  class ExportedChat {
    ghost const plan: seq<ScheduledMessage>
    var shown: seq<Line>
    var input: string
    var pending: seq<Timer>
    /** The scheduled entries shown so far, in the order their timers ran. */
    ghost var emitted: seq<ScheduledMessage>
    /** One mark per shown line: set when a timer showed it, clear when the visitor typed it. */
    ghost var fromTimer: seq<bool>

    /**
     * The timers are those armed at time 0, in arm order; the entries shown so
     * far followed by what the timers will show is the plan stably sorted by
     * timeout; and the lines the timers showed are those entries' lines.
     */
    ghost predicate Valid()
      reads this
    {
      && ArmOrdered(pending) && ArmedAt(pending, 0)
      && emitted + Drain(pending) == SortByTimeout(plan)
      && |fromTimer| == |shown| && Picked(shown, fromTimer) == Lines(emitted)
    }

    /** The script runs: nothing shown yet, one timer per entry armed in plan order. */
    constructor (plan: seq<ScheduledMessage>)
      ensures Valid()
      ensures this.plan == plan
      ensures shown == [] && input == "" && emitted == [] && fromTimer == []
      ensures pending == Armed(0, 0, plan)
    {
      var armed := ArmAll(0, 0, plan);
      OneRunEmitsSortedPlan(0, 0, plan);
      this.plan := plan;
      shown, input, pending, emitted, fromTimer := [], "", armed, [], [];
    }

    method Type(value: string)
      modifies this`input
      ensures input == value
    {
      input := value;
    }

    /** The form's submit listener: show the trimmed text and clear the box, unless it is blank. */
    method Submit()
      requires Valid()
      modifies this`shown, this`input, this`fromTimer
      ensures Valid()
      ensures Blank(old(input)) ==> shown == old(shown) && input == old(input) && fromTimer == old(fromTimer)
      ensures !Blank(old(input)) ==>
                && shown == old(shown) + [Line(Visitor, Trim(old(input)))] && input == ""
                && fromTimer == old(fromTimer) + [false]
    {
      var text := Trim(input);
      if text != "" {
        PickedSnoc(shown, fromTimer, Line(Visitor, text), false);
        shown := shown + [Line(Visitor, text)];
        fromTimer := fromTimer + [false];
        input := "";
      }
    }

    /**
     * The earliest pending timer runs and shows its entry. Once the last one
     * has run, the lines the timers showed are the plan stably sorted by
     * timeout; when the visitor typed nothing, that is the whole page.
     */
    method FireNext()
      requires Valid() && pending != []
      modifies this`shown, this`pending, this`emitted, this`fromTimer
      ensures Valid()
      ensures shown == old(shown) + [LineOf(old(pending)[NextIndex(old(pending))].entry)]
      ensures emitted == old(emitted) + [old(pending)[NextIndex(old(pending))].entry]
      ensures fromTimer == old(fromTimer) + [true]
      ensures pending == Without(old(pending), NextIndex(old(pending)))
      ensures pending == [] ==> emitted == SortByTimeout(plan)
      ensures pending == [] ==> Picked(shown, fromTimer) == Lines(SortByTimeout(plan))
      ensures pending == [] && (forall i :: 0 <= i < |fromTimer| ==> fromTimer[i]) ==>
                shown == Lines(SortByTimeout(plan))
    {
      var i := NextIndex(pending);
      var t := pending[i];
      FireKeepsSchedule(emitted, pending);
      WithoutKeepsArmOrder(pending, i, 0);
      PickedSnoc(shown, fromTimer, LineOf(t.entry), true);
      LinesSnoc(emitted, t.entry);
      shown := shown + [LineOf(t.entry)];
      emitted := emitted + [t.entry];
      fromTimer := fromTimer + [true];
      pending := Without(pending, i);
      if pending == [] {
        assert emitted + Drain([]) == emitted;
        if forall j :: 0 <= j < |fromTimer| ==> fromTimer[j] {
          PickedAll(shown, fromTimer);
        }
      }
    }
  }
}
