/**
 * The records shared by the three chat components (types/chat.ts): a chat owns
 * a plan of scheduled messages; a live transcript holds emitted messages.
 */
module ChatTypes {
  import opened Wrappers

  /**
   * The delay of a scheduled message, in seconds, as `parseInt` leaves it:
   * an integer, or NaN when the field does not start with a number.
   */
  datatype Delay = Seconds(n: int) | NaN

  /**
   * One entry of a plan. `id` is `None` for entries the per-chat scheduler
   * builds, which carry no id at all (JavaScript `undefined`).
   */
  datatype ScheduledMessage = ScheduledMessage(id: Option<string>, name: string, text: string, delay: Delay)

  datatype Chat = Chat(id: string, name: string, messages: seq<ScheduledMessage>)

  /** A message of the live transcript; `id` and `timestamp` come from the wall clock. */
  datatype Message = Message(id: string, name: string, text: string, timestamp: int)

  /** What a transcript shows of a message: who said what. */
  datatype Line = Line(name: string, text: string)

  function LineOf(m: ScheduledMessage): Line {
    Line(m.name, m.text)
  }

  /** What a sequence of entries shows once each is on screen, in order. */
  function Lines(plan: seq<ScheduledMessage>): (r: seq<Line>)
    ensures |r| == |plan|
  {
    if plan == [] then [] else Lines(plan[..|plan| - 1]) + [LineOf(plan[|plan| - 1])]
  }

  /** What a transcript shows: who said what, in order. */
  function Shown(transcript: seq<Message>): (r: seq<Line>)
    ensures |r| == |transcript|
  {
    if transcript == [] then []
    else Shown(transcript[..|transcript| - 1]) + [Line(transcript[|transcript| - 1].name, transcript[|transcript| - 1].text)]
  }

  /** The `i`-th line of a plan is its `i`-th entry's name and text. */
  lemma {:induction false} LinesAt(plan: seq<ScheduledMessage>, i: nat)
    requires i < |plan|
    ensures Lines(plan)[i] == LineOf(plan[i])
  {
    if i < |plan| - 1 {
      LinesAt(plan[..|plan| - 1], i);
    }
  }

  /** The `i`-th line of a transcript is its `i`-th message's name and text. */
  lemma {:induction false} ShownAt(transcript: seq<Message>, i: nat)
    requires i < |transcript|
    ensures Shown(transcript)[i] == Line(transcript[i].name, transcript[i].text)
  {
    if i < |transcript| - 1 {
      ShownAt(transcript[..|transcript| - 1], i);
    }
  }

  /** Showing one more entry adds its line at the end. */
  lemma {:induction false} LinesSnoc(a: seq<ScheduledMessage>, e: ScheduledMessage)
    ensures Lines(a + [e]) == Lines(a) + [LineOf(e)]
  {
    assert (a + [e])[..|a|] == a;
  }

  /** Appending one more message to a transcript adds its line at the end. */
  lemma {:induction false} ShownSnoc(ms: seq<Message>, m: Message)
    ensures Shown(ms + [m]) == Shown(ms) + [Line(m.name, m.text)]
  {
    assert (ms + [m])[..|ms|] == ms;
  }

  /** The lines of `lines` whose mark is set, in order: the lines a timer put on screen. */
  function Picked(lines: seq<Line>, marks: seq<bool>): seq<Line>
    requires |marks| == |lines|
  {
    if lines == [] then []
    else Picked(lines[..|lines| - 1], marks[..|marks| - 1])
         + (if marks[|marks| - 1] then [lines[|lines| - 1]] else [])
  }

  /** Showing one more line adds it to the picked lines exactly when it is marked. */
  lemma {:induction false} PickedSnoc(lines: seq<Line>, marks: seq<bool>, x: Line, b: bool)
    requires |marks| == |lines|
    ensures Picked(lines + [x], marks + [b]) == Picked(lines, marks) + (if b then [x] else [])
  {
    assert (lines + [x])[..|lines|] == lines;
    assert (marks + [b])[..|marks|] == marks;
  }

  /** When every line is marked, the picked lines are all of them. */
  lemma {:induction false} PickedAll(lines: seq<Line>, marks: seq<bool>)
    requires |marks| == |lines|
    requires forall i :: 0 <= i < |marks| ==> marks[i]
    ensures Picked(lines, marks) == lines
  {
    if lines != [] {
      PickedAll(lines[..|lines| - 1], marks[..|marks| - 1]);
      assert lines == lines[..|lines| - 1] + [lines[|lines| - 1]];
    }
  }

  /** A timer's message, appended to the transcript, extends the picked lines by its entry's line. */
  lemma {:induction false} TimerMessageExtends(ms: seq<Message>, marks: seq<bool>, m: Message,
                                               done: seq<ScheduledMessage>, e: ScheduledMessage)
    requires |marks| == |ms| && Picked(Shown(ms), marks) == Lines(done)
    requires m.name == e.name && m.text == e.text
    ensures Picked(Shown(ms + [m]), marks + [true]) == Lines(done + [e])
  {
    ShownSnoc(ms, m);
    LinesSnoc(done, e);
    PickedSnoc(Shown(ms), marks, Line(m.name, m.text), true);
  }

  /** A visitor's message, appended to the transcript, leaves the picked lines alone. */
  lemma {:induction false} VisitorMessageKeeps(ms: seq<Message>, marks: seq<bool>, m: Message)
    requires |marks| == |ms|
    ensures Picked(Shown(ms + [m]), marks + [false]) == Picked(Shown(ms), marks)
  {
    ShownSnoc(ms, m);
    PickedSnoc(Shown(ms), marks, Line(m.name, m.text), false);
  }
}
