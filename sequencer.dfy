/**
 * The per-move schedule of `promptForMove`: motion commands on the mover
 * port and head/magnet commands on the picker port, separated by fixed or
 * computed delays and never by any acknowledgement from either controller.
 *
 * Time is a clock that each delay advances; the two ports are the lists of
 * lines written to them; one trace keeps every write and wait in order.
 */
module Sequencer {
  import opened Text
  import opened GCode

  /** One observable step: a line written to a port, or a delay in milliseconds. */
  datatype Event = MoverWrite(line: string) | PickerWrite(line: string) | Wait(ms: nat)

  /** Every command is written followed by carriage return and line feed. */
  const LineEnd: string := "\r\n"

  /** Wait after lowering or raising the head. */
  const SettleMs: nat := 1700

  /** Wait after switching the magnet on or off. */
  const ToggleMs: nat := 100

  /** The answer that ends the program. */
  const QuitToken: string := "quit"

  /** The lines a trace writes to the mover port, in order. */
  function MoverLines(trace: seq<Event>): seq<string> {
    if trace == [] then []
    else
      var last := trace[|trace| - 1];
      MoverLines(trace[..|trace| - 1]) + (if last.MoverWrite? then [last.line] else [])
  }

  /** The lines a trace writes to the picker port, in order. */
  function PickerLines(trace: seq<Event>): seq<string> {
    if trace == [] then []
    else
      var last := trace[|trace| - 1];
      PickerLines(trace[..|trace| - 1]) + (if last.PickerWrite? then [last.line] else [])
  }

  /** The time a trace spends waiting. */
  function Elapsed(trace: seq<Event>): nat {
    if trace == [] then 0
    else
      var last := trace[|trace| - 1];
      Elapsed(trace[..|trace| - 1]) + (if last.Wait? then last.ms else 0)
  }

  /** Each port sees its own lines of two traces run one after the other, and the waits add up. */
  lemma {:induction false} TraceAppend(a: seq<Event>, b: seq<Event>)
    ensures MoverLines(a + b) == MoverLines(a) + MoverLines(b)
    ensures PickerLines(a + b) == PickerLines(a) + PickerLines(b)
    ensures Elapsed(a + b) == Elapsed(a) + Elapsed(b)
  {
    if b == [] {
      assert a + b == a;
    } else {
      var init := b[..|b| - 1];
      assert (a + b)[..|a + b| - 1] == a + init;
      TraceAppend(a, init);
    }
  }

  /** Send a motion command, then wait for it to finish. */
  function MotionStep(command: string, wait: nat): seq<Event> {
    [MoverWrite(command + LineEnd), Wait(wait)]
  }

  /** Send a picker command, then wait for it to take effect. */
  function PickerStep(command: string, wait: nat): seq<Event> {
    [PickerWrite(command + LineEnd), Wait(wait)]
  }

  /** Lower the head, switch the magnet, raise the head; each followed by its wait. */
  function PickerCycle(toggle: string): seq<Event> {
    PickerStep("A_DOWN", SettleMs) + PickerStep(toggle, ToggleMs) + PickerStep("A_UP", SettleMs)
  }

  /**
   * Everything one move does, in order: drive to the source and pick up
   * (magnet on), drive to the target and put down (magnet off), drive back
   * to the park square. Each motion is followed by the wait computed for it.
   */
  function MoveSchedule(plan: GCodePlan): seq<Event> {
    MotionStep(plan.firstMoveCommand, plan.firstMoveWait)
    + PickerCycle("M_ON")
    + MotionStep(plan.secondMoveCommand, plan.secondMoveWait)
    + PickerCycle("M_OFF")
    + MotionStep(plan.backToOriginCommand, plan.backToOriginWait)
  }

  lemma SingleEvent(e: Event)
    ensures MoverLines([e]) == if e.MoverWrite? then [e.line] else []
    ensures PickerLines([e]) == if e.PickerWrite? then [e.line] else []
    ensures Elapsed([e]) == if e.Wait? then e.ms else 0
  {
    assert [e][..0] == [];
  }

  lemma MotionStepEffects(command: string, wait: nat)
    ensures MoverLines(MotionStep(command, wait)) == [command + LineEnd]
    ensures PickerLines(MotionStep(command, wait)) == []
    ensures Elapsed(MotionStep(command, wait)) == wait
  {
    var send, pause := MoverWrite(command + LineEnd), Wait(wait);
    assert MotionStep(command, wait) == [send] + [pause];
    SingleEvent(send);
    SingleEvent(pause);
    TraceAppend([send], [pause]);
  }

  lemma PickerStepEffects(command: string, wait: nat)
    ensures MoverLines(PickerStep(command, wait)) == []
    ensures PickerLines(PickerStep(command, wait)) == [command + LineEnd]
    ensures Elapsed(PickerStep(command, wait)) == wait
  {
    var send, pause := PickerWrite(command + LineEnd), Wait(wait);
    assert PickerStep(command, wait) == [send] + [pause];
    SingleEvent(send);
    SingleEvent(pause);
    TraceAppend([send], [pause]);
  }

  lemma PickerCycleEffects(toggle: string)
    ensures MoverLines(PickerCycle(toggle)) == []
    ensures PickerLines(PickerCycle(toggle)) == ["A_DOWN" + LineEnd, toggle + LineEnd, "A_UP" + LineEnd]
    ensures Elapsed(PickerCycle(toggle)) == 2 * SettleMs + ToggleMs
  {
    var down, toggled, up := PickerStep("A_DOWN", SettleMs), PickerStep(toggle, ToggleMs), PickerStep("A_UP", SettleMs);
    PickerStepEffects("A_DOWN", SettleMs);
    PickerStepEffects(toggle, ToggleMs);
    PickerStepEffects("A_UP", SettleMs);
    TraceAppend(down, toggled);
    TraceAppend(down + toggled, up);
  }

  /** The six picker lines of one move. */
  const PickerLinesPerMove: seq<string> :=
    ["A_DOWN" + LineEnd, "M_ON" + LineEnd, "A_UP" + LineEnd, "A_DOWN" + LineEnd, "M_OFF" + LineEnd, "A_UP" + LineEnd]

  /**
   * One move writes exactly its three motion commands to the mover port,
   * exactly the six head/magnet lines to the picker port, and waits the three
   * computed times plus 7000 ms of fixed delays.
   */
  lemma MoveScheduleEffects(plan: GCodePlan)
    ensures MoverLines(MoveSchedule(plan))
            == [plan.firstMoveCommand + LineEnd, plan.secondMoveCommand + LineEnd, plan.backToOriginCommand + LineEnd]
    ensures PickerLines(MoveSchedule(plan)) == PickerLinesPerMove
    ensures Elapsed(MoveSchedule(plan)) == plan.firstMoveWait + plan.secondMoveWait + plan.backToOriginWait + 7000
  {
    var first := MotionStep(plan.firstMoveCommand, plan.firstMoveWait);
    var second := MotionStep(plan.secondMoveCommand, plan.secondMoveWait);
    var back := MotionStep(plan.backToOriginCommand, plan.backToOriginWait);
    var on, off := PickerCycle("M_ON"), PickerCycle("M_OFF");
    MotionStepEffects(plan.firstMoveCommand, plan.firstMoveWait);
    MotionStepEffects(plan.secondMoveCommand, plan.secondMoveWait);
    MotionStepEffects(plan.backToOriginCommand, plan.backToOriginWait);
    PickerCycleEffects("M_ON");
    PickerCycleEffects("M_OFF");
    TraceAppend(first, on);
    TraceAppend(first + on, second);
    TraceAppend(first + on + second, off);
    TraceAppend(first + on + second + off, back);
  }

  /** No leg waits longer than a seven-square leg. */
  predicate WaitsBounded(plan: GCodePlan) {
    plan.firstMoveWait <= 7 * StepMs && plan.secondMoveWait <= 7 * StepMs && plan.backToOriginWait <= 7 * StepMs
  }

  /** A move takes between 7 s and 7 s plus three seven-square legs. */
  lemma MoveDurationBounds(plan: GCodePlan)
    requires WaitsBounded(plan)
    ensures 7000 <= Elapsed(MoveSchedule(plan)) <= 7000 + 3 * 7 * StepMs
  {
    MoveScheduleEffects(plan);
  }

  /** Every answer before the first `quit` must be a move. */
  predicate MovesBeforeQuit(answers: seq<string>) {
    forall i :: 0 <= i < IndexOf(answers, QuitToken) ==> NumericMove(answers[i])
  }

  /** Past a first answer other than `quit`, the first `quit` is one position nearer. */
  lemma QuitIndexTail(answers: seq<string>)
    requires |answers| > 0 && answers[0] != QuitToken
    ensures IndexOf(answers, QuitToken) == 1 + IndexOf(answers[1..], QuitToken)
  {
  }

  lemma QuitInTail(answers: seq<string>)
    requires |answers| > 0 && answers[0] != QuitToken
    ensures (QuitToken in answers) == (QuitToken in answers[1..])
  {
    assert answers == [answers[0]] + answers[1..];
  }

  lemma MovesBeforeQuitRest(answers: seq<string>)
    requires MovesBeforeQuit(answers)
    requires |answers| > 0 && answers[0] != QuitToken
    ensures NumericMove(answers[0])
    ensures MovesBeforeQuit(answers[1..])
  {
    QuitIndexTail(answers);
    var rest := answers[1..];
    forall i | 0 <= i < IndexOf(rest, QuitToken)
      ensures NumericMove(rest[i])
    {
      assert rest[i] == answers[i + 1];
    }
  }

  /** After a first answer that is a move, the remaining answers again satisfy the rule. */
  lemma MovesBeforeQuitTail(answers: seq<string>)
    requires MovesBeforeQuit(answers)
    requires |answers| > 0 && answers[0] != QuitToken
    ensures NumericMove(answers[0])
    ensures MovesBeforeQuit(answers[1..])
    ensures IndexOf(answers, QuitToken) == 1 + IndexOf(answers[1..], QuitToken)
    ensures (QuitToken in answers) == (QuitToken in answers[1..])
  {
    QuitIndexTail(answers);
    QuitInTail(answers);
    MovesBeforeQuitRest(answers);
  }

  /** The plans of the answers that are read and converted: every move before the first `quit`. */
  function PlansBeforeQuit(answers: seq<string>): (plans: seq<GCodePlan>)
    requires MovesBeforeQuit(answers)
    ensures |plans| == IndexOf(answers, QuitToken)
  {
    var n := IndexOf(answers, QuitToken);
    seq(n, i requires 0 <= i < n => ConvertChessMoveToGCode(answers[i]))
  }

  /** The plans start with the conversion of the first answer when that answer is not `quit`. */
  lemma PlansBeforeQuitCons(answers: seq<string>)
    requires MovesBeforeQuit(answers)
    requires |answers| > 0 && answers[0] != QuitToken
    ensures NumericMove(answers[0]) && MovesBeforeQuit(answers[1..])
    ensures PlansBeforeQuit(answers) == [ConvertChessMoveToGCode(answers[0])] + PlansBeforeQuit(answers[1..])
  {
    MovesBeforeQuitTail(answers);
    var plans, rest := PlansBeforeQuit(answers), PlansBeforeQuit(answers[1..]);
    forall j | 0 < j < |plans|
      ensures plans[j] == rest[j - 1]
    {
      assert answers[1..][j - 1] == answers[j];
    }
  }

  /** Each plan is the conversion of the answer at the same position. */
  lemma PlansBeforeQuitAt(answers: seq<string>, i: nat)
    requires MovesBeforeQuit(answers)
    requires i < IndexOf(answers, QuitToken)
    ensures NumericMove(answers[i])
    ensures PlansBeforeQuit(answers)[i] == ConvertChessMoveToGCode(answers[i])
  {
  }

  /** Every answer before the first `quit` names two squares on the board. */
  predicate BoardMovesBeforeQuit(answers: seq<string>) {
    forall i :: 0 <= i < IndexOf(answers, QuitToken) ==> WellFormedMove(answers[i])
  }

  /** When every move is on the board, no plan the prompt runs waits longer than seven squares on any leg. */
  lemma PlansBeforeQuitBounded(answers: seq<string>)
    requires BoardMovesBeforeQuit(answers)
    ensures MovesBeforeQuit(answers)
    ensures forall i :: 0 <= i < |PlansBeforeQuit(answers)| ==> WaitsBounded(PlansBeforeQuit(answers)[i])
  {
    forall i | 0 <= i < |PlansBeforeQuit(answers)|
      ensures WaitsBounded(PlansBeforeQuit(answers)[i])
    {
      PlansBeforeQuitAt(answers, i);
      ConvertWaitsBounded(answers[i]);
    }
  }

  /** The schedules of several plans, one after the other. */
  function Schedules(plans: seq<GCodePlan>): seq<Event> {
    if plans == [] then [] else MoveSchedule(plans[0]) + Schedules(plans[1..])
  }

  lemma SchedulesCons(plan: GCodePlan, plans: seq<GCodePlan>)
    ensures Schedules([plan] + plans) == MoveSchedule(plan) + Schedules(plans)
  {
    assert ([plan] + plans)[1..] == plans;
  }

  /** The mover lines of several plans: each plan's three commands, each ended by a line end. */
  function MoverCommands(plans: seq<GCodePlan>): seq<string> {
    if plans == [] then []
    else
      [plans[0].firstMoveCommand + LineEnd, plans[0].secondMoveCommand + LineEnd, plans[0].backToOriginCommand + LineEnd]
      + MoverCommands(plans[1..])
  }

  /** `n` copies of the picker lines of one move. */
  function PickerRounds(n: nat): seq<string> {
    if n == 0 then [] else PickerLinesPerMove + PickerRounds(n - 1)
  }

  /** The computed waits of several plans added up. */
  function ComputedWaits(plans: seq<GCodePlan>): nat {
    if plans == [] then 0
    else plans[0].firstMoveWait + plans[0].secondMoveWait + plans[0].backToOriginWait + ComputedWaits(plans[1..])
  }

  /**
   * Over several moves the mover port sees exactly their commands in order,
   * the picker port the six head/magnet lines once per move, and the clock
   * advances by the computed waits plus 7000 ms per move.
   */
  lemma {:induction false} SchedulesEffects(plans: seq<GCodePlan>)
    ensures MoverLines(Schedules(plans)) == MoverCommands(plans)
    ensures PickerLines(Schedules(plans)) == PickerRounds(|plans|)
    ensures Elapsed(Schedules(plans)) == ComputedWaits(plans) + 7000 * |plans|
  {
    if plans != [] {
      SchedulesEffects(plans[1..]);
      MoveScheduleEffects(plans[0]);
      TraceAppend(MoveSchedule(plans[0]), Schedules(plans[1..]));
    }
  }

  lemma {:induction false} MoverCommandsLength(plans: seq<GCodePlan>)
    ensures |MoverCommands(plans)| == 3 * |plans|
  {
    if plans != [] {
      MoverCommandsLength(plans[1..]);
    }
  }

  lemma {:induction false} PickerRoundsLength(n: nat)
    ensures |PickerRounds(n)| == 6 * n
  {
    if n > 0 {
      PickerRoundsLength(n - 1);
    }
  }

  lemma {:induction false} ComputedWaitsBound(plans: seq<GCodePlan>)
    requires forall i :: 0 <= i < |plans| ==> WaitsBounded(plans[i])
    ensures ComputedWaits(plans) <= 3 * 7 * StepMs * |plans|
  {
    if plans != [] {
      var rest := plans[1..];
      assert forall i :: 0 <= i < |rest| ==> rest[i] == plans[i + 1];
      ComputedWaitsBound(rest);
      assert WaitsBounded(plans[0]);
    }
  }

  /** Over `n` moves: `3n` mover lines, `6n` picker lines, and between `7000 n` and `(7000 + 3 * 7 * StepMs) n` ms. */
  lemma SchedulesTotals(plans: seq<GCodePlan>)
    requires forall i :: 0 <= i < |plans| ==> WaitsBounded(plans[i])
    ensures |MoverLines(Schedules(plans))| == 3 * |plans|
    ensures |PickerLines(Schedules(plans))| == 6 * |plans|
    ensures 7000 * |plans| <= Elapsed(Schedules(plans)) <= (7000 + 3 * 7 * StepMs) * |plans|
  {
    SchedulesEffects(plans);
    MoverCommandsLength(plans);
    PickerRoundsLength(|plans|);
    ComputedWaitsBound(plans);
  }

  /** The three mover lines of the `i`-th plan sit at positions `3i` to `3i + 2`. */
  lemma {:induction false} MoverCommandsAt(plans: seq<GCodePlan>, i: nat)
    requires i < |plans|
    ensures |MoverCommands(plans)| == 3 * |plans|
    ensures MoverCommands(plans)[3 * i..3 * i + 3]
            == [plans[i].firstMoveCommand + LineEnd, plans[i].secondMoveCommand + LineEnd, plans[i].backToOriginCommand + LineEnd]
  {
    MoverCommandsLength(plans);
    if i > 0 {
      var rest := plans[1..];
      MoverCommandsAt(rest, i - 1);
      var head := [plans[0].firstMoveCommand + LineEnd, plans[0].secondMoveCommand + LineEnd, plans[0].backToOriginCommand + LineEnd];
      assert MoverCommands(plans) == head + MoverCommands(rest);
      assert MoverCommands(plans)[3 * i..3 * i + 3] == MoverCommands(rest)[3 * (i - 1)..3 * (i - 1) + 3];
      assert rest[i - 1] == plans[i];
    }
  }

  /**
   * A prompt session that starts after `start` and answers `answers` adds to
   * the mover port the commands of every move before the first `quit`, to the
   * picker port one round of head/magnet lines per such move, and to the
   * clock their computed waits plus 7000 ms each.
   */
  lemma SessionEffects(start: seq<Event>, answers: seq<string>)
    requires MovesBeforeQuit(answers)
    ensures var plans := PlansBeforeQuit(answers);
            var after := start + Schedules(plans);
            && MoverLines(after) == MoverLines(start) + MoverCommands(plans)
            && PickerLines(after) == PickerLines(start) + PickerRounds(IndexOf(answers, QuitToken))
            && Elapsed(after) == Elapsed(start) + ComputedWaits(plans) + 7000 * IndexOf(answers, QuitToken)
  {
    var plans := PlansBeforeQuit(answers);
    TraceAppend(start, Schedules(plans));
    SchedulesEffects(plans);
  }

  /**
   * The mover lines for the `i`-th answer before `quit` are the three commands
   * its conversion produces, at positions `3i` to `3i + 2`.
   */
  lemma AnswerCommandsAt(answers: seq<string>, i: nat)
    requires MovesBeforeQuit(answers)
    requires i < IndexOf(answers, QuitToken)
    ensures NumericMove(answers[i])
    ensures |MoverCommands(PlansBeforeQuit(answers))| == 3 * IndexOf(answers, QuitToken)
    ensures var r := ConvertChessMoveToGCode(answers[i]);
            MoverCommands(PlansBeforeQuit(answers))[3 * i..3 * i + 3]
            == [r.firstMoveCommand + LineEnd, r.secondMoveCommand + LineEnd, r.backToOriginCommand + LineEnd]
  {
    PlansBeforeQuitAt(answers, i);
    MoverCommandsAt(PlansBeforeQuit(answers), i);
  }

  /**
   * Appending `first` to `start` and then `rest` is appending `first + rest`.
   * Kept apart so that this step is argued without the conversion in scope.
   */
  lemma Sequenced(start: seq<Event>, first: seq<Event>, rest: seq<Event>, middle: seq<Event>, after: seq<Event>)
    requires middle == start + first && after == middle + rest
    ensures after == start + (first + rest)
  {
  }

  /**
   * The two serial ports seen from the program: what has been written to
   * each, the order of all writes and waits, the time spent waiting, and
   * whether the prompt and both ports have been closed.
   */
  class MoveSequencer {
    var moverLog: seq<string>
    var pickerLog: seq<string>
    var trace: seq<Event>
    var clock: nat
    var closed: bool

    /** The port logs and the clock are what the trace says they are. */
    ghost predicate Valid()
      reads this
    {
      moverLog == MoverLines(trace) && pickerLog == PickerLines(trace) && clock == Elapsed(trace)
    }

    constructor ()
      ensures Valid() && !closed
      ensures trace == [] && moverLog == [] && pickerLog == [] && clock == 0
    {
      moverLog, pickerLog, trace, clock, closed := [], [], [], 0, false;
    }

    /** `sendMoverCommand`: writes the command and a line end to the mover port. */
    method SendMoverCommand(command: string)
      requires Valid() && !closed
      modifies this
      ensures Valid() && !closed
      ensures trace == old(trace) + [MoverWrite(command + LineEnd)]
      ensures moverLog == old(moverLog) + [command + LineEnd]
      ensures pickerLog == old(pickerLog) && clock == old(clock)
    {
      assert (trace + [MoverWrite(command + LineEnd)])[..|trace|] == trace;
      moverLog := moverLog + [command + LineEnd];
      trace := trace + [MoverWrite(command + LineEnd)];
    }

    /** `sendPickerCommand`: writes the command and a line end to the picker port. */
    method SendPickerCommand(command: string)
      requires Valid() && !closed
      modifies this
      ensures Valid() && !closed
      ensures trace == old(trace) + [PickerWrite(command + LineEnd)]
      ensures pickerLog == old(pickerLog) + [command + LineEnd]
      ensures moverLog == old(moverLog) && clock == old(clock)
    {
      assert (trace + [PickerWrite(command + LineEnd)])[..|trace|] == trace;
      pickerLog := pickerLog + [command + LineEnd];
      trace := trace + [PickerWrite(command + LineEnd)];
    }

    /** `delay`: lets `ms` milliseconds pass. */
    method Delay(ms: nat)
      requires Valid()
      modifies this
      ensures Valid() && closed == old(closed)
      ensures trace == old(trace) + [Wait(ms)]
      ensures clock == old(clock) + ms
      ensures moverLog == old(moverLog) && pickerLog == old(pickerLog)
    {
      assert (trace + [Wait(ms)])[..|trace|] == trace;
      clock := clock + ms;
      trace := trace + [Wait(ms)];
    }

    /** A motion command on the mover port, then its wait. */
    method Motion(command: string, wait: nat)
      requires Valid() && !closed
      modifies this
      ensures Valid() && !closed
      ensures trace == old(trace) + MotionStep(command, wait)
    {
      SendMoverCommand(command);
      Delay(wait);
    }

    /** A picker command, then its wait. */
    method PickerCommand(command: string, wait: nat)
      requires Valid() && !closed
      modifies this
      ensures Valid() && !closed
      ensures trace == old(trace) + PickerStep(command, wait)
    {
      SendPickerCommand(command);
      Delay(wait);
    }

    /** Head down, magnet toggle, head up on the picker port, each followed by its delay. */
    method HeadCycle(toggle: string)
      requires Valid() && !closed
      modifies this
      ensures Valid() && !closed
      ensures trace == old(trace) + PickerCycle(toggle)
    {
      ghost var start := trace;
      PickerCommand("A_DOWN", SettleMs);
      ghost var done := PickerStep("A_DOWN", SettleMs);
      PickerCommand(toggle, ToggleMs);
      assert trace == start + (done + PickerStep(toggle, ToggleMs));
      done := done + PickerStep(toggle, ToggleMs);
      PickerCommand("A_UP", SettleMs);
      assert trace == start + (done + PickerStep("A_UP", SettleMs));
      done := done + PickerStep("A_UP", SettleMs);
      assert done == PickerCycle(toggle);
    }

    /**
     * One answer to the prompt: `quit` closes the prompt and both ports and
     * writes nothing; a move is converted and its schedule is run.
     */
    method HandleAnswer(chessMove: string)
      requires Valid() && !closed
      requires chessMove == QuitToken || NumericMove(chessMove)
      modifies this
      ensures Valid()
      ensures closed == (chessMove == QuitToken)
      ensures chessMove == QuitToken ==> trace == old(trace) && moverLog == old(moverLog)
                                         && pickerLog == old(pickerLog) && clock == old(clock)
      ensures chessMove != QuitToken ==>
                var plan := ConvertChessMoveToGCode(chessMove);
                && trace == old(trace) + MoveSchedule(plan)
                && moverLog == old(moverLog) + [plan.firstMoveCommand + LineEnd, plan.secondMoveCommand + LineEnd,
                                                plan.backToOriginCommand + LineEnd]
                && pickerLog == old(pickerLog) + PickerLinesPerMove
                && clock == old(clock) + plan.firstMoveWait + plan.secondMoveWait + plan.backToOriginWait + 7000
    {
      if chessMove == QuitToken {
        closed := true;
      } else {
        var plan := ConvertChessMoveToGCode(chessMove);
        ghost var start := trace;
        PlayMove(plan);
        MoveScheduleEffects(plan);
        TraceAppend(start, MoveSchedule(plan));
      }
    }

    /**
     * `promptForMove`: reads answers until `quit`. Each answer is handled and,
     * unless it was `quit`, the prompt is asked again. When the answers run
     * out the prompt is left waiting.
     */
    method PromptForMove(answers: seq<string>)
      requires Valid() && !closed
      requires MovesBeforeQuit(answers)
      modifies this
      ensures Valid()
      ensures closed == (QuitToken in answers)
      ensures trace == old(trace) + Schedules(PlansBeforeQuit(answers))
      decreases |answers|
    {
      if answers == [] {
        return;
      }
      ghost var start := trace;
      if answers[0] != QuitToken {
        MovesBeforeQuitTail(answers);
      }
      HandleAnswer(answers[0]);
      if !closed {
        ghost var middle := trace;
        PromptForMove(answers[1..]);
        var plan := ConvertChessMoveToGCode(answers[0]);
        PlansBeforeQuitCons(answers);
        SchedulesCons(plan, PlansBeforeQuit(answers[1..]));
        Sequenced(start, MoveSchedule(plan), Schedules(PlansBeforeQuit(answers[1..])), middle, trace);
      }
    }

    /** The body of one move: the three legs with their picker cycles in between. */
    method PlayMove(plan: GCodePlan)
      requires Valid() && !closed
      modifies this
      ensures Valid() && !closed
      ensures trace == old(trace) + MoveSchedule(plan)
    {
      ghost var start := trace;
      Motion(plan.firstMoveCommand, plan.firstMoveWait);
      ghost var done := MotionStep(plan.firstMoveCommand, plan.firstMoveWait);
      HeadCycle("M_ON");
      assert trace == start + (done + PickerCycle("M_ON"));
      done := done + PickerCycle("M_ON");
      Motion(plan.secondMoveCommand, plan.secondMoveWait);
      assert trace == start + (done + MotionStep(plan.secondMoveCommand, plan.secondMoveWait));
      done := done + MotionStep(plan.secondMoveCommand, plan.secondMoveWait);
      HeadCycle("M_OFF");
      assert trace == start + (done + PickerCycle("M_OFF"));
      done := done + PickerCycle("M_OFF");
      Motion(plan.backToOriginCommand, plan.backToOriginWait);
      assert trace == start + (done + MotionStep(plan.backToOriginCommand, plan.backToOriginWait));
      done := done + MotionStep(plan.backToOriginCommand, plan.backToOriginWait);
      assert done == MoveSchedule(plan);
    }
  }
}
