/**
 * `convertChessMoveToGCode`: from a move such as `c2c4` to three relative
 * G-code moves of the gantry (park square to source, source to target,
 * target back to park) and the time each one is given to finish.
 *
 * Deltas are in thousandths of a motion unit (see NumberFormat); one board
 * square is half a motion unit, so a delta of `d` squares is `500 * d`.
 */
module GCode {
  import opened Text
  import opened NumberFormat

  /** A board square: file 0..7 is a..h, rank 0..7 is 1..8. */
  datatype Square = Square(file: int, rank: int)

  /** A move read from its first four characters. */
  datatype Move = Move(source: Square, target: Square)

  /** One relative motion: deltas in thousandths of a unit, wait in milliseconds. */
  datatype Leg = Leg(dx: int, dy: int, wait: nat)

  /** The three legs of one move, in the order they are driven. */
  datatype MotionPlan = MotionPlan(toSource: Leg, toTarget: Leg, toOrigin: Leg)

  /** What `convertChessMoveToGCode` returns: three commands and their waits. */
  datatype GCodePlan = GCodePlan(
    firstMoveCommand: string, firstMoveWait: nat,
    secondMoveCommand: string, secondMoveWait: nat,
    backToOriginCommand: string, backToOriginWait: nat)

  /** The park square of the head: file a, rank 8. */
  const Origin: Square := Square(0, 7)

  /** Milliseconds one axis takes to travel one board square. */
  const StepMs: nat := 286

  /** Units in millimetres, relative positioning, linear move; then the X value. */
  const MotionPrefix: string := "G21 G91 G1 X"

  /** The feed rate that closes every motion command. */
  const MotionSuffix: string := " F200"

  predicate OnBoard(sq: Square) {
    0 <= sq.file <= 7 && 0 <= sq.rank <= 7
  }

  predicate IsFileLetter(c: char) {
    'a' <= c <= 'h'
  }

  predicate IsRankDigit(c: char) {
    '1' <= c <= '8'
  }

  predicate IsSquareToken(t: string) {
    |t| == 2 && IsFileLetter(t[0]) && IsRankDigit(t[1])
  }

  /**
   * The moves written the way the prompt asks for them: `[a-h][1-8][a-h][1-8]`
   * followed by anything. The conversion itself checks nothing.
   */
  predicate WellFormedMove(m: string) {
    |m| >= 4 && IsSquareToken(m[0..2]) && IsSquareToken(m[2..4])
  }

  /** Two characters of which the second is a decimal digit. */
  predicate IsCoordinateToken(t: string) {
    |t| == 2 && IsDigit(t[1])
  }

  /**
   * The inputs on which every value the conversion computes is a number: at
   * least four characters, the second and the fourth a decimal digit
   * (`parseInt` of any other single character is NaN). The file characters
   * may be anything, and a square off the board is converted like any other.
   */
  predicate NumericMove(m: string) {
    && |m| >= 4 && IsCoordinateToken(m[0..2]) && IsCoordinateToken(m[2..4])
    && m[0] as int < 0x1_0000 && m[2] as int < 0x1_0000
  }

  /** Character code minus that of 'a', and digit minus one. */
  function SquareOf(token: string): Square
    requires IsCoordinateToken(token)
  {
    Square(token[0] as int - 'a' as int, DigitValue(token[1]) - 1)
  }

  /** The algebraic name of a square. */
  function TokenOf(sq: Square): (t: string)
    requires OnBoard(sq)
    ensures IsSquareToken(t)
  {
    [('a' as int + sq.file) as char, ('1' as int + sq.rank) as char]
  }

  /** A token names a square on the board exactly when it is `[a-h][1-8]`, and then it is that square's name. */
  lemma SquareOfOnBoard(token: string)
    requires IsCoordinateToken(token)
    ensures OnBoard(SquareOf(token)) <==> IsSquareToken(token)
    ensures IsSquareToken(token) ==> TokenOf(SquareOf(token)) == token
  {
    var sq := SquareOf(token);
    if IsSquareToken(token) {
      assert TokenOf(sq) == [token[0], token[1]];
      assert token == [token[0], token[1]];
    }
  }

  /** Every square on the board has exactly one name. */
  lemma SquareOfToken(sq: Square)
    requires OnBoard(sq)
    ensures SquareOf(TokenOf(sq)) == sq
  {
  }

  /** Two tokens name the same square exactly when they are the same text. */
  lemma SquareOfInjective(t: string, u: string)
    requires IsCoordinateToken(t) && IsCoordinateToken(u)
    ensures SquareOf(t) == SquareOf(u) <==> t == u
  {
    if SquareOf(t) == SquareOf(u) {
      assert DigitChar(DigitValue(t[1])) == DigitChar(DigitValue(u[1]));
      assert t == [t[0], t[1]] && u == [u[0], u[1]];
    }
  }

  /** Source from characters 0-1, target from characters 2-3. */
  function ParseMove(m: string): Move
    requires NumericMove(m)
  {
    Move(SquareOf(m[0..2]), SquareOf(m[2..4]))
  }

  /** Both squares are on the board exactly when the move is written in the prompt's format. */
  lemma ParseMoveOnBoard(m: string)
    requires NumericMove(m)
    ensures var mv := ParseMove(m);
            && (OnBoard(mv.source) && OnBoard(mv.target) <==> WellFormedMove(m))
            && (WellFormedMove(m) ==> TokenOf(mv.source) == m[0..2] && TokenOf(mv.target) == m[2..4])
  {
    SquareOfOnBoard(m[0..2]);
    SquareOfOnBoard(m[2..4]);
  }

  /**
   * Squares travelled along the slower axis. The comparison is `>=`, so a
   * tie takes the file branch; either branch gives the same number.
   */
  function DominantSteps(from: Square, to: Square): (steps: nat)
    ensures steps >= Abs(to.file - from.file) && steps >= Abs(to.rank - from.rank)
    ensures steps == Abs(to.file - from.file) || steps == Abs(to.rank - from.rank)
  {
    if Abs(to.file - from.file) >= Abs(to.rank - from.rank) then Abs(to.file - from.file)
    else Abs(to.rank - from.rank)
  }

  /**
   * One leg: each axis difference times 0.5 through `roundTo3Decimals`, and
   * a wait of `StepMs` per square on the dominant axis (both axes move at once).
   */
  function LegBetween(from: Square, to: Square): Leg {
    Leg(RoundTo3Decimals(to.file - from.file, 2),
        RoundTo3Decimals(to.rank - from.rank, 2),
        DominantSteps(from, to) * StepMs)
  }

  /**
   * A leg moves half a unit per square on each axis, exactly, and waits
   * `StepMs` for each square of the longer axis difference.
   */
  lemma LegShape(from: Square, to: Square)
    ensures var leg := LegBetween(from, to);
            && leg.dx == 500 * (to.file - from.file) && leg.dy == 500 * (to.rank - from.rank)
            && leg.wait >= StepMs * Abs(to.file - from.file) && leg.wait >= StepMs * Abs(to.rank - from.rank)
            && (leg.wait == StepMs * Abs(to.file - from.file) || leg.wait == StepMs * Abs(to.rank - from.rank))
  {
    HalfUnitsSurviveRounding(to.file - from.file);
    HalfUnitsSurviveRounding(to.rank - from.rank);
  }

  function PlanMove(mv: Move): MotionPlan {
    MotionPlan(LegBetween(Origin, mv.source), LegBetween(mv.source, mv.target), LegBetween(mv.target, Origin))
  }

  /** `G21 G91 G1 X<dx> Y<dy> F200`, each value printed as a template string prints it. */
  function MotionCommand(dx: int, dy: int): string {
    MotionPrefix + RenderNumber(dx) + " Y" + RenderNumber(dy) + MotionSuffix
  }

  /** Reads the two deltas back out of a motion command, if it has that shape. */
  function ParseMotionCommand(cmd: string): Option<(int, int)> {
    if |cmd| < |MotionPrefix| + |MotionSuffix|
       || cmd[..|MotionPrefix|] != MotionPrefix
       || cmd[|cmd| - |MotionSuffix|..] != MotionSuffix
    then None
    else
      var values := cmd[|MotionPrefix|..|cmd| - |MotionSuffix|];
      var space := IndexOf(values, ' ');
      if |values| < space + 2 || values[space..space + 2] != " Y" then None
      else
        match (ParseNumber(values[..space]), ParseNumber(values[space + 2..]))
        case (Some(x), Some(y)) => Some((x, y))
        case _ => None
  }

  /** `convertChessMoveToGCode`, on the inputs for which it computes numbers. */
  function ConvertChessMoveToGCode(chessMove: string): GCodePlan
    requires NumericMove(chessMove)
  {
    var plan := PlanMove(ParseMove(chessMove));
    GCodePlan(
      MotionCommand(plan.toSource.dx, plan.toSource.dy), plan.toSource.wait,
      MotionCommand(plan.toTarget.dx, plan.toTarget.dy), plan.toTarget.wait,
      MotionCommand(plan.toOrigin.dx, plan.toOrigin.dy), plan.toOrigin.wait)
  }

  /** Where the fixed parts of a command sit, whatever the two values are. */
  lemma TemplateSlices(x: string, y: string)
    ensures var cmd := MotionPrefix + x + " Y" + y + MotionSuffix;
            && |cmd| >= |MotionPrefix| + |MotionSuffix|
            && cmd[..|MotionPrefix|] == MotionPrefix
            && cmd[|cmd| - |MotionSuffix|..] == MotionSuffix
            && cmd[|MotionPrefix|..|cmd| - |MotionSuffix|] == x + " Y" + y
  {
    var values := x + " Y" + y;
    var cmd := MotionPrefix + x + " Y" + y + MotionSuffix;
    assert cmd == MotionPrefix + values + MotionSuffix;
  }

  /** The first space of `x Y y` is the one after `x` when `x` has none. */
  lemma ValuesSplit(x: string, y: string)
    requires forall i :: 0 <= i < |x| ==> x[i] != ' '
    ensures var values := x + " Y" + y;
            && IndexOf(values, ' ') == |x| && |values| >= |x| + 2
            && values[|x|..|x| + 2] == " Y" && values[..|x|] == x && values[|x| + 2..] == y
  {
    var values := x + " Y" + y;
    assert values[|x|] == ' ';
    assert forall j :: 0 <= j < |x| ==> values[j] == x[j];
  }

  /** A command built from two readable values reads back as those values. */
  lemma ParseTemplate(x: string, y: string, dx: int, dy: int)
    requires forall i :: 0 <= i < |x| ==> x[i] != ' '
    requires ParseNumber(x) == Some(dx) && ParseNumber(y) == Some(dy)
    ensures ParseMotionCommand(MotionPrefix + x + " Y" + y + MotionSuffix) == Some((dx, dy))
  {
    TemplateSlices(x, y);
    ValuesSplit(x, y);
  }

  /** A motion command carries its two deltas without loss. */
  lemma MotionCommandRoundTrip(dx: int, dy: int)
    ensures ParseMotionCommand(MotionCommand(dx, dy)) == Some((dx, dy))
  {
    RenderNumberHasNoSpace(dx);
    RenderNumberRoundTrip(dx);
    RenderNumberRoundTrip(dy);
    ParseTemplate(RenderNumber(dx), RenderNumber(dy), dx, dy);
  }

  /** Different deltas never produce the same command text. */
  lemma MotionCommandInjective(dx: int, dy: int, dx': int, dy': int)
    requires MotionCommand(dx, dy) == MotionCommand(dx', dy')
    ensures dx == dx' && dy == dy'
  {
    MotionCommandRoundTrip(dx, dy);
    MotionCommandRoundTrip(dx', dy');
  }

  /** On the board a delta is a multiple of 0.5 of at most 3.5, and a wait at most 7 steps. */
  lemma LegBounds(from: Square, to: Square)
    requires OnBoard(from) && OnBoard(to)
    ensures var leg := LegBetween(from, to);
            && leg.dx % 500 == 0 && -3500 <= leg.dx <= 3500
            && leg.dy % 500 == 0 && -3500 <= leg.dy <= 3500
            && leg.wait <= 7 * StepMs
  {
    LegShape(from, to);
  }

  /** Going back along a leg takes as long as going out, with the deltas negated. */
  lemma LegReversed(a: Square, b: Square)
    ensures LegBetween(b, a) == Leg(-LegBetween(a, b).dx, -LegBetween(a, b).dy, LegBetween(a, b).wait)
  {
  }

  /** The three legs cancel out: the head ends where it started, on the park square. */
  lemma LegsReturnToPark(mv: Move)
    ensures var plan := PlanMove(mv);
            && plan.toSource.dx + plan.toTarget.dx + plan.toOrigin.dx == 0
            && plan.toSource.dy + plan.toTarget.dy + plan.toOrigin.dy == 0
  {
    LegShape(Origin, mv.source);
    LegShape(mv.source, mv.target);
    LegShape(mv.target, Origin);
  }

  /**
   * The same holds of the commands actually sent: the X values read back
   * from the three command texts sum to zero, and so do the Y values.
   */
  lemma CommandsReturnToPark(chessMove: string)
    requires NumericMove(chessMove)
    ensures var r := ConvertChessMoveToGCode(chessMove);
            var first, second, back := ParseMotionCommand(r.firstMoveCommand),
                                       ParseMotionCommand(r.secondMoveCommand),
                                       ParseMotionCommand(r.backToOriginCommand);
            && first.Some? && second.Some? && back.Some?
            && first.value.0 + second.value.0 + back.value.0 == 0
            && first.value.1 + second.value.1 + back.value.1 == 0
  {
    var plan := PlanMove(ParseMove(chessMove));
    MotionCommandRoundTrip(plan.toSource.dx, plan.toSource.dy);
    MotionCommandRoundTrip(plan.toTarget.dx, plan.toTarget.dy);
    MotionCommandRoundTrip(plan.toOrigin.dx, plan.toOrigin.dy);
    LegsReturnToPark(ParseMove(chessMove));
  }

  /** `G21 G91 G1 X<x> Y<y> F200` with `x / 2` and `y / 2` printed as halves. */
  function HalfUnitCommand(x: int, y: int): string {
    MotionPrefix + RenderHalfUnits(x) + " Y" + RenderHalfUnits(y) + MotionSuffix
  }

  /** A command whose deltas are whole multiples of 0.5 prints them as halves. */
  lemma MotionCommandInHalfUnits(x: int, y: int)
    ensures MotionCommand(500 * x, 500 * y) == HalfUnitCommand(x, y)
  {
    RenderHalfUnitsAgrees(x);
    RenderHalfUnitsAgrees(y);
    HalfUnitsSurviveRounding(x);
    HalfUnitsSurviveRounding(y);
  }

  /** The command of one leg, with the axis differences in board squares printed as halves. */
  lemma LegCommandInHalfUnits(from: Square, to: Square)
    ensures var leg := LegBetween(from, to);
            MotionCommand(leg.dx, leg.dy) == HalfUnitCommand(to.file - from.file, to.rank - from.rank)
  {
    LegShape(from, to);
    MotionCommandInHalfUnits(to.file - from.file, to.rank - from.rank);
  }

  /** The three commands and waits are those of the three legs through the parsed squares. */
  lemma ConvertUsesLegs(chessMove: string)
    requires NumericMove(chessMove)
    ensures var mv, r := ParseMove(chessMove), ConvertChessMoveToGCode(chessMove);
            var first, second, back := LegBetween(Origin, mv.source), LegBetween(mv.source, mv.target),
                                       LegBetween(mv.target, Origin);
            && r.firstMoveCommand == MotionCommand(first.dx, first.dy) && r.firstMoveWait == first.wait
            && r.secondMoveCommand == MotionCommand(second.dx, second.dy) && r.secondMoveWait == second.wait
            && r.backToOriginCommand == MotionCommand(back.dx, back.dy) && r.backToOriginWait == back.wait
  {
  }

  /** A move on the board gives no leg more than seven squares to finish. */
  lemma ConvertWaitsBounded(chessMove: string)
    requires WellFormedMove(chessMove)
    ensures var r := ConvertChessMoveToGCode(chessMove);
            r.firstMoveWait <= 7 * StepMs && r.secondMoveWait <= 7 * StepMs && r.backToOriginWait <= 7 * StepMs
  {
    var mv := ParseMove(chessMove);
    ParseMoveOnBoard(chessMove);
    ConvertUsesLegs(chessMove);
    LegBounds(Origin, mv.source);
    LegBounds(mv.source, mv.target);
    LegBounds(mv.target, Origin);
  }

  /**
   * The wait to reach a square from the park square equals the wait to
   * return from that same square to the park square.
   */
  lemma ReturnWaitMirrorsOutbound(m1: string, m2: string)
    requires NumericMove(m1) && NumericMove(m2)
    requires m1[0..2] == m2[2..4]
    ensures ConvertChessMoveToGCode(m1).firstMoveWait == ConvertChessMoveToGCode(m2).backToOriginWait
  {
    LegReversed(Origin, ParseMove(m1).source);
  }

  lemma ZeroCommand()
    ensures MotionCommand(0, 0) == "G21 G91 G1 X0 Y0 F200"
  {
    assert MagnitudeText(0) == NatToString(0) == "0";
    assert RenderNumber(0) == "0";
    assert MotionCommand(0, 0) == MotionPrefix + "0" + " Y" + "0" + MotionSuffix;
  }

  /** A move's source and target are the same square exactly when its two tokens are equal. */
  lemma SameSquareIffSameToken(chessMove: string)
    requires NumericMove(chessMove)
    ensures ParseMove(chessMove).source == ParseMove(chessMove).target <==> chessMove[0..2] == chessMove[2..4]
  {
    SquareOfInjective(chessMove[0..2], chessMove[2..4]);
  }

  /** A leg waits nothing, and its command is the zero move, exactly when it joins a square to itself. */
  lemma LegStillIffSameSquare(from: Square, to: Square)
    ensures var leg := LegBetween(from, to);
            && (leg.wait == 0 <==> from == to)
            && (MotionCommand(leg.dx, leg.dy) == "G21 G91 G1 X0 Y0 F200" <==> from == to)
  {
    var leg := LegBetween(from, to);
    LegShape(from, to);
    ZeroCommand();
    if MotionCommand(leg.dx, leg.dy) == "G21 G91 G1 X0 Y0 F200" {
      MotionCommandInjective(leg.dx, leg.dy, 0, 0);
    }
  }

  /**
   * The middle leg stands still, with wait 0 and the command
   * `G21 G91 G1 X0 Y0 F200` (still sent), exactly when source and target
   * are the same square.
   */
  lemma MiddleLegStillIffSameSquare(chessMove: string)
    requires NumericMove(chessMove)
    ensures var r := ConvertChessMoveToGCode(chessMove);
            && (r.secondMoveWait == 0 <==> chessMove[0..2] == chessMove[2..4])
            && (r.secondMoveCommand == "G21 G91 G1 X0 Y0 F200" <==> chessMove[0..2] == chessMove[2..4])
  {
    var mv := ParseMove(chessMove);
    ConvertUsesLegs(chessMove);
    SameSquareIffSameToken(chessMove);
    LegStillIffSameSquare(mv.source, mv.target);
  }

  /** Characters after the fourth play no part. */
  lemma IgnoresTrailingCharacters(chessMove: string)
    requires NumericMove(chessMove)
    ensures NumericMove(chessMove[..4])
    ensures ConvertChessMoveToGCode(chessMove) == ConvertChessMoveToGCode(chessMove[..4])
  {
    assert chessMove[..4][0..2] == chessMove[0..2];
    assert chessMove[..4][2..4] == chessMove[2..4];
  }

  lemma HalfUnitSamples()
    ensures RenderHalfUnits(0) == "0" && RenderHalfUnits(2) == "1" && RenderHalfUnits(4) == "2"
    ensures RenderHalfUnits(-2) == "-1" && RenderHalfUnits(-4) == "-2" && RenderHalfUnits(-6) == "-3"
  {
  }

  /** The command and wait of one leg of the examples below. */
  lemma LegSample(from: Square, to: Square, x: string, y: string, wait: nat)
    requires RenderHalfUnits(to.file - from.file) == x && RenderHalfUnits(to.rank - from.rank) == y
    requires wait == StepMs * DominantSteps(from, to)
    ensures var leg := LegBetween(from, to);
            MotionCommand(leg.dx, leg.dy) == MotionPrefix + x + " Y" + y + MotionSuffix && leg.wait == wait
  {
    LegCommandInHalfUnits(from, to);
    LegShape(from, to);
  }

  /** A literal move reads as the two squares its tokens name. */
  lemma ParseSample(chessMove: string, source: Square, target: Square)
    requires |chessMove| == 4 && IsSquareToken(chessMove[0..2]) && IsSquareToken(chessMove[2..4])
    requires OnBoard(source) && OnBoard(target)
    requires TokenOf(source) == chessMove[0..2] && TokenOf(target) == chessMove[2..4]
    ensures WellFormedMove(chessMove) && ParseMove(chessMove) == Move(source, target)
  {
    SquareOfToken(source);
    SquareOfToken(target);
    SquareOfOnBoard(chessMove[0..2]);
    SquareOfOnBoard(chessMove[2..4]);
  }

  /** c2 to c4: the source is file 2, rank 1 and the target file 2, rank 3. */
  lemma ConvertC2C4()
    ensures var r := ConvertChessMoveToGCode("c2c4");
            && r.firstMoveCommand == MotionPrefix + "1" + " Y" + "-3" + MotionSuffix && r.firstMoveWait == 1716
            && r.secondMoveCommand == MotionPrefix + "0" + " Y" + "1" + MotionSuffix && r.secondMoveWait == 572
            && r.backToOriginCommand == MotionPrefix + "-1" + " Y" + "2" + MotionSuffix && r.backToOriginWait == 1144
  {
    var s, t := Square(2, 1), Square(2, 3);
    ParseSample("c2c4", s, t);
    ConvertUsesLegs("c2c4");
    HalfUnitSamples();
    LegSample(Origin, s, "1", "-3", 1716);
    LegSample(s, t, "0", "1", 572);
    LegSample(t, Origin, "-1", "2", 1144);
  }

  /** c2 to e4: a diagonal middle leg. */
  lemma ConvertC2E4()
    ensures var r := ConvertChessMoveToGCode("c2e4");
            && r.firstMoveCommand == MotionPrefix + "1" + " Y" + "-3" + MotionSuffix && r.firstMoveWait == 1716
            && r.secondMoveCommand == MotionPrefix + "1" + " Y" + "1" + MotionSuffix && r.secondMoveWait == 572
            && r.backToOriginCommand == MotionPrefix + "-2" + " Y" + "2" + MotionSuffix && r.backToOriginWait == 1144
  {
    var s, t := Square(2, 1), Square(4, 3);
    ParseSample("c2e4", s, t);
    ConvertUsesLegs("c2e4");
    HalfUnitSamples();
    LegSample(Origin, s, "1", "-3", 1716);
    LegSample(s, t, "1", "1", 572);
    LegSample(t, Origin, "-2", "2", 1144);
  }
}
