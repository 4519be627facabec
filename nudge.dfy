/** The nudge calculator `moveCommandToChangeSchemasArg`: an arrow key (with
    or without shift) becomes one `position.x`/`position.y` edit per active
    schema, clamped against the page's far edge only. */
module Nudge {
  import opened Schemas
  import opened Mutation

  datatype Command = Up | Down | Left | Right

  /** 0.1 with shift, 1 without, in hundredths. */
  function Step(isShift: bool): int
  {
    if isShift then 10 else 100
  }

  predicate Vertical(command: Command)
  {
    command == Up || command == Down
  }

  /** Up and left subtract the step, down and right add it. */
  function Direction(command: Command): int
  {
    if command == Up || command == Left then -1 else 1
  }

  /** The coordinate the command moves along. */
  function Coordinate(command: Command, s: Schema): int
  {
    if Vertical(command) then s.position.y else s.position.x
  }

  /** The largest coordinate that keeps the schema's far edge on the page. */
  function Limit(command: Command, s: Schema, pageSize: Size): int
  {
    if Vertical(command) then pageSize.height - s.height else pageSize.width - s.width
  }

  /** `getValue`: the stepped coordinate before clamping. */
  function Stepped(command: Command, isShift: bool, s: Schema): (v: int)
    ensures v == Coordinate(command, s) + Direction(command) * Step(isShift)
  {
    var num := Step(isShift);
    match command
    case Up => s.position.y - num
    case Down => s.position.y + num
    case Left => s.position.x - num
    case Right => s.position.x + num
  }

  /** The new coordinate: the stepped value, unless it passes the page's
      far edge, in which case exactly that edge. There is no lower clamp. */
  function MoveValue(command: Command, isShift: bool, s: Schema, pageSize: Size): (v: int)
    ensures v <= Limit(command, s, pageSize)
    ensures Coordinate(command, s) + Direction(command) * Step(isShift) > Limit(command, s, pageSize)
            ==> v == Limit(command, s, pageSize)
    ensures Coordinate(command, s) + Direction(command) * Step(isShift) <= Limit(command, s, pageSize)
            ==> v == Coordinate(command, s) + Direction(command) * Step(isShift)
  {
    var value := Stepped(command, isShift, s);
    if value > Limit(command, s, pageSize) then Limit(command, s, pageSize) else value
  }

  /** The triple's edit: the command's axis, set to the clamped value. */
  function MoveEdit(command: Command, isShift: bool, s: Schema, pageSize: Size): (e: Edit)
    ensures e.SetX? || e.SetY?
    ensures e.SetY? <==> Vertical(command)
    ensures (if e.SetY? then e.y else e.x) <= Limit(command, s, pageSize)
  {
    if Vertical(command) then SetY(MoveValue(command, isShift, s, pageSize))
    else SetX(MoveValue(command, isShift, s, pageSize))
  }

  /** One triple per active schema, same ids, same order; the triple sets
      `position.y` for up/down and `position.x` for left/right. */
  function MoveCommandToChangeSchemasArg(command: Command, activeSchemas: seq<Schema>,
                                         isShift: bool, pageSize: Size): (r: seq<Change>)
    ensures |r| == |activeSchemas|
    ensures forall i :: 0 <= i < |r| ==> r[i].schemaId == activeSchemas[i].id
    ensures forall i :: 0 <= i < |r| ==>
              if Vertical(command) then r[i].edit.SetY? else r[i].edit.SetX?
    ensures forall i :: 0 <= i < |r| ==>
              r[i].edit == MoveEdit(command, isShift, activeSchemas[i], pageSize)
  {
    seq(|activeSchemas|, i requires 0 <= i < |activeSchemas| =>
      Change(activeSchemas[i].id, MoveEdit(command, isShift, activeSchemas[i], pageSize)))
  }

  /** Applying a nudge moves the schema along one axis and changes nothing
      else: the other coordinate, the size, the type and the payload stay. */
  lemma MoveEditEffect(command: Command, isShift: bool, s: Schema, pageSize: Size, h: Helpers)
    ensures var t := ApplyEdit(s, MoveEdit(command, isShift, s, pageSize), h);
            Coordinate(command, t) == MoveValue(command, isShift, s, pageSize) &&
            Coordinate(if Vertical(command) then Left else Up, t) ==
              Coordinate(if Vertical(command) then Left else Up, s) &&
            t.(position := s.position) == s
  {
  }

  /** The schema after `n` presses of the same arrow key, each applied to the
      result of the previous one through the bulk-edit pipeline. */
  ghost function Nudged(command: Command, isShift: bool, s: Schema, pageSize: Size,
                        h: Helpers, n: nat): Schema
  {
    if n == 0 then s
    else
      var t := Nudged(command, isShift, s, pageSize, h, n - 1);
      var arg := MoveCommandToChangeSchemasArg(command, [t], isShift, pageSize);
      assert Ids([t]) == [t.id];
      ApplyChanges([t], arg, h)[0]
  }

  lemma NudgedOnce(command: Command, isShift: bool, s: Schema, pageSize: Size, h: Helpers, n: nat)
    requires n > 0
    ensures var t := Nudged(command, isShift, s, pageSize, h, n - 1);
            Nudged(command, isShift, s, pageSize, h, n) ==
              ApplyEdit(t, MoveEdit(command, isShift, t, pageSize), h)
  {
    var t := Nudged(command, isShift, s, pageSize, h, n - 1);
    var arg := MoveCommandToChangeSchemasArg(command, [t], isShift, pageSize);
    assert Ids([t]) == [t.id];
    assert arg[..0] == [];
    assert ApplyChanges([t], arg[..0], h) == [t];
    assert FindIndex([t], t.id) == 0;
    assert ApplyChanges([t], arg, h) == ApplyChange([t], arg[0], h);
  }

  /** Repeated down/right presses converge to the page's far edge and stay
      there: after n >= 1 presses the coordinate is
      min(start + n * step, limit), whatever the start. */
  lemma {:induction false} RepeatedForwardMove(command: Command, isShift: bool, s: Schema,
                                               pageSize: Size, h: Helpers, n: nat)
    requires command == Down || command == Right
    requires n >= 1
    ensures var t := Nudged(command, isShift, s, pageSize, h, n);
            var bound := Limit(command, s, pageSize);
            var target := Coordinate(command, s) + n * Step(isShift);
            t.width == s.width && t.height == s.height &&
            Coordinate(command, t) == (if target > bound then bound else target)
  {
    var t := Nudged(command, isShift, s, pageSize, h, n - 1);
    NudgedOnce(command, isShift, s, pageSize, h, n);
    MoveEditEffect(command, isShift, t, pageSize, h);
    if n > 1 {
      RepeatedForwardMove(command, isShift, s, pageSize, h, n - 1);
    }
  }

  /** Up/left presses are clamped only from above: the first press gives
      min(start - step, limit), whatever the start, and every later press
      subtracts one more step with no lower clamp. */
  lemma {:induction false} RepeatedBackwardMove(command: Command, isShift: bool, s: Schema,
                                                pageSize: Size, h: Helpers, n: nat)
    requires command == Up || command == Left
    requires n >= 1
    ensures var t := Nudged(command, isShift, s, pageSize, h, n);
            var bound := Limit(command, s, pageSize);
            var first := Coordinate(command, s) - Step(isShift);
            t.width == s.width && t.height == s.height &&
            Coordinate(command, t) == (if first > bound then bound else first) - (n - 1) * Step(isShift)
  {
    var t := Nudged(command, isShift, s, pageSize, h, n - 1);
    NudgedOnce(command, isShift, s, pageSize, h, n);
    MoveEditEffect(command, isShift, t, pageSize, h);
    if n > 1 {
      RepeatedBackwardMove(command, isShift, s, pageSize, h, n - 1);
    }
  }

  /** From a coordinate within the page, n up/left presses subtract exactly
      n steps, so the result may be negative. */
  lemma BackwardMoveWithinLimit(command: Command, isShift: bool, s: Schema,
                                pageSize: Size, h: Helpers, n: nat)
    requires command == Up || command == Left
    requires Coordinate(command, s) <= Limit(command, s, pageSize)
    ensures var t := Nudged(command, isShift, s, pageSize, h, n);
            t.width == s.width && t.height == s.height &&
            Coordinate(command, t) == Coordinate(command, s) - n * Step(isShift)
  {
    if n > 0 {
      RepeatedBackwardMove(command, isShift, s, pageSize, h, n);
    }
  }
}
