/** The moving entity and the grid it moves on. */
module Objects {
  import opened Vectors

  /** The state of an entity: where it is and which way it faces. */
  datatype Pose = Pose(position: Vec, rotation: Vec)

  /** The pose after the position is shifted by v. */
  function Moved(p: Pose, v: Vec): (q: Pose) {
    Pose(Add(p.position, v), p.rotation)
  }

  /** The pose after `value` steps along the facing direction. */
  function Forward(p: Pose, value: int): (q: Pose) {
    Moved(p, Scale(p.rotation, value))
  }

  /** The pose after q clockwise quarter turns. */
  function Turned(p: Pose, q: int): (t: Pose) {
    Pose(p.position, RotateQuarters(p.rotation, q))
  }

  /** Stepping forward changes the position by `value` times the facing
      direction and never the facing direction itself. */
  lemma ForwardMovesAlongRotation(p: Pose, value: int)
    ensures Forward(p, value).rotation == p.rotation
    ensures Forward(p, value).position.x - p.position.x == value * p.rotation.x
    ensures Forward(p, value).position.y - p.position.y == value * p.rotation.y
  {
  }

  /** `value` steps forward and `value` steps back restore the pose; with the
      default step counts (1 forward, -1 back) that is one step each way. */
  lemma ForwardThenBackRestores(p: Pose, value: int)
    ensures Forward(Forward(p, value), -value) == p
  {
  }

  /** Turning leaves the position alone, and turning clockwise and then
      counter-clockwise leaves the whole pose alone. */
  lemma TurningKeepsPosition(p: Pose, q: int)
    ensures Turned(p, q).position == p.position
    ensures Turned(Turned(p, 1), -1) == p
  {
    RotateQuartersUnit(p.rotation);
    RotateQuartersUnit(Clockwise(p.rotation));
  }

  /** Opposite axis moves cancel: up then down, and right then left. */
  lemma OppositeMovesCancel(p: Pose, value: int)
    ensures Moved(Moved(p, Vec(0, -value)), Vec(0, value)) == p
    ensures Moved(Moved(p, Vec(value, 0)), Vec(-value, 0)) == p
  {
  }

  /** A point object with a position and a facing direction, both changed in
      place. The origin is the top-left corner and y grows downwards. */
  class MovingObject {
    var position: Vec
    var rotation: Vec

    function State(): Pose
      reads this
    {
      Pose(position, rotation)
    }

    constructor (posX: int := 0, posY: int := 0, rotX: int := 0, rotY: int := 0)
      ensures State() == Pose(Vec(posX, posY), Vec(rotX, rotY))
    {
      position := Vec(posX, posY);
      rotation := Vec(rotX, rotY);
    }

    method SetRotation(rotation: Vec)
      modifies this
      ensures State() == Pose(old(position), rotation)
    {
      this.rotation := rotation;
    }

    /** Rotation by `angle` degrees, for angles that are whole quarter turns;
        a positive angle turns clockwise on the y-down grid. */
    method Rotate(angle: int)
      requires angle % 90 == 0
      modifies this
      ensures State() == Turned(old(State()), angle / 90)
    {
      rotation := RotateQuarters(rotation, angle / 90);
    }

    method SetPosition(position: Vec)
      modifies this
      ensures State() == Pose(position, old(rotation))
    {
      this.position := position;
    }

    method GetPosition() returns (p: Vec)
      ensures p == position
    {
      p := position;
    }

    method GetRotation() returns (r: Vec)
      ensures r == rotation
    {
      r := rotation;
    }

    method RotateClockwise()
      modifies this
      ensures State() == Turned(old(State()), 1)
      ensures position == old(position) && rotation == Clockwise(old(rotation))
    {
      Rotate(90);
      RotateQuartersUnit(old(rotation));
    }

    method RotateCounterClockwise()
      modifies this
      ensures State() == Turned(old(State()), -1)
      ensures position == old(position) && rotation == CounterClockwise(old(rotation))
    {
      Rotate(-90);
      RotateQuartersUnit(old(rotation));
    }

    method Move(vector: Vec)
      modifies this
      ensures State() == Moved(old(State()), vector)
    {
      position := Add(position, vector);
    }

    method MoveRight(value: int := 1)
      modifies this
      ensures State() == Moved(old(State()), Vec(value, 0))
    {
      Move(Vec(value, 0));
    }

    method MoveLeft(value: int := 1)
      modifies this
      ensures State() == Moved(old(State()), Vec(-value, 0))
    {
      Move(Vec(-value, 0));
    }

    method MoveUp(value: int := 1)
      modifies this
      ensures State() == Moved(old(State()), Vec(0, -value))
    {
      Move(Vec(0, -value));
    }

    method MoveDown(value: int := 1)
      modifies this
      ensures State() == Moved(old(State()), Vec(0, value))
    {
      Move(Vec(0, value));
    }

    /** `value` steps along the facing direction; the direction itself is
        read, not changed. */
    method MoveForward(value: int := 1)
      modifies this
      ensures State() == Forward(old(State()), value)
    {
      position := Add(position, Scale(rotation, value));
    }

    /** The same step as MoveForward, with a default of -1 steps: without an
        argument the object steps back, with a positive one it steps forward. */
    method MoveBackwards(value: int := -1)
      modifies this
      ensures State() == Forward(old(State()), value)
    {
      position := Add(position, Scale(rotation, value));
    }
  }

  /** A rectangular 0/1 matrix as the matrix library keeps it: a list of rows
      and its size (rows, columns). The size is kept apart from the rows so
      that a matrix with no rows still has a column count. */
  datatype Matrix = Matrix(rows: seq<seq<bool>>, height: nat, width: nat) {
    predicate Valid() {
      |rows| == height && forall i :: 0 <= i < |rows| ==> |rows[i]| == width
    }

    /** The entry at row i, column j. */
    function Get(i: int, j: int): (b: bool)
      requires Valid() && 0 <= i < height && 0 <= j < width
    {
      rows[i][j]
    }
  }

  /** Every row as long as the first. */
  predicate Rectangular(data: seq<seq<bool>>) {
    forall i :: 0 <= i < |data| ==> |data[i]| == |data[0]|
  }

  /** The height-by-width matrix of ones. */
  function Ones(height: nat, width: nat): (m: Matrix)
    ensures m.Valid() && m.height == height && m.width == width
    ensures forall i, j :: 0 <= i < height && 0 <= j < width ==> m.Get(i, j)
  {
    Matrix(seq(height, _ => seq(width, _ => true)), height, width)
  }

  /** The matrix whose rows are `data`, top row first. */
  function FromRows(data: seq<seq<bool>>): (m: Matrix)
    requires Rectangular(data)
    ensures m.Valid() && m.height == |data|
    ensures m.width == if data == [] then 0 else |data[0]|
    ensures forall i, j :: 0 <= i < m.height && 0 <= j < m.width ==> m.Get(i, j) == data[i][j]
  {
    Matrix(data, |data|, if data == [] then 0 else |data[0]|)
  }

  /** The area the object may stand on. */
  class Grid {
    var matrix: Matrix

    ghost predicate Valid()
      reads this
    {
      matrix.Valid()
    }

    /** A fully occupied height-by-width grid. */
    constructor (height: nat := 0, width: nat := 0)
      ensures Valid() && matrix == Ones(height, width)
    {
      matrix := Ones(height, width);
    }

    /** Replaces the whole occupancy matrix; returns the grid itself. */
    method SetShape(data: seq<seq<bool>>) returns (self: Grid)
      requires Rectangular(data)
      modifies this
      ensures Valid() && matrix == FromRows(data) && self == this
    {
      matrix := FromRows(data);
      self := this;
    }

    method GetMatrix() returns (m: Matrix)
      ensures m == matrix
    {
      m := matrix;
    }

    /** The cell in column x of row y: the matrix is indexed [y][x]. */
    function GetValue(x: int, y: int): (b: bool)
      reads this
      requires Valid() && 0 <= x < matrix.width && 0 <= y < matrix.height
    {
      matrix.Get(y, x)
    }

    /** Whether the position lies inside the matrix on an occupied cell;
        a position outside the matrix is never inside, whatever its size. */
    predicate IsInside(position: Vec)
      reads this
      requires Valid()
      ensures IsInside(position) ==> 0 <= position.x < matrix.width && 0 <= position.y < matrix.height
    {
      var x, y := position.x, position.y;
      var width, height := matrix.width, matrix.height;
      if x < 0 || y < 0 || x > width - 1 || y > height - 1 then false
      else GetValue(x, y)
    }
  }

  /** On a default grid, inside means exactly within the bounds. */
  lemma DefaultGridInside(g: Grid, height: nat, width: nat, p: Vec)
    requires g.matrix == Ones(height, width)
    ensures g.IsInside(p) <==> 0 <= p.x < width && 0 <= p.y < height
  {
  }

  /** On a shaped grid, an in-range position is inside exactly when its cell
      data[y][x] is occupied. */
  lemma ShapedGridInside(g: Grid, data: seq<seq<bool>>, p: Vec)
    requires Rectangular(data) && g.matrix == FromRows(data)
    requires 0 <= p.y < |data| && 0 <= p.x < |data[p.y]|
    ensures g.IsInside(p) == data[p.y][p.x]
  {
  }

  /** On a shaped grid, the value at column x of row y is data[y][x]: the
      first argument indexes the column, the second the row. */
  lemma ShapedGridValue(g: Grid, data: seq<seq<bool>>, x: int, y: int)
    requires Rectangular(data) && g.matrix == FromRows(data)
    requires 0 <= y < |data| && 0 <= x < |data[y]|
    ensures g.GetValue(x, y) == data[y][x]
  {
  }
}
