/** The brick grid of `createWall_X_axis` / `createWall_Z_axis`, independent
    of which world axis the wall runs along. `Grid` follows the source's two
    nested inclusive loops literally: a real accumulator stepped by 1.5 per
    course and by 3 per brick, compared with `<=`. `CourseCount`,
    `PerCourse` and `CellAt` are the closed form it is proved equal to.

    All the constants (1.5, 3, 0.75) and the arguments the arena uses are
    exact in binary floating point, so reals reproduce the accumulation. */
module WallLayout {

  /** Height of one course of bricks. */
  const COURSE_HEIGHT: real := 1.5

  /** Spacing of bricks along the wall. */
  const BRICK_PITCH: real := 3.0

  /** Horizontal offset of a shifted course: half a brick. */
  const HALF_BRICK: real := 1.5

  /** A brick slot: its coordinate along the wall (offset included) and the
      base height of its course. */
  datatype Cell = Cell(along: real, y: real)

  /** The inner loop: `for (s = start; s <= stop; s += 3)`, one cell per pass. */
  function Course(s: real, stop: real, offset: real, y: real): seq<Cell>
    decreases stop - s
  {
    if s <= stop then [Cell(s + offset, y)] + Course(s + BRICK_PITCH, stop, offset, y) else []
  }

  /** The outer loop from height `y` on: the offset of each course comes from
      `shift`, which flips after every course. */
  function Courses(y: real, yCount: real, shift: bool, start: real, stop: real): seq<Cell>
    decreases yCount - y
  {
    if y <= yCount then
      Course(start, stop, if shift then HALF_BRICK else 0.0, y) + Courses(y + COURSE_HEIGHT, yCount, !shift, start, stop)
    else []
  }

  /** Every brick slot of a wall, in the order the source creates them. */
  function Grid(start: real, stop: real, yCount: real, shift: bool): seq<Cell>
  {
    Courses(0.0, yCount, shift, start, stop)
  }

  /** Number of bricks per course: the passes of `s = start, start+3, ... <= stop`. */
  function PerCourse(start: real, stop: real): nat
  {
    if start <= stop then ((stop - start) / BRICK_PITCH).Floor + 1 else 0
  }

  /** Number of courses: the passes of `y = 0, 1.5, ... <= yCount`. */
  function CourseCount(yCount: real): nat
  {
    if 0.0 <= yCount then (yCount / COURSE_HEIGHT).Floor + 1 else 0
  }

  /** Whether course `n` is shifted, given the initial `shift`. */
  predicate ShiftedAt(shift: bool, n: nat)
  {
    if n % 2 == 0 then shift else !shift
  }

  /** The closed-form slot of brick `m` in course `n`. */
  function CellAt(start: real, shift: bool, n: nat, m: nat): Cell
  {
    Cell(start + BRICK_PITCH * m as real + (if ShiftedAt(shift, n) then HALF_BRICK else 0.0),
         COURSE_HEIGHT * n as real)
  }

  /** The inner loop yields `PerCourse(s, stop)` cells, brick `m` at `s + 3m`
      plus the course offset. */
  lemma {:induction false} CourseShape(s: real, stop: real, offset: real, y: real)
    ensures |Course(s, stop, offset, y)| == PerCourse(s, stop)
    ensures forall m :: 0 <= m < PerCourse(s, stop) ==>
      Course(s, stop, offset, y)[m] == Cell(s + BRICK_PITCH * m as real + offset, y)
    decreases stop - s
  {
    if s <= stop {
      var q := (stop - s) / BRICK_PITCH;
      var c := Course(s, stop, offset, y);
      if s + BRICK_PITCH <= stop {
        CourseShape(s + BRICK_PITCH, stop, offset, y);
        assert (stop - (s + BRICK_PITCH)) / BRICK_PITCH == q - 1.0;
        assert (q - 1.0).Floor == q.Floor - 1;
        forall m | 0 <= m < PerCourse(s, stop)
          ensures c[m] == Cell(s + BRICK_PITCH * m as real + offset, y)
        {
          if m > 0 {
            assert c[m] == Course(s + BRICK_PITCH, stop, offset, y)[m - 1];
          }
        }
      } else {
        assert 0.0 <= q < 1.0;
        assert Course(s + BRICK_PITCH, stop, offset, y) == [];
      }
    }
  }

  /** Course `k` starts at height `1.5 k`, and whether it is shifted
      alternates with `k`. */
  lemma CourseStart(k: nat, shift: bool)
    ensures COURSE_HEIGHT * (k + 1) as real == COURSE_HEIGHT * k as real + COURSE_HEIGHT
    ensures ShiftedAt(shift, k + 1) == !ShiftedAt(shift, k)
  {
  }

  /** The outer loop reaches height `1.5 k` exactly when `k` is below the
      closed-form course count. */
  lemma CourseInRange(k: nat, yCount: real)
    ensures COURSE_HEIGHT * k as real <= yCount <==> k < CourseCount(yCount)
  {
    if COURSE_HEIGHT * k as real <= yCount {
      assert k as real <= yCount / COURSE_HEIGHT;
    } else if 0.0 <= yCount {
      assert yCount / COURSE_HEIGHT < k as real;
    }
  }

  /** One pass of the outer loop at course `k`: below the course count it
      emits course `k` and continues at course `k + 1`; otherwise it stops. */
  lemma CoursesUnfold(k: nat, yCount: real, shift: bool, start: real, stop: real)
    ensures var here := Courses(COURSE_HEIGHT * k as real, yCount, ShiftedAt(shift, k), start, stop);
      if k < CourseCount(yCount) then
        here == Course(start, stop, if ShiftedAt(shift, k) then HALF_BRICK else 0.0, COURSE_HEIGHT * k as real)
                + Courses(COURSE_HEIGHT * (k + 1) as real, yCount, ShiftedAt(shift, k + 1), start, stop)
      else here == []
  {
    CourseInRange(k, yCount);
    CourseStart(k, shift);
  }

  /** The courses from course `k` on hold `CourseCount - k` full courses. */
  lemma {:induction false} CoursesLength(k: nat, yCount: real, shift: bool, start: real, stop: real)
    requires k <= CourseCount(yCount)
    ensures |Courses(COURSE_HEIGHT * k as real, yCount, ShiftedAt(shift, k), start, stop)|
      == (CourseCount(yCount) - k) * PerCourse(start, stop)
    decreases CourseCount(yCount) - k
  {
    var count := CourseCount(yCount);
    var c := PerCourse(start, stop);
    var here := Courses(COURSE_HEIGHT * k as real, yCount, ShiftedAt(shift, k), start, stop);
    if k < count {
      var offset := if ShiftedAt(shift, k) then HALF_BRICK else 0.0;
      var head := Course(start, stop, offset, COURSE_HEIGHT * k as real);
      var tail := Courses(COURSE_HEIGHT * (k + 1) as real, yCount, ShiftedAt(shift, k + 1), start, stop);
      assert here == head + tail by {
        CoursesUnfold(k, yCount, shift, start, stop);
      }
      assert |head| == c by {
        CourseShape(start, stop, offset, COURSE_HEIGHT * k as real);
      }
      assert |tail| == (count - (k + 1)) * c by {
        CoursesLength(k + 1, yCount, shift, start, stop);
      }
      RowShift(count - k, c);
    } else {
      CoursesUnfold(k, yCount, shift, start, stop);
    }
  }

  /** Skipping one row of a row-major layout. */
  lemma RowShift(d: nat, c: nat)
    requires d > 0
    ensures d * c == c + (d - 1) * c
  {
  }

  /** The first `PerCourse` cells of the courses from course `k` on are
      course `k` itself, in closed form. */
  lemma CoursesHead(k: nat, m: nat, yCount: real, shift: bool, start: real, stop: real)
    requires k < CourseCount(yCount) && m < PerCourse(start, stop)
    ensures m < |Courses(COURSE_HEIGHT * k as real, yCount, ShiftedAt(shift, k), start, stop)|
    ensures Courses(COURSE_HEIGHT * k as real, yCount, ShiftedAt(shift, k), start, stop)[m] == CellAt(start, shift, k, m)
  {
    var offset := if ShiftedAt(shift, k) then HALF_BRICK else 0.0;
    var head := Course(start, stop, offset, COURSE_HEIGHT * k as real);
    var tail := Courses(COURSE_HEIGHT * (k + 1) as real, yCount, ShiftedAt(shift, k + 1), start, stop);
    var here := Courses(COURSE_HEIGHT * k as real, yCount, ShiftedAt(shift, k), start, stop);
    assert here == head + tail by {
      CoursesUnfold(k, yCount, shift, start, stop);
    }
    assert m < |head| && head[m] == CellAt(start, shift, k, m) by {
      CourseShape(start, stop, offset, COURSE_HEIGHT * k as real);
    }
    assert (head + tail)[m] == head[m];
  }

  /** Past the first `PerCourse` cells, the courses from course `k` on
      continue with the courses from course `k + 1` on. */
  lemma CoursesTail(k: nat, i: nat, yCount: real, shift: bool, start: real, stop: real)
    requires k < CourseCount(yCount)
    requires i < |Courses(COURSE_HEIGHT * (k + 1) as real, yCount, ShiftedAt(shift, k + 1), start, stop)|
    ensures PerCourse(start, stop) + i < |Courses(COURSE_HEIGHT * k as real, yCount, ShiftedAt(shift, k), start, stop)|
    ensures Courses(COURSE_HEIGHT * k as real, yCount, ShiftedAt(shift, k), start, stop)[PerCourse(start, stop) + i]
      == Courses(COURSE_HEIGHT * (k + 1) as real, yCount, ShiftedAt(shift, k + 1), start, stop)[i]
  {
    var offset := if ShiftedAt(shift, k) then HALF_BRICK else 0.0;
    var head := Course(start, stop, offset, COURSE_HEIGHT * k as real);
    var tail := Courses(COURSE_HEIGHT * (k + 1) as real, yCount, ShiftedAt(shift, k + 1), start, stop);
    var here := Courses(COURSE_HEIGHT * k as real, yCount, ShiftedAt(shift, k), start, stop);
    assert here == head + tail by {
      CoursesUnfold(k, yCount, shift, start, stop);
    }
    assert |head| == PerCourse(start, stop) by {
      CourseShape(start, stop, offset, COURSE_HEIGHT * k as real);
    }
    assert (head + tail)[|head| + i] == tail[i];
  }

  /** Position of column `m` of row `row` in a row-major layout with rows
      of length `c`. */
  function Flat(row: nat, c: nat, m: nat): nat
  {
    row * c + m
  }

  /** The inductive step of `CoursesAt`: a cell of the courses from course
      `k + 1` on reappears one course further along from course `k` on. */
  lemma CoursesAtStep(k: nat, n: nat, m: nat, yCount: real, shift: bool, start: real, stop: real)
    requires k < n < CourseCount(yCount) && m < PerCourse(start, stop)
    requires Flat(n - (k + 1), PerCourse(start, stop), m)
      < |Courses(COURSE_HEIGHT * (k + 1) as real, yCount, ShiftedAt(shift, k + 1), start, stop)|
    requires Courses(COURSE_HEIGHT * (k + 1) as real, yCount, ShiftedAt(shift, k + 1), start, stop)[Flat(n - (k + 1), PerCourse(start, stop), m)]
      == CellAt(start, shift, n, m)
    ensures Flat(n - k, PerCourse(start, stop), m) < |Courses(COURSE_HEIGHT * k as real, yCount, ShiftedAt(shift, k), start, stop)|
    ensures Courses(COURSE_HEIGHT * k as real, yCount, ShiftedAt(shift, k), start, stop)[Flat(n - k, PerCourse(start, stop), m)]
      == CellAt(start, shift, n, m)
  {
    var c := PerCourse(start, stop);
    RowShift(n - k, c);
    assert Flat(n - k, c, m) == c + Flat(n - (k + 1), c, m);
    CoursesTail(k, Flat(n - (k + 1), c, m), yCount, shift, start, stop);
  }

  /** Brick `m` of course `n` sits at index `(n - k) * PerCourse + m` of the
      courses from course `k` on, in the closed-form slot. */
  lemma {:induction false} CoursesAt(k: nat, n: nat, m: nat, yCount: real, shift: bool, start: real, stop: real)
    requires k <= n < CourseCount(yCount) && m < PerCourse(start, stop)
    ensures Flat(n - k, PerCourse(start, stop), m) < |Courses(COURSE_HEIGHT * k as real, yCount, ShiftedAt(shift, k), start, stop)|
    ensures Courses(COURSE_HEIGHT * k as real, yCount, ShiftedAt(shift, k), start, stop)[Flat(n - k, PerCourse(start, stop), m)]
      == CellAt(start, shift, n, m)
    decreases n - k
  {
    if n == k {
      CoursesHead(k, m, yCount, shift, start, stop);
      assert Flat(n - k, PerCourse(start, stop), m) == m;
    } else {
      CoursesAt(k + 1, n, m, yCount, shift, start, stop);
      CoursesAtStep(k, n, m, yCount, shift, start, stop);
    }
  }

  /** The wall is the courses from course 0 on. */
  lemma GridIsCourses(start: real, stop: real, yCount: real, shift: bool)
    ensures Grid(start, stop, yCount, shift) ==
      Courses(COURSE_HEIGHT * 0 as real, yCount, ShiftedAt(shift, 0), start, stop)
  {
  }

  /** A wall holds `CourseCount(yCount)` courses of `PerCourse(start, stop)` bricks. */
  lemma GridLength(start: real, stop: real, yCount: real, shift: bool)
    ensures |Grid(start, stop, yCount, shift)| == CourseCount(yCount) * PerCourse(start, stop)
  {
    GridIsCourses(start, stop, yCount, shift);
    CoursesLength(0, yCount, shift, start, stop);
  }

  /** Brick `m` of course `n` is created at position `n * PerCourse + m` and
      sits in the closed-form slot `CellAt(start, shift, n, m)`. */
  lemma GridAt(start: real, stop: real, yCount: real, shift: bool, n: nat, m: nat)
    requires n < CourseCount(yCount) && m < PerCourse(start, stop)
    ensures Flat(n, PerCourse(start, stop), m) < |Grid(start, stop, yCount, shift)|
    ensures Grid(start, stop, yCount, shift)[Flat(n, PerCourse(start, stop), m)] == CellAt(start, shift, n, m)
  {
    GridIsCourses(start, stop, yCount, shift);
    CoursesAt(0, n, m, yCount, shift, start, stop);
  }

  lemma MulMono(a: nat, b: nat, c: nat)
    requires a <= b
    ensures a * c <= b * c
  {
  }

  /** Position `i` of a row-major grid with rows of length `c` is row
      `i / c`, column `i % c`. */
  lemma RowMajor(i: nat, c: nat, count: nat)
    requires i < count * c
    ensures c > 0 && i / c < count && i % c < c
    ensures i == (i / c) * c + i % c
  {
    if i / c >= count {
      MulMono(count, i / c, c);
    }
  }

  /** The closed form of a wall: course after course, brick after brick,
      each in its slot. */
  function Slots(start: real, stop: real, yCount: real, shift: bool): seq<Cell>
  {
    var c := PerCourse(start, stop);
    var count := CourseCount(yCount);
    seq(count * c, i requires 0 <= i < count * c =>
      RowMajor(i, c, count); CellAt(start, shift, i / c, i % c))
  }

  /** The accumulate-and-compare loops produce exactly the closed form. */
  lemma GridIsSlots(start: real, stop: real, yCount: real, shift: bool)
    ensures Grid(start, stop, yCount, shift) == Slots(start, stop, yCount, shift)
  {
    var g := Grid(start, stop, yCount, shift);
    var s := Slots(start, stop, yCount, shift);
    var c := PerCourse(start, stop);
    var count := CourseCount(yCount);
    GridLength(start, stop, yCount, shift);
    forall i | 0 <= i < |g|
      ensures g[i] == s[i]
    {
      RowMajor(i, c, count);
      GridAt(start, stop, yCount, shift, i / c, i % c);
    }
  }
}
