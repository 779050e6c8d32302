/**
 * The rules of the board: moves are clamped to the cells' centres between
 * 5 and 95, a star is collected when the agent comes within 5 of it on both
 * axes, the edge test of the IF_EDGE block, and the win rule of a level.
 */
module Board {
  import opened Types

  const StepSize := 10
  const MinPos := 5
  const MaxPos := 95
  const TouchRadius := 5

  function Abs(v: int): int {
    if v < 0 then -v else v
  }

  /** Math.max(5, Math.min(95, v)). */
  function Clamp(v: int): (r: int)
    ensures MinPos <= r <= MaxPos
    ensures MinPos <= v <= MaxPos ==> r == v
    ensures v < MinPos ==> r == MinPos
    ensures v > MaxPos ==> r == MaxPos
  {
    if v < MinPos then MinPos else if v > MaxPos then MaxPos else v
  }

  /** The centre of one of the ten cells along an axis: 5, 15, ..., 95. */
  predicate Cell(v: int) {
    MinPos <= v <= MaxPos && v % StepSize == 5
  }

  /** A star is touched when it lies strictly within 5 of the agent on both axes. */
  predicate Touches(s: Star, x: int, y: int) {
    Abs(s.x - x) < TouchRadius && Abs(s.y - y) < TouchRadius
  }

  /** The stars that a move to (x, y) leaves on the board, in their order. */
  function Uncollected(stars: seq<Star>, x: int, y: int): (r: seq<Star>)
    ensures |r| <= |stars|
  {
    if stars == [] then []
    else
      var rest := Uncollected(stars[1..], x, y);
      if Touches(stars[0], x, y) then rest else [stars[0]] + rest
  }

  /** a is b with some of its stars left out, the others in their order. */
  predicate SubStars(a: seq<Star>, b: seq<Star>)
    decreases b
  {
    || a == b
    || (b != [] && ((a != [] && a[0] == b[0] && SubStars(a[1..], b[1..])) || SubStars(a, b[1..])))
  }

  /** Leaving stars out twice is leaving them out once. */
  lemma {:induction false} SubStarsTrans(a: seq<Star>, b: seq<Star>, c: seq<Star>)
    requires SubStars(a, b) && SubStars(b, c)
    ensures SubStars(a, c)
    decreases c
  {
    if a != b && b != c {
      if SubStars(b, c[1..]) {
        SubStarsTrans(a, b, c[1..]);
      } else if a != [] && a[0] == b[0] && SubStars(a[1..], b[1..]) {
        SubStarsTrans(a[1..], b[1..], c[1..]);
      } else {
        SubStarsTrans(a, b[1..], c[1..]);
      }
    }
  }

  /** The stars left are exactly the untouched ones, and the others in their order. */
  lemma {:induction false} UncollectedSpec(stars: seq<Star>, x: int, y: int)
    ensures forall s :: s in Uncollected(stars, x, y) <==> s in stars && !Touches(s, x, y)
    ensures SubStars(Uncollected(stars, x, y), stars)
  {
    if stars != [] {
      UncollectedSpec(stars[1..], x, y);
    }
  }

  /** Each star occurs in the result as often as in the input when untouched, and not at all when touched. */
  lemma {:induction false} UncollectedCounts(stars: seq<Star>, x: int, y: int)
    ensures forall s :: multiset(Uncollected(stars, x, y))[s] == if Touches(s, x, y) then 0 else multiset(stars)[s]
  {
    if stars != [] {
      UncollectedCounts(stars[1..], x, y);
      assert stars == [stars[0]] + stars[1..];
    }
  }

  /** The edge test shared by the IF_EDGE "any" selector and the first level's goal. */
  predicate AtEdge(x: int, y: int) {
    x <= MinPos || x >= MaxPos || y <= MinPos || y >= MaxPos
  }

  /**
   * The IF_EDGE condition for the block's value: no value means "any", a
   * number or an unknown selector is never met. The y axis points up, so
   * "top" is y >= 95.
   */
  predicate EdgeMet(selector: Value, x: int, y: int) {
    match selector
    case Absent => AtEdge(x, y)
    case Num(_) => false
    case Str(s) =>
      if s == "any" then AtEdge(x, y)
      else if s == "left" then x <= MinPos
      else if s == "right" then x >= MaxPos
      else if s == "top" then y >= MaxPos
      else if s == "bottom" then y <= MinPos
      else false
  }

  /**
   * The goal of a level: level 1 is won at the edge of the board, a level
   * with stars when none is left, any other level never.
   */
  predicate Won(lv: Level, x: int, y: int, stars: seq<Star>) {
    if lv.id == 1 then AtEdge(x, y)
    else if lv.stars > 0 then |stars| == 0
    else false
  }

  /** Every named selector is a special case of the "any" test, and together they cover it. */
  lemma EdgeSelectorsCoverAny(v: Value, x: int, y: int)
    ensures EdgeMet(v, x, y) ==> AtEdge(x, y)
    ensures EdgeMet(Absent, x, y) <==> EdgeMet(Str("any"), x, y)
    ensures AtEdge(x, y) <==>
      EdgeMet(Str("left"), x, y) || EdgeMet(Str("right"), x, y) ||
      EdgeMet(Str("top"), x, y) || EdgeMet(Str("bottom"), x, y)
  {
  }

  /** A move from a cell centre, clamped, lands on a cell centre one step away or stays. */
  lemma {:induction false} MoveKeepsCell(v: int, d: int)
    requires Cell(v)
    requires d == StepSize || d == -StepSize
    ensures Cell(Clamp(v + d))
    ensures Clamp(v + d) == v || Clamp(v + d) == v + d
  {
  }

  /** On cell centres, touching a star means standing on the star's cell. */
  lemma TouchMeansSameCell(s: Star, x: int, y: int)
    requires Cell(s.x) && Cell(s.y) && Cell(x) && Cell(y)
    ensures Touches(s, x, y) <==> s.x == x && s.y == y
  {
  }

  /** The stars lie on distinct cell centres. */
  predicate DistinctCells(stars: seq<Star>) {
    && (forall i :: 0 <= i < |stars| ==> Cell(stars[i].x) && Cell(stars[i].y))
    && (forall i, j :: 0 <= i < j < |stars| ==> stars[i].x != stars[j].x || stars[i].y != stars[j].y)
  }

  /**
   * With the stars on distinct cell centres and the agent on a cell centre,
   * one move collects at most one star, and exactly one when a star lies on
   * the agent's cell.
   */
  lemma {:induction false} AtMostOneCollected(stars: seq<Star>, x: int, y: int)
    requires DistinctCells(stars)
    requires Cell(x) && Cell(y)
    ensures |stars| - 1 <= |Uncollected(stars, x, y)|
    ensures |Uncollected(stars, x, y)| == |stars| - 1 <==>
      exists i :: 0 <= i < |stars| && stars[i].x == x && stars[i].y == y
  {
    if stars != [] {
      var tail := stars[1..];
      assert DistinctCells(tail) by {
        forall i, j | 0 <= i < j < |tail|
          ensures tail[i].x != tail[j].x || tail[i].y != tail[j].y
        {
          assert tail[i] == stars[i + 1] && tail[j] == stars[j + 1];
        }
      }
      AtMostOneCollected(tail, x, y);
      TouchMeansSameCell(stars[0], x, y);
      if Touches(stars[0], x, y) {
        // No other star shares the agent's cell, so the tail keeps all its stars.
        forall s | s in tail ensures !Touches(s, x, y) {
          var k :| 0 <= k < |tail| && tail[k] == s;
          assert stars[k + 1] == s;
          TouchMeansSameCell(s, x, y);
        }
        NoneTouchedKeepsAll(tail, x, y);
      } else {
        if exists i :: 0 <= i < |stars| && stars[i].x == x && stars[i].y == y {
          var i :| 0 <= i < |stars| && stars[i].x == x && stars[i].y == y;
          assert i > 0 && tail[i - 1] == stars[i];
        }
        if exists i :: 0 <= i < |tail| && tail[i].x == x && tail[i].y == y {
          var i :| 0 <= i < |tail| && tail[i].x == x && tail[i].y == y;
          assert stars[i + 1] == tail[i];
        }
      }
    }
  }

  lemma {:induction false} NoneTouchedKeepsAll(stars: seq<Star>, x: int, y: int)
    requires forall s :: s in stars ==> !Touches(s, x, y)
    ensures Uncollected(stars, x, y) == stars
  {
    if stars != [] {
      assert stars[0] in stars && !Touches(stars[0], x, y);
      assert forall s :: s in stars[1..] ==> s in stars;
      NoneTouchedKeepsAll(stars[1..], x, y);
      assert stars == [stars[0]] + stars[1..];
    }
  }
}
