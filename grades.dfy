/**
 * Cumulative grades (script.js `calculateCumulativeGrade`,
 * `updateAllCumulativeGrades`): on a level marked `gradeCumulative`, a unit's
 * grade is the sum of its children's, computed recursively down to the last level.
 */
module Grades {
  import opened Workflow

  /** Depth `depth` has a level, and that level sums its children's grades. */
  predicate Cumulative(levels: seq<Level>, depth: nat)
  {
    depth < |levels| && levels[depth].gradeCumulative
  }

  /**
   * `calculateCumulativeGrade(unit, template, depth)`: the unit's own grade
   * when the level is missing, not cumulative, or the last one; otherwise the
   * sum over its children (0 for none), each computed one level deeper.
   */
  function CumulativeGrade(u: Node, levels: seq<Level>, depth: nat): int
    decreases u
  {
    if !Cumulative(levels, depth) || depth + 1 >= |levels| then u.grade
    else SumGrades(u.subcategories, levels, depth + 1)
  }

  /** The `reduce` over the children: the sum of their computed grades. */
  function SumGrades(units: seq<Node>, levels: seq<Level>, depth: nat): int
    decreases units
  {
    if units == [] then 0
    else SumGrades(units[..|units| - 1], levels, depth) + CumulativeGrade(units[|units| - 1], levels, depth)
  }

  /** The plain sum of the units' stored grades. */
  function GradeSum(units: seq<Node>): int
  {
    if units == [] then 0 else GradeSum(units[..|units| - 1]) + units[|units| - 1].grade
  }

  /**
   * What `updateAllCumulativeGrades` does to one unit at `depth`: on a
   * cumulative level the grade becomes the computed one, and above the last
   * level the children are updated one level deeper.
   */
  function UpdateUnit(u: Node, levels: seq<Level>, depth: nat): Node
    decreases u
  {
    u.(grade := if Cumulative(levels, depth) then CumulativeGrade(u, levels, depth) else u.grade,
       subcategories := if depth + 1 < |levels| then UpdateUnits(u.subcategories, levels, depth + 1) else u.subcategories)
  }

  /** `updateAllCumulativeGrades(units, template, depth)`: every unit of the list updated, in order. */
  function UpdateUnits(units: seq<Node>, levels: seq<Level>, depth: nat): (r: seq<Node>)
    ensures |r| == |units|
    ensures forall i :: 0 <= i < |units| ==> r[i] == UpdateUnit(units[i], levels, depth)
    decreases units
  {
    if units == [] then []
    else UpdateUnits(units[..|units| - 1], levels, depth) + [UpdateUnit(units[|units| - 1], levels, depth)]
  }

  /** The loop of `updateAllCumulativeGrades`, recursing into the children of each unit. */
  method UpdateAllCumulativeGrades(units: seq<Node>, levels: seq<Level>, depth: nat) returns (r: seq<Node>)
    ensures r == UpdateUnits(units, levels, depth)
    decreases units
  {
    r := [];
    var i := 0;
    while i < |units|
      invariant 0 <= i <= |units|
      invariant r == UpdateUnits(units[..i], levels, depth)
    {
      var unit := units[i];
      if Cumulative(levels, depth) {
        unit := unit.(grade := CumulativeGrade(units[i], levels, depth));
      }
      if depth + 1 < |levels| {
        var children := UpdateAllCumulativeGrades(units[i].subcategories, levels, depth + 1);
        unit := unit.(subcategories := children);
      }
      assert units[..i + 1][..i] == units[..i];
      r := r + [unit];
      i := i + 1;
    }
    assert units[..i] == units;
  }

  /** After the update every unit's stored grade is its computed grade, on every level. */
  lemma UpdatedGradeIsComputed(u: Node, levels: seq<Level>, depth: nat)
    ensures UpdateUnit(u, levels, depth).grade == CumulativeGrade(u, levels, depth)
  {
  }

  /** The children's computed grades sum to the sum of the updated children's stored grades. */
  lemma {:induction false} SumGradesOfUpdated(units: seq<Node>, levels: seq<Level>, depth: nat)
    ensures GradeSum(UpdateUnits(units, levels, depth)) == SumGrades(units, levels, depth)
    decreases units
  {
    if units != [] {
      var r := UpdateUnits(units, levels, depth);
      SumGradesOfUpdated(units[..|units| - 1], levels, depth);
      assert r[..|r| - 1] == UpdateUnits(units[..|units| - 1], levels, depth);
      UpdatedGradeIsComputed(units[|units| - 1], levels, depth);
    }
  }

  /**
   * After the update, a unit on a cumulative level above the last one stores
   * exactly the sum of its updated children's stored grades.
   */
  lemma UpdatedGradeIsSum(u: Node, levels: seq<Level>, depth: nat)
    requires Cumulative(levels, depth) && depth + 1 < |levels|
    ensures UpdateUnit(u, levels, depth).grade == GradeSum(UpdateUnit(u, levels, depth).subcategories)
  {
    SumGradesOfUpdated(u.subcategories, levels, depth + 1);
  }

  /** Updating does not change any computed grade. */
  lemma {:induction false} CumulativeGradeStable(u: Node, levels: seq<Level>, depth: nat)
    ensures CumulativeGrade(UpdateUnit(u, levels, depth), levels, depth) == CumulativeGrade(u, levels, depth)
    decreases u, 0
  {
    if Cumulative(levels, depth) && depth + 1 < |levels| {
      SumGradesStable(u.subcategories, levels, depth + 1);
    }
  }

  lemma {:induction false} SumGradesStable(units: seq<Node>, levels: seq<Level>, depth: nat)
    ensures SumGrades(UpdateUnits(units, levels, depth), levels, depth) == SumGrades(units, levels, depth)
    decreases units, 1
  {
    if units != [] {
      var r := UpdateUnits(units, levels, depth);
      assert r[..|r| - 1] == UpdateUnits(units[..|units| - 1], levels, depth);
      SumGradesStable(units[..|units| - 1], levels, depth);
      CumulativeGradeStable(units[|units| - 1], levels, depth);
    }
  }

  /** Running the update twice gives what running it once gives. */
  lemma {:induction false} UpdateUnitIdempotent(u: Node, levels: seq<Level>, depth: nat)
    ensures UpdateUnit(UpdateUnit(u, levels, depth), levels, depth) == UpdateUnit(u, levels, depth)
    decreases u, 0
  {
    CumulativeGradeStable(u, levels, depth);
    if depth + 1 < |levels| {
      UpdateUnitsIdempotent(u.subcategories, levels, depth + 1);
    }
  }

  lemma {:induction false} UpdateUnitsIdempotent(units: seq<Node>, levels: seq<Level>, depth: nat)
    ensures UpdateUnits(UpdateUnits(units, levels, depth), levels, depth) == UpdateUnits(units, levels, depth)
    decreases units, 1
  {
    var once := UpdateUnits(units, levels, depth);
    forall i | 0 <= i < |units|
      ensures UpdateUnit(once[i], levels, depth) == once[i]
    {
      UpdateUnitIdempotent(units[i], levels, depth);
    }
  }

  /** The update changes grades only: every other field of the unit, and the number of its children, stay. */
  lemma UpdateUnitKeepsShape(u: Node, levels: seq<Level>, depth: nat)
    ensures var v := UpdateUnit(u, levels, depth);
      v.(grade := u.grade, subcategories := u.subcategories) == u && |v.subcategories| == |u.subcategories|
  {
  }
}
