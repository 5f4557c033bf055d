/**
 * The `Total` component of the typed course app: the number of exercises
 * over all course parts, a `reduce` of `exerciseCount` starting from 0.
 */
module CourseTotal {
  import opened Seqs

  /** A course part; its other, kind-specific fields play no part in the total. */
  datatype CoursePart = CoursePart(name: string, exerciseCount: int)

  function AddPart(sum: int, part: CoursePart): int {
    sum + part.exerciseCount
  }

  /** `parts.reduce((sum, part) => sum + part.exerciseCount, 0)` */
  function TotalExercises(parts: seq<CoursePart>): int {
    FoldLeft(AddPart, 0, parts)
  }

  /** No parts total 0, and one part totals its own count. */
  lemma TotalOfFew(p: CoursePart)
    ensures TotalExercises([]) == 0
    ensures TotalExercises([p]) == p.exerciseCount
  {
    assert [p][..0] == [];
  }

  /** Appending a part adds its count. */
  lemma TotalAppend(parts: seq<CoursePart>, p: CoursePart)
    ensures TotalExercises(parts + [p]) == TotalExercises(parts) + p.exerciseCount
  {
    assert (parts + [p])[..|parts|] == parts;
  }

  /** The total of two lists of parts is the sum of their totals, so the order of blocks does not matter. */
  lemma {:induction false} TotalConcat(a: seq<CoursePart>, b: seq<CoursePart>)
    ensures TotalExercises(a + b) == TotalExercises(a) + TotalExercises(b)
  {
    if b == [] {
      assert a + b == a;
    } else {
      var init := b[..|b| - 1];
      assert a + b == (a + init) + [b[|b| - 1]];
      TotalAppend(a + init, b[|b| - 1]);
      TotalConcat(a, init);
      TotalAppend(init, b[|b| - 1]);
      assert init + [b[|b| - 1]] == b;
    }
  }

  /** With no negative counts, every part's count is at most the total. */
  lemma {:induction false} TotalBoundsEachPart(parts: seq<CoursePart>, i: nat)
    requires i < |parts| && forall k :: 0 <= k < |parts| ==> parts[k].exerciseCount >= 0
    ensures parts[i].exerciseCount <= TotalExercises(parts)
    ensures TotalExercises(parts) >= 0
  {
    var n := |parts| - 1;
    assert parts == parts[..n] + [parts[n]];
    TotalAppend(parts[..n], parts[n]);
    if n > 0 {
      TotalBoundsEachPart(parts[..n], if i < n then i else 0);
    } else {
      assert parts[..n] == [];
    }
  }
}
