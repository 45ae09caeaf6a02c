/** Substring occurrence, shared by the scheduler's templates and the tag search. */
module Text {
  /** `part` appears in `text` starting at index `i`. */
  predicate OccursAt(text: string, part: string, i: int)
  {
    0 <= i <= |text| - |part| && text[i..i + |part|] == part
  }

  ghost predicate Contains(text: string, part: string)
  {
    exists i :: OccursAt(text, part, i)
  }
}
