/** src/hooks/useTower.ts: the number of plates drawn in the tower, kept between 1 and 6. */
module Tower {
  import opened Wrappers

  const MaxPlates: int := 6

  predicate InRange(plates: int) { 1 <= plates <= MaxPlates }

  /** The updater of `addPlate`. */
  function Added(plates: int): (next: int)
    ensures next <= MaxPlates
    ensures plates < MaxPlates ==> next == plates + 1
    ensures plates >= MaxPlates ==> next == MaxPlates
  {
    Min(plates + 1, MaxPlates)
  }

  /** The updater of `removePlate`. */
  function Removed(plates: int): (next: int)
    ensures 1 <= next
    ensures plates > 1 ==> next == plates - 1
    ensures plates <= 1 ==> next == 1
  {
    Max(plates - 1, 1)
  }

  class TowerState {
    var plates: int

    constructor ()
      ensures plates == 1 && InRange(plates)
    {
      plates := 1;
    }

    method AddPlate()
      modifies this
      ensures plates == Added(old(plates))
      ensures InRange(old(plates)) ==> InRange(plates)
    {
      plates := Added(plates);
    }

    method RemovePlate()
      modifies this
      ensures plates == Removed(old(plates))
      ensures InRange(old(plates)) ==> InRange(plates)
    {
      plates := Removed(plates);
    }
  }

  /** Adding at the top and removing at the bottom change nothing; strictly inside the range
      each operation undoes the other. */
  lemma AddRemoveInverse(plates: int)
    ensures Added(MaxPlates) == MaxPlates && Removed(1) == 1
    ensures 1 <= plates < MaxPlates ==> Removed(Added(plates)) == plates
    ensures 1 < plates <= MaxPlates ==> Added(Removed(plates)) == plates
  {
  }
}
