/** Multiples of a real number, kept behind a name so that proofs need no nonlinear arithmetic. */
module Products {

  function Times(x: real, z: int): real {
    x * z as real
  }

  lemma TimesDistributes(x: real, y: int, z: int)
    ensures Times(x, y + z) == Times(x, y) + Times(x, z)
  {
    assert (y + z) as real == y as real + z as real;
  }

  lemma TimesZero(x: real)
    ensures Times(x, 0) == 0.0
  {
  }

  lemma TimesNext(x: real, z: int)
    ensures Times(x, z + 1) == Times(x, z) + x && Times(x, 0) == 0.0
  {
    TimesDistributes(x, z, 1);
  }

  lemma TimesMonotone(x: real, y: int, z: int)
    requires x >= 0.0 && y <= z
    ensures Times(x, y) <= Times(x, z)
  {
    assert x * (z - y) as real >= 0.0;
    TimesDistributes(x, y, z - y);
  }
}
