/** Vectors and the constants shared by the flight modules, over the reals. */
module Physics {
  const GRAVITY: real := 9.80665

  datatype Vec3 = Vec3(x: real, y: real, z: real)

  function Abs(a: real): real {
    if a < 0.0 then -a else a
  }

  function Square(a: real): real {
    a * a
  }

  function NormSq(v: Vec3): real {
    v.x * v.x + v.y * v.y + v.z * v.z
  }

  lemma ProductPositive(a: real, b: real)
    requires a > 0.0 && b > 0.0
    ensures a * b > 0.0
  {
  }

  /** Comparing squares compares lengths, which is what the source compares. */
  lemma SquaresCompare(length: real, bound: real)
    requires length >= 0.0 && bound >= 0.0
    ensures length >= bound <==> Square(length) >= Square(bound)
  {
    assert Square(length) - Square(bound) == (length - bound) * (length + bound);
    if length < bound {
      ProductPositive(bound - length, length + bound);
      assert (length - bound) * (length + bound) == -((bound - length) * (length + bound));
    } else if length > bound {
      ProductPositive(length - bound, length + bound);
    }
  }
}
