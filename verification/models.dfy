/** Value types shared by every screen of the app (Meeat/SharedModels.swift),
    plus the few primitives of the UI toolkit and of Swift the screens rely on. */
module Models {

  /** A point in time, as whole seconds. */
  type Date = int

  /** An opaque identifier (Foundation's UUID): only equality matters. */
  datatype Uuid = Uuid(raw: nat)

  /** A map coordinate, kept opaque: the model never computes with it. */
  datatype Coordinate = Coordinate(latitude: real, longitude: real)

  /** A pin the user dropped on the map. */
  datatype LocationPin = LocationPin(id: Uuid, coordinate: Coordinate)

  /** A profile shown on the candidate card. */
  datatype Candidate = Candidate(
    id: Uuid,
    name: string,
    age: int,
    jobTitle: string,
    mbtiType: string,
    quote: string,
    interests: seq<string>,
    foodPreferences: seq<string>,
    imageName: string)

  /** Swift's optional. */
  datatype Option<T> = None | Some(value: T)

  /** The named colours the screens choose between. */
  datatype Color = Green | Blue | Orange | Gray | Pink

  /** Swift's `%` on `Int`: the remainder truncates toward zero, so it takes the
      sign of the dividend. The screens only ever divide by a list's `count`; a
      zero count traps, hence the precondition. */
  function Rem(a: int, b: nat): (r: int)
    requires b > 0
    ensures 0 <= a ==> 0 <= r < b
    ensures a <= 0 ==> 0 - b < r <= 0
    ensures 0 <= a < b ==> r == a
  {
    if a >= 0 then a % b else -((-a) % b)
  }

  /** `Rem` is a remainder: it differs from the dividend by a multiple of the
      divisor, which with its sign and bound fixes its value. */
  lemma RemCongruent(a: int, b: nat)
    requires b > 0
    ensures (a - Rem(a, b)) % b == 0
  {
    if a < 0 {
      var q := (-a) / b;
      assert -a == q * b + (-a) % b;
      assert a - Rem(a, b) == -(q * b);
      ModUnique(-(q * b), b, -q, 0);
    } else {
      assert a - Rem(a, b) == (a / b) * b;
      ModUnique(a - a % b, b, a / b, 0);
    }
  }

  /** Euclidean division has one quotient and one remainder. */
  lemma ModUnique(a: int, n: int, q: int, r: int)
    requires n > 0 && 0 <= r < n && a == q * n + r
    ensures a % n == r && a / n == q
  {
    var q', r' := a / n, a % n;
    assert a == q' * n + r';
    if q' > q {
      assert (q' - q) * n == r - r';
      MulAtLeast(q' - q, n);
    } else if q' < q {
      assert (q - q') * n == r' - r;
      MulAtLeast(q - q', n);
    }
  }

  lemma MulAtLeast(x: int, n: int)
    requires x >= 1 && n > 0
    ensures x * n >= n
  {
  }

  /** Adding the divisor does not change the remainder. */
  lemma AddDivisor(n: int, k: nat)
    requires n > 0
    ensures (n + k) % n == k % n
  {
    ModUnique(n + k, n, k / n + 1, k % n);
  }
}
