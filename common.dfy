/**
 * Values shared by every part of the scene-graph framework: optional values
 * and thrown errors, three-component vectors over the reals, and the WebGL
 * primitive enumeration.
 */
module Common {

  datatype Option<T> = None | Some(value: T)

  /** A JavaScript `throw` is an `Err` carrying the thrown message. */
  datatype Result<T> = Ok(value: T) | Err(msg: string)

  /** What reading a property of `undefined` throws; the exact message is the engine's. */
  const TypeError := "TypeError: cannot read properties of undefined"

  /** `Vec3` and its aliases `Pos`, `Scale` and `Color`. */
  datatype Vec3 = Vec3(x: real, y: real, z: real)

  const Origin := Vec3(0.0, 0.0, 0.0)
  const UnitScale := Vec3(1.0, 1.0, 1.0)
  const White := Vec3(1.0, 1.0, 1.0)

  /** Component-wise product: how `drawNode` and `getTransform` accumulate scale. */
  function Mul(a: Vec3, b: Vec3): Vec3 { Vec3(a.x * b.x, a.y * b.y, a.z * b.z) }

  /** The WebGL primitive modes, with the values of the WebGL enumeration. */
  const POINTS := 0
  const LINES := 1
  const LINE_LOOP := 2
  const LINE_STRIP := 3
  const TRIANGLES := 4
  const TRIANGLE_STRIP := 5
  const TRIANGLE_FAN := 6

  /** Number of occurrences of `x` in `s`. */
  function Count<T(==)>(s: seq<T>, x: T): nat {
    if s == [] then 0 else (if s[0] == x then 1 else 0) + Count(s[1..], x)
  }

  lemma {:induction false} CountAppend<T>(a: seq<T>, b: seq<T>, x: T)
    ensures Count(a + b, x) == Count(a, x) + Count(b, x)
  {
    if a == [] {
      assert a + b == b;
    } else {
      assert (a + b)[0] == a[0] && (a + b)[1..] == a[1..] + b;
      CountAppend(a[1..], b, x);
    }
  }

  lemma AppendNil<T>(s: seq<T>)
    ensures s + [] == s
  {
  }

  /** Taking the last element back off a sequence leaves the sequence as it was. */
  lemma PushPop<T>(s: seq<T>, x: T)
    ensures (s + [x])[..|s + [x]| - 1] == s && (s + [x])[|s + [x]| - 1] == x
  {
  }

  /** The prefix one element longer is the prefix followed by that element. */
  lemma PrefixStep<T>(s: seq<T>, q: nat)
    requires q < |s|
    ensures s[..q + 1] == s[..q] + [s[q]]
  {
  }

  lemma AppendAssoc<T>(a: seq<T>, b: seq<T>, c: seq<T>)
    ensures a + (b + c) == (a + b) + c
  {
  }

  /** The decimal digits JavaScript prints for a non-negative integer. */
  function NatToString(n: nat): (r: string)
    ensures |r| >= 1
  {
    if n < 10 then ["0123456789"[n]] else NatToString(n / 10) + ["0123456789"[n % 10]]
  }
}
