/** Shared vocabulary of the enemy controllers: optional values, event counting,
    Unity's `Mathf.Sign` and the patrol-waypoint wrap-around. */
module Common {

  datatype Option<T> = None | Some(value: T)

  /** What one frame tells a controller about the world. `dist` is the distance to
      the player, `dt` is `Time.deltaTime`, `waypointDx` is the current patrol
      waypoint's x minus the agent's x, `waypointDist` the 2-D distance to that
      waypoint, `playerDx` the player's x minus the agent's x, and `roll` the value
      `Random.Range` returns if the frame asks for one. */
  datatype Facts = Facts(
    dist: real,
    dt: real,
    waypointDx: real,
    waypointDist: real,
    playerDx: real,
    roll: real)

  /** Number of occurrences of `x` in `s`. */
  function Count<T(==)>(s: seq<T>, x: T): (n: nat)
    ensures n <= |s|
    ensures n == 0 <==> x !in s
  {
    if s == [] then 0 else (if s[0] == x then 1 else 0) + Count(s[1..], x)
  }

  lemma {:induction false} CountConcat<T>(a: seq<T>, b: seq<T>, x: T)
    ensures Count(a + b, x) == Count(a, x) + Count(b, x)
  {
    if a == [] {
      assert a + b == b;
    } else {
      assert (a + b)[1..] == a[1..] + b;
      CountConcat(a[1..], b, x);
    }
  }

  /** Unity's `Mathf.Sign`: 1 for zero and positive arguments, -1 otherwise. */
  function Sign(x: real): (r: real)
    ensures r == 1.0 || r == -1.0
    ensures r < 0.0 <==> x < 0.0
  {
    if x >= 0.0 then 1.0 else -1.0
  }

  /** `(i + 1) % n`, the step to the next patrol waypoint. */
  function NextWaypoint(i: int, n: int): (r: int)
    requires 0 <= i < n
    ensures 0 <= r < n
    ensures r == 0 <==> i == n - 1
    ensures r != 0 ==> r == i + 1
  {
    (i + 1) % n
  }

  function Abs(x: real): (r: real)
    ensures r >= 0.0 && (r == x || r == -x)
  {
    if x < 0.0 then -x else x
  }
}
