/** Types and sequence helpers shared by the three services. */
module Common {

  /** `Optional<T>` of the Java code; also the answer of a broker round-trip
      (`None` when `sendAndReceive` returned `null`). */
  datatype Option<+T> = None | Some(value: T)

  /** A `java.util.UUID`. Only equality is ever used on it. */
  type Uuid = nat

  /** A `java.time.LocalDate`, as a day number; no date is ever compared here. */
  type Date = int

  /** The name of a `Colors` constant (cats store the enum by name). */
  type Color = string

  /** The name of a `Roles` constant (users store the enum by name). */
  type Role = string

  /** A number above every id in use: a freshly generated id can always be
      found outside a finite table. */
  ghost function Bound(used: set<Uuid>): (b: nat)
    ensures forall id :: id in used ==> id < b
    decreases used
  {
    if used == {} then 0
    else
      var x :| x in used;
      var rest := Bound(used - {x});
      assert forall y :: y in used ==> y == x || y in used - {x};
      if x < rest then rest else x + 1
  }

  /** No element occurs twice. */
  predicate NoDup<T(==)>(xs: seq<T>) {
    forall i, j | 0 <= i < j < |xs| :: xs[i] != xs[j]
  }

  /** `List.remove(Object)`: drops the first occurrence of `x`, if any. */
  function RemoveFirst(xs: seq<Uuid>, x: Uuid): (r: seq<Uuid>)
    ensures x !in xs ==> r == xs
    ensures x in xs ==> |r| == |xs| - 1
    ensures forall y :: y != x ==> (y in r <==> y in xs)
    ensures x in r ==> x in xs
    ensures NoDup(xs) ==> NoDup(r) && x !in r
  {
    if xs == [] then []
    else if xs[0] == x then
      assert xs == [xs[0]] + xs[1..];
      xs[1..]
    else
      var tail := RemoveFirst(xs[1..], x);
      assert xs == [xs[0]] + xs[1..];
      assert NoDup(xs) ==> NoDup(xs[1..]) && xs[0] !in tail;
      [xs[0]] + tail
  }

  /** `RemoveFirst` drops the first occurrence of `x` and keeps the order of
      the rest: `i` is the position of that occurrence. */
  lemma {:induction false} RemoveFirstIsFirstOccurrence(xs: seq<Uuid>, x: Uuid) returns (i: nat)
    requires x in xs
    ensures i < |xs| && xs[i] == x && x !in xs[..i]
    ensures RemoveFirst(xs, x) == xs[..i] + xs[i + 1..]
  {
    if xs[0] == x {
      i := 0;
    } else {
      var j := RemoveFirstIsFirstOccurrence(xs[1..], x);
      i := j + 1;
      assert xs[..i] == [xs[0]] + xs[1..][..j];
      assert xs[i + 1..] == xs[1..][j + 1..];
    }
  }

  /** The elements of `xs` that are not in `ys`
      (a `stream().filter(e -> !ys.contains(e)).toList()`). */
  function Minus(xs: seq<Uuid>, ys: seq<Uuid>): (r: seq<Uuid>)
    ensures forall x :: x in r <==> x in xs && x !in ys
    ensures NoDup(xs) ==> NoDup(r)
  {
    if xs == [] then []
    else
      var tail := Minus(xs[1..], ys);
      assert xs == [xs[0]] + xs[1..];
      assert NoDup(xs) ==> NoDup(xs[1..]) && xs[0] !in xs[1..];
      if xs[0] in ys then tail else [xs[0]] + tail
  }
}
