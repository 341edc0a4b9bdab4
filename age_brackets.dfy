// The age bracketing used for readable age charts: every age falls into one
// of seven labelled bands.

module AgeBrackets {

  /** The seven labels, youngest band first. */
  const Labels: seq<string> := ["Under 18", "18-25", "26-35", "36-45", "46-55", "56-65", "65+"]

  /** The lowest age of every band but the first, in increasing order. */
  const Bounds: seq<int> := [18, 26, 36, 46, 56, 66]

  /** The label of one age, by the chain of comparisons of `create_age_brackets`. */
  function Bracket(age: int): (name: string)
    ensures name in Labels
  {
    if age < 18 then "Under 18"
    else if age < 26 then "18-25"
    else if age < 36 then "26-35"
    else if age < 46 then "36-45"
    else if age < 56 then "46-55"
    else if age < 66 then "56-65"
    else "65+"
  }

  /** How many of `bounds` the age has reached: the position of its band. */
  function Reached(bounds: seq<int>, age: int): (k: nat)
    ensures k <= |bounds|
  {
    if bounds == [] then 0
    else (if bounds[0] <= age then 1 else 0) + Reached(bounds[1..], age)
  }

  /** The band of an age is the one whose position is the number of band
      starts it has reached, and no other label names that band. */
  lemma BracketByBounds(age: int)
    ensures Bracket(age) == Labels[Reached(Bounds, age)]
    ensures forall k :: 0 <= k < |Labels| && Labels[k] == Bracket(age) ==> k == Reached(Bounds, age)
  {
    var b1, b2, b3, b4, b5, b6 := Bounds[1..], Bounds[2..], Bounds[3..], Bounds[4..], Bounds[5..], Bounds[6..];
    assert b6 == [] && b5[1..] == b6 && b4[1..] == b5 && b3[1..] == b4 && b2[1..] == b3 && b1[1..] == b2;
    assert Reached(b5, age) == (if 66 <= age then 1 else 0);
    assert Reached(b4, age) == (if 56 <= age then 1 else 0) + Reached(b5, age);
    assert Reached(b3, age) == (if 46 <= age then 1 else 0) + Reached(b4, age);
    assert Reached(b2, age) == (if 36 <= age then 1 else 0) + Reached(b3, age);
    assert Reached(b1, age) == (if 26 <= age then 1 else 0) + Reached(b2, age);
    assert Reached(Bounds, age) == (if 18 <= age then 1 else 0) + Reached(b1, age);
  }

  /** Band `k` holds exactly the ages from its start (none for the first)
      up to the start of the next band (none for the last). */
  lemma BracketBands(age: int, k: nat)
    requires k < |Labels|
    ensures Bracket(age) == Labels[k] <==>
              (k == 0 || Bounds[k - 1] <= age) && (k == |Labels| - 1 || age < Bounds[k])
  {
    BracketByBounds(age);
  }

  /** Counting reached bounds is monotone in the age. */
  lemma {:induction false} ReachedMonotone(bounds: seq<int>, a: int, b: int)
    requires a <= b
    ensures Reached(bounds, a) <= Reached(bounds, b)
  {
    if bounds != [] {
      ReachedMonotone(bounds[1..], a, b);
    }
  }

  /** An older age never falls into a younger band. */
  lemma BracketMonotone(a: int, b: int)
    requires a <= b
    ensures Reached(Bounds, a) <= Reached(Bounds, b)
    ensures Bracket(a) == Labels[Reached(Bounds, a)] && Bracket(b) == Labels[Reached(Bounds, b)]
  {
    ReachedMonotone(Bounds, a, b);
    BracketByBounds(a);
    BracketByBounds(b);
  }

  /** The band edges, and negative ages in the youngest band. */
  lemma BracketExamples()
    ensures Bracket(17) == "Under 18" && Bracket(18) == "18-25" && Bracket(25) == "18-25"
    ensures Bracket(26) == "26-35" && Bracket(65) == "56-65" && Bracket(66) == "65+"
    ensures forall age :: age < 0 ==> Bracket(age) == "Under 18"
  {
  }

  /** `create_age_brackets`: one label per age, in order. */
  method CreateAgeBrackets(ages: seq<int>) returns (brackets: seq<string>)
    ensures |brackets| == |ages|
    ensures forall i :: 0 <= i < |ages| ==> brackets[i] == Bracket(ages[i])
  {
    brackets := [];
    for i := 0 to |ages|
      invariant |brackets| == i
      invariant forall j :: 0 <= j < i ==> brackets[j] == Bracket(ages[j])
    {
      var age := ages[i];
      if age < 18 {
        brackets := brackets + ["Under 18"];
      } else if age < 26 {
        brackets := brackets + ["18-25"];
      } else if age < 36 {
        brackets := brackets + ["26-35"];
      } else if age < 46 {
        brackets := brackets + ["36-45"];
      } else if age < 56 {
        brackets := brackets + ["46-55"];
      } else if age < 66 {
        brackets := brackets + ["56-65"];
      } else {
        brackets := brackets + ["65+"];
      }
    }
  }
}
