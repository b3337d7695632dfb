/** `DiceCommand`: rolls a die with `sides` faces `rolls` times, lists the
    faces and adds them up. Each draw of `Math.random()` is an input: a real
    number in [0, 1). */
module Dice {
  import opened Text

  function Abs(x: int): nat {
    if x < 0 then -x else x
  }

  /** `Math.floor(Math.random() * Math.floor(Math.abs(sides))) + 1` for the
      draw `r`. */
  function Face(r: real, sides: int): int
    requires 0.0 <= r < 1.0
  {
    (r * (Abs(sides) as real)).Floor + 1
  }

  /** A face lies between 1 and the number of sides. */
  lemma FaceInRange(r: real, sides: int)
    requires 0.0 <= r < 1.0 && Abs(sides) >= 1
    ensures 1 <= Face(r, sides) <= Abs(sides)
  {
    var n := Abs(sides) as real;
    var x := r * n;
    assert 0.0 <= x by {
      assert r >= 0.0 && n > 0.0;
    }
    assert x < n by {
      assert n - x == (1.0 - r) * n;
      assert (1.0 - r) * n > 0.0;
    }
    var f := x.Floor;
    assert f as real <= x < f as real + 1.0;
    assert f >= 0;
    assert (f as real) < (Abs(sides) as real);
    assert f < Abs(sides);
  }

  /** `reduce((total, current) => total + current, 0)`. */
  function Sum(xs: seq<int>): int
    decreases |xs|
  {
    if |xs| == 0 then 0 else Sum(xs[..|xs| - 1]) + xs[|xs| - 1]
  }

  lemma {:induction false} SumAppend(xs: seq<int>, x: int)
    ensures Sum(xs + [x]) == Sum(xs) + x
  {
    assert (xs + [x])[..|xs|] == xs;
  }

  /** A sum of values in [lo, hi] lies between |xs| * lo and |xs| * hi. */
  lemma {:induction false} SumBounds(xs: seq<int>, lo: int, hi: int)
    requires forall k | 0 <= k < |xs| :: lo <= xs[k] <= hi
    ensures |xs| * lo <= Sum(xs) <= |xs| * hi
    decreases |xs|
  {
    if |xs| > 0 {
      var init := xs[..|xs| - 1];
      assert forall k | 0 <= k < |init| :: init[k] == xs[k];
      SumBounds(init, lo, hi);
      assert |xs| * lo == |init| * lo + lo;
      assert |xs| * hi == |init| * hi + hi;
    }
  }

  /** `xdicey` as written: the loop runs `i` from 1 while `i < |rolls|`, so
      it rolls one die fewer than asked. */
  method XdiceyAsWritten(rolls: int, sides: int, draws: seq<real>) returns (individual: seq<int>, total: int)
    requires |draws| + 1 >= Abs(rolls)
    requires forall k | 0 <= k < |draws| :: 0.0 <= draws[k] < 1.0
    ensures |individual| == if Abs(rolls) >= 1 then Abs(rolls) - 1 else 0
    ensures forall k | 0 <= k < |individual| :: individual[k] == Face(draws[k], sides)
    ensures total == Sum(individual)
  {
    individual := [];
    var i := 1;
    while i < Abs(rolls)
      invariant 1 <= i && |individual| == i - 1 && |individual| <= |draws|
      invariant if Abs(rolls) >= 1 then i <= Abs(rolls) else i == 1
      invariant forall k | 0 <= k < |individual| :: individual[k] == Face(draws[k], sides)
    {
      individual := individual + [Face(draws[i - 1], sides)];
      i := i + 1;
    }
    total := Sum(individual);
  }

  /** Asking for one roll gets none, and a total of zero. */
  method OneRollAsWritten(sides: int, draws: seq<real>) returns (individual: seq<int>, total: int)
    requires forall k | 0 <= k < |draws| :: 0.0 <= draws[k] < 1.0
    ensures individual == [] && total == 0
  {
    individual, total := XdiceyAsWritten(1, sides, draws);
  }

  /** `xdicey` rolling `|rolls|` dice, one per draw, in order. */
  method Xdicey(rolls: int, sides: int, draws: seq<real>) returns (individual: seq<int>, total: int)
    requires |draws| >= Abs(rolls)
    requires forall k | 0 <= k < |draws| :: 0.0 <= draws[k] < 1.0
    ensures |individual| == Abs(rolls)
    ensures forall k | 0 <= k < |individual| :: individual[k] == Face(draws[k], sides)
    ensures Abs(sides) >= 1 ==> forall k | 0 <= k < |individual| :: 1 <= individual[k] <= Abs(sides)
    ensures total == Sum(individual)
    ensures Abs(sides) >= 1 ==> Abs(rolls) <= total <= Abs(rolls) * Abs(sides)
  {
    individual := [];
    var i := 0;
    while i < Abs(rolls)
      invariant 0 <= i <= Abs(rolls) && |individual| == i
      invariant forall k | 0 <= k < i :: individual[k] == Face(draws[k], sides)
      invariant Abs(sides) >= 1 ==> forall k | 0 <= k < i :: 1 <= individual[k] <= Abs(sides)
    {
      if Abs(sides) >= 1 {
        FaceInRange(draws[i], sides);
      }
      individual := individual + [Face(draws[i], sides)];
      i := i + 1;
    }
    total := Sum(individual);
    if Abs(sides) >= 1 {
      SumBounds(individual, 1, Abs(sides));
    }
  }

  /** The faces as decimal strings, in order. */
  function Labels(individual: seq<int>): (r: seq<string>)
    ensures |r| == |individual|
  {
    seq(|individual|, k requires 0 <= k < |individual| =>
      if individual[k] >= 0 then NatToString(individual[k]) else "-" + NatToString(-individual[k]))
  }

  /** The loop of `run` over the faces and the embed's description: every
      face as a string, between bars. */
  method Describe(individual: seq<int>) returns (description: string)
    ensures description == "| " + Join(Labels(individual), " | ") + " |"
  {
    var res: seq<string> := [];
    var i := 0;
    while i < |individual|
      invariant 0 <= i <= |individual| && res == Labels(individual)[..i]
    {
      var face := individual[i];
      res := res + [if face >= 0 then NatToString(face) else "-" + NatToString(-face)];
      i := i + 1;
    }
    assert res == Labels(individual);
    description := "| " + Join(res, " | ") + " |";
  }

  /** `run` on the corrected `xdicey`: the framework has already held
      `sides` to [4, 20] and `rolls` to [1, 40]. The description lists
      every face between bars. */
  method Run(sides: int, rolls: int, draws: seq<real>) returns (individual: seq<int>, description: string, total: int)
    requires 4 <= sides <= 20 && 1 <= rolls <= 40
    requires |draws| >= rolls
    requires forall k | 0 <= k < |draws| :: 0.0 <= draws[k] < 1.0
    ensures |individual| == rolls
    ensures forall k | 0 <= k < rolls :: 1 <= individual[k] <= sides && individual[k] == Face(draws[k], sides)
    ensures description == "| " + Join(Labels(individual), " | ") + " |"
    ensures total == Sum(individual) && rolls <= total <= rolls * sides
  {
    individual, total := Xdicey(rolls, sides, draws);
    description := Describe(individual);
  }

  /** `run` as written, on `xdicey` as written: one face fewer than
      `rolls` is listed and counted, so one roll shows `|  |` and a total
      of zero. */
  method RunAsWritten(sides: int, rolls: int, draws: seq<real>)
    returns (individual: seq<int>, description: string, total: int)
    requires 4 <= sides <= 20 && 1 <= rolls <= 40
    requires |draws| + 1 >= rolls
    requires forall k | 0 <= k < |draws| :: 0.0 <= draws[k] < 1.0
    ensures |individual| == rolls - 1
    ensures forall k | 0 <= k < rolls - 1 :: 1 <= individual[k] <= sides && individual[k] == Face(draws[k], sides)
    ensures description == "| " + Join(Labels(individual), " | ") + " |"
    ensures total == Sum(individual) && rolls - 1 <= total <= (rolls - 1) * sides
  {
    individual, total := XdiceyAsWritten(rolls, sides, draws);
    forall k | 0 <= k < |individual|
      ensures 1 <= individual[k] <= sides
    {
      FaceInRange(draws[k], sides);
    }
    SumBounds(individual, 1, sides);
    description := Describe(individual);
  }
}
