/** The older class `vec2` (LibMaths/LibMaths/Vec2/Vec2.cpp): two private floats with
    accessors, operators that mutate the receiver and return it, and a comma-splitting
    stream extraction. Its values are FVec2's Vec2. */
module LegacyVec2 {
  import opened Utilities
  import FVec2

  type Pair = FVec2.Vec2

  /** The position of the first `c` in `s`, as std::string::find gives it, or None for
      npos. */
  function Find(s: string, c: char): (r: Option<nat>)
    ensures r.None? <==> c !in s
    ensures r.Some? ==> r.value < |s| && s[r.value] == c && c !in s[..r.value]
  {
    if |s| == 0 then None
    else if s[0] == c then Some(0)
    else
      var rest := Find(s[1..], c);
      assert s[1..][..if rest.Some? then rest.value else 0] == s[1..if rest.Some? then rest.value + 1 else 1];
      if rest.Some? then Some(rest.value + 1) else None
  }

  /** Find gives the position of a `c` with no `c` before it. */
  lemma {:induction false} FindAt(s: string, c: char, i: nat)
    requires i < |s| && s[i] == c && c !in s[..i]
    ensures Find(s, c) == Some(i)
  {
    if i > 0 {
      assert s[0] == s[..i][0];
      assert s[1..][..i - 1] == s[1..i];
      FindAt(s[1..], c, i - 1);
    }
  }

  /** What `operator>>` stores for the token it reads, with `stof` standing for std::stof:
      (0, 0) when the token has no ',', otherwise stof of the text before the first ','
      and stof of the text after it. */
  function Parsed(token: string, stof: string -> real): (r: Pair)
    ensures ',' !in token ==> r == FVec2.Zero2
    ensures ',' in token ==>
              exists i :: 0 <= i < |token| && token[i] == ',' && ',' !in token[..i] &&
                r == FVec2.Vec2(stof(token[..i]), stof(token[i + 1..]))
  {
    match Find(token, ',')
    case None => FVec2.Zero2
    case Some(i) => FVec2.Vec2(stof(token[..i]), stof(token[i + 1..]))
  }

  /** "3.5,2.7" is read as (3.5, 2.7), given that stof reads "3.5" and "2.7" exactly. */
  lemma ParsedExample(stof: string -> real)
    requires stof("3.5") == 3.5 && stof("2.7") == 2.7
    ensures Parsed("3.5,2.7", stof) == FVec2.Vec2(3.5, 2.7)
  {
    FindAt("3.5,2.7", ',', 3);
    assert "3.5,2.7"[..3] == "3.5";
    assert "3.5,2.7"[4..] == "2.7";
  }

  /** A token with its comma elsewhere reads from the text on either side of the first one:
      "1,2,3" gives stof("1") and stof("2,3"). */
  lemma ParsedFirstComma(stof: string -> real)
    ensures Parsed("1,2,3", stof) == FVec2.Vec2(stof("1"), stof("2,3"))
  {
    FindAt("1,2,3", ',', 1);
    assert "1,2,3"[..1] == "1";
    assert "1,2,3"[2..] == "2,3";
  }

  /** The comparison operators return an int: 1 when the relation holds in both
      components, 0 otherwise. */
  function Flag(b: bool): int
  {
    if b then 1 else 0
  }

  /** operator==: 1 exactly when both components are equal. */
  function Equal(a: Pair, b: Pair): (r: int)
    ensures r == 1 <==> a == b
    ensures r == 0 || r == 1
  {
    Flag(a.x == b.x && a.y == b.y)
  }

  /** operator!=: 1 exactly when operator== gives 0. */
  function NotEqual(a: Pair, b: Pair): (r: int)
    ensures r == 1 - Equal(a, b)
  {
    if a.x == b.x && a.y == b.y then 0 else 1
  }

  function Less(a: Pair, b: Pair): int
  {
    Flag(a.x < b.x && a.y < b.y)
  }

  function LessEqual(a: Pair, b: Pair): int
  {
    Flag(a.x <= b.x && a.y <= b.y)
  }

  function Greater(a: Pair, b: Pair): int
  {
    Flag(a.x > b.x && a.y > b.y)
  }

  function GreaterEqual(a: Pair, b: Pair): int
  {
    Flag(a.x >= b.x && a.y >= b.y)
  }

  /** The componentwise orders: a < b and a >= b never hold together, a < b implies
      a <= b, > is < with the operands swapped, and (0, 1), (1, 0) are related by none of
      the four, so the order is not total. */
  lemma ComparisonsPartial(a: Pair, b: Pair)
    ensures !(Less(a, b) == 1 && GreaterEqual(a, b) == 1)
    ensures Less(a, b) == 1 ==> LessEqual(a, b) == 1
    ensures Greater(a, b) == Less(b, a)
    ensures GreaterEqual(a, b) == LessEqual(b, a)
    ensures var p, q := FVec2.Vec2(0.0, 1.0), FVec2.Vec2(1.0, 0.0);
              Less(p, q) == 0 && LessEqual(p, q) == 0 && Greater(p, q) == 0 && GreaterEqual(p, q) == 0
  {
  }

  /** dot_product. */
  function DotProduct(a: Pair, m: Pair): real
  {
    a.x * m.x + a.y * m.y
  }

  /** cross_product, written `-((x * m.x) - (y * m.y))`: despite the name it mixes the
      components like a dot product, not like the 2D cross product x * m.y - y * m.x. */
  function CrossProduct(a: Pair, m: Pair): real
  {
    -(a.x * m.x - a.y * m.y)
  }

  /** The values the test suite expects for (12, 97) and (1, -1): the dot product is -85
      and cross_product is -109. The 2D cross product would give -109 too here, but not
      for (1, 0) and (0, 1), where cross_product gives 0 and the cross product 1. */
  lemma ProductExamples()
    ensures DotProduct(FVec2.Vec2(12.0, 97.0), FVec2.Vec2(1.0, -1.0)) == -85.0
    ensures CrossProduct(FVec2.Vec2(12.0, 97.0), FVec2.Vec2(1.0, -1.0)) == -109.0
    ensures CrossProduct(FVec2.Vec2(1.0, 0.0), FVec2.Vec2(0.0, 1.0)) == 0.0
  {
  }

  /** cross_product is symmetric in its two operands, and a vector's cross_product with
      itself is y*y - x*x. */
  lemma CrossProductSymmetric(a: Pair, b: Pair)
    ensures CrossProduct(a, b) == CrossProduct(b, a)
    ensures CrossProduct(a, a) == a.y * a.y - a.x * a.x
  {
  }

  /** Character codes of 'x' and 'y', which operator[](int) accepts besides 0 and 1. */
  const KEY_X: int := 'x' as int
  const KEY_Y: int := 'y' as int

  /** The indices operator[](int) has a return path for. */
  predicate ValidIndex(idx: int)
  {
    idx == 0 || idx == KEY_X || idx == 1 || idx == KEY_Y
  }

  class Vec2 {
    var x: real
    var y: real

    function Value(): Pair
      reads this
    {
      FVec2.Vec2(x, y)
    }

    /** vec2(): (0, 0). */
    constructor()
      ensures Value() == FVec2.Zero2
    {
      x, y := 0.0, 0.0;
    }

    /** vec2(a, b). */
    constructor Of(a: real, b: real)
      ensures Value() == FVec2.Vec2(a, b)
    {
      x, y := a, b;
    }

    /** vec2(a): both components a. */
    constructor Splat(a: real)
      ensures Value() == FVec2.Vec2(a, a)
    {
      x, y := a, a;
    }

    /** The const X() and Y(). */
    function X(): real
      reads this
    {
      x
    }

    function Y(): real
      reads this
    {
      y
    }

    /** operator[](int): 0 or 'x' reads x, 1 or 'y' reads y. Any other index runs off the
        end of the function, so the model demands a valid index. */
    function At(idx: int): (r: real)
      requires ValidIndex(idx)
      reads this
      ensures idx == 0 || idx == KEY_X ==> r == X()
      ensures idx == 1 || idx == KEY_Y ==> r == Y()
    {
      if idx == 0 || idx == KEY_X then x else y
    }

    /** A write through the reference operator[](int) returns. */
    method SetAt(idx: int, value: real)
      requires ValidIndex(idx)
      modifies this
      ensures At(idx) == value
      ensures idx == 0 || idx == KEY_X ==> y == old(y)
      ensures idx == 1 || idx == KEY_Y ==> x == old(x)
    {
      if idx == 0 || idx == KEY_X {
        x := value;
      } else {
        y := value;
      }
    }

    /** operator+: a new vector, the receiver is not written. */
    function Plus(c2: Pair): (r: Pair)
      reads this
      ensures FVec2.Substract(r, c2) == Value()
    {
      FVec2.Vec2(x + c2.x, y + c2.y)
    }

    /** operator-: a new vector, the receiver is not written. */
    function Minus(c2: Pair): (r: Pair)
      reads this
      ensures FVec2.Add(r, c2) == Value()
    {
      FVec2.Vec2(x - c2.x, y - c2.y)
    }

    /** operator+=. */
    method PlusAssign(c2: Pair)
      modifies this
      ensures Value() == FVec2.Add(old(Value()), c2)
    {
      x := x + c2.x;
      y := y + c2.y;
    }

    /** operator-=. */
    method MinusAssign(c2: Pair)
      modifies this
      ensures Value() == FVec2.Substract(old(Value()), c2)
    {
      x := x - c2.x;
      y := y - c2.y;
    }

    /** The non-const add: adds m into the receiver and returns the receiver itself, so
        calls can be chained. */
    method Add(m: Pair) returns (self: Vec2)
      modifies this
      ensures self == this
      ensures Value() == FVec2.Add(old(Value()), m)
    {
      x := x + m.x;
      y := y + m.y;
      self := this;
    }

    /** The const add: the sum as a new vector. */
    function AddConst(m: Pair): (r: Pair)
      reads this
      ensures r == Plus(m)
    {
      FVec2.Vec2(x + m.x, y + m.y)
    }

    /** The non-const scale: multiplies both components in place and returns the
        receiver. */
    method Scale(a: real) returns (self: Vec2)
      modifies this
      ensures self == this
      ensures Value() == FVec2.Multiply(old(Value()), a)
    {
      x := x * a;
      y := y * a;
      self := this;
    }

    /** normalized(), with `length` the value of length(): both components divided by the
        length, which is not checked for zero. */
    function Normalized(length: real): (r: Pair)
      requires IsSqrt(FVec2.Length2(Value()), length)
      requires length != 0.0
      reads this
      ensures FVec2.Length2(r) == 1.0
      ensures FVec2.Multiply(r, length) == Value()
    {
      var r := FVec2.Vec2(x / length, y / length);
      assert r == FVec2.Multiply(Value(), 1.0 / length);
      FVec2.Length2Multiply(Value(), 1.0 / length);
      assert (1.0 / length) * (1.0 / length) * (length * length) == 1.0;
      r
    }

    /** normalize(): stores normalized() into the receiver. */
    method Normalize(length: real)
      requires IsSqrt(FVec2.Length2(Value()), length)
      requires length != 0.0
      modifies this
      ensures Value() == old(Normalized(length))
      ensures FVec2.Length2(Value()) == 1.0
    {
      var v := Normalized(length);
      x := v.x;
      y := v.y;
    }

    /** operator>>, given the token the stream yields and std::stof: the receiver gets
        Parsed(token, stof). */
    method Read(token: string, stof: string -> real)
      modifies this
      ensures Value() == Parsed(token, stof)
    {
      var i := Find(token, ',');
      if i.None? {
        x := 0.0;
        y := 0.0;
        return;
      }
      x := stof(token[..i.value]);
      y := stof(token[i.value + 1..]);
    }
  }

  /** The test sequence on v1 = (2, 3) and v2 = (1.2, 4.5): v3 = v1.add(v2) through the
      const add is (3.2, 7.5) and leaves v1 alone; then v2.add(v1).add(v3) accumulates both
      into v2, giving (6.4, 15). */
  method AddChain() returns (v1: Vec2, v2: Vec2, v3: Pair)
    ensures v1.Value() == FVec2.Vec2(2.0, 3.0)
    ensures v3 == FVec2.Vec2(3.2, 7.5)
    ensures v2.Value() == FVec2.Vec2(6.4, 15.0)
  {
    v1 := new Vec2.Of(2.0, 3.0);
    v2 := new Vec2.Of(1.2, 4.5);
    v3 := v1.AddConst(v2.Value());
    var chained := v2.Add(v1.Value());
    chained := chained.Add(v3);
  }

  /** (0.5, 6.3).scale(2) makes the receiver (1, 12.6). */
  method ScaleExample() returns (v: Vec2)
    ensures v.Value() == FVec2.Vec2(1.0, 12.6)
  {
    v := new Vec2.Of(0.5, 6.3);
    var _ := v.Scale(2.0);
  }

  /** Reading "3.5,2.7" stores (3.5, 2.7), given a stof that reads both halves exactly. */
  method ReadExample(stof: string -> real) returns (v: Vec2)
    requires stof("3.5") == 3.5 && stof("2.7") == 2.7
    ensures v.Value() == FVec2.Vec2(3.5, 2.7)
  {
    v := new Vec2();
    v.Read("3.5,2.7", stof);
    ParsedExample(stof);
  }
}
