/** Id tags: the class name followed by the next value of a counter. One
    counter is shared by every shape class; groups have their own. */
module Identifiers {
  import opened Tags

  /** The shape classes, by the names their id tags start with. */
  datatype ShapeClass =
    | Quadrilateral | Kite | Trapezoid | Parallelogram | Rhombus | Rectangle | Square
    | Triangle | Ellipse | Circle | ConcaveCircularHypotenuse
  {
    function Name(): string {
      match this
      case Quadrilateral => "Quadrilateral"
      case Kite => "Kite"
      case Trapezoid => "Trapezoid"
      case Parallelogram => "Parallelogram"
      case Rhombus => "Rhombus"
      case Rectangle => "Rectangle"
      case Square => "Square"
      case Triangle => "Triangle"
      case Ellipse => "Ellipse"
      case Circle => "Circle"
      case ConcaveCircularHypotenuse => "ConcaveCircularHypotenuse"
    }
  }

  const GroupName: string := "Group"

  predicate IsDigit(c: char) {
    '0' <= c <= '9'
  }

  predicate IsLetter(c: char) {
    'A' <= c <= 'Z' || 'a' <= c <= 'z'
  }

  /** A class name: letters only, so neither a digit nor a space. */
  predicate IsName(s: string) {
    s != [] && forall i :: 0 <= i < |s| ==> IsLetter(s[i])
  }

  lemma NamesAreNames(c: ShapeClass)
    ensures IsName(c.Name()) && IsName(GroupName)
  {
    if c.Quadrilateral? || c.Kite? || c.Trapezoid? || c.Parallelogram? || c.Rhombus? {
      QuadrilateralNames(c);
    } else if c.ConcaveCircularHypotenuse? {
      assert IsName("ConcaveCircularHypotenuse");
    } else {
      OtherNames(c);
    }
  }

  lemma QuadrilateralNames(c: ShapeClass)
    requires c.Quadrilateral? || c.Kite? || c.Trapezoid? || c.Parallelogram? || c.Rhombus?
    ensures IsName(c.Name())
  {
  }

  lemma OtherNames(c: ShapeClass)
    requires c.Rectangle? || c.Square? || c.Triangle? || c.Ellipse? || c.Circle?
    ensures IsName(c.Name())
  {
  }

  function Digit(d: nat): (c: char)
    requires d < 10
    ensures IsDigit(c)
  {
    "0123456789"[d]
  }

  /** `str(n)`. */
  function Decimal(n: nat): (s: string)
    ensures s != [] && forall i :: 0 <= i < |s| ==> IsDigit(s[i])
    ensures n >= 10 ==> |s| >= 2
  {
    if n < 10 then [Digit(n)] else Decimal(n / 10) + [Digit(n % 10)]
  }

  lemma DigitInjective(d: nat, e: nat)
    requires d < 10 && e < 10 && Digit(d) == Digit(e)
    ensures d == e
  {
  }

  lemma {:induction false} DecimalInjective(n: nat, m: nat)
    requires Decimal(n) == Decimal(m)
    ensures n == m
  {
    if n < 10 && m < 10 {
      DigitInjective(n, m);
    } else if n >= 10 && m >= 10 {
      var s := Decimal(n);
      assert s[..|s| - 1] == Decimal(n / 10) && s[|s| - 1] == Digit(n % 10);
      assert Decimal(m)[..|s| - 1] == Decimal(m / 10) && Decimal(m)[|s| - 1] == Digit(m % 10);
      DecimalInjective(n / 10, m / 10);
      DigitInjective(n % 10, m % 10);
    }
  }

  /** `type(self).__name__ + str(n)`. */
  function Id(name: string, n: nat): string {
    name + Decimal(n)
  }

  /** An id tag is a tag: no space can enter it. */
  lemma IdIsTag(name: string, n: nat)
    requires IsName(name)
    ensures IsTag(Id(name, n))
  {
    var d := Decimal(n);
    assert forall i :: 0 <= i < |d| ==> d[i] != ' ';
    assert ' ' !in d;
  }

  /** Where the first digit of `s` is, or `|s|`. */
  function FirstDigit(s: string): (k: nat)
    ensures k <= |s|
    ensures forall i :: 0 <= i < k ==> !IsDigit(s[i])
    ensures k < |s| ==> IsDigit(s[k])
  {
    if s == [] || IsDigit(s[0]) then 0 else 1 + FirstDigit(s[1..])
  }

  lemma {:induction false} FirstDigitAfter(prefix: string, digits: string)
    requires forall i :: 0 <= i < |prefix| ==> !IsDigit(prefix[i])
    requires digits != [] && IsDigit(digits[0])
    ensures FirstDigit(prefix + digits) == |prefix|
  {
    if prefix == [] {
      assert prefix + digits == digits;
    } else {
      assert (prefix + digits)[1..] == prefix[1..] + digits;
      FirstDigitAfter(prefix[1..], digits);
    }
  }

  lemma FirstDigitOfId(name: string, n: nat)
    requires IsName(name)
    ensures FirstDigit(Id(name, n)) == |name|
  {
    FirstDigitAfter(name, Decimal(n));
  }

  /** Equal id tags come from the same class name and the same counter value,
      so the values a counter hands out never give the same tag twice. */
  lemma IdInjective(name1: string, n1: nat, name2: string, n2: nat)
    requires IsName(name1) && IsName(name2)
    requires Id(name1, n1) == Id(name2, n2)
    ensures name1 == name2 && n1 == n2
  {
    var s := Id(name1, n1);
    FirstDigitOfId(name1, n1);
    FirstDigitOfId(name2, n2);
    assert name1 == s[..|name1|] && name2 == s[..|name2|];
    assert Decimal(n1) == s[|name1|..] == Decimal(n2);
    DecimalInjective(n1, n2);
  }

  /** `itertools.count(1)`: the source of the numbers in id tags. */
  class IdCounter {
    var next: nat

    constructor ()
      ensures next == 1
    {
      next := 1;
    }

    /** `next(counter)`. */
    method Take() returns (n: nat)
      modifies this
      ensures n == old(next) && next == old(next) + 1
    {
      n := next;
      next := next + 1;
    }
  }
}
