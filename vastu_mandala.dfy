/**
  A model of the computational core of the personalised Vastu mandala generator:
  numerological digit reduction, the static zone layout of the 9x9 mandala and the
  in-place fill of its zone map, the per-cell colour rule with its flipped drawing
  row, and the request handler that turns four integers (latitude degrees,
  longitude degrees, latitude minutes, longitude minutes) into four zone digits,
  their planetary readings, a coloured grid and the remedy warning.
 */
module VastuMandala {

  /** The one failure the core can raise: a dictionary lookup with a missing key. */
  datatype Result<T> = Ok(value: T) | KeyError(key: int)

  function Abs(v: int): nat { if v < 0 then -v else v }

  // ---------------------------------------------------------------------------
  // Decimal text of integers, as Python's str() and int() produce and read it
  // ---------------------------------------------------------------------------

  /** What isdigit() accepts in the text of an int: one of the ten ASCII digits. */
  predicate IsDigit(c: char): (b: bool)
    ensures b <==> c in "0123456789"
  {
    '0' <= c <= '9'
  }

  predicate AllDigits(s: string) { forall i | 0 <= i < |s| :: IsDigit(s[i]) }

  function DigitChar(d: int): (c: char)
    requires 0 <= d <= 9
    ensures IsDigit(c) && c as int - '0' as int == d
  {
    ('0' as int + d) as char
  }

  /** The decimal text of a non-negative integer: most significant digit first, no leading zero. */
  function Decimal(n: nat): (s: string)
    ensures 1 <= |s| && AllDigits(s)
    ensures s[0] == '0' <==> n == 0
    ensures n < 10 <==> |s| == 1
  {
    if n < 10 then [DigitChar(n)] else Decimal(n / 10) + [DigitChar(n % 10)]
  }

  /** The value of a text of decimal digits, as int() reads it. */
  function DecimalValue(s: string): nat
    requires AllDigits(s)
  {
    if s == [] then 0 else 10 * DecimalValue(s[..|s| - 1]) + (s[|s| - 1] as int - '0' as int)
  }

  /** Reading back the decimal text of n gives n. */
  lemma {:induction false} DecimalRoundTrip(n: nat)
    ensures DecimalValue(Decimal(n)) == n
  {
    if n >= 10 {
      var s := Decimal(n);
      assert s[..|s| - 1] == Decimal(n / 10);
      DecimalRoundTrip(n / 10);
    }
  }

  /** The text str(v) of any integer: a minus sign in front of the digits of a negative value. */
  function Str(v: int): (s: string)
    ensures 1 <= |s|
    ensures s[0] == '-' <==> v < 0
    ensures forall i | 0 <= i < |s| && (i > 0 || v >= 0) :: IsDigit(s[i])
  {
    if v < 0 then "-" + Decimal(-v) else Decimal(v)
  }

  /** The characters of s that pass isdigit(), in order. */
  function DigitsIn(s: string): (t: string)
    ensures |t| <= |s| && AllDigits(t)
  {
    if s == [] then []
    else (if IsDigit(s[0]) then [s[0]] else []) + DigitsIn(s[1..])
  }

  /** The sum of int(d) over the characters d of a text made of digits only. */
  function DigitTotal(s: string): (r: nat)
    requires AllDigits(s)
    ensures r <= 9 * |s|
    ensures r == 0 <==> forall i | 0 <= i < |s| :: s[i] == '0'
  {
    if s == [] then 0 else DigitTotal(s[..|s| - 1]) + (s[|s| - 1] as int - '0' as int)
  }

  /** Filtering a text made of digits only keeps all of it. */
  lemma {:induction false} DigitsInAllDigits(s: string)
    requires AllDigits(s)
    ensures DigitsIn(s) == s
  {
    if s != [] {
      DigitsInAllDigits(s[1..]);
    }
  }

  /** The digit characters of str(v) are the decimal text of |v|: the filter drops the sign and nothing else. */
  lemma DigitsOfStr(v: int)
    ensures DigitsIn(Str(v)) == Decimal(Abs(v))
  {
    DigitsInAllDigits(Decimal(Abs(v)));
    if v < 0 {
      assert Str(v)[1..] == Decimal(-v);
    }
  }

  // ---------------------------------------------------------------------------
  // Digit sums and digit reduction
  // ---------------------------------------------------------------------------

  /** The sum of the decimal digits of n. */
  function DigitSum(n: nat): (r: nat)
    ensures r <= n
    ensures n >= 10 ==> r < n
    ensures r == 0 <==> n == 0
  {
    if n < 10 then n else DigitSum(n / 10) + n % 10
  }

  /** Summing the characters of the decimal text of n is summing its digits. */
  lemma {:induction false} DigitTotalOfDecimal(n: nat)
    ensures DigitTotal(Decimal(n)) == DigitSum(n)
  {
    if n >= 10 {
      var s := Decimal(n);
      assert s[..|s| - 1] == Decimal(n / 10);
      DigitTotalOfDecimal(n / 10);
    }
  }

  /** Numbers a multiple of 9 apart leave the same remainder modulo 9. */
  lemma SameResidue(a: int, b: int, m: int)
    requires a - b == 9 * m
    ensures a % 9 == b % 9
  {
  }

  /** A number and its digit sum leave the same remainder modulo 9 (casting out nines). */
  lemma {:induction false} DigitSumCongruent(n: nat)
    ensures DigitSum(n) % 9 == n % 9
  {
    if n >= 10 {
      var q := n / 10;
      DigitSumCongruent(q);
      var m := q / 9 - DigitSum(q) / 9;
      assert q - DigitSum(q) == 9 * m;
      assert n - DigitSum(n) == 9 * (q + m);
      SameResidue(n, DigitSum(n), q + m);
    }
  }

  /** Re-summing the digits while the total exceeds 9. */
  function Settle(t: nat): (r: nat)
    decreases t
    ensures r <= 9 && r <= t
    ensures r == 0 <==> t == 0
  {
    if t > 9 then Settle(DigitSum(t)) else t
  }

  /** Re-summing keeps the remainder modulo 9. */
  lemma {:induction false} SettleCongruent(t: nat)
    decreases t
    ensures Settle(t) % 9 == t % 9
  {
    if t > 9 {
      DigitSumCongruent(t);
      SettleCongruent(DigitSum(t));
    }
  }

  /** The digit reduction of an integer: the digit sum of its absolute value, re-summed down to one digit. */
  function Reduce(v: int): (r: nat)
    ensures r <= 9
    ensures r == 0 <==> v == 0
  {
    Settle(DigitSum(Abs(v)))
  }

  /** The closed form of digit reduction, the digital root. */
  function DigitalRoot(v: int): int
  {
    if v == 0 then 0 else 1 + (Abs(v) - 1) % 9
  }

  /** A digit 1..9 is determined by its remainder modulo 9. */
  lemma DigitOfResidue(r: int, a: int)
    requires 1 <= r <= 9 && 1 <= a && r % 9 == a % 9
    ensures r == 1 + (a - 1) % 9
  {
    var q := (a - 1) / 9;
    assert a - 1 == 9 * q + (a - 1) % 9;
    assert a == 9 * q + ((a - 1) % 9 + 1);
  }

  /** Digit reduction is the digital root. */
  lemma ReduceIsDigitalRoot(v: int)
    ensures Reduce(v) == DigitalRoot(v)
  {
    if v != 0 {
      DigitSumCongruent(Abs(v));
      SettleCongruent(DigitSum(Abs(v)));
      DigitOfResidue(Reduce(v), Abs(v));
    }
  }

  /** The sign of the input does not matter: only digit characters are summed. */
  lemma SignIgnored(v: int)
    ensures DigitsIn(Str(-v)) == DigitsIn(Str(v))
    ensures Reduce(-v) == Reduce(v)
  {
    DigitsOfStr(v);
    DigitsOfStr(-v);
  }

  /** Reducing a reduced digit changes nothing. */
  lemma ReduceIdempotent(v: int)
    ensures Reduce(Reduce(v)) == Reduce(v)
  {
    ReduceIsDigitalRoot(v);
    ReduceIsDigitalRoot(Reduce(v));
  }

  /** reduce_to_digit: sum the digit characters of str(value), then re-sum str(total) while total > 9. */
  method ReduceToDigit(value: int) returns (total: int)
    ensures total == Reduce(value)
    ensures total == DigitalRoot(value)
  {
    DigitsOfStr(value);
    DigitTotalOfDecimal(Abs(value));
    total := DigitTotal(DigitsIn(Str(value)));
    while total > 9
      invariant 0 <= total
      invariant Settle(total) == Reduce(value)
      decreases total
    {
      DigitTotalOfDecimal(total);
      total := DigitTotal(Str(total));
    }
    ReduceIsDigitalRoot(value);
  }

  // ---------------------------------------------------------------------------
  // Static tables: planet colours, planet records and the zone layout
  // ---------------------------------------------------------------------------

  type Colour = string

  /** The drawing colour of each planet digit. */
  const ColorMap: map<int, Colour> := map[
    1 := "#E52B50", 2 := "#87CEEB", 3 := "#F4C430", 4 := "#86261c",
    5 := "#009B77", 6 := "#FADADD", 7 := "#b2beb5", 8 := "#0047AB", 9 := "#ff4040"]

  /** What a digit stands for: the planet's name, its colour word and its traits. */
  datatype Planet = Planet(name: string, colourWord: string, traits: string)

  const PlanetInfo: map<int, Planet> := map[
    1 := Planet("Sun", "ruby", "leadership, authority, clarity"),
    2 := Planet("Moon", "light blue", "emotion, softness, intuition"),
    3 := Planet("Jupiter", "saffron", "wisdom, guidance, growth"),
    4 := Planet("Rahu", "tea brown", "illusions, instability, surprises"),
    5 := Planet("Mercury", "emerald", "intellect, communication, flexibility"),
    6 := Planet("Venus", "pink", "harmony, love, beauty"),
    7 := Planet("Ketu", "smoky", "isolation, detachment, mysticism"),
    8 := Planet("Saturn", "blue", "karma, discipline, responsibility"),
    9 := Planet("Mars", "scarlet", "energy, action, intensity")]

  /** A cell of the mandala by 1-based column x and row y. */
  datatype Cell = Cell(x: int, y: int)

  /** The cells of regions 1, 2, 3 and 4, in the order the layout lists them (region k at index k - 1). */
  const ZoneCoords: seq<seq<Cell>> := [
    [Cell(4,4), Cell(5,4), Cell(6,4), Cell(4,5), Cell(5,5), Cell(6,5), Cell(4,6), Cell(5,6), Cell(6,6),
     Cell(2,1), Cell(2,2), Cell(1,2), Cell(8,1), Cell(8,2), Cell(9,2), Cell(1,8), Cell(2,8), Cell(2,9),
     Cell(8,8), Cell(8,9), Cell(9,8)],
    [Cell(5,1), Cell(4,2), Cell(5,2), Cell(6,2), Cell(4,3), Cell(5,3), Cell(6,3),
     Cell(2,4), Cell(3,4), Cell(1,5), Cell(2,5), Cell(3,5), Cell(2,6), Cell(3,6),
     Cell(4,7), Cell(5,7), Cell(6,7), Cell(4,8), Cell(5,8), Cell(6,8), Cell(5,9),
     Cell(7,4), Cell(7,5), Cell(7,6), Cell(8,4), Cell(8,5), Cell(8,6), Cell(9,5)],
    [Cell(6,1), Cell(3,3), Cell(7,3), Cell(1,4), Cell(9,6), Cell(3,7), Cell(7,7), Cell(4,9)],
    [Cell(1,1), Cell(3,1), Cell(9,1), Cell(9,3), Cell(1,7), Cell(1,9), Cell(7,9), Cell(9,9)]]

  predicate OnBoard(c: Cell) { 1 <= c.x <= 9 && 1 <= c.y <= 9 }

  /** No cell is listed twice. */
  predicate NoDuplicates(s: seq<Cell>) { forall i, j | 0 <= i < j < |s| :: s[i] != s[j] }

  /** No cell of a is a cell of b. */
  predicate Apart(a: seq<Cell>, b: seq<Cell>) { forall i, j | 0 <= i < |a| && 0 <= j < |b| :: a[i] != b[j] }

  /** Every cell a table lists lies on the board. */
  predicate AllOnBoard(table: seq<seq<Cell>>)
  {
    forall k, i | 0 <= k < |table| && 0 <= i < |table[k]| :: OnBoard(table[k][i])
  }

  /** A layout table the fill can use as intended: every cell on the board, no cell listed
      twice within a region, no cell listed by two regions. */
  predicate ProperLayout(table: seq<seq<Cell>>)
  {
    AllOnBoard(table)
    && (forall k | 0 <= k < |table| :: NoDuplicates(table[k]))
    && (forall j, k | 0 <= j < k < |table| :: Apart(table[j], table[k]))
  }

  /** The cells of regions 1..n of a table, region after region. */
  function Flatten(table: seq<seq<Cell>>, n: nat): (s: seq<Cell>)
    requires n <= |table|
    ensures forall c :: c in s <==> exists k | 0 <= k < n :: c in table[k]
  {
    if n == 0 then [] else Flatten(table, n - 1) + table[n - 1]
  }

  lemma {:induction false} NoDuplicatesConcat(a: seq<Cell>, b: seq<Cell>)
    requires NoDuplicates(a) && NoDuplicates(b) && Apart(a, b)
    ensures NoDuplicates(a + b)
  {
    forall i, j | 0 <= i < j < |a + b|
      ensures (a + b)[i] != (a + b)[j]
    {
      if j < |a| {
        assert (a + b)[i] == a[i] && (a + b)[j] == a[j];
      } else if i < |a| {
        assert (a + b)[i] == a[i] && (a + b)[j] == b[j - |a|];
      } else {
        assert (a + b)[i] == b[i - |a|] && (a + b)[j] == b[j - |a|];
      }
    }
  }

  lemma {:induction false} ApartConcat(a: seq<Cell>, b: seq<Cell>, c: seq<Cell>)
    requires Apart(a, c) && Apart(b, c)
    ensures Apart(a + b, c)
  {
    forall i, j | 0 <= i < |a + b| && 0 <= j < |c|
      ensures (a + b)[i] != c[j]
    {
      if i < |a| {
        assert (a + b)[i] == a[i];
      } else {
        assert (a + b)[i] == b[i - |a|];
      }
    }
  }

  /** Regions that each share nothing with b share nothing with b together. */
  lemma {:induction false} ApartFlatten(table: seq<seq<Cell>>, n: nat, b: seq<Cell>)
    requires n <= |table|
    requires forall k | 0 <= k < n :: Apart(table[k], b)
    ensures Apart(Flatten(table, n), b)
  {
    if n > 0 {
      ApartFlatten(table, n - 1, b);
      ApartConcat(Flatten(table, n - 1), table[n - 1], b);
    }
  }

  /** In a proper layout no cell occurs twice in the whole listing. */
  lemma {:induction false} FlattenNoDuplicates(table: seq<seq<Cell>>, n: nat)
    requires ProperLayout(table) && n <= |table|
    ensures NoDuplicates(Flatten(table, n))
  {
    if n > 0 {
      FlattenNoDuplicates(table, n - 1);
      ApartFlatten(table, n - 1, table[n - 1]);
      NoDuplicatesConcat(Flatten(table, n - 1), table[n - 1]);
    }
  }

  /** A listing without repeats names as many cells as it is long. */
  lemma {:induction false} NoDuplicatesCard(s: seq<Cell>)
    requires NoDuplicates(s)
    ensures |set c | c in s| == |s|
  {
    if s != [] {
      var t := s[..|s| - 1];
      assert s == t + [s[|s| - 1]];
      assert NoDuplicates(t);
      NoDuplicatesCard(t);
      assert (set c | c in s) == (set c | c in t) + {s[|s| - 1]};
    }
  }

  // ---------------------------------------------------------------------------
  // The zone map: which region each cell belongs to after the fill
  // ---------------------------------------------------------------------------

  /** The zone id of cell c once the fill has written regions 1..n of the table in order (later
      writes overwrite earlier ones): the last of those regions that lists c, or 0 if none does. */
  function ZoneAfter(table: seq<seq<Cell>>, n: nat, c: Cell): (k: nat)
    requires n <= |table|
    ensures k <= n
    ensures k != 0 ==> c in table[k - 1]
    ensures forall j | k <= j < n :: c !in table[j]
  {
    if n == 0 then 0
    else if c in table[n - 1] then n
    else ZoneAfter(table, n - 1, c)
  }

  /** In a proper layout a cell ends up with zone id k exactly when region k lists it, and with 0
      exactly when no region does. */
  lemma ZoneAfterListing(table: seq<seq<Cell>>, c: Cell, k: int)
    requires ProperLayout(table) && 1 <= k <= |table|
    ensures ZoneAfter(table, |table|, c) == k <==> c in table[k - 1]
    ensures ZoneAfter(table, |table|, c) == 0 <==> c !in Flatten(table, |table|)
  {
  }

  /** In a proper layout the cells with a non-zero zone id are exactly the listed cells, as many as the listing is long. */
  lemma CoveredCells(table: seq<seq<Cell>>)
    requires ProperLayout(table)
    ensures (set x, y | 1 <= x <= 9 && 1 <= y <= 9 && ZoneAfter(table, |table|, Cell(x, y)) != 0 :: Cell(x, y))
         == (set c | c in Flatten(table, |table|))
    ensures |set c | c in Flatten(table, |table|)| == |Flatten(table, |table|)|
  {
    var covered := set x, y | 1 <= x <= 9 && 1 <= y <= 9 && ZoneAfter(table, |table|, Cell(x, y)) != 0 :: Cell(x, y);
    forall c | c in Flatten(table, |table|)
      ensures c in covered
    {
      var k :| 0 <= k < |table| && c in table[k];
      var i :| 0 <= i < |table[k]| && table[k][i] == c;
      assert OnBoard(table[k][i]);
      assert ZoneAfter(table, |table|, c) != 0;
      assert c == Cell(c.x, c.y);
    }
    FlattenNoDuplicates(table, |table|);
    NoDuplicatesCard(Flatten(table, |table|));
  }

  // The checks of the concrete table are split into pieces small enough for the solver;
  // ZoneCoordsProper puts them together.

  lemma RegionOneHalvesDistinct()
    ensures NoDuplicates(ZoneCoords[0][..11]) && NoDuplicates(ZoneCoords[0][11..])
  {}

  lemma RegionOneHalvesApart()
    ensures Apart(ZoneCoords[0][..11], ZoneCoords[0][11..])
  {}

  lemma RegionTwoFirstHalfDistinct()
    ensures NoDuplicates(ZoneCoords[1][..14])
  {}

  lemma RegionTwoSecondHalfDistinct()
    ensures NoDuplicates(ZoneCoords[1][14..])
  {}

  lemma RegionTwoHalvesApart()
    ensures Apart(ZoneCoords[1][..14], ZoneCoords[1][14..])
  {}

  lemma RegionsThreeFourDistinct()
    ensures NoDuplicates(ZoneCoords[2]) && NoDuplicates(ZoneCoords[3])
    ensures Apart(ZoneCoords[2], ZoneCoords[3])
  {}

  lemma RegionOneApartFromTwo()
    ensures Apart(ZoneCoords[0], ZoneCoords[1])
  {}

  lemma RegionOneApartFromThreeFour()
    ensures Apart(ZoneCoords[0], ZoneCoords[2]) && Apart(ZoneCoords[0], ZoneCoords[3])
  {}

  lemma RegionTwoApartFromThreeFour()
    ensures Apart(ZoneCoords[1], ZoneCoords[2]) && Apart(ZoneCoords[1], ZoneCoords[3])
  {}

  lemma ZoneCoordsOnBoard()
    ensures AllOnBoard(ZoneCoords)
  {
    var z0, z1, z2, z3 := ZoneCoords[0], ZoneCoords[1], ZoneCoords[2], ZoneCoords[3];
    assert forall i | 0 <= i < |z0| :: OnBoard(z0[i]);
    assert forall i | 0 <= i < |z1| :: OnBoard(z1[i]);
    assert forall i | 0 <= i < |z2| :: OnBoard(z2[i]);
    assert forall i | 0 <= i < |z3| :: OnBoard(z3[i]);
  }

  lemma RegionOneDistinct()
    ensures NoDuplicates(ZoneCoords[0])
  {
    var z0 := ZoneCoords[0];
    RegionOneHalvesDistinct();
    RegionOneHalvesApart();
    assert z0 == z0[..11] + z0[11..];
    NoDuplicatesConcat(z0[..11], z0[11..]);
  }

  lemma RegionTwoDistinct()
    ensures NoDuplicates(ZoneCoords[1])
  {
    var z1 := ZoneCoords[1];
    RegionTwoFirstHalfDistinct();
    RegionTwoSecondHalfDistinct();
    RegionTwoHalvesApart();
    assert z1 == z1[..14] + z1[14..];
    NoDuplicatesConcat(z1[..14], z1[14..]);
  }

  /** The layout table lists cells of the board only, and no cell twice, so its four regions are pairwise disjoint. */
  lemma ZoneCoordsProper()
    ensures ProperLayout(ZoneCoords)
  {
    ZoneCoordsOnBoard();
    RegionOneDistinct();
    RegionTwoDistinct();
    RegionsThreeFourDistinct();
    RegionOneApartFromTwo();
    RegionOneApartFromThreeFour();
    RegionTwoApartFromThreeFour();
  }

  /** The zone id the fill leaves in cell (x, y). The ensures is only its range; what the id means is
      stated by ZoneOfListing (k exactly when region k lists the cell, 0 when none does) and by BuildZoneMap. */
  function ZoneOf(x: int, y: int): (zone: nat)
    ensures zone <= 4
  {
    ZoneAfter(ZoneCoords, |ZoneCoords|, Cell(x, y))
  }

  /** A cell holds zone id k exactly when region k lists it, and 0 exactly when no region does. */
  lemma ZoneOfListing(c: Cell, k: int)
    requires 1 <= k <= 4
    ensures ZoneOf(c.x, c.y) <= 4
    ensures ZoneOf(c.x, c.y) == k <==> c in ZoneCoords[k - 1]
    ensures ZoneOf(c.x, c.y) == 0 <==> forall j | 0 <= j < 4 :: c !in ZoneCoords[j]
  {
    ZoneCoordsProper();
    ZoneAfterListing(ZoneCoords, c, k);
  }

  /** The four regions cover 65 of the 81 cells. */
  lemma CoveredCount()
    ensures |set x, y | 1 <= x <= 9 && 1 <= y <= 9 && ZoneOf(x, y) != 0 :: Cell(x, y)| == 65
  {
    ZoneCoordsProper();
    CoveredCells(ZoneCoords);
    var covered := set x, y | 1 <= x <= 9 && 1 <= y <= 9 && ZoneOf(x, y) != 0 :: Cell(x, y);
    assert covered == set x, y | 1 <= x <= 9 && 1 <= y <= 9 && ZoneAfter(ZoneCoords, |ZoneCoords|, Cell(x, y)) != 0 :: Cell(x, y);
    assert |Flatten(ZoneCoords, |ZoneCoords|)| == 65;
  }

  /** Cell (4, 1), at the south end of column 4, lies in no region. */
  lemma UnlistedCell()
    ensures OnBoard(Cell(4, 1)) && forall k | 0 <= k < 4 :: Cell(4, 1) !in ZoneCoords[k]
  {}

  /** The first half of draw_grid: a zeroed 9x9 array, then zone id k written at [y - 1, x - 1]
      for every (x, y) that region k of the layout lists, regions taken in order 1..|layout|;
      a cell listed twice keeps the id of the last region listing it. */
  method BuildZoneMap(layout: seq<seq<Cell>>) returns (zoneMap: array2<int>)
    requires AllOnBoard(layout)
    ensures fresh(zoneMap)
    ensures zoneMap.Length0 == 9 && zoneMap.Length1 == 9
    ensures forall r, c | 0 <= r < 9 && 0 <= c < 9 :: zoneMap[r, c] == ZoneAfter(layout, |layout|, Cell(c + 1, r + 1))
  {
    zoneMap := new int[9, 9]((r, c) => 0);
    var k := 0;
    while k < |layout|
      invariant 0 <= k <= |layout|
      invariant forall r, c | 0 <= r < 9 && 0 <= c < 9 :: zoneMap[r, c] == ZoneAfter(layout, k, Cell(c + 1, r + 1))
    {
      var coords := layout[k];
      var i := 0;
      while i < |coords|
        invariant 0 <= i <= |coords|
        invariant forall r, c | 0 <= r < 9 && 0 <= c < 9 ::
          zoneMap[r, c] == if Cell(c + 1, r + 1) in coords[..i] then k + 1 else ZoneAfter(layout, k, Cell(c + 1, r + 1))
      {
        var cell := coords[i];
        assert OnBoard(layout[k][i]);
        zoneMap[cell.y - 1, cell.x - 1] := k + 1;
        assert coords[..i + 1] == coords[..i] + [cell];
        i := i + 1;
      }
      assert coords[..i] == coords;
      k := k + 1;
    }
  }

  // ---------------------------------------------------------------------------
  // Colouring and drawing the grid
  // ---------------------------------------------------------------------------

  /** The colour of a cell of zone `zone` under the assignment `colors` (zone id to digit):
      white for a zone the assignment leaves out, else the colour of the zone's digit,
      a digit without a colour raising a KeyError. */
  function CellColour(colors: map<int, int>, zone: int): (r: Result<Colour>)
    ensures r.KeyError? <==> zone in colors && colors[zone] !in ColorMap
    ensures r.KeyError? ==> r.key == colors[zone]
    ensures zone !in colors ==> r == Ok("white")
  {
    if zone !in colors then Ok("white")
    else if colors[zone] in ColorMap then Ok(ColorMap[colors[zone]])
    else KeyError(colors[zone])
  }

  /** The assignment of the four zone digits to regions 1..4. */
  function Assignment(zones: seq<int>): (colors: map<int, int>)
    requires |zones| == 4
    ensures colors.Keys == {1, 2, 3, 4}
    ensures forall k | 1 <= k <= 4 :: colors[k] == zones[k - 1]
  {
    map[1 := zones[0], 2 := zones[1], 3 := zones[2], 4 := zones[3]]
  }

  /** Four zone digits, each 1..9. */
  predicate ZoneDigits(zones: seq<int>)
  {
    |zones| == 4 && forall i | 0 <= i < 4 :: 1 <= zones[i] <= 9
  }

  /** The colour a cell of zone `zone` should get when region k shows the k-th of four digits. */
  function ZoneColour(zones: seq<int>, zone: int): Colour
    requires ZoneDigits(zones) && 0 <= zone <= 4
  {
    if zone == 0 then "white" else ColorMap[zones[zone - 1]]
  }

  /** With four digits 1..9 every zone 0..4 gets a colour: white outside the regions, the digit's colour inside. */
  lemma AssignedColours(zones: seq<int>, zone: int)
    requires ZoneDigits(zones) && 0 <= zone <= 4
    ensures CellColour(Assignment(zones), zone) == Ok(ZoneColour(zones, zone))
  {
  }

  /** A square of the drawing: its lower-left corner on screen and its face colour. */
  datatype Patch = Patch(x: int, y: int, colour: Colour)

  /** 81 squares, one on each position of the 9x9 screen grid. */
  predicate Tiles(patches: seq<Patch>)
  {
    |patches| == 81
    && (forall i | 0 <= i < 81 :: 0 <= patches[i].x < 9 && 0 <= patches[i].y < 9)
    && (forall i, j | 0 <= i < j < 81 :: patches[i].x != patches[j].x || patches[i].y != patches[j].y)
  }

  /** Whether some zone present on the board is assigned a digit that has no colour. */
  predicate Unpaintable(colors: map<int, int>)
  {
    exists zone | 0 <= zone <= 4 && zone in colors :: colors[zone] !in ColorMap
  }

  /** The zone id a layout gives the i-th cell in drawing order, the cell in array row i / 9 and column i % 9.
      The ensures is only its range; its meaning is ZoneAfter's (the last region listing the cell, or 0),
      which ZoneAfterListing turns into region membership for a proper layout. */
  function CellZone(layout: seq<seq<Cell>>, i: int): (zone: nat)
    ensures zone <= |layout|
  {
    ZoneAfter(layout, |layout|, Cell(i % 9 + 1, i / 9 + 1))
  }

  /** The patches of the first `count` cells in drawing order (array row by array row): the cell in array row
      y and column x is drawn at screen column x and screen row 8 - y, in the colour of its zone. */
  predicate DrawnSoFar(colors: map<int, int>, layout: seq<seq<Cell>>, patches: seq<Patch>, count: int)
  {
    |patches| == count
    && forall i | 0 <= i < count ::
         CellColour(colors, CellZone(layout, i)).Ok?
         && patches[i] == Patch(i % 9, 8 - i / 9, CellColour(colors, CellZone(layout, i)).value)
  }

  /** Squares drawn at (i mod 9, 8 - i div 9) for i < 81 tile the screen grid. */
  lemma DrawingTiles(colors: map<int, int>, layout: seq<seq<Cell>>, patches: seq<Patch>)
    requires DrawnSoFar(colors, layout, patches, 81)
    ensures Tiles(patches)
  {
    forall i, j | 0 <= i < j < 81
      ensures patches[i].x != patches[j].x || patches[i].y != patches[j].y
    {
      assert i == 9 * (i / 9) + i % 9 && j == 9 * (j / 9) + j % 9;
    }
  }

  /** Drawing all 81 cells without a KeyError means every zone of the board had a colour, for a proper
      layout of four non-empty regions that leaves some cell of the board (`spare`) unlisted. */
  lemma PaintableWhenDrawn(colors: map<int, int>, layout: seq<seq<Cell>>, spare: Cell, patches: seq<Patch>)
    requires ProperLayout(layout) && |layout| == 4 && forall k | 0 <= k < 4 :: |layout[k]| > 0
    requires OnBoard(spare) && forall k | 0 <= k < 4 :: spare !in layout[k]
    requires DrawnSoFar(colors, layout, patches, 81)
    ensures !Unpaintable(colors)
  {
    forall zone | 0 <= zone <= 4 && zone in colors
      ensures colors[zone] in ColorMap
    {
      var c := if zone == 0 then spare else layout[zone - 1][0];
      assert OnBoard(c);
      ZoneAfterListing(layout, c, if zone == 0 then 1 else zone);
      var i := 9 * (c.y - 1) + (c.x - 1);
      assert i % 9 + 1 == c.x && i / 9 + 1 == c.y;
      assert CellZone(layout, i) == zone;
      assert CellColour(colors, CellZone(layout, i)).Ok?;
    }
  }

  /** Drawing one more cell, the one in array row y and column x, extends the drawing in order. */
  lemma DrawnOneMore(colors: map<int, int>, layout: seq<seq<Cell>>, patches: seq<Patch>, y: int, x: int, colour: Colour)
    requires 0 <= y < 9 && 0 <= x < 9 && DrawnSoFar(colors, layout, patches, 9 * y + x)
    requires CellColour(colors, CellZone(layout, 9 * y + x)) == Ok(colour)
    ensures DrawnSoFar(colors, layout, patches + [Patch(x, 8 - y, colour)], 9 * y + x + 1)
  {
    var longer := patches + [Patch(x, 8 - y, colour)];
    forall i | 0 <= i < 9 * y + x + 1
      ensures CellColour(colors, CellZone(layout, i)).Ok?
      ensures longer[i] == Patch(i % 9, 8 - i / 9, CellColour(colors, CellZone(layout, i)).value)
    {
      if i < 9 * y + x {
        assert longer[i] == patches[i];
      }
    }
  }

  /** draw_grid: builds the zone map, then colours the cells row by row, a cell of array row y being drawn at screen row 8 - y. */
  method DrawGrid(colors: map<int, int>) returns (r: Result<seq<Patch>>)
    ensures r.KeyError? <==> Unpaintable(colors)
    ensures r.KeyError? ==> exists zone | 0 <= zone <= 4 && zone in colors :: colors[zone] !in ColorMap && r.key == colors[zone]
    ensures r.KeyError? ==> exists i | 0 <= i < 81 ::
      CellColour(colors, CellZone(ZoneCoords, i)) == KeyError(r.key)
      && forall j | 0 <= j < i :: CellColour(colors, CellZone(ZoneCoords, j)).Ok?
    ensures r.Ok? ==> DrawnSoFar(colors, ZoneCoords, r.value, 81) && Tiles(r.value)
  {
    ZoneCoordsOnBoard();
    var zoneMap := BuildZoneMap(ZoneCoords);
    var patches: seq<Patch> := [];
    for y := 0 to 9
      invariant DrawnSoFar(colors, ZoneCoords, patches, 9 * y)
      modifies {}
    {
      for x := 0 to 9
        invariant DrawnSoFar(colors, ZoneCoords, patches, 9 * y + x)
        modifies {}
      {
        var zone := zoneMap[y, x];
        assert (9 * y + x) % 9 == x && (9 * y + x) / 9 == y;
        assert zone == CellZone(ZoneCoords, 9 * y + x);
        var colour := CellColour(colors, zone);
        if colour.KeyError? {
          assert 0 <= zone <= 4 && zone in colors && colors[zone] !in ColorMap;
          assert CellColour(colors, CellZone(ZoneCoords, 9 * y + x)) == KeyError(colour.key);
          return KeyError(colour.key);
        }
        DrawnOneMore(colors, ZoneCoords, patches, y, x, colour.value);
        patches := patches + [Patch(x, 8 - y, colour.value)];
      }
    }
    ZoneCoordsProper();
    UnlistedCell();
    PaintableWhenDrawn(colors, ZoneCoords, Cell(4, 1), patches);
    DrawingTiles(colors, ZoneCoords, patches);
    r := Ok(patches);
  }

  // ---------------------------------------------------------------------------
  // Interpreting the zones and the remedy warning
  // ---------------------------------------------------------------------------

  /** The planet_info lookup of a reduced digit: the digits 1..9 name a planet, any other key raises a KeyError. */
  function Interpret(z: int): (r: Result<Planet>)
    ensures r.Ok? <==> 1 <= z <= 9
    ensures r.KeyError? ==> r.key == z
  {
    if z in PlanetInfo then Ok(PlanetInfo[z]) else KeyError(z)
  }

  /** A reduced coordinate part has a planet exactly when it is non-zero; 0 is the one key the lookup refuses. */
  lemma InterpretReduced(v: int)
    ensures Interpret(Reduce(v)).KeyError? <==> v == 0
    ensures Interpret(Reduce(v)).KeyError? ==> Interpret(Reduce(v)).key == 0
    ensures Interpret(Reduce(v)).Ok? ==> Interpret(Reduce(v)).value == PlanetInfo[DigitalRoot(v)]
  {
    ReduceIsDigitalRoot(v);
  }

  /** The digits whose planets (Rahu, Ketu, Saturn, Mars) call for remedies. */
  const ChallengingDigits: seq<int> := [4, 7, 8, 9]

  /** The planets the remedy warning names. */
  const ChallengingPlanetNames: seq<string> := ["Rahu", "Ketu", "Saturn", "Mars"]

  /** Whether some zone digit is a challenging one. */
  function Challenging(zones: seq<int>): (b: bool)
    ensures b <==> exists i | 0 <= i < |zones| :: zones[i] in ChallengingDigits
  {
    if |zones| == 0 then false
    else if zones[0] in ChallengingDigits then true
    else
      var rest := Challenging(zones[1..]);
      assert forall i | 1 <= i < |zones| :: zones[i] == zones[1..][i - 1];
      rest
  }

  /** A digit 1..9 is challenging exactly when its planet is one the warning names. */
  lemma ChallengingPlanet(z: int)
    requires 1 <= z <= 9
    ensures z in ChallengingDigits <==> PlanetInfo[z].name in ChallengingPlanetNames
    ensures z in ChallengingDigits <==> WarnedPlanet(z)
  {
    if z == 1 {} else if z == 2 {} else if z == 3 {} else if z == 4 {} else if z == 5 {}
    else if z == 6 {} else if z == 7 {} else if z == 8 {} else {}
  }

  /** Whether the planet of digit z is one the remedy warning names. */
  predicate WarnedPlanet(z: int)
    requires 1 <= z <= 9
  {
    PlanetInfo[z].name in ChallengingPlanetNames
  }

  /** For zone digits 1..9 the warning fires exactly when one of their planets is Rahu, Ketu, Saturn or Mars. */
  lemma ChallengingPlanets(zones: seq<int>)
    requires forall i | 0 <= i < |zones| :: 1 <= zones[i] <= 9
    ensures Challenging(zones) <==> exists i | 0 <= i < |zones| :: WarnedPlanet(zones[i])
  {
    forall i | 0 <= i < |zones|
      ensures zones[i] in ChallengingDigits <==> WarnedPlanet(zones[i])
    {
      ChallengingPlanet(zones[i]);
    }
  }

  // ---------------------------------------------------------------------------
  // Generating the mandala
  // ---------------------------------------------------------------------------

  /** What one press of "Generate Mandala" shows: the four zone digits, their planets, the drawn grid and
      whether the remedy warning appears. */
  datatype Mandala = Mandala(zones: seq<int>, readings: seq<Planet>, grid: seq<Patch>, remedy: bool)

  /** With four digits 1..9 no zone of the board lacks a colour. */
  lemma AssignmentPaintable(zones: seq<int>)
    requires ZoneDigits(zones)
    ensures !Unpaintable(Assignment(zones))
  {
    forall zone | 0 <= zone <= 4 && zone in Assignment(zones)
      ensures Assignment(zones)[zone] in ColorMap
    {
      AssignedColours(zones, zone);
    }
  }

  /** The 81 squares in drawing order, the cell in array row y and column x drawn at screen column x and
      screen row 8 - y in the colour of its zone under the four digits. */
  predicate ZoneColoured(zones: seq<int>, layout: seq<seq<Cell>>, patches: seq<Patch>)
    requires ZoneDigits(zones) && |layout| == 4
  {
    |patches| == 81
    && forall i | 0 <= i < 81 :: patches[i] == Patch(i % 9, 8 - i / 9, ZoneColour(zones, CellZone(layout, i)))
  }

  /** A complete drawing under four digits 1..9 shows every cell in its zone's colour. */
  lemma DrawnInZoneColours(zones: seq<int>, layout: seq<seq<Cell>>, patches: seq<Patch>)
    requires ZoneDigits(zones) && |layout| == 4
    requires DrawnSoFar(Assignment(zones), layout, patches, 81)
    ensures ZoneColoured(zones, layout, patches)
  {
    forall i | 0 <= i < 81
      ensures patches[i] == Patch(i % 9, 8 - i / 9, ZoneColour(zones, CellZone(layout, i)))
    {
      AssignedColours(zones, CellZone(layout, i));
    }
  }

  /** The "Generate Mandala" handler on the degree and minute parts of the two coordinates: reduce each part,
      look up the four planets in the order latitude degrees, longitude degrees, latitude minutes, longitude
      minutes, draw the grid and decide the remedy warning. A zero digit makes the planet lookup raise a
      KeyError, which the handler's ValueError clause does not catch. */
  method GenerateMandala(latDeg: int, lonDeg: int, latMin: int, lonMin: int) returns (r: Result<Mandala>)
    ensures r.KeyError? <==> latDeg == 0 || lonDeg == 0 || latMin == 0 || lonMin == 0
    ensures r.KeyError? ==> r.key == 0
    ensures r.Ok? ==> r.value.zones == [DigitalRoot(latDeg), DigitalRoot(lonDeg), DigitalRoot(latMin), DigitalRoot(lonMin)]
    ensures r.Ok? ==> ZoneDigits(r.value.zones)
    ensures r.Ok? ==> |r.value.readings| == 4 && forall i | 0 <= i < 4 :: r.value.readings[i] == PlanetInfo[r.value.zones[i]]
    ensures r.Ok? ==> (r.value.remedy <==> exists i | 0 <= i < 4 :: r.value.zones[i] in ChallengingDigits)
    ensures r.Ok? ==> Tiles(r.value.grid) && ZoneColoured(r.value.zones, ZoneCoords, r.value.grid)
  {
    var z1 := ReduceToDigit(latDeg);
    var z2 := ReduceToDigit(lonDeg);
    var z3 := ReduceToDigit(latMin);
    var z4 := ReduceToDigit(lonMin);
    InterpretReduced(latDeg);
    InterpretReduced(lonDeg);
    InterpretReduced(latMin);
    InterpretReduced(lonMin);
    var p1 := Interpret(z1);
    if p1.KeyError? { return KeyError(p1.key); }
    var p2 := Interpret(z2);
    if p2.KeyError? { return KeyError(p2.key); }
    var p3 := Interpret(z3);
    if p3.KeyError? { return KeyError(p3.key); }
    var p4 := Interpret(z4);
    if p4.KeyError? { return KeyError(p4.key); }
    var zones := [z1, z2, z3, z4];
    AssignmentPaintable(zones);
    var drawn := DrawGrid(Assignment(zones));
    DrawnInZoneColours(zones, ZoneCoords, drawn.value);
    r := Ok(Mandala(zones, [p1.value, p2.value, p3.value, p4.value], drawn.value, Challenging(zones)));
  }

  /** The default coordinates 65.026802, 35.709128 split into 65 degrees 2 minutes and 35 degrees 43 minutes;
      they give the zone digits 2, 8, 2, 7 and, through Saturn and Ketu, the remedy warning. */
  lemma DefaultCoordinates()
    ensures Reduce(65) == 2 && Reduce(35) == 8 && Reduce(2) == 2 && Reduce(43) == 7
    ensures Challenging([2, 8, 2, 7])
    ensures PlanetInfo[8].name == "Saturn" && PlanetInfo[7].name == "Ketu"
  {
    assert [2, 8, 2, 7][1] in ChallengingDigits;
  }
}
