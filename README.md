# Vastu mandala generator: a verified model of its core

The program turns a latitude and a longitude into a personal Vastu mandala. Each coordinate is split
into whole degrees and minutes. Each of the four integers is reduced to one digit by repeated digit
summing. The digits are read as the nine Vedic planets and painted into four fixed regions of a 9x9
swastika-shaped grid. A remedy warning appears when a challenging planet (Rahu, Ketu, Saturn or Mars)
is among them.

`vastu_mandala.dfy` holds one module, `VastuMandala`, with four parts:

- **Digit reduction.** `ReduceToDigit` is the `reduce_to_digit` loop as a method.
  - `Str`, `Decimal` and `DigitsIn` model Python's `str()` and the `isdigit()` filter as text.
  - The method is proved against the specification function `Reduce`, which re-sums digit sums, and
    against its closed form `DigitalRoot`, the digital root.
  - Lemmas give its bounds, its zero case, sign-blindness and idempotence.
- **Static tables.** `ColorMap` copies `color_map` (vastu_mandala_en.py:6-9) and `PlanetInfo` copies
  `planet_info` (vastu_mandala_en.py:24-34), entry for entry.
- **Zone layout and zone map.** `ZoneCoords` copies the static region table `zone_coords`
  (vastu_mandala_en.py:12-21).
  - Lemmas show that every listed cell is on the board, that no cell is listed twice, and that the
    regions are pairwise disjoint.
  - `BuildZoneMap` is the in-place fill of the 9x9 `zone_map` array. It is proved to leave in each cell
    the zone id of the last region listing it, or 0.
  - With the disjointness lemmas, a cell holds k exactly when region k lists it. The four regions cover
    65 of the 81 cells.
- **Colouring.** `CellColour` is the per-cell colour rule. `DrawGrid` is the drawing loop.
  - It produces 81 patches, one per screen position. A cell of array row y is drawn at screen row 8 - y.
  - It returns a `KeyError` exactly when some zone present on the board is assigned a digit with no
    colour.
- **The request handler.** `GenerateMandala` takes the four integers in the source's order:
  latitude degrees, longitude degrees, latitude minutes, longitude minutes.
  - It reduces them, looks up their planets, draws the grid and decides the remedy warning.
  - A part equal to 0 reduces to 0. The planet lookup then raises a `KeyError`, which the handler's
    `except ValueError` does not catch. The model returns that error.
  - Otherwise every zone digit is 1..9, every cell gets a colour, and the warning fires exactly when
    some digit is 4, 7, 8 or 9. Equivalently, it fires when some planet is one the warning names.

Where the program's own text and its code disagree, the model follows the code:

- The page tells the user that the degree and minute values become single-digit numbers 1..9
  (vastu_mandala_en.py:76 and :117), but `reduce_to_digit(0)` is 0.
- `planet_info` has no key 0 (vastu_mandala_en.py:24-34), so for a zero digit the lookup at
  vastu_mandala_en.py:100 raises a `KeyError`, and the `except ValueError` at vastu_mandala_en.py:130
  does not catch it.

## Model

| member | source | states |
|---|---|---|
| VastuMandala.IsDigit | vastu_mandala_en.py:38 | a character passes the digit test exactly when it is one of the ten characters "0123456789" |
| VastuMandala.Str | vastu_mandala_en.py:38-40 | the text `str(v)` is non-empty, starts with a minus sign exactly when v is negative, and is digits everywhere else; DigitsOfStr states that its digits are the decimal text of abs(v) |
| VastuMandala.DigitTotal | vastu_mandala_en.py:38-40 | the sum of `int(d)` over a text of digits is at most 9 per character, and is 0 exactly when every character is '0' |
| VastuMandala.Decimal | vastu_mandala_en.py:38 | the text `str()` gives a non-negative integer is non-empty and all digits; its first character is '0' only for 0; it is one character long exactly below 10 |
| VastuMandala.DecimalRoundTrip | vastu_mandala_en.py:38 | reading each character of the decimal text back with `int()` rebuilds the number: the text is a faithful rendering |
| VastuMandala.DigitsIn | vastu_mandala_en.py:38 | the `isdigit()` filter keeps only digit characters and never lengthens the text |
| VastuMandala.DigitsInAllDigits | vastu_mandala_en.py:38 | the filter keeps a text made only of digits unchanged |
| VastuMandala.DigitsOfStr | vastu_mandala_en.py:38 | the digit characters of `str(v)` are exactly the decimal text of abs(v); only the minus sign is dropped |
| VastuMandala.DigitSum | vastu_mandala_en.py:38-40 | a digit sum is at most the number, strictly smaller from 10 on (so the loop terminates), and 0 only for 0 |
| VastuMandala.DigitTotalOfDecimal | vastu_mandala_en.py:38-40 | summing `int(d)` over the characters of `str(n)` is the digit sum of n |
| VastuMandala.DigitSumCongruent | vastu_mandala_en.py:39-40 | a number and its digit sum leave the same remainder modulo 9 |
| VastuMandala.Settle | vastu_mandala_en.py:39-40 | re-summing while the total exceeds 9 ends in 0..9, never above the start, and in 0 only from 0 |
| VastuMandala.SettleCongruent | vastu_mandala_en.py:39-40 | the re-summing loop keeps the remainder modulo 9 |
| VastuMandala.Reduce | vastu_mandala_en.py:37-41 | the reduction of any integer is in 0..9, and is 0 exactly for 0 |
| VastuMandala.ReduceIsDigitalRoot | vastu_mandala_en.py:37-41 | the reduction is the digital root: 0 for 0, otherwise 1 + (abs(v) - 1) mod 9 |
| VastuMandala.SignIgnored | vastu_mandala_en.py:38 | v and -v yield the same digit characters and the same reduction |
| VastuMandala.ReduceIdempotent | vastu_mandala_en.py:37-41 | reducing an already reduced value changes nothing |
| VastuMandala.ReduceToDigit | vastu_mandala_en.py:37-41 | the loop terminates and returns the reduction of its input, i.e. its digital root |
| VastuMandala.ZoneCoordsOnBoard | vastu_mandala_en.py:12-21 | every coordinate of every region lies in 1..9 on both axes |
| VastuMandala.ZoneCoordsProper | vastu_mandala_en.py:12-21 | the layout has its cells on the board, no cell twice within a region, and pairwise disjoint regions |
| VastuMandala.UnlistedCell | vastu_mandala_en.py:12-21 | cell (4, 1) is on the board and in no region, so zone 0 occurs on the board |
| VastuMandala.Flatten | vastu_mandala_en.py:46-47 | a cell is among the cells the first n regions list exactly when one of those regions lists it |
| VastuMandala.FlattenNoDuplicates | vastu_mandala_en.py:12-21 | in a proper layout no cell is listed twice across all regions |
| VastuMandala.ZoneAfter | vastu_mandala_en.py:45-48 | after filling regions 1..n, a cell holds either 0 or the id k of a region that lists it, with no later region listing it |
| VastuMandala.ZoneAfterListing | vastu_mandala_en.py:45-48 | in a proper layout a cell ends up holding k exactly when region k lists it, and 0 exactly when no region does |
| VastuMandala.CoveredCells | vastu_mandala_en.py:45-48 | in a proper layout the board cells with a non-zero zone are exactly the listed cells, and they are as many as the listed entries |
| VastuMandala.ZoneOf | vastu_mandala_en.py:45-48 | the zone id the fill leaves in a cell is one of 0..4; only this range is its own contract, its meaning (k exactly when region k lists the cell) is stated by ZoneOfListing and BuildZoneMap |
| VastuMandala.ZoneOfListing | vastu_mandala_en.py:12-21 | for the real layout, cell c holds k exactly when region k lists it, and 0 exactly when no region does |
| VastuMandala.CoveredCount | vastu_mandala_en.py:12-21 | the four regions cover exactly 65 of the 81 cells; 16 stay 0 |
| VastuMandala.BuildZoneMap | vastu_mandala_en.py:45-48 | the filled 9x9 array is newly allocated and holds at [y-1, x-1] the zone id of the last region listing (x, y), and 0 where no region does |
| VastuMandala.CellColour | vastu_mandala_en.py:53 | a zone outside the assignment is white; the rule fails with a KeyError exactly when the assigned digit has no colour, and reports that digit |
| VastuMandala.Assignment | vastu_mandala_en.py:105 | the dictionary passed to draw_grid has exactly the keys 1..4, key k holding the k-th zone digit (latitude degrees, longitude degrees, latitude minutes, longitude minutes) |
| VastuMandala.AssignedColours | vastu_mandala_en.py:53 | with four digits 1..9 assigned to regions 1..4, zone 0 is white and zone k gets the colour of the k-th digit |
| VastuMandala.CellZone | vastu_mandala_en.py:50-52 | the zone read for the i-th cell in drawing order is a region id of the layout or 0; only this range is its own contract, its meaning is ZoneAfter's and ZoneAfterListing's |
| VastuMandala.DrawingTiles | vastu_mandala_en.py:50-54 | drawing cell (x, y) at screen position (x, 8 - y) for all 81 cells covers each screen position exactly once |
| VastuMandala.PaintableWhenDrawn | vastu_mandala_en.py:50-54 | if all 81 cells were coloured, every zone 0..4 in the assignment has a colour, since every zone occurs on the board |
| VastuMandala.DrawnOneMore | vastu_mandala_en.py:50-54 | drawing the next cell in row-major order extends the correctly drawn prefix by one |
| VastuMandala.DrawGrid | vastu_mandala_en.py:44-55 | the drawing fails with a KeyError exactly when some zone on the board has an uncoloured digit, naming the digit of the first uncoloured cell in row-major order; otherwise it is 81 patches, cell (x, y) at screen (x, 8 - y) in its zone's colour, tiling the 9x9 screen |
| VastuMandala.Interpret | vastu_mandala_en.py:100-103 | a planet lookup succeeds exactly for digits 1..9 and otherwise raises a KeyError on the digit itself |
| VastuMandala.InterpretReduced | vastu_mandala_en.py:94-103 | a reduced part has a planet exactly when the part is non-zero; a zero part raises KeyError(0); otherwise the planet is that of the digital root |
| VastuMandala.Challenging | vastu_mandala_en.py:107 | the remedy test holds exactly when some zone digit is 4, 7, 8 or 9 |
| VastuMandala.ChallengingPlanet | vastu_mandala_en.py:24-34 | a digit 1..9 is challenging exactly when its planet is Rahu, Ketu, Saturn or Mars |
| VastuMandala.ChallengingPlanets | vastu_mandala_en.py:107-108 | for digits 1..9 the warning fires exactly when one of their planets is one the warning names |
| VastuMandala.AssignmentPaintable | vastu_mandala_en.py:105 | the assignment of four digits 1..9 to regions 1..4 leaves no zone without a colour |
| VastuMandala.DrawnInZoneColours | vastu_mandala_en.py:50-54 | a complete drawing under four digits 1..9 paints every cell in its zone's colour |
| VastuMandala.GenerateMandala | vastu_mandala_en.py:94-131 | the handler fails, with KeyError(0), exactly when one of the four parts is 0; otherwise the zones are the four digital roots in the source's order, each 1..9, the readings are their planets, the grid paints every cell in its zone's colour and tiles the screen, and the warning fires exactly when some digit is challenging |
| VastuMandala.DefaultCoordinates | vastu_mandala_en.py:81-82 | the parts 65, 35, 2 and 43 of the default coordinates reduce to the zone digits 2, 8, 2, 7, which trigger the warning through Saturn (8) and Ketu (7) |

## Left out

- The Streamlit page: text inputs, the button, headings, the explanatory and footer markdown, and the
  wording of the four interpretation lines and the warning. The model keeps what the lines show (digit
  and planet record) and whether the warning appears.
- matplotlib rendering: figure size, black edges, axis limits, ticks and labels. A drawn square is a
  `Patch` holding its lower-left corner and face colour.
- Parsing the two text fields as floats and splitting a float into degrees (truncation toward zero) and
  rounded minutes (lines 86-92). The model starts from the four resulting integers, so the
  `ValueError` branch (lines 130-131) is not reached. A minute part of 60 is kept as 60, without a
  carry into the degrees, as the source does.
- Partial output. Before a `KeyError` the page may already show some interpretation lines. The model
  reports only the error.
- Python's `isdigit()` also accepts non-ASCII digits. The text of an `int` holds only ASCII digits and a
  minus sign, so the model tests only '0'..'9'.
- DefaultCoordinates: the degree and minute parts of the default coordinates are written out as
  integers, not derived from the float text, because float parsing and rounding are not modelled.
