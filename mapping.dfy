/**
 * The island map of biosim/mapping.py. The map is a text of the letters O, M, D, J and S;
 * `create_map` splits it into rows at whitespace, checks that the border is Ocean and that
 * the rows are of equal length, and turns every letter into a cell of that terrain.
 *
 * `Validate` states what `create_map` decides, in the order it decides it; `Island.CreateMap`
 * runs the source's loops and is proved to agree with it.
 */
module Mapping {
  import opened Util
  import opened Landscape

  // ---------------------------------------------------------------------------
  // Splitting the text into rows
  // ---------------------------------------------------------------------------

  /** The characters `str.isspace()` accepts, which `str.split()` splits at. */
  predicate IsSpace(ch: char)
  {
    var n := ch as int;
    n == 32 || 9 <= n <= 13 || 28 <= n <= 31 || n == 0x85 || n == 0xA0 || n == 0x1680
    || 0x2000 <= n <= 0x200A || n == 0x2028 || n == 0x2029 || n == 0x202F || n == 0x205F || n == 0x3000
  }

  /** A non-empty run of characters without whitespace. */
  predicate IsWord(w: string)
  {
    |w| > 0 && forall k :: 0 <= k < |w| ==> !IsSpace(w[k])
  }

  /** A text made of whitespace only. */
  predicate Blank(s: string)
  {
    forall k :: 0 <= k < |s| ==> IsSpace(s[k])
  }

  /** The word being read, `cur`, if there is one, as a list of zero or one words. */
  function Flush(cur: string): (r: seq<string>)
    ensures |r| <= 1 && (r == [] <==> cur == [])
  {
    if cur == [] then [] else [cur]
  }

  /** `str.split()` on the rest `s` of a text whose current word so far is `cur`. */
  function WordsFrom(s: string, cur: string): seq<string>
    decreases |s|
  {
    if s == [] then Flush(cur)
    else if IsSpace(s[0]) then Flush(cur) + WordsFrom(s[1..], [])
    else WordsFrom(s[1..], cur + [s[0]])
  }

  /** `s.split()`: the maximal runs of non-whitespace characters of `s`, in order. */
  function Words(s: string): seq<string>
  {
    WordsFrom(s, [])
  }

  /** Every piece `split()` returns is a word: non-empty and free of whitespace. */
  lemma {:induction false} WordsFromShape(s: string, cur: string)
    requires forall k :: 0 <= k < |cur| ==> !IsSpace(cur[k])
    ensures forall i :: 0 <= i < |WordsFrom(s, cur)| ==> IsWord(WordsFrom(s, cur)[i])
    decreases |s|
  {
    if s != [] {
      if IsSpace(s[0]) {
        WordsFromShape(s[1..], []);
      } else {
        WordsFromShape(s[1..], cur + [s[0]]);
      }
    }
  }

  lemma WordsShape(s: string)
    ensures forall i :: 0 <= i < |Words(s)| ==> IsWord(Words(s)[i])
  {
    WordsFromShape(s, []);
  }

  /** Whitespace before a word boundary is skipped. */
  lemma {:induction false} SkipBlank(ws: string, b: string)
    requires Blank(ws)
    ensures WordsFrom(ws + b, []) == WordsFrom(b, [])
    decreases |ws|
  {
    if ws != [] {
      assert (ws + b)[0] == ws[0] && IsSpace(ws[0]);
      assert (ws + b)[1..] == ws[1..] + b;
      SkipBlank(ws[1..], b);
      assert Flush([]) + WordsFrom(b, []) == WordsFrom(b, []);
    } else {
      assert ws + b == b;
    }
  }

  /**
   * Whitespace between two texts separates their words: `split()` of `a + ws + b` is the
   * words of `a` followed by the words of `b`, however much whitespace `ws` holds. So the
   * indentation of the rows of a map makes no difference to them.
   */
  lemma {:induction false} WordsJoin(a: string, cur: string, ws: string, b: string)
    requires |ws| > 0 && Blank(ws)
    ensures WordsFrom(a + ws + b, cur) == WordsFrom(a, cur) + Words(b)
    decreases |a|
  {
    if a == [] {
      assert a + ws + b == ws + b;
      SkipBlank(ws[1..], b);
      assert (ws + b)[1..] == ws[1..] + b;
    } else {
      assert (a + ws + b)[1..] == a[1..] + ws + b;
      if IsSpace(a[0]) {
        WordsJoin(a[1..], [], ws, b);
      } else {
        WordsJoin(a[1..], cur + [a[0]], ws, b);
      }
    }
  }

  /** A single word splits into itself. */
  lemma {:induction false} WordAlone(w: string, cur: string)
    requires forall k :: 0 <= k < |w| ==> !IsSpace(w[k])
    requires |cur| + |w| > 0
    ensures WordsFrom(w, cur) == [cur + w]
    decreases |w|
  {
    if w == [] {
      assert cur + w == cur;
    } else {
      WordAlone(w[1..], cur + [w[0]]);
      assert cur + [w[0]] + w[1..] == cur + w;
    }
  }

  /** The rows joined by newlines. */
  function Lines(rows: seq<string>): string
  {
    if rows == [] then "" else if |rows| == 1 then rows[0] else rows[0] + "\n" + Lines(rows[1..])
  }

  /** Splitting rows joined by newlines gives the rows back. */
  lemma {:induction false} SplitLines(rows: seq<string>)
    requires forall i :: 0 <= i < |rows| ==> IsWord(rows[i])
    ensures Words(Lines(rows)) == rows
  {
    if |rows| == 1 {
      WordAlone(rows[0], []);
      assert [] + rows[0] == rows[0];
    } else if |rows| > 1 {
      WordAlone(rows[0], []);
      assert [] + rows[0] == rows[0];
      WordsJoin(rows[0], [], "\n", Lines(rows[1..]));
      SplitLines(rows[1..]);
    }
  }

  /** The rows of the map `Island` uses when it is given none. */
  const DefaultRows: seq<string> := [
    "OOOOOOOOOOOOOOOOOOOOO",
    "OOOOOOOOSMMMMJJJJJJJO",
    "OSSSSSJJJJMMJJJJJJJOO",
    "OSSSSSSSSSMMJJJJJJOOO",
    "OSSSSSJJJJJJJJJJJJOOO",
    "OSSSSSJJJDDJJJSJJJOOO",
    "OSSJJJJJDDDJJJSSSSOOO",
    "OOSSSSJJJDDJJJSOOOOOO",
    "OSSSJJJJJDDJJJJJJJOOO",
    "OSSSSJJJJDDJJJJOOOOOO",
    "OOSSSSJJJJJJJJOOOOOOO",
    "OOOSSSSJJJJJJJOOOOOOO",
    "OOOOOOOOOOOOOOOOOOOOO"]

  /** The default map after `textwrap.dedent`: its rows, one per line. */
  function DefaultMap(): string
  {
    Lines(DefaultRows)
  }

  // ---------------------------------------------------------------------------
  // Validation
  // ---------------------------------------------------------------------------

  /** Why `create_map` rejects a map. `NoRows` is the `IndexError` of reading the first row
      of a map with none; the others are its three `ValueError`s. */
  datatype MapError = NoRows | EdgeNotOcean | RaggedRows | UnknownLetter

  datatype Result<T> = Success(value: T) | Failure(error: MapError)

  /** The letter of each landscape class. */
  function Letter(t: Terrain): char
  {
    match t
    case Desert => 'D'
    case Jungle => 'J'
    case Savannah => 'S'
    case Ocean => 'O'
    case Mountain => 'M'
  }

  /** The landscape class a letter stands for, if any. */
  function TerrainOf(ch: char): (r: Option<Terrain>)
    ensures r.Some? <==> ch in "DJSOM"
  {
    if ch == 'D' then Some(Desert)
    else if ch == 'J' then Some(Jungle)
    else if ch == 'S' then Some(Savannah)
    else if ch == 'O' then Some(Ocean)
    else if ch == 'M' then Some(Mountain)
    else None
  }

  /** Letters and landscape classes correspond one to one. */
  lemma LetterRoundTrip(t: Terrain, ch: char)
    ensures TerrainOf(Letter(t)) == Some(t)
    ensures TerrainOf(ch).Some? ==> Letter(TerrainOf(ch).value) == ch
  {
  }

  predicate AllOcean(s: string)
  {
    forall k :: 0 <= k < |s| ==> s[k] == 'O'
  }

  /** The test the loop over a row's letters applies to each letter `e`, as written: `e` is
      the row's first letter and not `'O'`, or else its last letter and not `'O'`. */
  predicate EdgeHit(row: string, e: char)
    requires |row| > 0
  {
    (e == row[0] && e != 'O') || (e == row[|row| - 1] && e != 'O')
  }

  /** A row's first and last letters are Ocean (an empty row has none). */
  predicate SidesOcean(row: string)
  {
    |row| == 0 || (row[0] == 'O' && row[|row| - 1] == 'O')
  }

  /** The loop over a row's letters rejects it exactly when its first or last letter is not
      Ocean. */
  lemma EdgeScan(row: string)
    ensures (exists k :: 0 <= k < |row| && EdgeHit(row, row[k])) <==> !SidesOcean(row)
  {
    if !SidesOcean(row) {
      if row[0] != 'O' {
        assert EdgeHit(row, row[0]);
      } else {
        assert EdgeHit(row, row[|row| - 1]);
      }
    }
  }

  predicate Rectangular(rows: seq<string>)
    requires |rows| > 0
  {
    forall i :: 0 <= i < |rows| ==> |rows[i]| == |rows[0]|
  }

  predicate KnownLetters(rows: seq<string>)
  {
    forall i, j :: 0 <= i < |rows| && 0 <= j < |rows[i]| ==> TerrainOf(rows[i][j]).Some?
  }

  /** The terrain of every letter of a map of known letters. */
  function Terrains(rows: seq<string>): (g: seq<seq<Terrain>>)
    requires KnownLetters(rows)
    ensures |g| == |rows| && forall i :: 0 <= i < |rows| ==> |g[i]| == |rows[i]|
    ensures forall i, j :: 0 <= i < |rows| && 0 <= j < |rows[i]| ==> Letter(g[i][j]) == rows[i][j]
  {
    seq(|rows|, i requires 0 <= i < |rows| => seq(|rows[i]|, j requires 0 <= j < |rows[i]| => TerrainOf(rows[i][j]).value))
  }

  /**
   * What `create_map` makes of the rows of a map: the first failing check in the order the
   * source runs them (the first and last rows, then each row's ends, then the row lengths,
   * then the letters), or the terrain of every letter.
   */
  function Validate(rows: seq<string>): Result<seq<seq<Terrain>>>
  {
    if rows == [] then Failure(NoRows)
    else if !AllOcean(rows[0] + rows[|rows| - 1]) then Failure(EdgeNotOcean)
    else if exists i :: 0 <= i < |rows| && !SidesOcean(rows[i]) then Failure(EdgeNotOcean)
    else if !Rectangular(rows) then Failure(RaggedRows)
    else if !KnownLetters(rows) then Failure(UnknownLetter)
    else Success(Terrains(rows))
  }

  /**
   * An accepted map is a rectangle of the map's shape, each cell of its letter's terrain,
   * whose border cells are all Ocean and so not habitable.
   */
  lemma {:induction false} AcceptedMap(rows: seq<string>)
    requires Validate(rows).Success?
    ensures var g := Validate(rows).value;
      && |g| == |rows| > 0 && (forall i :: 0 <= i < |g| ==> |g[i]| == |rows[0]|)
      && (forall i, j :: 0 <= i < |g| && 0 <= j < |g[i]| ==> Letter(g[i][j]) == rows[i][j])
      && (forall i, j :: 0 <= i < |g| && 0 <= j < |g[i]| && (i == 0 || i == |g| - 1 || j == 0 || j == |g[i]| - 1) ==>
            g[i][j] == Ocean && !Habitable(g[i][j]))
  {
    var g := Validate(rows).value;
    var last := |rows| - 1;
    forall i, j | 0 <= i < |g| && 0 <= j < |g[i]| && (i == 0 || i == |g| - 1 || j == 0 || j == |g[i]| - 1)
      ensures g[i][j] == Ocean
    {
      if i == 0 {
        assert (rows[0] + rows[last])[j] == rows[0][j];
      } else if i == last {
        assert (rows[0] + rows[last])[|rows[0]| + j] == rows[last][j];
      } else {
        assert SidesOcean(rows[i]);
      }
      LetterRoundTrip(g[i][j], rows[i][j]);
    }
  }

  // ---------------------------------------------------------------------------
  // Island
  // ---------------------------------------------------------------------------

  class Island {
    /** `letter_map`: the map text, or the default map. */
    const letterMap: string

    constructor (islandMap: Option<string>)
      ensures letterMap == if islandMap.Some? then islandMap.value else DefaultMap()
    {
      letterMap := if islandMap.Some? then islandMap.value else DefaultMap();
    }

    /**
     * `create_map()`: the checks of `Validate`, run as the source's loops, and on success a
     * fresh empty cell of each letter's terrain. `where` records the place of every cell,
     * which tells the cells apart.
     */
    method CreateMap() returns (r: Result<seq<seq<Cell>>>, ghost where: map<Cell, (nat, nat)>)
      ensures var v := Validate(Words(letterMap));
        && (r.Failure? <==> v.Failure?) && (r.Failure? ==> r.error == v.error)
        && (r.Success? ==> Built(r.value, v.value, where))
    {
      var rows := Words(letterMap);
      where := map[];
      if |rows| == 0 {
        return Failure(NoRows), where;
      }
      var ok := EndsOcean(rows);
      if !ok {
        return Failure(EdgeNotOcean), where;
      }
      ok := SidesScan(rows);
      if !ok {
        return Failure(EdgeNotOcean), where;
      }
      var width := |rows[0]|;
      for i := 0 to |rows|
        invariant forall i' :: 0 <= i' < i ==> |rows[i']| == width
      {
        if |rows[i]| != width {
          return Failure(RaggedRows), where;
        }
      }
      var grid;
      grid, where := Convert(rows);
      if grid.None? {
        return Failure(UnknownLetter), where;
      }
      r := Success(grid.value);
    }

    /** The loop over the letters of the first and last rows. */
    static method EndsOcean(rows: seq<string>) returns (ok: bool)
      requires |rows| > 0
      ensures ok <==> AllOcean(rows[0] + rows[|rows| - 1])
    {
      var ends := rows[0] + rows[|rows| - 1];
      for k := 0 to |ends|
        invariant AllOcean(ends[..k])
      {
        if ends[k] != 'O' {
          return false;
        }
      }
      assert ends[..|ends|] == ends;
      return true;
    }

    /** The loop over every letter of every row, as written, with its two tests. */
    static method SidesScan(rows: seq<string>) returns (ok: bool)
      ensures ok <==> forall i :: 0 <= i < |rows| ==> SidesOcean(rows[i])
    {
      for i := 0 to |rows|
        invariant forall i' :: 0 <= i' < i ==> SidesOcean(rows[i'])
      {
        var row := rows[i];
        for j := 0 to |row|
          invariant forall j' :: 0 <= j' < j ==> !EdgeHit(row, row[j'])
        {
          var e := row[j];
          if e == row[0] && e != 'O' {
            EdgeScan(row);
            return false;
          } else if e == row[|row| - 1] && e != 'O' {
            EdgeScan(row);
            return false;
          }
        }
        EdgeScan(row);
      }
      return true;
    }

    /** The loop that replaces every letter by a new cell of its terrain; None at the first
        unknown letter. */
    static method Convert(rows: seq<string>) returns (grid: Option<seq<seq<Cell>>>, ghost where: map<Cell, (nat, nat)>)
      ensures grid.None? <==> !KnownLetters(rows)
      ensures grid.Some? ==> KnownLetters(rows) && Built(grid.value, Terrains(rows), where)
    {
      where := map[];
      var g: seq<seq<Cell>> := [];
      for i := 0 to |rows|
        invariant |g| == i
        invariant forall i', j :: 0 <= i' < i && 0 <= j < |rows[i']| ==> TerrainOf(rows[i'][j]).Some?
        invariant forall i' :: 0 <= i' < i ==> |g[i']| == |rows[i']|
        invariant forall i', j :: 0 <= i' < i && 0 <= j < |g[i']| ==> NewCell(g[i'][j], rows[i'][j], where, i', j)
      {
        var line; ghost var w;
        line, w := ConvertRow(rows[i], i, where);
        if line.None? {
          return None, w;
        }
        where := w;
        g := g + [line.value];
      }
      grid := Some(g);
      assert KnownLetters(rows);
      forall i, j | 0 <= i < |g| && 0 <= j < |g[i]| ensures g[i][j].terrain == Terrains(rows)[i][j] {
        LetterRoundTrip(g[i][j].terrain, rows[i][j]);
      }
    }

    /** The inner loop of `Convert`, over the letters of row `i`. */
    static method ConvertRow(row: string, i: nat, ghost where0: map<Cell, (nat, nat)>)
      returns (line: Option<seq<Cell>>, ghost where: map<Cell, (nat, nat)>)
      ensures line.None? <==> exists j :: 0 <= j < |row| && TerrainOf(row[j]).None?
      ensures line.Some? ==> |line.value| == |row| && forall j :: 0 <= j < |row| ==> NewCell(line.value[j], row[j], where, i, j)
      ensures forall c :: c in where0 ==> c in where && where[c] == where0[c]
    {
      where := where0;
      var l: seq<Cell> := [];
      for j := 0 to |row|
        invariant |l| == j
        invariant forall j' :: 0 <= j' < j ==> TerrainOf(row[j']).Some?
        invariant forall c :: c in where0 ==> c in where && where[c] == where0[c]
        invariant forall j' :: 0 <= j' < j ==> NewCell(l[j'], row[j'], where, i, j')
      {
        var t := TerrainOf(row[j]);
        if t.None? {
          return None, where;
        }
        var cell := new Cell(t.value);
        where := where[cell := (i, j)];
        l := l + [cell];
      }
      line := Some(l);
    }
  }

  /** A cell just made for letter `ch` at place `(i, j)`: of that letter's terrain, empty,
      and recorded at its place. */
  ghost predicate NewCell(cell: Cell, ch: char, where: map<Cell, (nat, nat)>, i: nat, j: nat)
    reads cell
  {
    && Some(cell.terrain) == TerrainOf(ch) && cell.habitable == Habitable(cell.terrain)
    && cell.herbs == [] && cell.carns == [] && cell in where && where[cell] == (i, j)
  }

  /** `grid` has the shape of `g`, each cell of the terrain `g` gives for its place, empty,
      and recorded at its place in `where`. */
  ghost predicate Built(grid: seq<seq<Cell>>, g: seq<seq<Terrain>>, where: map<Cell, (nat, nat)>)
    reads set i, j | 0 <= i < |grid| && 0 <= j < |grid[i]| :: grid[i][j]
  {
    && |grid| == |g| && (forall i :: 0 <= i < |grid| ==> |grid[i]| == |g[i]|)
    && forall i, j :: 0 <= i < |grid| && 0 <= j < |grid[i]| ==>
         var cell := grid[i][j];
         && cell.terrain == g[i][j] && cell.habitable == Habitable(cell.terrain)
         && cell.herbs == [] && cell.carns == [] && cell in where && where[cell] == (i, j)
  }
}
