/**
 * The string and arithmetic helpers of utils/functions.py: `human_join`,
 * `response_checker`, `capitalize_text`, `format_status` and the cell
 * placement of `format_bytes`.
 */
module Functions {
  import opened Wrappers
  import opened Text
  import opened Arith

  // ---------------------------------------------------------------- human_join

  /** Joins a list as English: "a, b or c" with the default arguments. */
  function HumanJoin(items: seq<string>, delim: string, final: string, spaces: bool): (r: string)
    ensures items == [] ==> r == ""
    ensures |items| == 1 ==> r == items[0]
    // Two elements always get a space on both sides of `final`, whatever `spaces` says.
    ensures |items| == 2 ==> r == items[0] + " " + final + " " + items[1]
  {
    var size := |items|;
    if size == 0 then ""
    else if size == 1 then items[0]
    else if size == 2 then items[0] + " " + final + " " + items[1]
    else
      var f := if spaces then " " + final + " " else final;
      Join(items[..size - 1], delim) + f + items[size - 1]
  }

  /**
   * With `final` equal to the delimiter and no padding, `human_join` is the
   * plain `str.join` for every length but two; with two elements it is the
   * join by the space-padded `final`. There is no delimiter before `final`.
   */
  lemma HumanJoinAsJoin(items: seq<string>, delim: string, final: string, spaces: bool)
    ensures |items| != 2 && !spaces && final == delim ==> HumanJoin(items, delim, final, spaces) == Join(items, delim)
    ensures |items| == 2 ==> HumanJoin(items, delim, final, spaces) == Join(items, " " + final + " ")
  {
    var n := |items|;
    if n >= 3 {
      JoinSnoc(items[..n - 1], items[n - 1], delim);
      assert items[..n - 1] + [items[n - 1]] == items;
    } else if n == 2 {
      assert items[1..] == [items[1]];
    }
  }

  /** For three or more elements: every element, a delimiter between all but the last pair, then `final`. */
  lemma HumanJoinLength(items: seq<string>, delim: string, final: string, spaces: bool)
    requires |items| >= 3
    ensures |HumanJoin(items, delim, final, spaces)|
      == SumLengths(items) + (|items| - 2) * |delim| + |final| + (if spaces then 2 else 0)
  {
    var n := |items|;
    var init, last := items[..n - 1], items[n - 1];
    var f := if spaces then " " + final + " " else final;
    var j := Join(init, delim);
    assert HumanJoin(items, delim, final, spaces) == j + f + last;
    assert |f| == |final| + (if spaces then 2 else 0);
    JoinLength(init, delim);
    assert |init| - 1 == n - 2;
    SumLengthsSnoc(init, last);
    assert init + [last] == items;
    assert |j + f + last| == |j| + |f| + |last|;
  }

  lemma {:induction false} SumLengthsSnoc(xs: seq<string>, x: string)
    ensures SumLengths(xs + [x]) == SumLengths(xs) + |x|
  {
    if xs != [] {
      assert (xs + [x])[1..] == xs[1..] + [x];
      SumLengthsSnoc(xs[1..], x);
    }
  }

  // ---------------------------------------------------------- response_checker

  /** The `commands.BadArgument` raised for a non-200 response. */
  datatype ResponseError =
    | KnownStatus(message: string)          // one of the five specific messages
    | ServerError(status: nat, reason: Option<string>)  // "The server returned an error (status). ..."
    | UnexpectedStatus(status: nat)         // "Something went wrong, try again later? ..."

  /** The specific messages the source lists for five status codes. */
  const BadResponses: map<nat, string> := map[
    502 := "The server is down or under maintenance, try again later.",
    404 := "The requested resource could not be found.",
    400 := "The request was invalid.",
    401 := "The request requires authentication.",
    403 := "The request was forbidden."
  ]

  /**
   * `response_checker` as written: the loop over BadResponses compares each
   * code with the response object rather than its status, so it never
   * raises; classification falls to the leading digit of the status text.
   */
  function ResponseChecker(status: nat, reason: Option<string>): (r: Result<bool, ResponseError>)
    ensures r.Ok? <==> status == 200
    ensures r.Ok? ==> r.value
    ensures status != 200 && LeadingDigit(status) == 5 ==> r == Err(ServerError(status, reason))
    ensures status != 200 && LeadingDigit(status) != 5 ==> r == Err(UnexpectedStatus(status))
  {
    NatToStringStartsWithLeadingDigit(status);
    if status == 200 then Ok(true)
    else if NatToString(status)[0] == '5' then Err(ServerError(status, reason))
    else Err(UnexpectedStatus(status))
  }

  /** The five specific messages are never chosen: 404 gets the generic message, 502 the generic server one. */
  lemma ResponseCheckerIgnoresKnownCodes()
    ensures ResponseChecker(404, None) == Err(UnexpectedStatus(404))
    ensures ResponseChecker(502, None) == Err(ServerError(502, None))
    ensures forall s: nat, reason :: ResponseChecker(s, reason) != Err(KnownStatus(BadResponses[404]))
  {
    assert LeadingDigit(404) == 4 && LeadingDigit(502) == 5;
  }

  /** The evidently intended checker: the status itself is looked up in BadResponses. */
  function ResponseCheckerIntended(status: nat, reason: Option<string>): (r: Result<bool, ResponseError>)
    ensures r.Ok? <==> status == 200
    ensures status in BadResponses ==> r == Err(KnownStatus(BadResponses[status]))
    ensures status != 200 && status !in BadResponses && LeadingDigit(status) == 5 ==> r == Err(ServerError(status, reason))
    ensures status != 200 && status !in BadResponses && LeadingDigit(status) != 5 ==> r == Err(UnexpectedStatus(status))
  {
    if status == 200 then Ok(true)
    else if status in BadResponses then Err(KnownStatus(BadResponses[status]))
    else ResponseChecker(status, reason)
  }

  // ----------------------------------------------------------- capitalize_text

  predicate IsSentenceEnd(c: char) { c == '.' || c == '!' || c == '?' }

  /** `s.capitalize()` on ASCII text: first character upper case, the rest lower case. */
  function Capitalize(s: string): (r: string)
    ensures |r| == |s|
    ensures forall i :: 0 <= i < |s| ==> r[i] == if i == 0 then Upper(s[0]) else Lower(s[i])
  {
    if s == [] then [] else [Upper(s[0])] + Fold(s[1..])
  }

  /** `s[..i]` ends with a sentence end followed by zero or more whitespace characters. */
  predicate AfterSentenceEnd(s: string, i: nat)
    requires i <= |s|
  {
    i > 0 && (IsSentenceEnd(s[i - 1]) || (IsSpace(s[i - 1]) && AfterSentenceEnd(s, i - 1)))
  }

  /** Position `i` holds the first character after a whitespace run that follows `.`, `!` or `?`. */
  predicate SentenceStart(s: string, i: nat) {
    0 < i < |s| && !IsSpace(s[i]) && IsSpace(s[i - 1]) && AfterSentenceEnd(s, i - 1)
  }

  /** The end of the whitespace run starting at `i`. */
  function RunEnd(s: string, i: nat): (k: nat)
    requires i <= |s|
    ensures i <= k <= |s|
    ensures forall m :: i <= m < k ==> IsSpace(s[m])
    ensures k < |s| ==> !IsSpace(s[k])
    decreases |s| - i
  {
    if i < |s| && IsSpace(s[i]) then RunEnd(s, i + 1) else i
  }

  /**
   * `re.sub(r"(?<=[.!?])\s+(.)", upper, s)` scanned from position `i`: a
   * match consumes the whitespace run and the character after it and
   * upper-cases them; otherwise the scan moves on by one character.
   */
  function SubSentenceStarts(s: string, i: nat): string
    requires i <= |s|
    decreases |s| - i
  {
    if i == |s| then []
    else if i > 0 && IsSentenceEnd(s[i - 1]) && IsSpace(s[i]) then
      var k := RunEnd(s, i);
      if k < |s| then s[i..k] + [Upper(s[k])] + SubSentenceStarts(s, k + 1)
      // A run that reaches the end only matches whitespace, which upper-casing keeps.
      else s[i..]
    else [s[i]] + SubSentenceStarts(s, i + 1)
  }

  function CapitalizeText(text: string): string {
    SubSentenceStarts(Capitalize(text), 0)
  }

  /** Inside a whitespace run that follows a sentence end, every prefix still ends that way. */
  lemma {:induction false} AfterSentenceEndAlongRun(s: string, i: nat, m: nat)
    requires 0 < i <= m < |s| && IsSentenceEnd(s[i - 1])
    requires forall p :: i <= p <= m ==> IsSpace(s[p])
    ensures AfterSentenceEnd(s, m)
    decreases m - i
  {
    if m > i {
      AfterSentenceEndAlongRun(s, i, m - 1);
    }
  }

  /** The character the substitution leaves at position `p`. */
  function Expected(s: string, p: nat): char
    requires p < |s|
  {
    if SentenceStart(s, p) then Upper(s[p]) else s[p]
  }

  /** `r` is what the scan from `i` should produce: one character per position, as `Expected` says. */
  predicate Scanned(s: string, i: nat, r: string)
    requires i <= |s|
  {
    |r| == |s| - i && forall p :: i <= p < |s| ==> r[p - i] == Expected(s, p)
  }

  /** What the scan from `i` produces, character by character. */
  lemma {:induction false} SubSentenceStartsAt(s: string, i: nat)
    requires i <= |s|
    requires !(0 < i && IsSpace(s[i - 1]) && AfterSentenceEnd(s, i - 1))
    ensures |SubSentenceStarts(s, i)| == |s| - i
    ensures forall p :: i <= p < |s| ==>
      SubSentenceStarts(s, i)[p - i] == if SentenceStart(s, p) then Upper(s[p]) else s[p]
    decreases |s| - i
  {
    ScannedFrom(s, i);
    var r := SubSentenceStarts(s, i);
    forall p | i <= p < |s|
      ensures r[p - i] == if SentenceStart(s, p) then Upper(s[p]) else s[p]
    {
      assert r[p - i] == Expected(s, p);
    }
  }

  /** `SubSentenceStartsAt` stated with `Scanned`, by induction on the scan. */
  lemma {:induction false} ScannedFrom(s: string, i: nat)
    requires i <= |s|
    requires !(0 < i && IsSpace(s[i - 1]) && AfterSentenceEnd(s, i - 1))
    ensures Scanned(s, i, SubSentenceStarts(s, i))
    decreases |s| - i
  {
    if i < |s| {
      if i > 0 && IsSentenceEnd(s[i - 1]) && IsSpace(s[i]) {
        var k := RunEnd(s, i);
        if k < |s| {
          ScannedFrom(s, k + 1);
          AfterSentenceEndAlongRun(s, i, k - 1);
          MatchStep(s, i, k);
        }
      } else {
        if IsSpace(s[i]) && i > 0 {
          assert !IsSentenceEnd(s[i - 1]);
          assert !(IsSpace(s[i - 1]) && AfterSentenceEnd(s, i - 1));
          assert !AfterSentenceEnd(s, i);
        }
        ScannedFrom(s, i + 1);
        ScanStep(s, i);
      }
    }
  }

  /** One match of the scan: the run `s[i..k]` is kept and `s[k]` is a sentence start. */
  lemma MatchStep(s: string, i: nat, k: nat)
    requires 0 < i < k < |s| && IsSentenceEnd(s[i - 1]) && IsSpace(s[i])
    requires k == RunEnd(s, i) && AfterSentenceEnd(s, k - 1)
    requires Scanned(s, k + 1, SubSentenceStarts(s, k + 1))
    ensures Scanned(s, i, SubSentenceStarts(s, i))
  {
    var rest := SubSentenceStarts(s, k + 1);
    assert SubSentenceStarts(s, i) == s[i..k] + [Upper(s[k])] + rest;
    assert SentenceStart(s, k);
    ScannedMatch(s, i, k, rest);
  }

  /** A kept whitespace run, an upper-cased sentence start and a scanned rest make a scanned whole. */
  lemma ScannedMatch(s: string, i: nat, k: nat, rest: string)
    requires i <= k < |s| && SentenceStart(s, k)
    requires forall m :: i <= m < k ==> IsSpace(s[m])
    requires Scanned(s, k + 1, rest)
    ensures Scanned(s, i, s[i..k] + [Upper(s[k])] + rest)
  {
    var r := s[i..k] + [Upper(s[k])] + rest;
    forall p | i <= p < |s|
      ensures r[p - i] == Expected(s, p)
    {
      if p < k {
        assert r[p - i] == s[p];
      } else if p > k {
        assert r[p - i] == rest[p - (k + 1)];
      }
    }
  }

  /** One step of the scan that does not match: `s[i]` is copied. */
  lemma ScanStep(s: string, i: nat)
    requires i < |s|
    requires !(i > 0 && IsSentenceEnd(s[i - 1]) && IsSpace(s[i]))
    requires !(0 < i && IsSpace(s[i - 1]) && AfterSentenceEnd(s, i - 1))
    requires Scanned(s, i + 1, SubSentenceStarts(s, i + 1))
    ensures Scanned(s, i, SubSentenceStarts(s, i))
  {
    var r := SubSentenceStarts(s, i);
    var rest := SubSentenceStarts(s, i + 1);
    assert r == [s[i]] + rest;
    assert !SentenceStart(s, i);
    forall p | i <= p < |s|
      ensures r[p - i] == Expected(s, p)
    {
      if p > i {
        assert r[p - i] == rest[p - (i + 1)];
      }
    }
  }

  /** Sentence starts depend only on whitespace and punctuation, which case mapping keeps. */
  lemma {:induction false} AfterSentenceEndCapitalize(s: string, i: nat)
    requires i <= |s|
    ensures AfterSentenceEnd(Capitalize(s), i) == AfterSentenceEnd(s, i)
  {
    if i > 0 {
      CaseKeepsClass(s[i - 1]);
      AfterSentenceEndCapitalize(s, i - 1);
    }
  }

  /**
   * For ASCII text `capitalize_text` keeps the length, upper-cases the first
   * character and every sentence start, and lower-cases everything else.
   */
  lemma CapitalizeTextCharacters(text: string)
    ensures |CapitalizeText(text)| == |text|
    ensures forall i :: 0 <= i < |text| ==>
      CapitalizeText(text)[i] == if i == 0 || SentenceStart(text, i) then Upper(text[i]) else Lower(text[i])
  {
    var c := Capitalize(text);
    ScannedFrom(c, 0);
    var r := CapitalizeText(text);
    forall i | 0 <= i < |text|
      ensures r[i] == if i == 0 || SentenceStart(text, i) then Upper(text[i]) else Lower(text[i])
    {
      assert r[i] == Expected(c, i);
      CaseKeepsClass(text[i]);
      if i > 0 {
        CaseKeepsClass(text[i - 1]);
        AfterSentenceEndCapitalize(text, i - 1);
        assert SentenceStart(c, i) == SentenceStart(text, i);
      }
    }
  }

  // ------------------------------------------------------------- format_status

  /** discord.py's member status enumeration. */
  datatype Status = Online | Offline | Idle | Dnd | Invisible

  /** The status parsed from its raw text ("dnd" is do-not-disturb). */
  function StatusOf(raw: string): Status {
    if raw == "dnd" then Dnd
    else if raw == "idle" then Idle
    else if raw == "online" then Online
    else if raw == "invisible" then Invisible
    else Offline
  }

  datatype Member = Member(status: Status, rawStatus: string)

  /** The raw status text, preceded by "on " exactly when the member is on do-not-disturb. */
  function FormatStatus(member: Member): (r: string)
    ensures |r| == |member.rawStatus| + (if member.status == Dnd then 3 else 0)
    ensures r[|r| - |member.rawStatus|..] == member.rawStatus
  {
    (if member.status == Dnd then "on " else "") + member.rawStatus
  }

  /** The five raw statuses Discord reports. */
  predicate DiscordStatus(raw: string) {
    raw == "online" || raw == "offline" || raw == "idle" || raw == "dnd" || raw == "invisible"
  }

  /**
   * For every status Discord reports, the rendered text starts with "on "
   * exactly for do-not-disturb ("on dnd"), and always ends with the raw
   * status; "online" does not read as a prefixed status.
   */
  lemma FormatStatusOfDiscordStatus(raw: string)
    requires DiscordStatus(raw)
    ensures var r := FormatStatus(Member(StatusOf(raw), raw));
      && ((|r| >= 3 && r[..3] == "on ") <==> raw == "dnd")
      && r[|r| - |raw|..] == raw
  {
    var r := FormatStatus(Member(StatusOf(raw), raw));
    if raw == "online" {
      assert r[2] == 'l';
    } else if raw != "dnd" {
      assert r[0] != 'o' || r[1] != 'n';
    }
  }

  // -------------------------------------------------------------- format_bytes

  /** The least `x` with `x * x >= n`: `math.ceil(math.sqrt(n))` on integers. */
  function CeilSqrt(n: nat): (x: nat)
    ensures x * x >= n
    ensures x > 0 ==> (x - 1) * (x - 1) < n
  {
    CeilSqrtFrom(n, 0)
  }

  function CeilSqrtFrom(n: nat, x: nat): (r: nat)
    requires x > 0 ==> (x - 1) * (x - 1) < n
    ensures r * r >= n
    ensures r > 0 ==> (r - 1) * (r - 1) < n
    decreases n - x
  {
    if x * x >= n then x
    else
      assert x < n by {
        if x >= n && x > 0 { MulMonotone(1, x, x); }
      }
      CeilSqrtFrom(n, x + 1)
  }

  /** The grid of `format_bytes`: columns, rows and the side of one square cell. */
  datatype Grid = Grid(columns: nat, rows: nat, cell: nat)

  function GridFor(n: nat): (g: Grid)
    requires n > 0
    ensures g.columns > 0
    ensures g.columns * g.columns >= n && (g.columns - 1) * (g.columns - 1) < n
  {
    var xbound := CeilSqrt(n);
    Grid(xbound, (n + xbound - 1) / xbound, 2520 / xbound)
  }

  /** The image at `index` is pasted at cell (`column`, `row`). */
  datatype Paste = Paste(index: nat, column: nat, row: nat)

  /** The pixel box of a paste: cell coordinates times the cell side. */
  function Box(p: Paste, g: Grid): (int, int) {
    (p.column * g.cell, p.row * g.cell)
  }

  /** The pastes for a list of images: entry `k` goes to cell `(k mod columns, k div columns)`, empty entries are skipped. */
  function Placements(images: seq<seq<bv8>>, columns: nat): seq<Paste>
    requires columns > 0
  {
    if images == [] then []
    else
      var k := |images| - 1;
      Placements(images[..k], columns) + (if images[k] != [] then [Paste(k, k % columns, k / columns)] else [])
  }

  /**
   * The placement loop of `format_bytes` (PIL's decoding, resizing and
   * pasting are not part of this model): it walks the cells row by row and
   * an empty entry still uses up its cell.
   */
  method FormatBytes(images: seq<seq<bv8>>) returns (g: Grid, pastes: seq<Paste>)
    requires |images| > 0
    ensures g == GridFor(|images|)
    ensures pastes == Placements(images, g.columns)
  {
    var xbound := CeilSqrt(|images|);
    var ybound := (|images| + xbound - 1) / xbound;
    var size := 2520 / xbound;
    g := Grid(xbound, ybound, size);
    pastes := [];
    var x, y := 0, 0;
    for k := 0 to |images|
      invariant 0 <= x < xbound && k == y * xbound + x
      invariant pastes == Placements(images[..k], xbound)
    {
      assert images[..k + 1][..k] == images[..k];
      DivModOf(k, xbound, x, y);
      if images[k] != [] {
        pastes := pastes + [Paste(k, x, y)];
      }
      if x < xbound - 1 {
        x := x + 1;
      } else {
        assert (y + 1) * xbound == y * xbound + xbound;
        x := 0;
        y := y + 1;
      }
    }
    assert images[..|images|] == images;
  }

  /** The grid has room for every image: at least n cells, and no more rows than columns. */
  lemma GridCovers(n: nat)
    requires n > 0
    ensures GridFor(n).columns * GridFor(n).rows >= n
    ensures GridFor(n).rows <= GridFor(n).columns
    ensures forall k :: 0 <= k < n ==> k / GridFor(n).columns < GridFor(n).rows
    ensures GridFor(n).cell * GridFor(n).columns <= 2520 < (GridFor(n).cell + 1) * GridFor(n).columns
  {
    var c := CeilSqrt(n);
    FloorDivBetween(2520, c);
    CeilDivCovers(n, c);
    CeilDivAtMost(n, c);
    forall k | 0 <= k < n ensures k / c < (n + c - 1) / c {
      QuotientBelow(k, n, c);
    }
  }


  /** Every paste is of a non-empty entry, in a cell inside the grid, and no two share a cell. */
  lemma {:induction false} PlacementsInGrid(images: seq<seq<bv8>>)
    requires |images| > 0
    ensures forall p :: p in Placements(images, GridFor(|images|).columns) ==>
      p.index < |images| && images[p.index] != []
      && p.column < GridFor(|images|).columns && p.row < GridFor(|images|).rows
    ensures forall i, j :: 0 <= i < j < |Placements(images, GridFor(|images|).columns)| ==>
      var ps := Placements(images, GridFor(|images|).columns);
      (ps[i].column, ps[i].row) != (ps[j].column, ps[j].row)
  {
    var g := GridFor(|images|);
    var ps := Placements(images, g.columns);
    GridCovers(|images|);
    PlacementsShape(images, g.columns);
    forall p | p in ps
      ensures p.index < |images| && images[p.index] != [] && p.column < g.columns && p.row < g.rows
    {
      assert p.row == p.index / g.columns;
    }
    forall i, j | 0 <= i < j < |ps|
      ensures (ps[i].column, ps[i].row) != (ps[j].column, ps[j].row)
    {
      assert ps[i] in ps && ps[j] in ps;
      CellsDiffer(ps[i].index, ps[j].index, g.columns);
    }
  }

  /** Every pasted image, a cell-sided square at its box, lies inside the `columns * cell` by `rows * cell` canvas. */
  lemma PastesInsideCanvas(images: seq<seq<bv8>>)
    requires |images| > 0
    ensures var g := GridFor(|images|);
      forall p :: p in Placements(images, g.columns) ==>
        0 <= Box(p, g).0 && Box(p, g).0 + g.cell <= g.columns * g.cell
        && 0 <= Box(p, g).1 && Box(p, g).1 + g.cell <= g.rows * g.cell
  {
    var g := GridFor(|images|);
    PlacementsInGrid(images);
    BoxesInside(g, Placements(images, g.columns));
  }

  /** Pastes whose cells lie within a grid's columns and rows have their boxes inside its canvas. */
  lemma BoxesInside(g: Grid, ps: seq<Paste>)
    requires forall p :: p in ps ==> p.column < g.columns && p.row < g.rows
    ensures forall p :: p in ps ==>
      0 <= Box(p, g).0 && Box(p, g).0 + g.cell <= g.columns * g.cell
      && 0 <= Box(p, g).1 && Box(p, g).1 + g.cell <= g.rows * g.cell
  {
    forall p | p in ps
      ensures Box(p, g).0 + g.cell <= g.columns * g.cell && Box(p, g).1 + g.cell <= g.rows * g.cell
    {
      CellInside(p.column, g.columns, g.cell);
      CellInside(p.row, g.rows, g.cell);
    }
  }

  /** A cell at position `k` of `count` cells of side `cell` ends within the `count * cell` span. */
  lemma CellInside(k: nat, count: nat, cell: nat)
    requires k < count
    ensures k * cell + cell <= count * cell
  {
    MulMonotone(k + 1, count, cell);
    assert (k + 1) * cell == k * cell + cell;
  }

  /** Different indices fall in different cells. */
  lemma CellsDiffer(a: nat, b: nat, c: nat)
    requires c > 0 && a != b
    ensures (a % c, a / c) != (b % c, b / c)
  {
    assert a == (a / c) * c + a % c;
    assert b == (b / c) * c + b % c;
  }

  lemma {:induction false} PlacementsShape(images: seq<seq<bv8>>, columns: nat)
    requires columns > 0
    ensures forall p :: p in Placements(images, columns) ==>
      p.index < |images| && images[p.index] != [] && p.column == p.index % columns && p.row == p.index / columns
    ensures forall i, j :: 0 <= i < j < |Placements(images, columns)| ==>
      Placements(images, columns)[i].index < Placements(images, columns)[j].index
  {
    if images != [] {
      var k := |images| - 1;
      PlacementsShape(images[..k], columns);
      assert forall i :: 0 <= i < k ==> images[..k][i] == images[i];
    }
  }
}
