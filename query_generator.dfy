/**
 * selection/query_generator.py: the generator keeps the benchmark's
 * queries. TPC-H queries are cut out of the `qgen` output; PostgreSQL needs
 * an alias after every subquery in a FROM list, so one is spliced in after
 * the closing parenthesis of each subquery that is followed by `)`, `,`,
 * `limit`, `order` or `where`.
 *
 * The output of `qgen` is a parameter; building the tool and running it
 * are not part of this model.
 */
module QueryGeneration {
  import opened Common
  import opened Workloads

  /** The text spliced in after a subquery. */
  const Alias: string := " as alias123 "

  // ------------------------------------------------------------ the pattern `((from)|,)[  \n]*\(`

  predicate IsBlank(c: char) { c == ' ' || c == '\n' }

  /** The first position at or after `i` that is not a blank. */
  function BlankRun(s: string, i: nat): (j: nat)
    requires i <= |s|
    decreases |s| - i
    ensures i <= j <= |s| && (j == |s| || !IsBlank(s[j]))
    ensures forall k :: i <= k < j ==> IsBlank(s[k])
  {
    if i == |s| || !IsBlank(s[i]) then i else BlankRun(s, i + 1)
  }

  /** The end of a match starting at `i`, just after its `(`. */
  function MatchEnd(s: string, i: nat): (r: Option<nat>)
    requires i <= |s|
    ensures r.Some? ==> i + 2 <= r.value <= |s| && s[r.value - 1] == '('
    ensures r.Some? ==> OccursAt(s, "from", i) || s[i] == ','
  {
    var after := if OccursAt(s, "from", i) then i + 4 else if OccursAt(s, ",", i) then i + 1 else 0;
    if after == 0 then None
    else
      var j := BlankRun(s, after);
      if j < |s| && s[j] == '(' then Some(j + 1) else None
  }

  // ------------------------------------------------------------ the matching parenthesis

  function Delta(c: char): int {
    if c == '(' then 1 else if c == ')' then -1 else 0
  }

  /** Opening minus closing parentheses. */
  function Depth(s: string): int {
    if |s| == 0 then 0 else Delta(s[0]) + Depth(s[1..])
  }

  /**
   * The `while counter > 0` scan from `pos` with `counter` parentheses
   * open: the position after the one that closes them, or an IndexError
   * when the text ends first.
   */
  function Close(s: string, pos: nat, counter: nat): (r: Result<nat>)
    requires pos <= |s|
    decreases |s| - pos
    ensures r.Ok? ==> pos <= r.value <= |s|
  {
    if counter == 0 then Ok(pos)
    else if pos >= |s| then Err("IndexError")
    else Close(s, pos + 1, counter + Delta(s[pos]))
  }

  /**
   * The scan stops just after the parenthesis that closes the `counter`
   * open ones: the text read is `counter` parentheses short of balanced,
   * and no shorter prefix of it is.
   */
  lemma {:induction false} CloseMatches(s: string, p: nat, counter: nat, q: nat)
    requires counter > 0 && p <= |s| && Close(s, p, counter) == Ok(q)
    ensures p < q <= |s| && s[q - 1] == ')'
    ensures Depth(s[p..q]) == -(counter as int)
    ensures forall m :: p <= m < q ==> Depth(s[p..m]) > -(counter as int)
    decreases |s| - p
  {
    var c' := counter + Delta(s[p]);
    if c' == 0 {
      assert q == p + 1;
      assert s[p..q][1..] == [];
      assert s[p..p] == [];
    } else {
      CloseMatches(s, p + 1, c', q);
      assert s[p..q][1..] == s[p + 1..q];
      forall m | p <= m < q ensures Depth(s[p..m]) > -(counter as int) {
        if m > p {
          assert s[p..m][1..] == s[p + 1..m];
        } else {
          assert s[p..m] == [];
        }
      }
    }
  }

  method ClosingParenthesis(text: string, start: nat) returns (r: Result<nat>)
    requires start <= |text|
    ensures r == Close(text, start, 1)
  {
    var counter: nat := 1;
    var pos := start;
    while counter > 0
      invariant start <= pos <= |text|
      invariant Close(text, start, 1) == Close(text, pos, counter)
      decreases |text| - pos, counter
    {
      if pos >= |text| {
        return Err("IndexError");
      }
      var ch := text[pos];
      if ch == '(' {
        counter := counter + 1;
      } else if ch == ')' {
        counter := counter - 1;
      }
      pos := pos + 1;
    }
    r := Ok(pos);
  }

  // ------------------------------------------------------------ alias positions

  /** `query_text[pos:].lstrip().split(' ')[0].split('\n')[0]`. */
  function NextWord(s: string): string {
    Until(Until(LStrip(s), ' '), '\n')
  }

  /** The next word is the one Python's `split` calls give. */
  lemma NextWordIsSplit(s: string)
    ensures NextWord(s) == Split(Split(LStrip(s), " ")[0], "\n")[0]
  {
    UntilIsSplitHead(LStrip(s), ' ');
    UntilIsSplitHead(Until(LStrip(s), ' '), '\n');
  }

  /** The words after a subquery, besides `)` and `,`, that call for an alias. */
  const Keywords: set<string> := {"limit", "order", "where"}

  /** Whether an alias goes at `pos`; an empty next word fails at `next_word[0]`. */
  function Candidate(queryText: string, pos: nat): Result<bool>
    requires pos <= |queryText|
  {
    var w := NextWord(queryText[pos..]);
    if |w| == 0 then Err("IndexError")
    else Ok(w[0] == ')' || w[0] == ',' || w in Keywords)
  }

  /**
   * What a match ending at `end` contributes: the position after its
   * closing parenthesis if the next word qualifies, nothing if it does not.
   */
  function Found(text: string, queryText: string, end: nat): (r: Result<Option<nat>>)
    requires end <= |text| == |queryText|
    ensures r.Ok? && r.value.Some? ==>
      Close(text, end, 1) == Ok(r.value.value) && r.value.value <= |queryText| &&
      Candidate(queryText, r.value.value) == Ok(true)
    ensures r.Ok? && r.value.None? ==>
      Close(text, end, 1).Ok? && Close(text, end, 1).value <= |queryText| &&
      Candidate(queryText, Close(text, end, 1).value) == Ok(false)
  {
    var close := Close(text, end, 1);
    if close.Err? then Err(close.error)
    else
      var cand := Candidate(queryText, close.value);
      if cand.Err? then Err(cand.error)
      else if cand.value then Ok(Some(close.value)) else Ok(None)
  }

  /**
   * The alias positions of the matches found from `i` on, in match order.
   * The pattern is searched in the lower-cased `text`, the next word read
   * from the original `queryText` of the same length.
   */
  function AliasPositions(text: string, queryText: string, i: nat): Result<seq<nat>>
    requires i <= |text| == |queryText|
    decreases |text| - i
  {
    if i == |text| then Ok([])
    else
      var m := MatchEnd(text, i);
      if m.None? then AliasPositions(text, queryText, i + 1)
      else
        var f := Found(text, queryText, m.value);
        if f.Err? then Err(f.error)
        else Prepend(if f.value.Some? then [f.value.value] else [], AliasPositions(text, queryText, m.value))
  }

  /** The positions `ps` followed by those of `r`, unless `r` failed. */
  function Prepend(ps: seq<nat>, r: Result<seq<nat>>): Result<seq<nat>> {
    if r.Err? then r else Ok(ps + r.value)
  }

  lemma PrependTwice(a: seq<nat>, b: seq<nat>, r: Result<seq<nat>>)
    ensures Prepend(a, Prepend(b, r)) == Prepend(a + b, r)
    ensures Prepend([], r) == r
  {
    if r.Ok? {
      assert a + (b + r.value) == (a + b) + r.value;
      assert [] + r.value == r.value;
    }
  }

  /** A position found from `i` closes a subquery that a match opened. */
  ghost predicate ClosesSubquery(text: string, queryText: string, i: nat, pos: nat)
    requires |text| == |queryText|
  {
    exists start, end :: i <= start < |text| && MatchEnd(text, start) == Some(end) &&
      Found(text, queryText, end) == Ok(Some(pos))
  }

  /**
   * Each alias position lies just after the parenthesis that closes a
   * `(` following `from` or `,` and blanks, and the next word there
   * qualifies; in particular it is within the text.
   */
  lemma {:induction false} AliasPositionsSound(text: string, queryText: string, i: nat)
    requires i <= |text| == |queryText|
    ensures var r := AliasPositions(text, queryText, i);
      r.Ok? ==> forall pos :: pos in r.value ==> ClosesSubquery(text, queryText, i, pos) && pos <= |queryText|
    decreases |text| - i
  {
    if i < |text| {
      var m := MatchEnd(text, i);
      if m.None? {
        AliasPositionsSound(text, queryText, i + 1);
        SoundAfterSkip(text, queryText, i);
      } else {
        AliasPositionsSound(text, queryText, m.value);
        SoundAfterMatch(text, queryText, i);
      }
    }
  }

  ghost predicate SoundFrom(text: string, queryText: string, i: nat)
    requires i <= |text| == |queryText|
  {
    var r := AliasPositions(text, queryText, i);
    r.Ok? ==> forall pos :: pos in r.value ==> ClosesSubquery(text, queryText, i, pos) && pos <= |queryText|
  }

  lemma SoundAfterSkip(text: string, queryText: string, i: nat)
    requires i < |text| == |queryText| && MatchEnd(text, i).None?
    requires SoundFrom(text, queryText, i + 1)
    ensures SoundFrom(text, queryText, i)
  {
    var r := AliasPositions(text, queryText, i);
    if r.Ok? {
      assert r == AliasPositions(text, queryText, i + 1);
      forall pos | pos in r.value ensures ClosesSubquery(text, queryText, i, pos) {
        assert ClosesSubquery(text, queryText, i + 1, pos);
        var start, end :| i + 1 <= start < |text| && MatchEnd(text, start) == Some(end) &&
          Found(text, queryText, end) == Ok(Some(pos));
      }
    }
  }

  lemma SoundAfterMatch(text: string, queryText: string, i: nat)
    requires i < |text| == |queryText| && MatchEnd(text, i).Some?
    requires SoundFrom(text, queryText, MatchEnd(text, i).value)
    ensures SoundFrom(text, queryText, i)
  {
    var m := MatchEnd(text, i);
    var r := AliasPositions(text, queryText, i);
    if r.Ok? {
      var f := Found(text, queryText, m.value);
      var rest := AliasPositions(text, queryText, m.value).value;
      var found := if f.value.Some? then [f.value.value] else [];
      assert r.value == found + rest;
      forall pos | pos in r.value ensures ClosesSubquery(text, queryText, i, pos) {
        if pos in rest {
          var start, end :| m.value <= start < |text| && MatchEnd(text, start) == Some(end) &&
            Found(text, queryText, end) == Ok(Some(pos));
        } else {
          assert MatchEnd(text, i) == Some(m.value);
        }
      }
    }
  }

  // ------------------------------------------------------------ splicing

  /** The `for pos in sorted(positions, reverse=True)` loop: each insertion into the text built so far. */
  function Inserted(s: string, positions: seq<nat>): string
    requires forall k :: 0 <= k < |positions| ==> positions[k] <= |s|
    decreases |positions|
  {
    if |positions| == 0 then s
    else Inserted(s[..positions[0]] + Alias + s[positions[0]..], positions[1..])
  }

  /**
   * The intended result for positions right-most first: the original
   * text with the alias at each of the original offsets.
   */
  function WithAliases(s: string, positions: seq<nat>): (r: string)
    requires forall k :: 0 <= k < |positions| ==> positions[k] <= |s|
    requires Descending(positions)
    ensures |r| == |s| + |Alias| * |positions|
    decreases |positions|
  {
    if |positions| == 0 then s
    else
      DescendingBelowFirst(positions);
      WithAliases(s[..positions[0]], positions[1..]) + Alias + s[positions[0]..]
  }

  predicate Descending(positions: seq<nat>) {
    forall k :: 0 <= k < |positions| - 1 ==> positions[k] >= positions[k + 1]
  }

  lemma {:induction false} DescendingBelowFirst(positions: seq<nat>)
    requires |positions| > 0 && Descending(positions)
    ensures forall k :: 0 <= k < |positions| ==> positions[k] <= positions[0]
    ensures Descending(positions[1..])
  {
    if |positions| > 1 {
      DescendingBelowFirst(positions[1..]);
    }
  }

  /** Insertions at offsets inside a prefix leave the rest after it alone. */
  lemma {:induction false} InsertedPrefix(x: string, y: string, positions: seq<nat>)
    requires forall k :: 0 <= k < |positions| ==> positions[k] <= |x|
    ensures Inserted(x + y, positions) == Inserted(x, positions) + y
    decreases |positions|
  {
    if |positions| > 0 {
      var d := positions[0];
      assert (x + y)[..d] == x[..d];
      assert (x + y)[d..] == x[d..] + y;
      var x' := x[..d] + Alias + x[d..];
      assert (x + y)[..d] + Alias + (x + y)[d..] == x' + y;
      InsertedPrefix(x', y, positions[1..]);
    }
  }

  /** Right-most first, each insertion happens at its original offset. */
  lemma {:induction false} InsertedIsWithAliases(s: string, positions: seq<nat>)
    requires forall k :: 0 <= k < |positions| ==> positions[k] <= |s|
    requires Descending(positions)
    ensures Inserted(s, positions) == WithAliases(s, positions)
    decreases |positions|
  {
    if |positions| > 0 {
      var d := positions[0];
      DescendingBelowFirst(positions);
      InsertedPrefix(s[..d], Alias + s[d..], positions[1..]);
      assert s[..d] + (Alias + s[d..]) == s[..d] + Alias + s[d..];
      InsertedIsWithAliases(s[..d], positions[1..]);
    }
  }

  /** The alias positions of a query text, in match order. */
  function Positions(queryText: string): (r: Result<seq<nat>>)
    ensures r.Ok? ==> forall pos :: pos in r.value ==> pos <= |queryText|
  {
    AliasPositionsSound(Lower(queryText), queryText, 0);
    AliasPositions(Lower(queryText), queryText, 0)
  }

  function Ge(a: nat, b: nat): bool { a >= b }

  /** `sorted(positions, reverse=True)`. */
  function Descend(positions: seq<nat>): (r: seq<nat>)
    ensures multiset(r) == multiset(positions) && Descending(r)
  {
    var sorted := Sort(positions, Ge);
    SortSorted(positions, Ge);
    assert Descending(sorted) by {
      forall k | 0 <= k < |sorted| - 1 ensures sorted[k] >= sorted[k + 1] {
        assert Ge(sorted[k], sorted[k + 1]);
      }
    }
    sorted
  }

  /** Sorting keeps every position within the text. */
  lemma DescendInRange(positions: seq<nat>, n: nat)
    requires forall pos :: pos in positions ==> pos <= n
    ensures forall k :: 0 <= k < |Descend(positions)| ==> Descend(positions)[k] <= n
  {
    var d := Descend(positions);
    forall k | 0 <= k < |d| ensures d[k] <= n {
      assert d[k] in multiset(d);
      assert d[k] in multiset(positions);
      assert d[k] in positions;
    }
  }

  /** `_add_alias_subquery`. */
  function AddAlias(queryText: string): Result<string> {
    var positions := Positions(queryText);
    if positions.Err? then Err(positions.error)
    else
      DescendInRange(positions.value, |queryText|);
      Ok(Inserted(queryText, Descend(positions.value)))
  }

  /**
   * The alias goes in at every position found, at the original offsets,
   * and the text grows by one alias per position.
   */
  lemma AddAliasMeaning(queryText: string)
    ensures AddAlias(queryText).Ok? <==> Positions(queryText).Ok?
    ensures Positions(queryText).Ok? ==>
      var sorted := Descend(Positions(queryText).value);
      (forall k :: 0 <= k < |sorted| ==> sorted[k] <= |queryText|) &&
      AddAlias(queryText).value == WithAliases(queryText, sorted) &&
      |AddAlias(queryText).value| == |queryText| + |Alias| * |Positions(queryText).value|
  {
    var p := Positions(queryText);
    if p.Ok? {
      DescendInRange(p.value, |queryText|);
      var sorted := Descend(p.value);
      assert |sorted| == |multiset(sorted)| == |p.value|;
      InsertedIsWithAliases(queryText, sorted);
    }
  }

  /** A text without a subquery that needs an alias comes back unchanged. */
  lemma AddAliasNoSubquery(queryText: string)
    requires Positions(queryText) == Ok([])
    ensures AddAlias(queryText) == Ok(queryText)
  {
    assert |Descend([])| == |multiset(Descend([]))| == 0;
  }

  /** The parenthesis scan and the next-word test for a match ending at `end`. */
  method FoundAt(text: string, queryText: string, end: nat) returns (f: Result<Option<nat>>)
    requires end <= |text| == |queryText|
    ensures f == Found(text, queryText, end)
  {
    var pos := ClosingParenthesis(text, end);
    if pos.Err? {
      return Err(pos.error);
    }
    var nextWord := NextWord(queryText[pos.value..]);
    if |nextWord| == 0 {
      return Err("IndexError");
    }
    if nextWord[0] == ')' || nextWord[0] == ',' || nextWord in Keywords {
      f := Ok(Some(pos.value));
    } else {
      f := Ok(None);
    }
  }

  /** A position where no match starts: the scan moves on by one. */
  lemma ScanSkip(text: string, queryText: string, all: Result<seq<nat>>, positions: seq<nat>, i: nat)
    requires i < |text| == |queryText| && MatchEnd(text, i).None?
    requires all == Prepend(positions, AliasPositions(text, queryText, i))
    ensures all == Prepend(positions, AliasPositions(text, queryText, i + 1))
  {
  }

  /**
   * A match ending at `end`: a failure there fails the scan, otherwise
   * what was found after it is added and the scan resumes at `end`.
   */
  lemma ScanFound(text: string, queryText: string, all: Result<seq<nat>>, positions: seq<nat>, i: nat, end: nat,
                  f: Result<Option<nat>>, found: seq<nat>)
    requires i < |text| == |queryText| && MatchEnd(text, i) == Some(end) && f == Found(text, queryText, end)
    requires found == if f.Ok? && f.value.Some? then [f.value.value] else []
    requires all == Prepend(positions, AliasPositions(text, queryText, i))
    ensures f.Err? ==> all == Err(f.error)
    ensures f.Ok? ==> all == Prepend(positions + found, AliasPositions(text, queryText, end))
  {
    if f.Ok? {
      PrependTwice(positions, found, AliasPositions(text, queryText, end));
    }
  }

  /**
   * One turn of the `re.finditer` loop at `i`: no match there moves on by
   * one; a match adds the position found after it, if any, and the scan
   * resumes where the match ended.
   */
  method ScanTurn(text: string, queryText: string, ghost all: Result<seq<nat>>, positions: seq<nat>, i: nat)
    returns (r: Result<(seq<nat>, nat)>)
    requires i < |text| == |queryText|
    requires all == Prepend(positions, AliasPositions(text, queryText, i))
    ensures r.Err? ==> all == Err(r.error)
    ensures r.Ok? ==> i < r.value.1 <= |text| && all == Prepend(r.value.0, AliasPositions(text, queryText, r.value.1))
  {
    var m := MatchEnd(text, i);
    if m.None? {
      ScanSkip(text, queryText, all, positions, i);
      return Ok((positions, i + 1));
    }
    var f := FoundAt(text, queryText, m.value);
    ScanFound(text, queryText, all, positions, i, m.value, f, if f.Ok? && f.value.Some? then [f.value.value] else []);
    if f.Err? {
      return Err(f.error);
    }
    var found := if f.value.Some? then [f.value.value] else [];
    r := Ok((positions + found, m.value));
  }

  /** The `re.finditer` loop collecting the positions. */
  method ScanPositions(text: string, queryText: string) returns (r: Result<seq<nat>>)
    requires |text| == |queryText|
    ensures r == AliasPositions(text, queryText, 0)
  {
    ghost var all := AliasPositions(text, queryText, 0);
    var positions: seq<nat> := [];
    var i := 0;
    PrependTwice([], [], all);
    while i < |text|
      invariant i <= |text|
      invariant all == Prepend(positions, AliasPositions(text, queryText, i))
      decreases |text| - i
    {
      var turn := ScanTurn(text, queryText, all, positions, i);
      if turn.Err? {
        return Err(turn.error);
      }
      positions, i := turn.value.0, turn.value.1;
    }
    assert positions + [] == positions;
    r := Ok(positions);
  }

  /** The `for pos in sorted(...)` loop. */
  method Splice(queryText: string, sorted: seq<nat>) returns (result: string)
    requires forall k :: 0 <= k < |sorted| ==> sorted[k] <= |queryText|
    ensures result == Inserted(queryText, sorted)
  {
    result := queryText;
    var j := 0;
    while j < |sorted|
      invariant j <= |sorted|
      invariant |result| >= |queryText|
      invariant Inserted(result, sorted[j..]) == Inserted(queryText, sorted)
      decreases |sorted| - j
    {
      assert sorted[j..][1..] == sorted[j + 1..];
      result := result[..sorted[j]] + Alias + result[sorted[j]..];
      j := j + 1;
    }
  }

  /** `_add_alias_subquery` with its loops. */
  method AddAliasSubquery(queryText: string) returns (r: Result<string>)
    ensures r == AddAlias(queryText)
  {
    var text := Lower(queryText);
    var positions := ScanPositions(text, queryText);
    assert positions == Positions(queryText);
    if positions.Err? {
      return Err(positions.error);
    }
    DescendInRange(positions.value, |queryText|);
    var result := Splice(queryText, Descend(positions.value));
    r := Ok(result);
  }

  // ------------------------------------------------------------ TPC-H

  /** A chunk of the `qgen` output that holds a query: `)\n` ends its number. */
  predicate HasQuery(chunk: string) {
    Contains(chunk, ")\n")
  }

  /**
   * One chunk of the `qgen` output split on `Query (Q`: if it contains
   * `)\n`, the integer before it and the aliased text after it.
   */
  function ChunkParts(chunk: string): (r: Result<Option<(int, string)>>)
    ensures r.Ok? ==> (r.value.None? <==> !HasQuery(chunk))
    ensures !HasQuery(chunk) ==> r == Ok(None)
  {
    var parts := SplitOnce(chunk, ")\n");
    if |parts| != 2 then Ok(None)
    else
      var text := AddAlias(parts[1]);
      if text.Err? then Err(text.error)
      else
        var id := ParseInt(parts[0]);
        if id.Err? then Err(id.error)
        else Ok(Some((id.value, text.value)))
  }

  /** The number is the integer before the first `)\n`, the text the aliased rest. */
  lemma ChunkPartsMeaning(chunk: string)
    ensures var r := ChunkParts(chunk);
      r.Ok? && r.value.Some? ==>
        exists idText, body :: chunk == idText + ")\n" + body && !Contains(idText, ")\n") &&
          ParseInt(idText) == Ok(r.value.value.0) && AddAlias(body) == Ok(r.value.value.1)
  {
    var parts := SplitOnce(chunk, ")\n");
    if |parts| == 2 {
      assert chunk == parts[0] + ")\n" + parts[1];
    }
  }

  /**
   * The query of a chunk. As written it is built as `Query(query_id, text,
   * self.db_connector)`, one argument more than the constructor takes, a
   * TypeError; with `connectorPassed` false it is built as intended.
   */
  function ChunkQuery(chunk: string, connectorPassed: bool): (r: Result<Option<Query>>)
    ensures r.Ok? && r.value.Some? ==>
      ChunkParts(chunk).Ok? && ChunkParts(chunk).value.Some? && !connectorPassed &&
      r.value.value.nr == IntNr(ChunkParts(chunk).value.value.0) &&
      r.value.value.text == Lower(ChunkParts(chunk).value.value.1) && r.value.value.columns == []
    ensures connectorPassed && ChunkParts(chunk).Ok? && ChunkParts(chunk).value.Some? ==> r == Err("TypeError")
    ensures r.Ok? <==> ChunkParts(chunk).Ok? && (ChunkParts(chunk).value.None? || !connectorPassed)
    ensures r.Ok? ==> (r.value.Some? <==> HasQuery(chunk))
  {
    Built(ChunkParts(chunk), connectorPassed)
  }

  /** The query built from a chunk's parts. */
  function Built(p: Result<Option<(int, string)>>, connectorPassed: bool): Result<Option<Query>> {
    if p.Err? then Err(p.error)
    else if p.value.None? then Ok(None)
    else if connectorPassed then Err("TypeError")
    else Ok(Some(NewQuery(IntNr(p.value.value.0), p.value.value.1)))
  }

  /** The parts of every chunk. */
  function Parsed(chunks: seq<string>): (r: seq<Result<Option<(int, string)>>>)
    ensures |r| == |chunks|
  {
    if |chunks| == 0 then [] else Parsed(chunks[..|chunks| - 1]) + [ChunkParts(chunks[|chunks| - 1])]
  }

  /** Element `k` of the parts is those of chunk `k`. */
  lemma {:induction false} ParsedAt(chunks: seq<string>, k: nat)
    requires k < |chunks|
    ensures Parsed(chunks)[k] == ChunkParts(chunks[k])
  {
    if k < |chunks| - 1 {
      var init := chunks[..|chunks| - 1];
      ParsedAt(init, k);
      assert init[k] == chunks[k];
    }
  }

  /**
   * The `_generate_tpch` loop over the parts of the chunks: the queries
   * appended, chunk by chunk, and the error that stopped it, if any.
   */
  function Run(parsed: seq<Result<Option<(int, string)>>>, connectorPassed: bool): (seq<Query>, Option<string>) {
    if |parsed| == 0 then ([], None)
    else
      var (qs, error) := Run(parsed[..|parsed| - 1], connectorPassed);
      var c := Built(parsed[|parsed| - 1], connectorPassed);
      if error.Some? then (qs, error)
      else if c.Err? then (qs, Some(c.error))
      else if c.value.None? then (qs, None)
      else (qs + [c.value.value], None)
  }

  /** `_generate_tpch` on the chunks of the `qgen` output. */
  function TpchQueries(chunks: seq<string>, connectorPassed: bool): (seq<Query>, Option<string>) {
    Run(Parsed(chunks), connectorPassed)
  }

  /** The chunks of a run. */
  function Chunks(qgenOutput: string): seq<string> {
    Split(qgenOutput, "Query (Q")
  }

  lemma {:induction false} RunAsWrittenFails(parsed: seq<Result<Option<(int, string)>>>)
    ensures Run(parsed, true).0 == []
    ensures |Run(parsed, false).0| > 0 ==> Run(parsed, true).1 == Some("TypeError")
    ensures |Run(parsed, false).0| == 0 ==> Run(parsed, true) == Run(parsed, false)
  {
    if |parsed| > 0 {
      RunAsWrittenFails(parsed[..|parsed| - 1]);
    }
  }

  /**
   * As written no query is ever appended, and as soon as the intended
   * generator would append one the run fails with a TypeError; a run
   * that does not fail has found no query at all.
   */
  lemma TpchAsWrittenFails(chunks: seq<string>)
    ensures TpchQueries(chunks, true).0 == []
    ensures |TpchQueries(chunks, false).0| > 0 ==> TpchQueries(chunks, true).1 == Some("TypeError")
    ensures TpchQueries(chunks, true).1.None? ==> TpchQueries(chunks, false) == ([], None)
  {
    RunAsWrittenFails(Parsed(chunks));
  }

  /** The chunks that give a query. */
  function Successes(parsed: seq<Result<Option<(int, string)>>>): nat {
    if |parsed| == 0 then 0
    else Successes(parsed[..|parsed| - 1]) + (if parsed[|parsed| - 1].Ok? && parsed[|parsed| - 1].value.Some? then 1 else 0)
  }

  lemma {:induction false} RunMeaning(parsed: seq<Result<Option<(int, string)>>>)
    ensures Run(parsed, false).1.None? <==> forall k :: 0 <= k < |parsed| ==> parsed[k].Ok?
    ensures Run(parsed, false).1.None? ==> |Run(parsed, false).0| == Successes(parsed)
  {
    if |parsed| > 0 {
      var init := parsed[..|parsed| - 1];
      RunMeaning(init);
      if !Run(init, false).1.None? {
        var k :| 0 <= k < |init| && !init[k].Ok?;
        assert parsed[k] == init[k];
      } else {
        forall k | 0 <= k < |init| ensures init[k].Ok? {
          assert init[k] == parsed[k];
        }
      }
    }
  }

  lemma SuccessesCount(chunks: seq<string>)
    requires forall k :: 0 <= k < |chunks| ==> ChunkParts(chunks[k]).Ok?
    ensures Successes(Parsed(chunks)) == |Filter(chunks, HasQuery)|
  {
    var parsed := Parsed(chunks);
    forall k | 0 <= k < |chunks| ensures parsed[k].Ok? && (parsed[k].value.Some? <==> HasQuery(chunks[k])) {
      ParsedAt(chunks, k);
    }
    SuccessesCountOf(chunks, parsed);
  }

  /** Parts that succeed, holding a value exactly for the chunks with a query, count those chunks. */
  lemma {:induction false} SuccessesCountOf(chunks: seq<string>, parsed: seq<Result<Option<(int, string)>>>)
    requires |parsed| == |chunks|
    requires forall k :: 0 <= k < |chunks| ==> parsed[k].Ok? && (parsed[k].value.Some? <==> HasQuery(chunks[k]))
    ensures Successes(parsed) == |Filter(chunks, HasQuery)|
  {
    if |chunks| > 0 {
      var n := |chunks| - 1;
      assert chunks == chunks[..n] + [chunks[n]];
      FilterAppend(chunks[..n], chunks[n], HasQuery);
      SuccessesCountOf(chunks[..n], parsed[..n]);
    }
  }

  /**
   * The intended generator fails exactly when some chunk does; without
   * failure it holds one query per chunk that contains `)\n`.
   */
  lemma TpchQueriesMeaning(chunks: seq<string>)
    ensures TpchQueries(chunks, false).1.None? <==> forall k :: 0 <= k < |chunks| ==> ChunkQuery(chunks[k], false).Ok?
    ensures TpchQueries(chunks, false).1.None? ==> |TpchQueries(chunks, false).0| == |Filter(chunks, HasQuery)|
  {
    RunMeaning(Parsed(chunks));
    forall k | 0 <= k < |chunks| ensures Parsed(chunks)[k].Ok? <==> ChunkQuery(chunks[k], false).Ok? {
      ParsedAt(chunks, k);
    }
    if TpchQueries(chunks, false).1.None? {
      SuccessesCount(chunks);
    }
  }

  // ------------------------------------------------------------ the generator

  /** `filter_queries`: the queries whose number is among the ids, in order. */
  function Kept(queries: seq<Query>, ids: seq<QueryNr>): seq<Query> {
    if |queries| == 0 then []
    else Kept(queries[..|queries| - 1], ids) + (if queries[|queries| - 1].nr in ids then [queries[|queries| - 1]] else [])
  }

  /** Exactly the queries with a listed number stay. */
  lemma {:induction false} KeptMembers(queries: seq<Query>, ids: seq<QueryNr>)
    ensures forall q :: q in Kept(queries, ids) <==> q in queries && q.nr in ids
    ensures |Kept(queries, ids)| <= |queries|
  {
    if |queries| > 0 {
      var init := queries[..|queries| - 1];
      KeptMembers(init, ids);
      assert queries == init + [queries[|queries| - 1]];
    }
  }

  /** Every query kept has a listed number, so filtering again keeps them all. */
  lemma {:induction false} KeptAll(queries: seq<Query>, ids: seq<QueryNr>)
    requires forall k :: 0 <= k < |queries| ==> queries[k].nr in ids
    ensures Kept(queries, ids) == queries
  {
    if |queries| > 0 {
      var init := queries[..|queries| - 1];
      forall k | 0 <= k < |init| ensures init[k].nr in ids {
        assert init[k] == queries[k];
      }
      KeptAll(init, ids);
      assert queries == init + [queries[|queries| - 1]];
    }
  }

  /** `filter_queries` is idempotent. */
  lemma KeptIdempotent(queries: seq<Query>, ids: seq<QueryNr>)
    ensures Kept(Kept(queries, ids), ids) == Kept(queries, ids)
  {
    var kept := Kept(queries, ids);
    KeptMembers(queries, ids);
    forall k | 0 <= k < |kept| ensures kept[k].nr in ids {
      assert kept[k] in kept;
    }
    KeptAll(kept, ids);
  }

  /** Filtering keeps the order: it distributes over concatenation. */
  lemma {:induction false} KeptConcat(a: seq<Query>, b: seq<Query>, ids: seq<QueryNr>)
    ensures Kept(a + b, ids) == Kept(a, ids) + Kept(b, ids)
    decreases |b|
  {
    if |b| == 0 {
      assert a + b == a;
    } else {
      var b' := b[..|b| - 1];
      assert a + b == (a + b') + [b[|b| - 1]];
      assert (a + b)[..|a + b| - 1] == a + b';
      KeptConcat(a, b', ids);
    }
  }

  class QueryGenerator {
    var benchmarkName: string
    var queries: seq<Query>

    /** `__init__` up to the call of `generate`, which is `Generate` here. */
    constructor(benchmarkName: string)
      ensures this.benchmarkName == benchmarkName && queries == []
    {
      this.benchmarkName := benchmarkName;
      queries := [];
    }

    /** `filter_queries`. */
    method FilterQueries(ids: seq<QueryNr>)
      modifies this
      ensures queries == Kept(old(queries), ids) && benchmarkName == old(benchmarkName)
    {
      var kept: seq<Query> := [];
      for i := 0 to |queries|
        invariant kept == Kept(queries[..i], ids)
      {
        assert queries[..i + 1][..i] == queries[..i];
        if queries[i].nr in ids {
          kept := kept + [queries[i]];
        }
      }
      assert queries[..|queries|] == queries;
      queries := kept;
    }

    /** `_generate_tpch` on the output of `qgen`; `connectorPassed` selects the call as written or as intended. */
    method GenerateTpch(qgenOutput: string, connectorPassed: bool) returns (error: Option<string>)
      modifies this
      ensures var (qs, e) := TpchQueries(Chunks(qgenOutput), connectorPassed);
        queries == old(queries) + qs && error == e && benchmarkName == old(benchmarkName)
    {
      error := AppendQueries(Chunks(qgenOutput), connectorPassed);
    }

    /** The loop of `_generate_tpch` over the chunks. */
    method AppendQueries(chunks: seq<string>, connectorPassed: bool) returns (error: Option<string>)
      modifies this`queries
      ensures var (qs, e) := TpchQueries(chunks, connectorPassed);
        queries == old(queries) + qs && error == e
    {
      ghost var added: seq<Query> := [];
      error := None;
      var i := 0;
      assert queries == old(queries) + added;
      while i < |chunks|
        invariant i <= |chunks|
        invariant queries == old(queries) + added
        invariant Run(Parsed(chunks)[..i], connectorPassed) == (added, None)
      {
        var query, e := TpchTurn(chunks, i, connectorPassed, added);
        if e.Some? {
          error := e;
          return;
        }
        ghost var more := if query.Some? then [query.value] else [];
        if query.Some? {
          queries := queries + [query.value];
        }
        assert old(queries) + added + more == old(queries) + (added + more);
        added := added + more;
        i := i + 1;
      }
      assert Parsed(chunks)[..i] == Parsed(chunks);
    }

    /** `generate`: TPC-H from its output; the TPC-DS generator it calls is commented out (an AttributeError); otherwise NotImplementedError. */
    method Generate(qgenOutput: string, connectorPassed: bool) returns (error: Option<string>)
      modifies this
      ensures benchmarkName == "tpch" ==>
        var (qs, e) := TpchQueries(Chunks(qgenOutput), connectorPassed);
        queries == old(queries) + qs && error == e
      ensures benchmarkName != "tpch" ==> queries == old(queries)
      ensures benchmarkName == "tpcds" ==> error == Some("AttributeError")
      ensures benchmarkName != "tpch" && benchmarkName != "tpcds" ==> error == Some("NotImplementedError")
    {
      if benchmarkName == "tpch" {
        error := GenerateTpch(qgenOutput, connectorPassed);
      } else if benchmarkName == "tpcds" {
        error := Some("AttributeError");
      } else {
        error := Some("NotImplementedError");
      }
    }
  }

  /** One more chunk: the step of the `_generate_tpch` loop. */
  lemma RunSnoc(parsed: seq<Result<Option<(int, string)>>>, i: nat, connectorPassed: bool)
    requires i < |parsed| && Run(parsed[..i], connectorPassed).1.None?
    ensures var b := Built(parsed[i], connectorPassed);
      var qs := Run(parsed[..i], connectorPassed).0;
      Run(parsed[..i + 1], connectorPassed) ==
        if b.Err? then (qs, Some(b.error)) else if b.value.None? then (qs, None) else (qs + [b.value.value], None)
  {
    assert parsed[..i + 1][..i] == parsed[..i];
  }

  /** Once a prefix of the chunks has stopped with an error, the whole run has. */
  lemma {:induction false} RunStops(parsed: seq<Result<Option<(int, string)>>>, connectorPassed: bool, n: nat)
    requires n <= |parsed| && Run(parsed[..n], connectorPassed).1.Some?
    ensures Run(parsed, connectorPassed) == Run(parsed[..n], connectorPassed)
    decreases |parsed| - n
  {
    if n < |parsed| {
      assert parsed[..n + 1][..n] == parsed[..n];
      RunStops(parsed, connectorPassed, n + 1);
    } else {
      assert parsed[..n] == parsed;
    }
  }

  /** One turn of the `_generate_tpch` loop, with the queries added before it. */
  method TpchTurn(chunks: seq<string>, i: nat, connectorPassed: bool, ghost added: seq<Query>)
    returns (query: Option<Query>, error: Option<string>)
    requires i < |chunks| && Run(Parsed(chunks)[..i], connectorPassed) == (added, None)
    ensures error.Some? ==> TpchQueries(chunks, connectorPassed) == (added, error)
    ensures error.None? ==>
      Run(Parsed(chunks)[..i + 1], connectorPassed) == (added + (if query.Some? then [query.value] else []), None)
  {
    ghost var parsed := Parsed(chunks);
    query, error := ChunkStep(chunks, i, connectorPassed);
    RunSnoc(parsed, i, connectorPassed);
    ghost var b := Built(parsed[i], connectorPassed);
    if error.Some? {
      assert b.Err? && error == Some(b.error);
      assert Run(parsed[..i + 1], connectorPassed) == (added, error);
      RunStops(parsed, connectorPassed, i + 1);
    } else {
      assert b.Ok? && query == b.value;
      if query.None? {
        assert added + [] == added;
      }
    }
  }

  /** The body of the loop in `_generate_tpch` for chunk `i`: the query to append or the error raised. */
  method ChunkStep(chunks: seq<string>, i: nat, connectorPassed: bool) returns (query: Option<Query>, error: Option<string>)
    requires i < |chunks|
    ensures var b := Built(Parsed(chunks)[i], connectorPassed);
      (b.Err? ==> query.None? && error == Some(b.error)) && (b.Ok? ==> query == b.value && error.None?)
  {
    var parts := ParseChunk(chunks[i]);
    ParsedAt(chunks, i);
    if parts.Err? {
      return None, Some(parts.error);
    }
    if parts.value.None? {
      return None, None;
    }
    if connectorPassed {
      return None, Some("TypeError");
    }
    query, error := Some(NewQuery(IntNr(parts.value.value.0), parts.value.value.1)), None;
  }

  /** One chunk of the loop in `_generate_tpch`: the split, `_add_alias_subquery` and `int`. */
  method ParseChunk(chunk: string) returns (r: Result<Option<(int, string)>>)
    ensures r == ChunkParts(chunk)
  {
    var queryIdAndText := SplitOnce(chunk, ")\n");
    if |queryIdAndText| != 2 {
      return Ok(None);
    }
    var text := AddAliasSubquery(queryIdAndText[1]);
    if text.Err? {
      return Err(text.error);
    }
    var queryId := ParseInt(queryIdAndText[0]);
    if queryId.Err? {
      return Err(queryId.error);
    }
    r := Ok(Some((queryId.value, text.value)));
  }
}
