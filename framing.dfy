/** What the line framer hands to the dispatcher: a received chunk cut
    after every line feed. */
module Framing {
  import opened MessageFields

  /** One framed line: it ends with its only line feed. */
  predicate IsLine(l: string) {
    |l| > 0 && l[|l| - 1] == '\n' && '\n' !in l[..|l| - 1]
  }

  /** The lines of a chunk, in order: each runs from just after the previous
      '\n' (or the start) up to and including the next '\n'. Characters after
      the last '\n' belong to no line. */
  function Lines(chunk: string): (lines: seq<string>)
    ensures lines == [] <==> forall k :: 0 <= k < |chunk| ==> chunk[k] != '\n'
    decreases |chunk|
  {
    var i := Find(chunk, '\n', 0);
    if i == |chunk| then [] else [chunk[..i + 1]] + Lines(chunk[i + 1..])
  }

  /** Every line the framer produces ends with its only '\n'. */
  lemma {:induction false} LinesAreFramed(chunk: string)
    ensures forall k :: 0 <= k < |Lines(chunk)| ==> IsLine(Lines(chunk)[k])
    decreases |chunk|
  {
    var i := Find(chunk, '\n', 0);
    if i < |chunk| {
      LinesAreFramed(chunk[i + 1..]);
      assert chunk[..i + 1][..i] == chunk[..i];
    }
  }

  /** The characters after the last '\n' of a chunk. */
  function Remainder(chunk: string): (rest: string)
    ensures '\n' !in rest
    decreases |chunk|
  {
    var i := Find(chunk, '\n', 0);
    if i == |chunk| then chunk else Remainder(chunk[i + 1..])
  }

  function Concat(lines: seq<string>): string {
    if lines == [] then [] else lines[0] + Concat(lines[1..])
  }

  lemma ConcatCons(line: string, lines: seq<string>)
    ensures Concat([line] + lines) == line + Concat(lines)
  {
    assert ([line] + lines)[1..] == lines;
  }

  /** The lines followed by the remainder give back the chunk, so no
      character is lost, repeated or reordered by framing. */
  lemma {:induction false} LinesReassemble(chunk: string)
    ensures Concat(Lines(chunk)) + Remainder(chunk) == chunk
    decreases |chunk|
  {
    if '\n' in chunk {
      var fragment, rest := SplitFirst(chunk);
      LinesReassemble(rest);
      ConcatCons(fragment + "\n", Lines(rest));
      assert fragment + "\n" + Concat(Lines(rest)) + Remainder(rest)
          == fragment + "\n" + (Concat(Lines(rest)) + Remainder(rest));
    } else {
      NoLines(chunk);
    }
  }

  /** A chunk with a line feed splits at the first one into a fragment, the
      first line being the fragment and its '\n', and the rest. */
  lemma SplitFirst(chunk: string) returns (fragment: string, rest: string)
    requires '\n' in chunk
    ensures '\n' !in fragment && chunk == fragment + "\n" + rest
    ensures Lines(chunk) == [fragment + "\n"] + Lines(rest)
    ensures Remainder(chunk) == Remainder(rest)
  {
    var i := Find(chunk, '\n', 0);
    fragment, rest := chunk[..i], chunk[i + 1..];
    assert chunk[..i + 1] == fragment + "\n";
    assert chunk == fragment + "\n" + rest;
  }

  /** A chunk without a line feed is all remainder. */
  lemma NoLines(chunk: string)
    requires '\n' !in chunk
    ensures Lines(chunk) == [] && Remainder(chunk) == chunk
  {
    var i := Find(chunk, '\n', 0);
    assert i == |chunk|;
  }

  /** One line is dispatched per '\n' in the chunk. */
  lemma {:induction false} LinesCount(chunk: string)
    ensures |Lines(chunk)| == multiset(chunk)['\n']
    decreases |chunk|
  {
    var i := Find(chunk, '\n', 0);
    if i < |chunk| {
      LinesCount(chunk[i + 1..]);
      assert chunk == chunk[..i] + [chunk[i]] + chunk[i + 1..];
      assert '\n' !in chunk[..i];
    } else {
      assert '\n' !in chunk;
    }
  }

  /** A fragment without '\n' makes no line by itself, and followed by a
      '\n' it makes exactly the next line. */
  lemma LinesOfFragment(fragment: string, rest: string)
    requires '\n' !in fragment
    ensures Lines(fragment) == []
    ensures Lines(fragment + "\n" + rest) == [fragment + "\n"] + Lines(rest)
  {
    var chunk := fragment + "\n" + rest;
    FindIs(chunk, '\n', 0, |fragment|);
    assert chunk[..|fragment| + 1] == fragment + "\n";
    assert chunk[|fragment| + 1..] == rest;
    FindIs(fragment, '\n', 0, |fragment|);
  }

  /** The lines of a chunk from position `j` on, when the next '\n' is at
      `i`: the characters up to and including it, then the lines after it. */
  lemma NextLine(chunk: string, j: nat, i: nat)
    requires j <= |chunk| && i < |chunk| && Find(chunk, '\n', j) == i
    ensures Lines(chunk[j..]) == [chunk[j..i + 1]] + Lines(chunk[i + 1..])
  {
    assert '\n' !in chunk[j..i];
    assert chunk[j..] == chunk[j..i] + "\n" + chunk[i + 1..];
    assert chunk[j..i + 1] == chunk[j..i] + "\n";
    LinesOfFragment(chunk[j..i], chunk[i + 1..]);
  }

  /** No line starts at or after `j` when no '\n' follows it. */
  lemma NoNextLine(chunk: string, j: nat)
    requires j <= |chunk| && Find(chunk, '\n', j) == |chunk|
    ensures Lines(chunk[j..]) == []
  {
    assert '\n' !in chunk[j..];
    LinesOfFragment(chunk[j..], []);
  }

  /** Framing two chunks one after the other gives the lines of their
      concatenation when the first chunk ends on a line boundary. Nothing is
      carried over between calls, so a fragment left at the end of one chunk
      is never joined to the start of the next. */
  lemma {:induction false} LinesOfTwoChunks(first: string, second: string)
    requires first == [] || first[|first| - 1] == '\n'
    ensures Lines(first + second) == Lines(first) + Lines(second)
    decreases |first|
  {
    if first == [] {
      assert first + second == second;
    } else {
      var fragment, rest := FirstLine(first);
      LinesOfTwoChunks(rest, second);
      LinesAfterFragment(fragment, rest, second);
    }
  }

  /** A chunk that ends on a line feed splits at its first one, and what
      follows still ends on one. */
  lemma FirstLine(chunk: string) returns (fragment: string, rest: string)
    requires chunk != [] && chunk[|chunk| - 1] == '\n'
    ensures '\n' !in fragment && chunk == fragment + "\n" + rest
    ensures rest == [] || rest[|rest| - 1] == '\n'
  {
    var i := Find(chunk, '\n', 0);
    assert i < |chunk|;
    fragment, rest := chunk[..i], chunk[i + 1..];
    assert chunk == fragment + "\n" + rest;
  }

  /** The induction step of `LinesOfTwoChunks`: a first line put in front of
      both sides. */
  lemma LinesAfterFragment(fragment: string, rest: string, second: string)
    requires '\n' !in fragment
    requires Lines(rest + second) == Lines(rest) + Lines(second)
    ensures Lines(fragment + "\n" + rest + second) == Lines(fragment + "\n" + rest) + Lines(second)
  {
    var line := fragment + "\n";
    AppendAssociates(fragment + "\n", rest, second);
    LinesOfFragment(fragment, rest + second);
    LinesOfFragment(fragment, rest);
    AppendAssociates([line], Lines(rest), Lines(second));
  }
}
