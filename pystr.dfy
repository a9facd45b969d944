/** The few Python `str` operations the MusicXML export relies on:
    `s.startswith(p)`, `s.split('\n')` and `'\n'.join(lines)`. */
module PyStr {

  /** `s.startswith(prefix)`. */
  predicate StartsWith(s: string, prefix: string)
  {
    |prefix| <= |s| && s[..|prefix|] == prefix
  }

  /** `s.startswith(prefix)` holds exactly when `s` is `prefix` followed by
      the rest of `s`. */
  lemma StartsWithMeans(s: string, prefix: string)
    ensures StartsWith(s, prefix) <==> |prefix| <= |s| && s == prefix + s[|prefix|..]
  {
    if |prefix| <= |s| && s == prefix + s[|prefix|..] {
      assert s[..|prefix|] == (prefix + s[|prefix|..])[..|prefix|];
    }
  }

  /** Index of the first line break in `s`, or `|s|` when there is none. */
  function LineEnd(s: string): (k: nat)
    ensures k <= |s|
    ensures forall i :: 0 <= i < k ==> s[i] != '\n'
    ensures k < |s| ==> s[k] == '\n'
  {
    if |s| == 0 || s[0] == '\n' then 0 else 1 + LineEnd(s[1..])
  }

  /** `s.split('\n')`: the pieces between line breaks, in order. Python
      never returns an empty list (`"".split('\n') == [""]`), and a trailing
      line break yields a trailing empty piece. */
  function Split(s: string): (lines: seq<string>)
    ensures |lines| >= 1
    ensures forall line :: line in lines ==> '\n' !in line
    decreases |s|
  {
    var k := LineEnd(s);
    if k == |s| then [s] else [s[..k]] + Split(s[k + 1..])
  }

  /** `'\n'.join(lines)`; the join of an empty list is the empty string.
      The text starts with the first line, and joining lines that hold no
      line break puts exactly one break between each two of them. */
  function Join(lines: seq<string>): (text: string)
    ensures |lines| == 0 ==> text == ""
    ensures |lines| >= 1 ==> StartsWith(text, lines[0])
    ensures (forall line :: line in lines ==> '\n' !in line) ==>
      multiset(text)['\n'] == if |lines| == 0 then 0 else |lines| - 1
  {
    if |lines| == 0 then ""
    else if |lines| == 1 then
      assert lines[0] in lines;
      lines[0]
    else
      var rest := Join(lines[1..]);
      assert lines[0] in lines;
      assert forall line :: line in lines[1..] ==> line in lines;
      assert multiset(lines[0] + "\n" + rest)['\n'] == multiset(lines[0])['\n'] + 1 + multiset(rest)['\n'];
      lines[0] + "\n" + rest
  }

  /** Joining a line in front of at least one other line puts a line
      break between them. */
  lemma JoinCons(line: string, lines: seq<string>)
    requires |lines| >= 1
    ensures Join([line] + lines) == line + "\n" + Join(lines)
  {
    assert ([line] + lines)[1..] == lines;
  }

  /** Text around a line break is what comes before it, the break, and what
      comes after it. */
  lemma BreakAt(s: string, k: nat)
    requires k < |s| && s[k] == '\n'
    ensures s == s[..k] + "\n" + s[k + 1..]
  {
    var t := s[..k] + "\n" + s[k + 1..];
    assert |t| == |s|;
    forall i | 0 <= i < |s|
      ensures t[i] == s[i]
    {
      if i < k {} else if i == k {} else {}
    }
  }

  /** A split at the first line break: the first line and the lines of
      what follows the break. */
  lemma SplitAtLineEnd(s: string)
    requires LineEnd(s) < |s|
    ensures Split(s) == [s[..LineEnd(s)]] + Split(s[LineEnd(s) + 1..])
    ensures s == s[..LineEnd(s)] + "\n" + s[LineEnd(s) + 1..]
  {
    BreakAt(s, LineEnd(s));
  }

  /** Joining the pieces of a split gives back the original text. */
  lemma {:induction false} JoinSplit(s: string)
    ensures Join(Split(s)) == s
    decreases |s|
  {
    if LineEnd(s) < |s| {
      var k := LineEnd(s);
      var rest := s[k + 1..];
      SplitAtLineEnd(s);
      JoinCons(s[..k], Split(rest));
      JoinSplit(rest);
    }
  }

  /** The first line, with no line break in it, comes off a split on its own. */
  lemma {:induction false} SplitLine(line: string, rest: string)
    requires '\n' !in line
    ensures Split(line + "\n" + rest) == [line] + Split(rest)
  {
    var s := line + "\n" + rest;
    LineEndOfLine(line, rest);
    assert s[..|line|] == line;
    assert s[|line| + 1..] == rest;
  }

  /** Two lines come off a split one after the other. */
  lemma SplitTwoLines(first: string, second: string, rest: string)
    requires '\n' !in first && '\n' !in second
    ensures Split(first + "\n" + second + "\n" + rest) == [first, second] + Split(rest)
  {
    var tail := second + "\n" + rest;
    calc {
      Split(first + "\n" + second + "\n" + rest);
    == { assert first + "\n" + second + "\n" + rest == first + "\n" + tail; }
      Split(first + "\n" + tail);
    == { SplitLine(first, tail); }
      [first] + Split(tail);
    == { SplitLine(second, rest); }
      [first] + ([second] + Split(rest));
    == { assert [first] + ([second] + Split(rest)) == [first, second] + Split(rest); }
      [first, second] + Split(rest);
    }
  }

  /** The first line break of `line + "\n" + rest` is the one after `line`. */
  lemma {:induction false} LineEndOfLine(line: string, rest: string)
    requires '\n' !in line
    ensures LineEnd(line + "\n" + rest) == |line|
  {
    var s := line + "\n" + rest;
    assert s[|line|] == '\n';
    assert forall i :: 0 <= i < |line| ==> s[i] == line[i];
  }

  /** Splitting a join gives back the lines, provided none holds a line
      break (and there is at least one, as a split always has). */
  lemma {:induction false} SplitJoin(lines: seq<string>)
    requires |lines| >= 1
    requires forall line :: line in lines ==> '\n' !in line
    ensures Split(Join(lines)) == lines
  {
    if |lines| == 1 {
      var s := lines[0];
      assert '\n' !in s by { assert s in lines; }
    } else {
      var tail := Join(lines[1..]);
      assert '\n' !in lines[0] by { assert lines[0] in lines; }
      assert forall line :: line in lines[1..] ==> '\n' !in line by {
        assert forall line :: line in lines[1..] ==> line in lines;
      }
      calc {
        Split(Join(lines));
      == { assert Join(lines) == lines[0] + "\n" + tail; }
        Split(lines[0] + "\n" + tail);
      == { SplitLine(lines[0], tail); }
        [lines[0]] + Split(tail);
      == { SplitJoin(lines[1..]); }
        [lines[0]] + lines[1..];
      == { assert lines == [lines[0]] + lines[1..]; }
        lines;
      }
    }
  }

  /** Dropping the first piece of a split and joining the rest removes
      everything up to and including the first line break; with no line
      break at all, nothing is left. */
  lemma DropFirstLine(s: string)
    ensures LineEnd(s) < |s| ==> Join(Split(s)[1..]) == s[LineEnd(s) + 1..]
    ensures LineEnd(s) == |s| ==> Join(Split(s)[1..]) == ""
  {
    if LineEnd(s) < |s| {
      SplitAtLineEnd(s);
      assert Split(s)[1..] == Split(s[LineEnd(s) + 1..]);
      JoinSplit(s[LineEnd(s) + 1..]);
    }
  }
}
