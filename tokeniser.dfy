/** tokeniser.py: splitting a line into operator tokens and digit-run tokens. */
module Tokeniser {
  import opened Builtins
  import opened Common

  /** delete_whitespace: every ' ' removed, every other character kept in order. */
  function DeleteWhitespace(line: string): (r: string)
    ensures ' ' !in r
    ensures |r| <= |line|
    ensures ' ' !in line ==> r == line
  {
    if line == [] then []
    else (if line[0] == ' ' then "" else [line[0]]) + DeleteWhitespace(line[1..])
  }

  lemma DeleteWhitespaceIdempotent(line: string)
    ensures DeleteWhitespace(DeleteWhitespace(line)) == DeleteWhitespace(line)
  {
  }

  lemma {:induction false} DeleteWhitespaceAppend(a: string, b: string)
    ensures DeleteWhitespace(a + b) == DeleteWhitespace(a) + DeleteWhitespace(b)
  {
    if a != [] {
      assert (a + b)[1..] == a[1..] + b;
      DeleteWhitespaceAppend(a[1..], b);
    } else {
      assert a + b == b;
    }
  }

  /** Exactly the spaces go: every other character keeps its count. */
  lemma {:induction false} DeleteWhitespaceKeepsCharacters(line: string)
    ensures multiset(DeleteWhitespace(line)) == multiset(line)[' ' := 0]
  {
    if line != [] {
      DeleteWhitespaceKeepsCharacters(line[1..]);
      assert line == [line[0]] + line[1..];
    }
  }

  /** Every character of s is a digit or one of t's operator characters. */
  predicate Scannable(s: string, t: Tables) {
    forall i :: 0 <= i < |s| ==> IsDigit(s[i]) || t.isOperator(s[i])
  }

  /** The length of the maximal run of digits at the start of s. */
  function DigitRun(s: string): (n: nat)
    ensures n <= |s|
    ensures forall i :: 0 <= i < n ==> IsDigit(s[i])
    ensures n < |s| ==> !IsDigit(s[n])
  {
    if s == [] || !IsDigit(s[0]) then 0 else 1 + DigitRun(s[1..])
  }

  /** What one pass of the outer loop appends when the cursor is at the start of s. */
  function NextToken(s: string, t: Tables): (tok: string)
    requires s != []
    ensures tok <= s
    ensures tok == [] <==> !IsDigit(s[0]) && !t.isOperator(s[0])
  {
    if t.isOperator(s[0]) then [s[0]] else s[..DigitRun(s)]
  }

  /**
   * A character that is neither a digit nor an operator yields the empty token and
   * leaves the cursor where it was, so the loop appends "" forever.
   */
  lemma StallsOnOtherCharacter(s: string, t: Tables)
    requires s != [] && !IsDigit(s[0]) && !t.isOperator(s[0])
    ensures NextToken(s, t) == "" && s[|NextToken(s, t)|..] == s
  {
  }

  lemma ScannableSuffix(s: string, k: nat, t: Tables)
    requires Scannable(s, t) && k <= |s|
    ensures Scannable(s[k..], t)
  {
    forall i | 0 <= i < |s[k..]| ensures IsDigit(s[k..][i]) || t.isOperator(s[k..][i]) {
      assert s[k..][i] == s[k + i];
    }
  }

  /** The token list of a space-free line. */
  function Tokens(s: string, t: Tables): (r: seq<string>)
    requires Scannable(s, t)
    ensures Concat(r) == s
    decreases |s|
  {
    if s == [] then []
    else
      var tok := NextToken(s, t);
      ScannableSuffix(s, |tok|, t);
      [tok] + Tokens(s[|tok|..], t)
  }

  /** Where the token at the cursor ends, the rest of the token list begins. */
  lemma TokensAdvance(s: string, i: nat, j: nat, t: Tables, acc: seq<string>)
    requires Scannable(s, t) && i < j <= |s|
    requires NextToken(s[i..], t) == s[i..j]
    ensures Scannable(s[i..], t) && Scannable(s[j..], t)
    ensures acc + [s[i..j]] + Tokens(s[j..], t) == acc + Tokens(s[i..], t)
  {
    ScannableSuffix(s, i, t);
    ScannableSuffix(s, j, t);
    assert s[i..][j - i..] == s[j..];
    assert Tokens(s[i..], t) == [s[i..j]] + Tokens(s[j..], t);
  }

  /**
   * tokenise: the space-free line is scanned with a cursor; an operator character
   * is a token of its own, and otherwise the maximal digit run at the cursor is.
   */
  method Tokenise(line: string, t: Tables) returns (tokens: seq<string>)
    requires Scannable(DeleteWhitespace(line), t)
    ensures tokens == Tokens(DeleteWhitespace(line), t)
  {
    tokens := [];
    var s := DeleteWhitespace(line);
    var i := 0;
    assert s[0..] == s;
    while i < |s|
      invariant 0 <= i <= |s| && Scannable(s[i..], t)
      invariant tokens + Tokens(s[i..], t) == Tokens(s, t)
      decreases |s| - i
    {
      var pointer := i;
      if t.isOperator(s[i]) {
        OperatorAt(s, i, t);
        TokensAdvance(s, i, i + 1, t, tokens);
        tokens := tokens + [[s[i]]];
        i := i + 1;
      } else {
        pointer := SkipDigits(s, pointer);
        NextTokenIsRun(s, i, pointer, t);
        TokensAdvance(s, i, pointer, t, tokens);
        tokens := tokens + [s[i..pointer]];
        i := pointer;
      }
    }
    assert s[i..] == [];
  }

  /** The inner loop of tokenise: the cursor moves past the digits at i and stops at the first non-digit. */
  method SkipDigits(s: string, i: nat) returns (pointer: nat)
    requires i <= |s|
    ensures i <= pointer <= |s|
    ensures forall k :: i <= k < pointer ==> IsDigit(s[k])
    ensures pointer == |s| || !IsDigit(s[pointer])
  {
    pointer := i;
    while pointer < |s| && IsDigit(s[pointer])
      invariant i <= pointer <= |s|
      invariant forall k :: i <= k < pointer ==> IsDigit(s[k])
    {
      pointer := pointer + 1;
    }
  }

  /** At an operator character, the token is that character alone. */
  lemma OperatorAt(s: string, i: nat, t: Tables)
    requires i < |s| && t.isOperator(s[i])
    ensures [s[i]] == s[i..i + 1] && NextToken(s[i..], t) == s[i..i + 1]
  {
  }

  /** At a character that is no operator, the token is the digit run the inner loop finds. */
  lemma NextTokenIsRun(s: string, i: nat, p: nat, t: Tables)
    requires Scannable(s, t) && i < |s| && !t.isOperator(s[i])
    requires i <= p <= |s|
    requires forall k :: i <= k < p ==> IsDigit(s[k])
    requires p == |s| || !IsDigit(s[p])
    ensures i < p && NextToken(s[i..], t) == s[i..p]
  {
    RunAt(s, i, p);
  }

  /** A digit run from i that ends at p, where no digit follows, is the maximal one. */
  lemma RunAt(s: string, i: nat, p: nat)
    requires i <= p <= |s|
    requires forall k :: i <= k < p ==> IsDigit(s[k])
    requires p == |s| || !IsDigit(s[p])
    ensures DigitRun(s[i..]) == p - i
    ensures s[i..][..p - i] == s[i..p]
  {
    var u := s[i..];
    assert forall k :: 0 <= k < p - i ==> IsDigit(u[k]);
    assert p - i < |u| ==> !IsDigit(u[p - i]);
  }

  /** The tokens joined together give back the line. */
  function Concat(ts: seq<string>): string
  {
    if ts == [] then "" else ts[0] + Concat(ts[1..])
  }

  /** One operator character, or a non-empty run of digits. */
  predicate WellFormedToken(tok: string, t: Tables) {
    (|tok| == 1 && t.isOperator(tok[0])) || IsDigits(tok)
  }

  /** Two digit runs are never next to each other: each run is maximal. */
  predicate NoAdjacentRuns(ts: seq<string>) {
    forall i :: 0 <= i < |ts| - 1 ==> !(IsDigits(ts[i]) && IsDigits(ts[i + 1]))
  }

  /** A splitting of s into operator tokens and maximal digit runs. */
  predicate IsSplitting(ts: seq<string>, s: string, t: Tables) {
    && Concat(ts) == s
    && (forall i :: 0 <= i < |ts| ==> WellFormedToken(ts[i], t))
    && NoAdjacentRuns(ts)
  }

  lemma {:induction false} TokensSplit(s: string, t: Tables)
    requires DigitsAreNotOperators(t)
    requires Scannable(s, t)
    ensures IsSplitting(Tokens(s, t), s, t)
    decreases |s|
  {
    if s != [] {
      var tok := NextToken(s, t);
      ScannableSuffix(s, |tok|, t);
      var rest := s[|tok|..];
      TokensSplit(rest, t);
      var ts := Tokens(s, t);
      assert ts == [tok] + Tokens(rest, t);
      assert ts[1..] == Tokens(rest, t);
      assert tok + rest == s;
      assert WellFormedToken(tok, t);
      if rest != [] {
        assert ts[1] == NextToken(rest, t);
        if IsDigits(tok) {
          assert !t.isOperator(s[0]);
          assert |tok| == DigitRun(s);
          assert rest[0] == s[|tok|];
          assert t.isOperator(rest[0]);
        }
        assert !(IsDigits(ts[0]) && IsDigits(ts[1]));
      }
      forall i | 0 <= i < |ts| - 1 ensures !(IsDigits(ts[i]) && IsDigits(ts[i + 1])) {
        if i > 0 {
          assert ts[i] == ts[1..][i - 1] && ts[i + 1] == ts[1..][i];
        }
      }
    }
  }

  /**
   * The token list is the only splitting of the line into operator tokens and
   * maximal digit runs.
   */
  lemma {:induction false} TokensUnique(ts: seq<string>, s: string, t: Tables)
    requires DigitsAreNotOperators(t)
    requires Scannable(s, t)
    requires IsSplitting(ts, s, t)
    ensures ts == Tokens(s, t)
    decreases |s|
  {
    if ts != [] {
      FirstTokenIsNext(ts, s, t);
      SplittingTail(ts, s, t);
      ScannableSuffix(s, |ts[0]|, t);
      TokensUnique(ts[1..], s[|ts[0]|..], t);
      assert ts == [ts[0]] + ts[1..];
    }
  }

  /** The first token of a splitting is the one the scan reads first. */
  lemma FirstTokenIsNext(ts: seq<string>, s: string, t: Tables)
    requires DigitsAreNotOperators(t)
    requires IsSplitting(ts, s, t) && ts != []
    ensures s != [] && ts[0] == NextToken(s, t) && s[|ts[0]|..] == Concat(ts[1..])
  {
    var tok := ts[0];
    var rest := Concat(ts[1..]);
    assert WellFormedToken(tok, t);
    assert s == tok + rest;
    assert s[..|tok|] == tok && s[|tok|..] == rest;
    if IsDigits(tok) {
      if |tok| < |s| {
        assert Concat(ts[1..]) == ts[1] + Concat(ts[2..]) by {
          assert ts[1..][0] == ts[1] && ts[1..][1..] == ts[2..];
        }
        assert !IsDigits(ts[1]);
        assert WellFormedToken(ts[1], t);
        assert ts[1][0] == s[|tok|];
        assert !IsDigit(s[|tok|]);
      }
      assert s[0] == tok[0];
      RunAt(s, 0, |tok|);
      assert s[0..] == s;
    } else {
      assert tok == [s[0]];
    }
  }

  /** What follows the first token of a splitting is a splitting of the rest. */
  lemma SplittingTail(ts: seq<string>, s: string, t: Tables)
    requires IsSplitting(ts, s, t) && ts != []
    ensures IsSplitting(ts[1..], Concat(ts[1..]), t)
  {
    forall i | 0 <= i < |ts[1..]| ensures WellFormedToken(ts[1..][i], t) {
      assert ts[1..][i] == ts[i + 1];
    }
    forall i | 0 <= i < |ts[1..]| - 1 ensures !(IsDigits(ts[1..][i]) && IsDigits(ts[1..][i + 1])) {
      assert ts[1..][i] == ts[i + 1] && ts[1..][i + 1] == ts[i + 2];
    }
  }

  /** A space inserted anywhere, even inside a number, leaves the token list alone. */
  lemma InsertedSpaceIgnored(line: string, k: nat)
    requires k <= |line|
    ensures DeleteWhitespace(line[..k] + " " + line[k..]) == DeleteWhitespace(line)
  {
    SplitAt(line, k);
    SpaceBetween(line[..k], line[k..], line);
  }

  lemma SplitAt(line: string, k: nat)
    requires k <= |line|
    ensures line[..k] + line[k..] == line
  {
  }

  lemma SpaceBetween(a: string, b: string, line: string)
    requires a + b == line
    ensures DeleteWhitespace(a + " " + b) == DeleteWhitespace(line)
  {
    DeleteWhitespaceAppend(a + " ", b);
    SpaceDeleted(a);
    DeleteWhitespaceAppend(a, b);
  }

  lemma SpaceDeleted(a: string)
    ensures DeleteWhitespace(a + " ") == DeleteWhitespace(a)
  {
    DeleteWhitespaceAppend(a, " ");
    assert " "[1..] == "";
    assert DeleteWhitespace(a) + "" == DeleteWhitespace(a);
  }

  lemma SpacesInsideNumber()
    ensures DeleteWhitespace("1 2") == "12"
    ensures Scannable("12", Extended) && Tokens("12", Extended) == ["12"]
  {
    assert "1 2"[1..] == " 2";
    assert " 2"[1..] == "2";
    assert "2"[1..] == "";
    assert DigitRun("12") == 2 by {
      assert "12"[1..] == "2";
    }
    assert !IsOperator('1');
    assert NextToken("12", Extended) == "12";
    assert "12"[2..] == "";
  }
}
