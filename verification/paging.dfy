/** The page list `nextPage` rotates through, and the arithmetic of its
    cursor. */
module Paging {
  import opened JsText

  /** Every element of `xs` trimmed. */
  function TrimEach(xs: seq<string>): (trimmed: seq<string>) {
    seq(|xs|, i requires 0 <= i < |xs| => Trim(xs[i]))
  }

  /** The pages one fragment contributes: its pieces, each trimmed. */
  function Pieces(fragment: string): (pages: seq<string>) {
    TrimEach(Split(fragment))
  }

  /** How many pages a fragment list yields: one per delimiter, plus one
      per fragment. */
  function PieceCount(rpcInfo: seq<string>): (n: nat)
    ensures n >= |rpcInfo|
  {
    if rpcInfo == [] then 0 else |Delimiters(rpcInfo[0])| + 1 + PieceCount(rpcInfo[1..])
  }

  /** The page list of `nextPage`, fragment by fragment. */
  function Pages(rpcInfo: seq<string>): (pages: seq<string>)
    ensures |pages| == PieceCount(rpcInfo)
  {
    if rpcInfo == [] then [] else Pieces(rpcInfo[0]) + Pages(rpcInfo[1..])
  }

  function Flatten(xss: seq<seq<string>>): (flat: seq<string>) {
    if xss == [] then [] else xss[0] + Flatten(xss[1..])
  }

  function SplitEach(rpcInfo: seq<string>): (parts: seq<seq<string>>) {
    seq(|rpcInfo|, i requires 0 <= i < |rpcInfo| => Split(rpcInfo[i]))
  }

  /** `Pages` is the pipeline `rpcInfo.map(split).flat().map(trim)` as
      written: splitting all, flattening, then trimming every piece. */
  lemma {:induction false} PagesIsPipeline(rpcInfo: seq<string>)
    ensures Pages(rpcInfo) == TrimEach(Flatten(SplitEach(rpcInfo)))
  {
    if rpcInfo != [] {
      PagesIsPipeline(rpcInfo[1..]);
      var parts := SplitEach(rpcInfo);
      assert parts[1..] == SplitEach(rpcInfo[1..]);
      var rest := Flatten(parts[1..]);
      assert Flatten(parts) == Split(rpcInfo[0]) + rest;
      assert TrimEach(Split(rpcInfo[0]) + rest) == TrimEach(Split(rpcInfo[0])) + TrimEach(rest);
    }
  }

  /** The page list of three fragments is the pages of each, in order. */
  lemma PagesOfThree(a: string, b: string, c: string)
    ensures Pages([a, b, c]) == Pieces(a) + Pieces(b) + Pieces(c)
  {
    assert [a, b, c][1..] == [b, c];
    assert [b, c][1..] == [c];
    assert [c][1..] == [];
    assert Pages([c]) == Pieces(c) + Pages([]) == Pieces(c);
    assert Pages([b, c]) == Pieces(b) + Pieces(c);
  }

  /** Three fragments make as many pages as they have pieces together. */
  lemma PageCountOfThree(a: string, b: string, c: string)
    ensures |Pages([a, b, c])| == |Split(a)| + |Split(b)| + |Split(c)|
  {
    PagesOfThree(a, b, c);
  }

  /** One advance of the cursor over `count` pages. */
  function Step(cursor: nat, count: nat): (next: nat)
    requires count > 0
    ensures next < count
  {
    (cursor + 1) % count
  }

  /** The cursor after `steps` calls of `nextPage` on lists of `count` pages. */
  function Advanced(cursor: nat, count: nat, steps: nat): (moved: nat)
    requires count > 0
    ensures steps > 0 ==> moved < count
  {
    if steps == 0 then cursor else Step(Advanced(cursor, count, steps - 1), count)
  }

  lemma {:induction false} MulAtLeast(k: nat, n: nat)
    requires k >= 1
    ensures k * n >= n
  {
    if k > 1 {
      MulAtLeast(k - 1, n);
      assert k * n == (k - 1) * n + n;
    }
  }

  lemma MulBound(k: int, n: int)
    requires n >= 0
    ensures k >= 1 ==> k * n >= n
    ensures k <= -1 ==> k * n <= -n
  {
    if k >= 1 {
      MulAtLeast(k, n);
    } else if k <= -1 {
      MulAtLeast(-k, n);
      assert (-k) * n == -(k * n);
    }
  }

  /** A multiple of `n` strictly between `-n` and `n` is zero. */
  lemma SmallMultiple(k: int, n: int)
    requires n > 0 && -n < k * n < n
    ensures k == 0
  {
    MulBound(k, n);
  }

  lemma DivModUnique(x: int, n: int, q: int, r: int)
    requires n > 0 && 0 <= r < n && x == q * n + r
    ensures x % n == r
  {
    var q', r' := x / n, x % n;
    assert (q - q') * n == r' - r;
    SmallMultiple(q - q', n);
  }

  lemma ModSucc(a: nat, n: nat)
    requires n > 0
    ensures (a % n + 1) % n == (a + 1) % n
  {
    var q, r := a / n, a % n;
    if r + 1 < n {
      DivModUnique(a + 1, n, q, r + 1);
      DivModUnique(r + 1, n, 0, r + 1);
    } else {
      DivModUnique(a + 1, n, q + 1, 0);
      DivModUnique(r + 1, n, 1, 0);
    }
  }

  /** Advancing one step at a time `steps` times moves the cursor by
      `steps` modulo the page count: from any cursor in range, and, once a
      step is taken, from a cursor left over from a longer page list. */
  lemma {:induction false} AdvancedIsModularSum(cursor: nat, count: nat, steps: nat)
    requires count > 0
    requires cursor < count || steps > 0
    ensures Advanced(cursor, count, steps) == (cursor + steps) % count
  {
    if steps > 1 {
      AdvancedIsModularSum(cursor, count, steps - 1);
      var before := cursor + steps - 1;
      ModSucc(before, count);
      assert before + 1 == cursor + steps;
      assert Advanced(cursor, count, steps) == (Advanced(cursor, count, steps - 1) + 1) % count;
    }
  }
}
