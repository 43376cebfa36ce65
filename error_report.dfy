/** `unroll_anyhow_result`: renders an error's context chain, one indented line per cause. */
module ErrorReport {

  /** `"\t".repeat(n)`. */
  function Tabs(n: nat): string
  {
    seq(n, _ => '\t')
  }

  /** The line written for the cause at `depth`: one tab per level, the message, a newline. */
  function Line(depth: nat, message: string): string
  {
    Tabs(depth) + message + "\n"
  }

  /** The report for a whole chain (outermost context first). */
  function Unrolled(chain: seq<string>): string
    decreases |chain|
  {
    if chain == [] then ""
    else Unrolled(chain[..|chain| - 1]) + Line(|chain| - 1, chain[|chain| - 1])
  }

  /** Where line `i` starts: the sum over the earlier causes `j` of `j + |chain[j]| + 1`. */
  function Offset(chain: seq<string>, i: nat): nat
    requires i <= |chain|
  {
    if i == 0 then 0 else Offset(chain, i - 1) + (i - 1) + |chain[i - 1]| + 1
  }

  /** The loop of `unroll_anyhow_result`: append one line per enumerated cause. */
  method Unroll(chain: seq<string>) returns (res: string)
    ensures res == Unrolled(chain)
  {
    res := "";
    for i := 0 to |chain|
      invariant res == Unrolled(chain[..i])
    {
      assert chain[..i + 1][..i] == chain[..i];
      res := res + Tabs(i) + chain[i] + "\n";
    }
    assert chain[..|chain|] == chain;
  }

  lemma {:induction false} OffsetOfPrefix(chain: seq<string>, k: nat, i: nat)
    requires i <= k <= |chain|
    ensures Offset(chain[..k], i) == Offset(chain, i)
  {
    if i > 0 {
      OffsetOfPrefix(chain, k, i - 1);
    }
  }

  /** The report of a chain is exactly as long as the sum of its line lengths. */
  lemma {:induction false} UnrolledLength(chain: seq<string>)
    ensures |Unrolled(chain)| == Offset(chain, |chain|)
  {
    if chain != [] {
      var n := |chain|;
      UnrolledLength(chain[..n - 1]);
      OffsetOfPrefix(chain, n - 1, n - 1);
    }
  }

  /** The report of a prefix of the chain is a prefix of the report. */
  lemma {:induction false} PrefixReport(chain: seq<string>, k: nat)
    requires k <= |chain|
    ensures Unrolled(chain[..k]) <= Unrolled(chain)
    decreases |chain| - k
  {
    if k < |chain| {
      assert chain[..k + 1][..k] == chain[..k];
      PrefixReport(chain, k + 1);
    } else {
      assert chain[..k] == chain;
    }
  }

  /** The lines of the report, in chain order: for every cause `i`, the text between
      `Offset(chain, i)` and `Offset(chain, i + 1)` is `i` tabs, the message and a newline. */
  lemma LineAt(chain: seq<string>, i: nat)
    requires i < |chain|
    ensures Offset(chain, i + 1) <= |Unrolled(chain)|
    ensures Unrolled(chain)[Offset(chain, i)..Offset(chain, i + 1)] == Tabs(i) + chain[i] + "\n"
  {
    var pre, cur := chain[..i], chain[..i + 1];
    assert cur[..i] == pre;
    assert Unrolled(cur) == Unrolled(pre) + Line(i, chain[i]);
    UnrolledLength(pre);
    OffsetOfPrefix(chain, i, i);
    PrefixReport(chain, i + 1);
  }

  /** An empty chain renders as the empty string. */
  lemma EmptyChain()
    ensures Unrolled([]) == ""
  {
  }

  /** The first line carries no leading tab: it is the outermost message and a newline. */
  lemma FirstLine(chain: seq<string>)
    requires |chain| > 0
    ensures |chain[0]| + 1 <= |Unrolled(chain)|
    ensures Unrolled(chain)[..|chain[0]| + 1] == chain[0] + "\n"
  {
    LineAt(chain, 0);
  }
}
