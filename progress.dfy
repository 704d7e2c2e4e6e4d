/**
 * Specification of what a progress emitter writes: a run with total `total`
 * that is not interrupted writes the records value=1..total, each carrying
 * the same total; an interrupted run writes a prefix of that.
 */
module Progress {
  import opened Channel

  /** The first `n` records of a run with the given total: values 1..n in order. */
  function Ramp(n: nat, total: int): (r: seq<Message>)
    ensures |r| == n
    ensures forall i :: 0 <= i < n ==> r[i] == Progress(i + 1, total)
  {
    if n == 0 then [] else Ramp(n - 1, total) + [Progress(n, total)]
  }

  /** What one run may have written: a prefix of the complete run. */
  ghost predicate IsRunPrefix(out: seq<Message>, total: nat)
  {
    out <= Ramp(total, total)
  }

  /** A shorter run is a prefix of a longer one with the same total. */
  lemma RampPrefix(k: nat, n: nat, total: int)
    requires k <= n
    ensures Ramp(k, total) <= Ramp(n, total)
  {
  }

  /**
   * The outputs admitted as a run are exactly the ramps of length at most
   * `total`: no value is repeated or skipped, and every record carries `total`.
   */
  lemma RunPrefixIsRamp(out: seq<Message>, total: nat)
    ensures IsRunPrefix(out, total) <==> |out| <= total && out == Ramp(|out|, total)
  {
  }

  /** Concatenation of the outputs of consecutive runs. */
  function Flatten(runs: seq<seq<Message>>): (r: seq<Message>)
  {
    if runs == [] then [] else Flatten(runs[..|runs| - 1]) + runs[|runs| - 1]
  }

  /** Appending a run appends its output: earlier output is never rewritten. */
  lemma FlattenSnoc(runs: seq<seq<Message>>, run: seq<Message>)
    ensures Flatten(runs + [run]) == Flatten(runs) + run
  {
  }

  /** `n` back-to-back copies of `s`. */
  function Repeat<T>(s: seq<T>, n: nat): (r: seq<T>)
    ensures |r| == n * |s|
  {
    if n == 0 then [] else Repeat(s, n - 1) + s
  }

  /** m copies followed by n copies are m + n copies. */
  lemma {:induction false} RepeatAdd<T>(s: seq<T>, m: nat, n: nat)
    ensures Repeat(s, m + n) == Repeat(s, m) + Repeat(s, n)
  {
    if n > 0 {
      RepeatAdd(s, m, n - 1);
    }
  }

  /** Copy number `k` of `s` sits, whole and unmixed, at offset `k * |s|`. */
  lemma {:induction false} RepeatBlock<T>(s: seq<T>, n: nat, k: nat)
    requires k < n
    ensures (k + 1) * |s| <= |Repeat(s, n)|
    ensures Repeat(s, n)[k * |s| .. (k + 1) * |s|] == s
  {
    var prev := Repeat(s, n - 1);
    assert Repeat(s, n) == prev + s;
    if k == n - 1 {
      assert |prev| == k * |s|;
    } else {
      RepeatBlock(s, n - 1, k);
      assert (k + 1) * |s| <= |prev|;
      assert (prev + s)[k * |s| .. (k + 1) * |s|] == prev[k * |s| .. (k + 1) * |s|];
    }
  }
}
