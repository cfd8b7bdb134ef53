/** Keras `pad_sequences(seqs, maxlen, padding='post', truncating='post')` with an explicit
    `maxlen` and the default pad value 0. */
module Padding {
  import opened Seqs

  /** `n` padding indices. */
  function Zeros(n: nat): (r: seq<nat>)
    ensures |r| == n && forall j :: 0 <= j < n ==> r[j] == 0
  {
    if n == 0 then [] else [0] + Zeros(n - 1)
  }

  /** Post-truncate or post-pad one row to `maxlen`. */
  function PadRow(s: seq<nat>, maxlen: nat): (r: seq<nat>)
    ensures |r| == maxlen
    ensures r[..Min(|s|, maxlen)] == s[..Min(|s|, maxlen)]
    ensures forall j :: Min(|s|, maxlen) <= j < maxlen ==> r[j] == 0
  {
    if |s| >= maxlen then s[..maxlen] else s + Zeros(maxlen - |s|)
  }

  /** Every row padded or truncated to `maxlen`: a `len(rows) x maxlen` array. */
  function PadRows(rows: seq<seq<nat>>, maxlen: nat): (r: seq<seq<nat>>)
    ensures |r| == |rows|
    ensures forall i :: 0 <= i < |rows| ==> |r[i]| == maxlen
    ensures forall i, j :: 0 <= i < |rows| && 0 <= j < maxlen ==>
      r[i][j] == (if j < |rows[i]| then rows[i][j] else 0)
  {
    if rows == [] then []
    else
      var first := PadRow(rows[0], maxlen);
      assert forall j :: 0 <= j < Min(|rows[0]|, maxlen) ==> first[j] == first[..Min(|rows[0]|, maxlen)][j];
      [first] + PadRows(rows[1..], maxlen)
  }

  /** Padding an already padded array changes nothing. */
  lemma PadRowsIdempotent(rows: seq<seq<nat>>, maxlen: nat)
    ensures PadRows(PadRows(rows, maxlen), maxlen) == PadRows(rows, maxlen)
  {
    var once := PadRows(rows, maxlen);
    var twice := PadRows(once, maxlen);
    forall i | 0 <= i < |rows|
      ensures twice[i] == once[i]
    {
      assert forall j :: 0 <= j < maxlen ==> twice[i][j] == once[i][j];
    }
  }

  /** A row no longer than `maxlen` is the prefix of its padded row; the rest is padding. */
  lemma PadRowsRecoverable(rows: seq<seq<nat>>, maxlen: nat, i: nat)
    requires i < |rows| && |rows[i]| <= maxlen
    ensures PadRows(rows, maxlen)[i][..|rows[i]|] == rows[i]
  {
    var padded := PadRows(rows, maxlen)[i];
    assert forall j :: 0 <= j < |rows[i]| ==> padded[..|rows[i]|][j] == rows[i][j];
  }
}
