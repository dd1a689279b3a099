/**
 * Threshold secret sharing: split, combine, and the two halves of what a
 * threshold means. Any t distinct dealt shares give the secret back; any t - 1
 * are explained by every secret, each by exactly one choice of coefficients.
 * The random coefficients are an input of Split.
 */
module Shamir {
  import opened Options
  import opened GF256
  import opened Poly
  import opened Merkle

  const MAX_SHARES: U8 := 250

  datatype Error = Params | Threshold(required: U8, got: nat) | LengthMismatch

  datatype Result<T> = Ok(value: T) | Err(error: Error)

  datatype SplitResult = SplitResult(shares: seq<Share>, commitments: Commitments)

  type Coefficients = seq<seq<Elem>>

  predicate Shaped(coeffs: Coefficients, columns: nat, t: nat) {
    |coeffs| == columns && forall c :: 0 <= c < columns ==> |coeffs[c]| + 1 == t
  }

  /** Column c of the share at position x: the polynomial with constant term
      secret[c] evaluated at x. */
  function Column(secret: Bytes, coeffs: Coefficients, x: Elem, c: nat): Elem
    requires c < |secret| == |coeffs|
  {
    Eval([secret[c]] + coeffs[c], x)
  }

  function Dealt(secret: Bytes, coeffs: Coefficients, i: U8): Share
    requires |coeffs| == |secret|
  {
    Share(i, seq(|secret|, c requires 0 <= c < |secret| => Column(secret, coeffs, Point(i), c)))
  }

  // ---- split -----------------------------------------------------------------

  /** The inner loop of split: powers of x are accumulated beside the sum. */
  method EvalColumn(secretByte: Elem, coeffs: seq<Elem>, x: Elem) returns (acc: Elem)
    ensures acc == Eval([secretByte] + coeffs, x)
  {
    hide Xor, Mul;
    acc := secretByte;
    var xp := x;
    assert ([secretByte] + coeffs)[1..] == coeffs;
    for k := 0 to |coeffs|
      invariant Xor(acc, Mul(xp, Eval(coeffs[k..], x))) == Eval([secretByte] + coeffs, x)
    {
      var rest := Eval(coeffs[k + 1..], x);
      assert coeffs[k..][1..] == coeffs[k + 1..];
      MulXor(coeffs[k], Mul(x, rest), xp);
      MulAssoc(xp, x, rest);
      XorAssoc(acc, Mul(xp, coeffs[k]), Mul(Mul(xp, x), rest));
      MulComm(xp, coeffs[k]);
      var term := GfMul(coeffs[k], xp);
      acc := Xor(acc, term);
      xp := GfMul(xp, x);
    }
    MulZero(xp);
    XorZero(acc);
  }

  method Split(h: Hash, secret: Bytes, threshold: U8, shares: U8, coeffs: Coefficients)
    returns (r: Result<SplitResult>)
    requires Shaped(coeffs, |secret|, threshold)
    ensures r.Err? <==> threshold < 2 || shares < threshold || shares > MAX_SHARES
    ensures r.Err? ==> r == Err(Params)
    ensures r.Ok? ==>
      && |r.value.shares| == shares
      && (forall i :: 0 <= i < shares ==> r.value.shares[i] == Dealt(secret, coeffs, i + 1))
      && Commits(h, r.value.shares, r.value.commitments)
  {
    hide Eval, Point;
    if threshold < 2 || shares < threshold || shares > MAX_SHARES {
      return Err(Params);
    }
    var holder := new Bytes[shares](_ => []);
    for c := 0 to |secret|
      invariant forall i :: 0 <= i < holder.Length ==> holder[i] == Dealt(secret, coeffs, i + 1).data[..c]
    {
      for pos := 0 to holder.Length
        invariant forall i :: 0 <= i < holder.Length ==>
          holder[i] == Dealt(secret, coeffs, i + 1).data[..if i < pos then c + 1 else c]
      {
        var y := EvalColumn(secret[c], coeffs[c], Point(pos + 1));
        holder[pos] := holder[pos] + [y];
      }
    }
    var dealt: seq<Share> := [];
    for pos := 0 to holder.Length
      invariant |dealt| == pos
      invariant forall i :: 0 <= i < pos ==> dealt[i] == Dealt(secret, coeffs, i + 1)
    {
      dealt := dealt + [Share(pos + 1, holder[pos])];
    }
    var commitments := NewCommitments(h, dealt);
    r := Ok(SplitResult(dealt, commitments));
  }

  // ---- combine ----------------------------------------------------------------

  /** Stable insertion: a share goes in front of later shares with its index. */
  function InsertByIndex(s: Share, sorted: seq<Share>): seq<Share> {
    if sorted == [] || s.index <= sorted[0].index then [s] + sorted
    else [sorted[0]] + InsertByIndex(s, sorted[1..])
  }

  function SortByIndex(shares: seq<Share>): seq<Share> {
    if shares == [] then [] else InsertByIndex(shares[0], SortByIndex(shares[1..]))
  }

  /** Of consecutive shares with one index, keep the first. */
  function DedupByIndex(shares: seq<Share>): seq<Share>
    decreases |shares|
  {
    if |shares| <= 1 then shares
    else if shares[0].index == shares[1].index then DedupByIndex([shares[0]] + shares[2..])
    else [shares[0]] + DedupByIndex(shares[1..])
  }

  function Candidates(shares: seq<Share>): seq<Share> {
    DedupByIndex(SortByIndex(shares))
  }

  function Points(chosen: seq<Share>): seq<Elem> {
    seq(|chosen|, i requires 0 <= i < |chosen| => Point(chosen[i].index))
  }

  function ColumnOf(chosen: seq<Share>, col: nat): seq<Elem>
    requires forall s :: s in chosen ==> col < |s.data|
  {
    seq(|chosen|, i requires 0 <= i < |chosen| => chosen[i].data[col])
  }

  predicate InRange(shares: seq<Share>) {
    forall s :: s in shares ==> 1 <= s.index <= MAX_SHARES
  }

  predicate SameLength(chosen: seq<Share>) {
    chosen != [] ==> forall s :: s in chosen ==> |s.data| == |chosen[0].data|
  }

  /** What combine computes: the error cases in order, else Lagrange at 0 in every
      column over the t shares with the lowest indices. */
  function Combined(shares: seq<Share>, threshold: U8): Result<Bytes> {
    if threshold < 2 then Err(Params)
    else if |shares| < threshold then Err(Threshold(threshold, |shares|))
    else if !InRange(shares) then Err(Params)
    else if |Candidates(shares)| < threshold then Err(Threshold(threshold, |shares|))
    else
      var chosen := Candidates(shares)[..threshold];
      if !SameLength(chosen) then Err(LengthMismatch)
      else Ok(Columns(chosen))
  }

  /** The weight of share i, with the numerator and denominator of the inner loop. */
  method LagrangeWeight(chosen: seq<Share>, i: nat) returns (li: Elem)
    requires i < |chosen|
    requires Distinct(Points(chosen))
    ensures li == WeightAtZero(Points(chosen), i)
  {
    hide Xor, Mul, Point, Inverse;
    ghost var xs := Points(chosen);
    var xi := Point(chosen[i].index);
    var num, den := One, One;
    for j := 0 to |chosen|
      invariant num == Product(xs, i, Zero, j)
      invariant den == Product(xs, i, xi, j)
    {
      if i != j {
        var xj := Point(chosen[j].index);
        XorZero(xj);
        num := GfMul(num, xj);
        den := GfMul(den, Xor(xj, xi));
      }
    }
    ProductNonzero(xs, i, |xs|);
    var inv := GfInv(den);
    li := GfMul(num, inv);
  }

  function Columns(chosen: seq<Share>): Bytes
    requires chosen != [] && SameLength(chosen)
  {
    seq(|chosen[0].data|, col requires 0 <= col < |chosen[0].data| =>
      WeightedSum(Points(chosen), ColumnOf(chosen, col), |chosen|))
  }

  method CombineColumns(chosen: seq<Share>) returns (out: Bytes)
    requires chosen != [] && SameLength(chosen) && Distinct(Points(chosen))
    ensures out == Columns(chosen)
  {
    hide Xor, Mul, Point, WeightAtZero;
    out := [];
    for col := 0 to |chosen[0].data|
      invariant out == Columns(chosen)[..col]
    {
      var acc := Zero;
      for i := 0 to |chosen|
        invariant acc == WeightedSum(Points(chosen), ColumnOf(chosen, col), i)
      {
        var li := LagrangeWeight(chosen, i);
        var term := GfMul(chosen[i].data[col], li);
        acc := Xor(acc, term);
      }
      out := out + [acc];
    }
  }

  method Combine(shares: seq<Share>, threshold: U8) returns (r: Result<Bytes>)
    ensures r == Combined(shares, threshold)
    ensures r.Ok? <==>
              && threshold >= 2 && (forall s :: s in shares ==> 1 <= s.index <= 250)
              && |Indices(shares)| >= threshold && UsedAlike(shares, threshold)
    ensures r == Err(Params) <==>
              threshold < 2 || (|shares| >= threshold && exists s :: s in shares && !(1 <= s.index <= 250))
    ensures r == Err(Threshold(threshold, |shares|)) <==>
              && threshold >= 2
              && (|shares| < threshold || ((forall s :: s in shares ==> 1 <= s.index <= 250) && |Indices(shares)| < threshold))
    ensures r.Ok? ==> Interpolates(shares, threshold, r.value)
    ensures r.Err? ==> r.error in {Params, Threshold(threshold, |shares|), LengthMismatch}
  {
    hide Candidates, Columns, Points, Indices, UsedAlike, Interpolates;
    CombinedMeans(shares, threshold);
    if threshold < 2 {
      return Err(Params);
    }
    if |shares| < threshold {
      return Err(Threshold(threshold, |shares|));
    }
    if !InRange(shares) {
      return Err(Params);
    }
    var chosen := Candidates(shares);
    if |chosen| < threshold {
      return Err(Threshold(threshold, |shares|));
    }
    CandidatesIncrease(shares);
    chosen := chosen[..threshold];
    IncreasingPointsDistinct(chosen);
    if !SameLength(chosen) {
      return Err(LengthMismatch);
    }
    var out := CombineColumns(chosen);
    r := Ok(out);
  }

  // ---- what a combination takes, and when it refuses ------------------------------

  function Lower(shares: seq<Share>, i: int): set<int> {
    set j | j in Indices(shares) && j < i
  }

  /** The share at position k counts: it is the first with its index, and its index is among
      the t lowest. */
  predicate Used(shares: seq<Share>, t: nat, k: nat) {
    && k < |shares|
    && (forall j :: 0 <= j < k ==> shares[j].index != shares[k].index)
    && |Lower(shares, shares[k].index)| < t
  }

  ghost predicate UsedAlike(shares: seq<Share>, t: nat) {
    forall j: nat, k: nat :: Used(shares, t, j) && Used(shares, t, k) ==> |shares[j].data| == |shares[k].data|
  }

  /** A polynomial through byte `col` of every share that counts. */
  ghost predicate Explains(p: Polynomial, shares: seq<Share>, t: nat, col: nat) {
    forall k: nat :: Used(shares, t, k) ==> col < |shares[k].data| && Eval(p, Point(shares[k].index)) == shares[k].data[col]
  }

  /** As long as the shares that count, and in each column the value at zero of every
      polynomial with t coefficients through them (there is exactly one). */
  ghost predicate Interpolates(shares: seq<Share>, t: nat, value: Bytes) {
    && (forall k: nat :: Used(shares, t, k) ==> |shares[k].data| == |value|)
    && forall p: Polynomial, col: nat :: |p| == t > 0 && col < |value| && Explains(p, shares, t, col) ==> value[col] == p[0]
  }

  function FirstOf(shares: seq<Share>, i: int): Option<Share> {
    if shares == [] then None else if shares[0].index == i then Some(shares[0]) else FirstOf(shares[1..], i)
  }

  lemma {:induction false} FirstInserted(s: Share, sorted: seq<Share>, i: int)
    ensures FirstOf(InsertByIndex(s, sorted), i) == if s.index == i then Some(s) else FirstOf(sorted, i)
  {
    if !(sorted == [] || s.index <= sorted[0].index) {
      FirstInserted(s, sorted[1..], i);
    }
  }

  lemma {:induction false} FirstSorted(shares: seq<Share>, i: int)
    ensures FirstOf(SortByIndex(shares), i) == FirstOf(shares, i)
  {
    if shares != [] {
      FirstSorted(shares[1..], i);
      FirstInserted(shares[0], SortByIndex(shares[1..]), i);
    }
  }

  lemma {:induction false} FirstDeduped(shares: seq<Share>, i: int)
    ensures FirstOf(DedupByIndex(shares), i) == FirstOf(shares, i)
    decreases |shares|
  {
    if |shares| > 1 {
      if shares[0].index == shares[1].index {
        FirstDeduped([shares[0]] + shares[2..], i);
        assert shares[1..][1..] == shares[2..];
      } else {
        FirstDeduped(shares[1..], i);
      }
    }
  }

  lemma {:induction false} FirstIncreasing(shares: seq<Share>, k: nat)
    requires Increasing(shares) && k < |shares|
    ensures FirstOf(shares, shares[k].index) == Some(shares[k])
  {
    if k > 0 {
      FirstIncreasing(shares[1..], k - 1);
    }
  }

  lemma {:induction false} FirstIsAt(shares: seq<Share>, k: nat)
    requires k < |shares| && forall j :: 0 <= j < k ==> shares[j].index != shares[k].index
    ensures FirstOf(shares, shares[k].index) == Some(shares[k])
  {
    if k > 0 {
      FirstIsAt(shares[1..], k - 1);
    }
  }

  lemma {:induction false} FirstPosition(shares: seq<Share>, i: int) returns (k: nat)
    requires FirstOf(shares, i).Some?
    ensures k < |shares| && FirstOf(shares, i) == Some(shares[k]) && shares[k].index == i
    ensures forall j :: 0 <= j < k ==> shares[j].index != i
  {
    if shares[0].index == i {
      k := 0;
    } else {
      var rest := FirstPosition(shares[1..], i);
      k := rest + 1;
    }
  }

  /** In an increasing list the lower indices are those in front. */
  lemma LowerInFront(c: seq<Share>, k: nat)
    requires Increasing(c) && k < |c|
    ensures |Lower(c, c[k].index)| == k
  {
    IncreasingCardinality(c[..k]);
    forall j | j in Lower(c, c[k].index) ensures j in Indices(c[..k]) {
      var m :| 0 <= m < |c| && c[m].index == j;
      assert c[..k][m] == c[m];
    }
    forall j | j in Indices(c[..k]) ensures j in Lower(c, c[k].index) {
      var m :| 0 <= m < k && c[..k][m].index == j;
      assert c[m] in c;
    }
    assert Lower(c, c[k].index) == Indices(c[..k]);
  }

  /** The candidates are the first shares of their indices, ranked by them. */
  lemma CandidateRank(shares: seq<Share>, k: nat)
    requires k < |Candidates(shares)|
    ensures FirstOf(shares, Candidates(shares)[k].index) == Some(Candidates(shares)[k])
    ensures |Lower(shares, Candidates(shares)[k].index)| == k
  {
    hide FirstOf, Indices, Increasing, SortByIndex, DedupByIndex;
    var c := Candidates(shares);
    CandidatesIncrease(shares);
    FirstIncreasing(c, k);
    FirstDeduped(SortByIndex(shares), c[k].index);
    FirstSorted(shares, c[k].index);
    LowerInFront(c, k);
    assert Lower(shares, c[k].index) == Lower(c, c[k].index);
  }

  lemma UsedIsCandidate(shares: seq<Share>, t: nat, k: nat) returns (m: nat)
    requires Used(shares, t, k)
    ensures m < t && m < |Candidates(shares)| && Candidates(shares)[m] == shares[k]
  {
    hide Candidates, FirstOf;
    CandidatesIncrease(shares);
    assert shares[k].index in Indices(Candidates(shares));
    m :| 0 <= m < |Candidates(shares)| && Candidates(shares)[m].index == shares[k].index;
    CandidateRank(shares, m);
    FirstIsAt(shares, k);
  }

  lemma CandidateIsUsed(shares: seq<Share>, t: nat, m: nat) returns (k: nat)
    requires m < t && m < |Candidates(shares)|
    ensures Used(shares, t, k) && shares[k] == Candidates(shares)[m]
  {
    hide Candidates, FirstOf;
    CandidateRank(shares, m);
    k := FirstPosition(shares, Candidates(shares)[m].index);
  }

  lemma ChosenAlike(shares: seq<Share>, t: nat)
    requires 0 < t <= |Candidates(shares)|
    ensures SameLength(Candidates(shares)[..t]) <==> UsedAlike(shares, t)
    ensures UsedAlike(shares, t) ==> forall k: nat :: Used(shares, t, k) ==> |shares[k].data| == |Candidates(shares)[0].data|
  {
    hide Candidates, Lower;
    var c := Candidates(shares)[..t];
    if SameLength(c) {
      forall j: nat, k: nat | Used(shares, t, j) && Used(shares, t, k) ensures |shares[j].data| == |shares[k].data| {
        var m := UsedIsCandidate(shares, t, j);
        var n := UsedIsCandidate(shares, t, k);
        assert c[m] in c && c[n] in c;
      }
    }
    var first := CandidateIsUsed(shares, t, 0);
    if UsedAlike(shares, t) {
      forall s | s in c ensures |s.data| == |c[0].data| {
        var m :| 0 <= m < |c| && c[m] == s;
        var k := CandidateIsUsed(shares, t, m);
      }
    }
  }

  lemma CombinedInterpolates(shares: seq<Share>, t: U8, p: Polynomial, col: nat)
    requires Combined(shares, t).Ok? && |p| == t as int && col < |Combined(shares, t).value| && Explains(p, shares, t, col)
    ensures Combined(shares, t).value[col] == p[0]
  {
    hide Candidates, Used, Eval, Point, WeightedSum;
    var c := Candidates(shares)[..t];
    CandidatesIncrease(shares);
    IncreasingPointsDistinct(c);
    forall m | 0 <= m < |c| ensures ColumnOf(c, col)[m] == Eval(p, Points(c)[m]) {
      var k := CandidateIsUsed(shares, t, m);
    }
    LagrangeAtZero(p, Points(c), ColumnOf(c, col));
  }

  /** The answer in terms of the shares alone. */
  lemma CombinedMeans(shares: seq<Share>, t: U8)
    ensures var r := Combined(shares, t);
            && (r.Ok? <==>
                  && t >= 2 && (forall s :: s in shares ==> 1 <= s.index <= 250)
                  && |Indices(shares)| >= t && UsedAlike(shares, t))
            && (r == Err(Params) <==> t < 2 || (|shares| >= t && exists s :: s in shares && !(1 <= s.index <= 250)))
            && (r == Err(Threshold(t, |shares|)) <==>
                  t >= 2 && (|shares| < t || ((forall s :: s in shares ==> 1 <= s.index <= 250) && |Indices(shares)| < t)))
            && (r.Ok? ==> Interpolates(shares, t, r.value))
            && (r.Err? ==> r.error in {Params, Threshold(t, |shares|), LengthMismatch})
  {
    hide Candidates, Used, Eval, Point, Explains, UsedAlike, WeightedSum;
    CandidatesIncrease(shares);
    IncreasingCardinality(Candidates(shares));
    IndicesBound(shares);
    if 2 <= t as int <= |Candidates(shares)| {
      ChosenAlike(shares, t);
    }
    if Combined(shares, t).Ok? {
      var r := Combined(shares, t).value;
      forall p: Polynomial, col: nat | |p| == t as int && col < |r| && Explains(p, shares, t, col) ensures r[col] == p[0] {
        CombinedInterpolates(shares, t, p, col);
      }
    }
  }

  // ---- sorting and deduplication ------------------------------------------------

  predicate Ordered(shares: seq<Share>) {
    forall i, j :: 0 <= i < j < |shares| ==> shares[i].index <= shares[j].index
  }

  predicate Increasing(shares: seq<Share>) {
    forall i, j :: 0 <= i < j < |shares| ==> shares[i].index < shares[j].index
  }

  function Indices(shares: seq<Share>): set<int> {
    set s | s in shares :: s.index
  }

  lemma {:induction false} InsertOrdered(s: Share, sorted: seq<Share>)
    requires Ordered(sorted)
    ensures Ordered(InsertByIndex(s, sorted))
    ensures forall t :: t in InsertByIndex(s, sorted) <==> t == s || t in sorted
  {
    if sorted == [] || s.index <= sorted[0].index {
    } else {
      InsertOrdered(s, sorted[1..]);
      var rest := InsertByIndex(s, sorted[1..]);
      assert sorted == [sorted[0]] + sorted[1..];
      forall t | t in rest
        ensures sorted[0].index <= t.index
      {
      }
      assert forall j :: 0 <= j < |rest| ==> rest[j] in rest;
    }
  }

  lemma {:induction false} SortOrdered(shares: seq<Share>)
    ensures Ordered(SortByIndex(shares))
    ensures forall t :: t in SortByIndex(shares) <==> t in shares
  {
    if shares != [] {
      SortOrdered(shares[1..]);
      InsertOrdered(shares[0], SortByIndex(shares[1..]));
      assert shares == [shares[0]] + shares[1..];
    }
  }

  lemma {:induction false} DedupIncreasing(shares: seq<Share>)
    requires Ordered(shares)
    ensures Increasing(DedupByIndex(shares))
    ensures Indices(DedupByIndex(shares)) == Indices(shares)
    decreases |shares|
  {
    if |shares| <= 1 {
    } else if shares[0].index == shares[1].index {
      DropSecond(shares);
      DedupIncreasing([shares[0]] + shares[2..]);
    } else {
      var tail := shares[1..];
      DedupIncreasing(tail);
      DedupKeeps(tail);
      assert shares == [shares[0]] + tail;
      PrependSmallest(shares[0], DedupByIndex(tail), tail);
      IndicesOfCons(shares[0], tail);
    }
  }

  lemma PrependSmallest(s: Share, rest: seq<Share>, tail: seq<Share>)
    requires Increasing(rest) && Ordered([s] + tail)
    requires tail != [] && s.index < tail[0].index
    requires forall t :: t in rest ==> t in tail
    ensures Increasing([s] + rest)
    ensures Indices([s] + rest) == {s.index} + Indices(rest)
  {
    forall j | 0 <= j < |rest|
      ensures s.index < rest[j].index
    {
      assert rest[j] in tail;
      var k :| 0 <= k < |tail| && tail[k] == rest[j];
      assert ([s] + tail)[k + 1] == tail[k] && ([s] + tail)[1] == tail[0];
    }
    IndicesOfCons(s, rest);
  }

  lemma IndicesOfCons(s: Share, rest: seq<Share>)
    ensures Indices([s] + rest) == {s.index} + Indices(rest)
  {
    assert forall t :: t in [s] + rest <==> t == s || t in rest;
  }

  lemma {:induction false} DedupKeeps(shares: seq<Share>)
    ensures forall t :: t in DedupByIndex(shares) ==> t in shares
    decreases |shares|
  {
    if |shares| > 1 {
      if shares[0].index == shares[1].index {
        DedupKeeps([shares[0]] + shares[2..]);
      } else {
        DedupKeeps(shares[1..]);
      }
    }
  }

  lemma DropSecond(shares: seq<Share>)
    requires |shares| >= 2 && shares[0].index == shares[1].index && Ordered(shares)
    ensures var fewer := [shares[0]] + shares[2..];
            Ordered(fewer) && Indices(fewer) == Indices(shares)
  {
    var fewer := [shares[0]] + shares[2..];
    forall t | t in shares
      ensures t.index in Indices(fewer)
    {
      if t !in fewer {
        assert t == shares[1];
        assert shares[0] in fewer;
      }
    }
  }

  lemma CandidatesIncrease(shares: seq<Share>)
    ensures Increasing(Candidates(shares))
    ensures forall t :: t in Candidates(shares) ==> t in shares
    ensures Indices(Candidates(shares)) == Indices(shares)
  {
    SortOrdered(shares);
    DedupIncreasing(SortByIndex(shares));
    DedupKeeps(SortByIndex(shares));
  }

  lemma {:induction false} IncreasingCardinality(shares: seq<Share>)
    requires Increasing(shares)
    ensures |Indices(shares)| == |shares|
  {
    if shares != [] {
      var last := shares[|shares| - 1];
      var front := shares[..|shares| - 1];
      IncreasingCardinality(front);
      assert shares == front + [last];
      assert Indices(shares) == Indices(front) + {last.index};
    }
  }

  lemma IncreasingPointsDistinct(shares: seq<Share>)
    requires Increasing(shares)
    ensures Distinct(Points(shares))
  {
    hide Point;
    var xs := Points(shares);
    forall i, j | 0 <= i < j < |xs|
      ensures xs[i] != xs[j]
    {
      if xs[i] == xs[j] {
        PointInjective(shares[i].index, shares[j].index);
      }
    }
  }

  // ---- reconstruction ------------------------------------------------------------

  ghost predicate AllDealt(given: seq<Share>, secret: Bytes, coeffs: Coefficients, n: U8)
    requires |coeffs| == |secret|
  {
    forall s :: s in given ==> 1 <= s.index <= n && s == Dealt(secret, coeffs, s.index)
  }

  lemma ChosenColumn(chosen: seq<Share>, secret: Bytes, coeffs: Coefficients, n: U8, t: nat, col: nat)
    requires Shaped(coeffs, |secret|, t) && |chosen| == t > 0 && col < |secret|
    requires AllDealt(chosen, secret, coeffs, n) && Increasing(chosen)
    ensures WeightedSum(Points(chosen), ColumnOf(chosen, col), t) == secret[col]
  {
    hide Point, Eval, WeightedSum;
    IncreasingPointsDistinct(chosen);
    var p := [secret[col]] + coeffs[col];
    LagrangeAtZero(p, Points(chosen), ColumnOf(chosen, col));
  }

  /** Any list of dealt shares (any order, duplicates and extras allowed) gives the
      secret back exactly when it holds at least t distinct indices. */
  lemma Reconstruction(given: seq<Share>, secret: Bytes, coeffs: Coefficients, t: U8, n: U8)
    requires 2 <= t <= n <= MAX_SHARES
    requires Shaped(coeffs, |secret|, t)
    requires AllDealt(given, secret, coeffs, n)
    ensures Combined(given, t) == Ok(secret) <==> |Indices(given)| >= t
    ensures Combined(given, t).Err? <==> |Indices(given)| < t
  {
    hide Candidates, WeightedSum, Point, Eval;
    CandidatesIncrease(given);
    IncreasingCardinality(Candidates(given));
    IndicesBound(given);
    if |Indices(given)| >= t {
      var chosen := Candidates(given)[..t];
      assert forall s :: s in chosen ==> s in given;
      forall col | 0 <= col < |secret|
        ensures WeightedSum(Points(chosen), ColumnOf(chosen, col), t) == secret[col]
      {
        ChosenColumn(chosen, secret, coeffs, n, t, col);
      }
      assert Combined(given, t).value == secret;
    }
  }

  lemma {:induction false} IndicesBound(given: seq<Share>)
    ensures |Indices(given)| <= |given|
  {
    if given != [] {
      IndicesBound(given[1..]);
      assert given == [given[0]] + given[1..];
      assert Indices(given) == {given[0].index} + Indices(given[1..]);
    }
  }

  // ---- secrecy ---------------------------------------------------------------------

  /** The one coefficient vector under which `secret` looks like `ys` at `xs`. */
  function ExplainByte(secret: Elem, xs: seq<Elem>, ys: seq<Elem>): (c: seq<Elem>)
    requires |xs| == |ys|
    ensures |c| == |xs|
  {
    Interpolant([Zero] + xs, [secret] + ys, |xs| + 1)[1..]
  }

  predicate Through(p: Polynomial, xs: seq<Elem>, ys: seq<Elem>)
    requires |xs| == |ys|
  {
    forall i :: 0 <= i < |xs| ==> Eval(p, xs[i]) == ys[i]
  }

  /** A polynomial with constant term `secret` passes through (0, secret) anyway. */
  lemma ThroughZero(p: Polynomial, xs: seq<Elem>, ys: seq<Elem>)
    requires p != [] && |xs| == |ys|
    ensures Through(p, [Zero] + xs, [p[0]] + ys) <==> Through(p, xs, ys)
  {
    hide Eval;
    var xs0, ys0 := [Zero] + xs, [p[0]] + ys;
    EvalAtZero(p);
    if Through(p, xs0, ys0) {
      forall i | 0 <= i < |xs| ensures Eval(p, xs[i]) == ys[i] {
        assert Eval(p, xs0[i + 1]) == ys0[i + 1];
      }
    }
    if Through(p, xs, ys) {
      forall i | 0 <= i < |xs0| ensures Eval(p, xs0[i]) == ys0[i] {
        if i > 0 {
          assert Eval(p, xs[i - 1]) == ys[i - 1];
        }
      }
    }
  }

  lemma ZeroIsDistinct(xs: seq<Elem>)
    requires Distinct(xs) && Zero !in xs
    ensures Distinct([Zero] + xs)
  {
  }

  /** The interpolant through (0, secret) and the rest has constant term `secret`. */
  lemma InterpolantHead(secret: Elem, xs: seq<Elem>, ys: seq<Elem>)
    requires |xs| == |ys| && Distinct([Zero] + xs)
    ensures Interpolant([Zero] + xs, [secret] + ys, |xs| + 1) == [secret] + ExplainByte(secret, xs, ys)
  {
    hide Eval, Interpolant;
    var xs0, ys0 := [Zero] + xs, [secret] + ys;
    var q := Interpolant(xs0, ys0, |xs0|);
    InterpolationUnique(xs0, ys0, q);
    EvalAtZero(q);
    assert Eval(q, xs0[0]) == ys0[0];
    assert q == [q[0]] + q[1..];
  }

  lemma SameTail(secret: Elem, c: seq<Elem>, d: seq<Elem>)
    ensures [secret] + c == [secret] + d <==> c == d
  {
    assert ([secret] + c)[1..] == c && ([secret] + d)[1..] == d;
  }

  /** For t - 1 distinct nonzero points and any bytes seen there, each secret byte
      is produced by exactly one coefficient vector. */
  lemma SecrecyPerByte(secret: Elem, xs: seq<Elem>, ys: seq<Elem>, c: seq<Elem>)
    requires |xs| == |ys| == |c|
    requires Distinct(xs) && Zero !in xs
    ensures (forall i :: 0 <= i < |xs| ==> Eval([secret] + c, xs[i]) == ys[i])
            <==> c == ExplainByte(secret, xs, ys)
  {
    hide Eval, Interpolant, ExplainByte, Distinct;
    ZeroIsDistinct(xs);
    ThroughZero([secret] + c, xs, ys);
    InterpolationUnique([Zero] + xs, [secret] + ys, [secret] + c);
    InterpolantHead(secret, xs, ys);
    SameTail(secret, c, ExplainByte(secret, xs, ys));
  }

  predicate DistinctIndices(idx: seq<U8>) {
    && (forall i :: 0 <= i < |idx| ==> 1 <= idx[i] <= MAX_SHARES)
    && (forall i, j :: 0 <= i < j < |idx| ==> idx[i] != idx[j])
  }

  function PointsOf(idx: seq<U8>): seq<Elem> {
    seq(|idx|, k requires 0 <= k < |idx| => Point(idx[k]))
  }

  /** What the holders of the shares idx see: their data, column by column. */
  predicate Sees(secret: Bytes, coeffs: Coefficients, idx: seq<U8>, observed: seq<Bytes>)
    requires |coeffs| == |secret| && |observed| == |idx|
  {
    forall k :: 0 <= k < |idx| ==> Dealt(secret, coeffs, idx[k]).data == observed[k]
  }

  function ObservedColumn(observed: seq<Bytes>, c: nat): seq<Elem>
    requires forall k :: 0 <= k < |observed| ==> c < |observed[k]|
  {
    seq(|observed|, k requires 0 <= k < |observed| => observed[k][c])
  }

  function Explain(secret: Bytes, idx: seq<U8>, observed: seq<Bytes>): Coefficients
    requires |observed| == |idx| && forall k :: 0 <= k < |observed| ==> |observed[k]| == |secret|
  {
    seq(|secret|, c requires 0 <= c < |secret| =>
      ExplainByte(secret[c], PointsOf(idx), ObservedColumn(observed, c)))
  }

  lemma PointsOfDistinct(idx: seq<U8>)
    requires DistinctIndices(idx)
    ensures Distinct(PointsOf(idx)) && Zero !in PointsOf(idx)
  {
    hide Point;
    PointZero();
    forall i, j | 0 <= i < j < |idx|
      ensures PointsOf(idx)[i] != PointsOf(idx)[j]
    {
      if Point(idx[i]) == Point(idx[j]) {
        PointInjective(idx[i], idx[j]);
      }
    }
    forall i | 0 <= i < |idx|
      ensures PointsOf(idx)[i] != Zero
    {
      if Point(idx[i]) == Zero {
        PointInjective(idx[i], 0);
      }
    }
  }

  /** Perfect secrecy for whole secrets: whatever t - 1 holders see, every secret of
      that length explains it, and by exactly one choice of random coefficients. */
  lemma PerfectSecrecy(secret: Bytes, coeffs: Coefficients, t: U8, idx: seq<U8>, observed: seq<Bytes>)
    requires t >= 2 && |idx| == t - 1 == |observed|
    requires DistinctIndices(idx)
    requires forall k :: 0 <= k < |observed| ==> |observed[k]| == |secret|
    requires Shaped(coeffs, |secret|, t)
    ensures Shaped(Explain(secret, idx, observed), |secret|, t)
    ensures Sees(secret, coeffs, idx, observed) <==> coeffs == Explain(secret, idx, observed)
  {
    hide Point, Eval, ExplainByte;
    var xs := PointsOf(idx);
    PointsOfDistinct(idx);
    forall c | 0 <= c < |secret|
      ensures (forall k :: 0 <= k < |idx| ==> Dealt(secret, coeffs, idx[k]).data[c] == observed[k][c])
              <==> coeffs[c] == Explain(secret, idx, observed)[c]
    {
      var ys := ObservedColumn(observed, c);
      SecrecyPerByte(secret[c], xs, ys, coeffs[c]);
      assert forall k :: 0 <= k < |idx| ==>
        Dealt(secret, coeffs, idx[k]).data[c] == Eval([secret[c]] + coeffs[c], xs[k]) && observed[k][c] == ys[k];
    }
    if coeffs == Explain(secret, idx, observed) {
      forall k | 0 <= k < |idx|
        ensures Dealt(secret, coeffs, idx[k]).data == observed[k]
      {
      }
    }
  }

  // ---- the whole dealing ---------------------------------------------------------

  /** Verified shares with t distinct indices reconstruct the secret, or the extractor
      turns one of them into a collision. */
  lemma VerifiedSharesReconstruct(h: Hash, secret: Bytes, coeffs: Coefficients, t: U8, n: U8,
                                  shares: seq<Share>, c: Commitments,
                                  given: seq<Share>, proofs: seq<seq<ProofStep>>)
    requires 2 <= t <= n <= MAX_SHARES && Shaped(coeffs, |secret|, t)
    requires |shares| == n && forall i :: 0 <= i < n ==> shares[i] == Dealt(secret, coeffs, i + 1)
    requires Commits(h, shares, c)
    requires |proofs| == |given| && |Indices(given)| >= t
    requires forall k :: 0 <= k < |given| ==> Verifies(h, given[k], c.root, proofs[k], c.shareCount)
    ensures forall k :: 0 <= k < |given| ==> 1 <= given[k].index <= n
    ensures Combined(given, t) == Ok(secret) ||
            exists k :: 0 <= k < |given| && 1 <= given[k].index <= n && IsCollision(h, Extract(h, shares, c, given[k], proofs[k]))
  {
    hide Combined, Eval, Point, IsCollision, Extract;
    forall k | 0 <= k < |given| ensures 1 <= given[k].index <= n {
      VerifiedInRange(h, given[k], c, proofs[k], shares);
    }
    if k :| 0 <= k < |given| && !IsDealt(given[k], secret, coeffs, n) {
      VerifiedShareIsCommitted(h, shares, c, given[k], proofs[k]);
    } else {
      Reconstruction(given, secret, coeffs, t, n);
    }
  }

  ghost predicate IsDealt(s: Share, secret: Bytes, coeffs: Coefficients, n: U8)
    requires |coeffs| == |secret|
  {
    1 <= s.index <= n && s == Dealt(secret, coeffs, s.index)
  }

  lemma VerifiedInRange(h: Hash, s: Share, c: Commitments, proof: seq<ProofStep>, shares: seq<Share>)
    requires Commits(h, shares, c) && Verifies(h, s, c.root, proof, c.shareCount)
    ensures 1 <= s.index <= |shares|
  {
  }
}
