// train.c: the table-filling passes of Baum-Welch training and the M-step
// that overwrites the model, each proved against the recurrences.

module Train {
  import opened Sums
  import opened Model
  import opened MyHead
  import opened Recurrences
  import opened Reestimation

  /** An observation the passes can read with M symbols: at least one
      symbol (with none, the C code reads row -1), held in its buffer, and
      every symbol one of the M. */
  ghost predicate Observes(ob: Observation, M: int)
  {
    && 1 <= ob.seqNum <= |ob.buffer|
    && forall t :: 0 <= t < ob.seqNum ==> 0 <= ob.buffer[t] < M
  }

  /** An observation the passes can read under this model. */
  ghost predicate Fits(hmm: Hmm, ob: Observation)
    reads hmm
  {
    Observes(ob, hmm.observNum)
  }

  /** A table buffer that can hold rows x cols entries. */
  ghost predicate Room(a: array2<real>, rows: int, cols: int)
  {
    0 <= rows <= a.Length0 && 0 <= cols <= a.Length1
  }

  lemma SymbolsAt(hmm: Hmm, ob: Observation, t: int)
    requires hmm.Valid() && Fits(hmm, ob)
    requires 0 <= t < ob.seqNum
    ensures Sym(Symbols(ob), t) == ob.buffer[t]
  {
  }

  /** forward_algo (train.c:11-42): fills alpha[t][j] for t < T and j < N. */
  method ForwardAlgo(hmm: Hmm, ghost p: Lambda, observ: Observation, alpha: Table)
    requires hmm.Stores(p) && Fits(hmm, observ)
    requires Room(alpha.table, observ.seqNum, hmm.stateNum)
    requires alpha.table != hmm.transition && alpha.table != hmm.observation
    modifies alpha, alpha.table
    ensures alpha.seqNum == observ.seqNum && alpha.stateNum == hmm.stateNum
    ensures forall t, j {:trigger alpha.table[t, j]} :: 0 <= t < observ.seqNum && 0 <= j < hmm.stateNum ==>
              alpha.table[t, j] == Alpha(p, Symbols(observ), t, j)
  {
    alpha.seqNum := observ.seqNum;
    alpha.stateNum := hmm.stateNum;
    ghost var o := Symbols(observ);
    var n, T := hmm.stateNum, observ.seqNum;

    // Initialization
    for i := 0 to n
      modifies alpha.table
      invariant forall k {:trigger alpha.table[0, k]} :: 0 <= k < i ==> alpha.table[0, k] == Alpha(p, o, 0, k)
    {
      alpha.table[0, i] := hmm.initial[i] * hmm.observation[observ.buffer[0], i];
    }

    // Induction
    for t := 0 to T - 1
      modifies alpha.table
      invariant forall s, k {:trigger alpha.table[s, k]} :: 0 <= s <= t && 0 <= k < n ==> alpha.table[s, k] == Alpha(p, o, s, k)
    {
      ForwardStep(hmm, p, observ, alpha, t);
    }
  }

  /** One step of the induction of forward_algo (train.c:24-33): row t+1 of
      alpha from row t. */
  method ForwardStep(hmm: Hmm, ghost p: Lambda, observ: Observation, alpha: Table, t: int)
    requires hmm.Stores(p) && Fits(hmm, observ)
    requires 0 <= t && t + 1 < observ.seqNum
    requires Room(alpha.table, observ.seqNum, hmm.stateNum)
    requires alpha.table != hmm.transition && alpha.table != hmm.observation
    requires forall s, k {:trigger alpha.table[s, k]} :: 0 <= s <= t && 0 <= k < hmm.stateNum ==>
               alpha.table[s, k] == Alpha(p, Symbols(observ), s, k)
    modifies alpha.table
    ensures forall s, k {:trigger alpha.table[s, k]} :: 0 <= s <= t + 1 && 0 <= k < hmm.stateNum ==>
              alpha.table[s, k] == Alpha(p, Symbols(observ), s, k)
  {
    ghost var o := Symbols(observ);
    var n := hmm.stateNum;
    var next := t + 1;
    var symbol := observ.buffer[next];
    assert Sym(o, next) == symbol;
    for j := 0 to n
      invariant forall s, k {:trigger alpha.table[s, k]} :: 0 <= s <= t && 0 <= k < n ==> alpha.table[s, k] == Alpha(p, o, s, k)
      invariant forall k {:trigger alpha.table[next, k]} :: 0 <= k < j ==> alpha.table[next, k] == Alpha(p, o, next, k)
    {
      var accum := ForwardAccum(hmm, p, observ, alpha, t, j);
      var b := hmm.observation[symbol, j];
      ForwardNext(p, o, t, j, accum, b);
      alpha.table[next, j] := accum * b;
    }
  }

  /** The innermost loop of forward_algo (train.c:26-30): the sum over i of
      alpha[t][i] * a[i][j], given that row t of the table is already right. */
  method ForwardAccum(hmm: Hmm, ghost p: Lambda, observ: Observation, alpha: Table, t: int, j: int) returns (accum: real)
    requires hmm.Stores(p) && Fits(hmm, observ)
    requires 0 <= t < observ.seqNum && 0 <= j < hmm.stateNum
    requires Room(alpha.table, observ.seqNum, hmm.stateNum)
    requires forall i {:trigger alpha.table[t, i]} :: 0 <= i < hmm.stateNum ==> alpha.table[t, i] == Alpha(p, Symbols(observ), t, i)
    ensures accum == Sum(hmm.stateNum, ForwardTerms(p, Symbols(observ), t, j))
  {
    ghost var o := Symbols(observ);
    accum := 0.0;
    for i := 0 to hmm.stateNum
      invariant accum == Sum(i, ForwardTerms(p, o, t, j))
    {
      var al, a := alpha.table[t, i], hmm.transition[i, j];
      assert ForwardTerms(p, o, t, j)(i) == al * a;
      accum := accum + al * a;
    }
  }

  /** backward_algo (train.c:50-75): fills beta[t][i] for t < T and i < N. */
  method BackwardAlgo(hmm: Hmm, ghost p: Lambda, observ: Observation, beta: Table)
    requires hmm.Stores(p) && Fits(hmm, observ)
    requires Room(beta.table, observ.seqNum, hmm.stateNum)
    requires beta.table != hmm.transition && beta.table != hmm.observation
    modifies beta, beta.table
    ensures beta.seqNum == observ.seqNum && beta.stateNum == hmm.stateNum
    ensures forall t, i {:trigger beta.table[t, i]} :: 0 <= t < observ.seqNum && 0 <= i < hmm.stateNum ==>
              beta.table[t, i] == Beta(p, Symbols(observ), t, i)
  {
    beta.seqNum := observ.seqNum;
    beta.stateNum := hmm.stateNum;
    ghost var o := Symbols(observ);
    var n, T := hmm.stateNum, observ.seqNum;

    // Initialization
    var last := T - 1;
    for i := 0 to n
      modifies beta.table
      invariant forall k {:trigger beta.table[last, k]} :: 0 <= k < i ==> beta.table[last, k] == Beta(p, o, last, k)
    {
      beta.table[last, i] := 1.0;
    }

    // Induction, from t = T-2 down to 0
    var t := T - 2;
    while t >= 0
      modifies beta.table
      invariant -1 <= t <= T - 2
      invariant forall s, k {:trigger beta.table[s, k]} :: t < s < T && 0 <= k < n ==> beta.table[s, k] == Beta(p, o, s, k)
    {
      BackwardStep(hmm, p, observ, beta, t);
      t := t - 1;
    }
  }

  /** One step of the induction of backward_algo (train.c:60-70): row t of
      beta from row t+1. */
  method BackwardStep(hmm: Hmm, ghost p: Lambda, observ: Observation, beta: Table, t: int)
    requires hmm.Stores(p) && Fits(hmm, observ)
    requires 0 <= t && t + 1 < observ.seqNum
    requires Room(beta.table, observ.seqNum, hmm.stateNum)
    requires beta.table != hmm.transition && beta.table != hmm.observation
    requires forall s, k {:trigger beta.table[s, k]} :: t < s < observ.seqNum && 0 <= k < hmm.stateNum ==>
               beta.table[s, k] == Beta(p, Symbols(observ), s, k)
    modifies beta.table
    ensures forall s, k {:trigger beta.table[s, k]} :: t <= s < observ.seqNum && 0 <= k < hmm.stateNum ==>
              beta.table[s, k] == Beta(p, Symbols(observ), s, k)
  {
    ghost var o := Symbols(observ);
    var n, T := hmm.stateNum, observ.seqNum;
    for i := 0 to n
      invariant forall s, k {:trigger beta.table[s, k]} :: t < s < T && 0 <= k < n ==> beta.table[s, k] == Beta(p, o, s, k)
      invariant forall k {:trigger beta.table[t, k]} :: 0 <= k < i ==> beta.table[t, k] == Beta(p, o, t, k)
    {
      var accum := BackwardAccum(hmm, p, observ, beta, t, i);
      BackwardNext(p, o, t, i, accum);
      beta.table[t, i] := accum;
    }
  }

  /** The innermost loop of backward_algo (train.c:63-67): the sum over j of
      a[i][j] * b[o[t+1]][j] * beta[t+1][j], given that row t+1 is right. */
  method BackwardAccum(hmm: Hmm, ghost p: Lambda, observ: Observation, beta: Table, t: int, i: int) returns (accum: real)
    requires hmm.Stores(p) && Fits(hmm, observ)
    requires 0 <= t && t + 1 < observ.seqNum && 0 <= i < hmm.stateNum
    requires Room(beta.table, observ.seqNum, hmm.stateNum)
    requires forall s, j {:trigger beta.table[s, j]} :: s == t + 1 && 0 <= j < hmm.stateNum ==>
               beta.table[s, j] == Beta(p, Symbols(observ), s, j)
    ensures accum == Sum(hmm.stateNum, BackwardTerms(p, Symbols(observ), t, i))
  {
    ghost var o := Symbols(observ);
    var next := t + 1;
    var symbol := observ.buffer[next];
    assert Sym(o, next) == symbol;
    accum := 0.0;
    for j := 0 to hmm.stateNum
      invariant accum == Sum(j, BackwardTerms(p, o, t, i))
    {
      var a, b, be := hmm.transition[i, j], hmm.observation[symbol, j], beta.table[next, j];
      assert BackwardTerms(p, o, t, i)(j) == a * b * be;
      accum := accum + a * b * be;
    }
  }

  // ---------------------------------------------------------------------
  // calc_delta (train.c:87-104)

  /** The buffer a holds the matrix f on its first rows x cols entries. */
  ghost predicate Shows(a: array2<real>, rows: int, cols: int, f: (int, int) -> real)
    reads a
  {
    Room(a, rows, cols) && forall t, i {:trigger a[t, i]} :: 0 <= t < rows && 0 <= i < cols ==> a[t, i] == f(t, i)
  }

  /** alpha[t][i] * beta[t][i] for i = 0, 1, ... */
  function Product(al: (int, int) -> real, be: (int, int) -> real, t: int): int -> real
  {
    i => al(t, i) * be(t, i)
  }

  /** delta[t][i]: entry i of row t of the product divided by the row's sum
      over the first n states. */
  function Posterior(al: (int, int) -> real, be: (int, int) -> real, n: int, t: int, i: int): real
  {
    Quot(al(t, i) * be(t, i), Sum(n, Product(al, be, t)))
  }

  /** The first rows x n entries of a hold the normalised product. */
  ghost predicate ShowsPosterior(a: array2<real>, rows: int, n: int, al: (int, int) -> real, be: (int, int) -> real)
    reads a
  {
    Room(a, rows, n) && forall t, i {:trigger a[t, i]} :: 0 <= t < rows && 0 <= i < n ==> a[t, i] == Posterior(al, be, n, t, i)
  }

  /** calc_delta: delta takes the dimensions of alpha, and every row t of
      delta is row t of alpha * beta divided by its sum. The buffers hold
      the matrices al and be; the C code divides by each row sum, so those
      must be nonzero. */
  method CalcDelta(alpha: Table, beta: Table, delta: Table, ghost al: (int, int) -> real, ghost be: (int, int) -> real)
    requires Shows(alpha.table, alpha.seqNum, alpha.stateNum, al)
    requires Shows(beta.table, alpha.seqNum, alpha.stateNum, be)
    requires Room(delta.table, alpha.seqNum, alpha.stateNum)
    requires delta.table != alpha.table && delta.table != beta.table
    requires forall t :: 0 <= t < alpha.seqNum ==> Sum(alpha.stateNum, Product(al, be, t)) != 0.0
    modifies delta, delta.table
    ensures delta.seqNum == alpha.seqNum && delta.stateNum == alpha.stateNum
    ensures ShowsPosterior(delta.table, delta.seqNum, delta.stateNum, al, be)
  {
    delta.seqNum := alpha.seqNum;
    delta.stateNum := alpha.stateNum;
    var T, n := delta.seqNum, delta.stateNum;
    for t := 0 to T
      modifies delta.table
      invariant ShowsPosterior(delta.table, t, n, al, be)
    {
      DeltaRow(alpha, beta, delta, al, be, t);
    }
  }

  /** One pass of the t loop of calc_delta (train.c:95-101): row t of delta. */
  method DeltaRow(alpha: Table, beta: Table, delta: Table, ghost al: (int, int) -> real, ghost be: (int, int) -> real, t: int)
    requires 0 <= t < delta.seqNum && delta.stateNum >= 0
    requires Shows(alpha.table, delta.seqNum, delta.stateNum, al)
    requires Shows(beta.table, delta.seqNum, delta.stateNum, be)
    requires ShowsPosterior(delta.table, t, delta.stateNum, al, be)
    requires Room(delta.table, delta.seqNum, delta.stateNum)
    requires delta.table != alpha.table && delta.table != beta.table
    requires Sum(delta.stateNum, Product(al, be, t)) != 0.0
    modifies delta.table
    ensures ShowsPosterior(delta.table, t + 1, delta.stateNum, al, be)
  {
    var sum := DeltaFill(alpha, beta, delta, al, be, t);
    DeltaNormalize(delta, al, be, t, sum);
  }

  /** The product loop of row t: alpha[t][i] * beta[t][i] into delta[t][i],
      and their sum. */
  method DeltaFill(alpha: Table, beta: Table, delta: Table, ghost al: (int, int) -> real, ghost be: (int, int) -> real, t: int)
    returns (sum: real)
    requires 0 <= t < delta.seqNum && delta.stateNum >= 0
    requires Shows(alpha.table, delta.seqNum, delta.stateNum, al)
    requires Shows(beta.table, delta.seqNum, delta.stateNum, be)
    requires ShowsPosterior(delta.table, t, delta.stateNum, al, be)
    requires Room(delta.table, delta.seqNum, delta.stateNum)
    requires delta.table != alpha.table && delta.table != beta.table
    modifies delta.table
    ensures ShowsPosterior(delta.table, t, delta.stateNum, al, be)
    ensures forall k {:trigger delta.table[t, k]} :: 0 <= k < delta.stateNum ==> delta.table[t, k] == al(t, k) * be(t, k)
    ensures sum == Sum(delta.stateNum, Product(al, be, t))
  {
    var n := delta.stateNum;
    sum := 0.0;
    for i := 0 to n
      invariant ShowsPosterior(delta.table, t, n, al, be)
      invariant forall k {:trigger delta.table[t, k]} :: 0 <= k < i ==> delta.table[t, k] == al(t, k) * be(t, k)
      invariant sum == Sum(i, Product(al, be, t))
    {
      var a, b := alpha.table[t, i], beta.table[t, i];
      assert Product(al, be, t)(i) == a * b;
      delta.table[t, i] := a * b;
      sum := sum + a * b;
    }
  }

  /** The normalization loop of row t: every entry divided by the row sum. */
  method DeltaNormalize(delta: Table, ghost al: (int, int) -> real, ghost be: (int, int) -> real, t: int, sum: real)
    requires 0 <= t < delta.seqNum && delta.stateNum >= 0
    requires Room(delta.table, delta.seqNum, delta.stateNum)
    requires ShowsPosterior(delta.table, t, delta.stateNum, al, be)
    requires forall k {:trigger delta.table[t, k]} :: 0 <= k < delta.stateNum ==> delta.table[t, k] == al(t, k) * be(t, k)
    requires sum == Sum(delta.stateNum, Product(al, be, t)) != 0.0
    modifies delta.table
    ensures ShowsPosterior(delta.table, t + 1, delta.stateNum, al, be)
  {
    var n := delta.stateNum;
    for i := 0 to n
      invariant ShowsPosterior(delta.table, t, n, al, be)
      invariant forall k {:trigger delta.table[t, k]} :: 0 <= k < i ==> delta.table[t, k] == Posterior(al, be, n, t, k)
      invariant forall k {:trigger delta.table[t, k]} :: i <= k < n ==> delta.table[t, k] == al(t, k) * be(t, k)
    {
      var x := delta.table[t, i];
      assert Posterior(al, be, n, t, i) == Quot(x, sum);
      delta.table[t, i] := x / sum;
    }
  }

  // ---------------------------------------------------------------------
  // baum_welch_algo (train.c:106-134)

  /** alpha[t][i] * a[i][j] * b[o[t+1]][j] * beta[t+1][j], multiplied in the
      order of the C expression; o is the observation buffer. */
  function PairProduct(p: Lambda, o: seq<int>, al: (int, int) -> real, be: (int, int) -> real, t: int, i: int, j: int): real
  {
    al(t, i) * A(p, i, j) * B(p, Sym(o, t + 1), j) * be(t + 1, j)
  }

  function PairProducts(p: Lambda, o: seq<int>, al: (int, int) -> real, be: (int, int) -> real, t: int): (int, int) -> real
  {
    (i, j) => PairProduct(p, o, al, be, t, i, j)
  }

  /** The sum of slice t of the pair products over the first n x n states. */
  function PairSum(p: Lambda, o: seq<int>, al: (int, int) -> real, be: (int, int) -> real, n: int, t: int): real
  {
    Sum(n, RowSums(PairProducts(p, o, al, be, t), n))
  }

  /** epsilon[t][i][j]: the pair product divided by its slice sum. */
  function PairPosterior(p: Lambda, o: seq<int>, al: (int, int) -> real, be: (int, int) -> real, n: int, t: int, i: int, j: int): real
  {
    Quot(PairProduct(p, o, al, be, t, i, j), PairSum(p, o, al, be, n, t))
  }

  /** A rows x n x n corner fits in an epsilon buffer. */
  ghost predicate Room3(a: array3<real>, rows: int, n: int)
  {
    0 <= rows <= a.Length0 && 0 <= n <= a.Length1 && 0 <= n <= a.Length2
  }

  /** Slices 0..rows-1 of e hold the pair posteriors. */
  ghost predicate ShowsSlices(e: array3<real>, rows: int, n: int, p: Lambda, o: seq<int>, al: (int, int) -> real, be: (int, int) -> real)
    reads e
  {
    Room3(e, rows, n) &&
    forall t, i, j {:trigger e[t, i, j]} :: 0 <= t < rows && 0 <= i < n && 0 <= j < n ==>
      e[t, i, j] == PairPosterior(p, o, al, be, n, t, i, j)
  }

  /** What baum_welch_algo reads of the model and the observation: the
      states of alpha are states of the model, and the symbols it reads are
      rows of `observation`. */
  ghost predicate Readable(hmm: Hmm, observ: Observation, rows: int, n: int)
    reads hmm
  {
    && 0 <= n <= hmm.stateNum
    && rows <= |observ.buffer|
    && forall t :: 0 <= t < rows ==> 0 <= observ.buffer[t] < hmm.observNum
  }

  /** baum_welch_algo: epsilon takes the dimensions of alpha, and for every
      t < T-1 slice t is the pair product divided by the slice sum. */
  method BaumWelchAlgo(hmm: Hmm, ghost p: Lambda, observ: Observation, alpha: Table, beta: Table, epsilon: Epsilon,
                       ghost al: (int, int) -> real, ghost be: (int, int) -> real)
    requires hmm.Stores(p)
    requires 0 <= alpha.seqNum && Readable(hmm, observ, alpha.seqNum, alpha.stateNum)
    requires Shows(alpha.table, alpha.seqNum, alpha.stateNum, al)
    requires Shows(beta.table, alpha.seqNum, alpha.stateNum, be)
    requires Room3(epsilon.table, alpha.seqNum - 1, alpha.stateNum)
    requires forall t :: 0 <= t < alpha.seqNum - 1 ==> PairSum(p, observ.buffer, al, be, alpha.stateNum, t) != 0.0
    modifies epsilon, epsilon.table
    ensures epsilon.seqNum == alpha.seqNum && epsilon.stateNum == alpha.stateNum
    ensures ShowsSlices(epsilon.table, epsilon.seqNum - 1, epsilon.stateNum, p, observ.buffer, al, be)
  {
    epsilon.seqNum := alpha.seqNum;
    epsilon.stateNum := alpha.stateNum;
    var T, n := epsilon.seqNum, epsilon.stateNum;
    for t := 0 to T - 1
      modifies epsilon.table
      invariant ShowsSlices(epsilon.table, t, n, p, observ.buffer, al, be)
    {
      EpsilonSlice(hmm, p, observ, alpha, beta, epsilon, al, be, t);
    }
  }

  /** Rows 0..i-1 of slice t of e hold f(a, b) in columns 0..n-1. */
  ghost predicate SliceRows(e: array3<real>, t: int, i: int, n: int, f: (int, int) -> real)
    reads e
  {
    && 0 <= t < e.Length0 && i <= e.Length1 && n <= e.Length2
    && forall a, b {:trigger e[t, a, b]} :: 0 <= a < i && 0 <= b < n ==> e[t, a, b] == f(a, b)
  }

  /** The posteriors of slice t as a matrix. */
  function PairPosteriors(p: Lambda, o: seq<int>, al: (int, int) -> real, be: (int, int) -> real, n: int, t: int): (int, int) -> real
  {
    (i, j) => PairPosterior(p, o, al, be, n, t, i, j)
  }

  /** Slices other than t of e are as they were. */
  twostate predicate OtherSlicesKept(e: array3<real>, t: int)
    reads e
  {
    forall s, a, b {:trigger e[s, a, b]} ::
      0 <= s < e.Length0 && 0 <= a < e.Length1 && 0 <= b < e.Length2 && s != t ==> e[s, a, b] == old(e[s, a, b])
  }

  /** One pass of the t loop of baum_welch_algo (train.c:113-132): slice t. */
  method EpsilonSlice(hmm: Hmm, ghost p: Lambda, observ: Observation, alpha: Table, beta: Table, epsilon: Epsilon,
                      ghost al: (int, int) -> real, ghost be: (int, int) -> real, t: int)
    requires hmm.Stores(p)
    requires 0 <= t && t + 1 < epsilon.seqNum && Readable(hmm, observ, epsilon.seqNum, epsilon.stateNum)
    requires Shows(alpha.table, epsilon.seqNum, epsilon.stateNum, al)
    requires Shows(beta.table, epsilon.seqNum, epsilon.stateNum, be)
    requires Room3(epsilon.table, epsilon.seqNum - 1, epsilon.stateNum)
    requires ShowsSlices(epsilon.table, t, epsilon.stateNum, p, observ.buffer, al, be)
    requires PairSum(p, observ.buffer, al, be, epsilon.stateNum, t) != 0.0
    modifies epsilon.table
    ensures ShowsSlices(epsilon.table, t + 1, epsilon.stateNum, p, observ.buffer, al, be)
  {
    var sum := PairFill(hmm, p, observ, alpha, beta, epsilon, al, be, t);
    PairNormalize(p, observ.buffer, epsilon, al, be, t, sum);
  }

  /** The first pass over slice t (train.c:114-125): every pair product is
      stored and added to the slice sum, which is returned. */
  method PairFill(hmm: Hmm, ghost p: Lambda, observ: Observation, alpha: Table, beta: Table, epsilon: Epsilon,
                  ghost al: (int, int) -> real, ghost be: (int, int) -> real, t: int) returns (sum: real)
    requires hmm.Stores(p)
    requires 0 <= t && t + 1 < epsilon.seqNum && Readable(hmm, observ, epsilon.seqNum, epsilon.stateNum)
    requires Shows(alpha.table, epsilon.seqNum, epsilon.stateNum, al)
    requires Shows(beta.table, epsilon.seqNum, epsilon.stateNum, be)
    requires Room3(epsilon.table, epsilon.seqNum - 1, epsilon.stateNum)
    modifies epsilon.table
    ensures sum == PairSum(p, observ.buffer, al, be, epsilon.stateNum, t)
    ensures SliceRows(epsilon.table, t, epsilon.stateNum, epsilon.stateNum, PairProducts(p, observ.buffer, al, be, t))
    ensures OtherSlicesKept(epsilon.table, t)
  {
    var n := epsilon.stateNum;
    ghost var F := PairProducts(p, observ.buffer, al, be, t);
    sum := 0.0;
    for i := 0 to n
      invariant SliceRows(epsilon.table, t, i, n, F)
      invariant sum == Sum(i, RowSums(F, n))
      invariant OtherSlicesKept(epsilon.table, t)
    {
      RowSumsStep(F, n, i, sum);
      sum := PairRow(hmm, p, observ, alpha, beta, epsilon, al, be, t, i, sum);
    }
  }

  /** The normalization of slice t (train.c:127-131): every entry divided by
      the slice sum. */
  method PairNormalize(ghost p: Lambda, ghost o: seq<int>, epsilon: Epsilon, ghost al: (int, int) -> real, ghost be: (int, int) -> real,
                       t: int, sum: real)
    requires 0 <= t < epsilon.table.Length0 && 0 <= epsilon.stateNum <= epsilon.table.Length1 && epsilon.stateNum <= epsilon.table.Length2
    requires sum == PairSum(p, o, al, be, epsilon.stateNum, t) != 0.0
    requires SliceRows(epsilon.table, t, epsilon.stateNum, epsilon.stateNum, PairProducts(p, o, al, be, t))
    modifies epsilon.table
    ensures SliceRows(epsilon.table, t, epsilon.stateNum, epsilon.stateNum, PairPosteriors(p, o, al, be, epsilon.stateNum, t))
    ensures OtherSlicesKept(epsilon.table, t)
  {
    var n := epsilon.stateNum;
    ghost var F, X := PairProducts(p, o, al, be, t), PairPosteriors(p, o, al, be, n, t);
    for i := 0 to n
      invariant SliceRows(epsilon.table, t, i, n, X)
      invariant forall a, b {:trigger epsilon.table[t, a, b]} :: i <= a < n && 0 <= b < n ==> epsilon.table[t, a, b] == F(a, b)
      invariant OtherSlicesKept(epsilon.table, t)
    {
      NormalizeRow(p, o, epsilon, al, be, t, i, sum);
    }
  }

  /** The j loop of the first pass (train.c:116-124): row i of slice t gets
      the pair products, each added to the running sum. */
  method PairRow(hmm: Hmm, ghost p: Lambda, observ: Observation, alpha: Table, beta: Table, epsilon: Epsilon,
                 ghost al: (int, int) -> real, ghost be: (int, int) -> real, t: int, i: int, sum0: real) returns (sum: real)
    requires p.stateNum == hmm.stateNum && p.observNum == hmm.observNum && hmm.Valid()
    requires forall a, b {:trigger hmm.transition[a, b]} :: 0 <= a < hmm.stateNum && 0 <= b < hmm.stateNum ==> hmm.transition[a, b] == A(p, a, b)
    requires forall k, b {:trigger hmm.observation[k, b]} :: 0 <= k < hmm.observNum && 0 <= b < hmm.stateNum ==> hmm.observation[k, b] == B(p, k, b)
    requires 0 <= t && t + 1 < epsilon.seqNum && 0 <= i < epsilon.stateNum
    requires Readable(hmm, observ, epsilon.seqNum, epsilon.stateNum)
    requires Shows(alpha.table, epsilon.seqNum, epsilon.stateNum, al)
    requires Shows(beta.table, epsilon.seqNum, epsilon.stateNum, be)
    requires Room3(epsilon.table, epsilon.seqNum - 1, epsilon.stateNum)
    modifies epsilon.table
    ensures sum == sum0 + Sum(epsilon.stateNum, Row(PairProducts(p, observ.buffer, al, be, t), i))
    ensures forall b {:trigger epsilon.table[t, i, b]} :: 0 <= b < epsilon.stateNum ==>
              epsilon.table[t, i, b] == PairProducts(p, observ.buffer, al, be, t)(i, b)
    ensures forall s, a, b {:trigger epsilon.table[s, a, b]} :: 0 <= s < epsilon.table.Length0 && 0 <= a < epsilon.table.Length1 && 0 <= b < epsilon.table.Length2 && (s != t || a != i) ==>
              epsilon.table[s, a, b] == old(epsilon.table[s, a, b])
  {
    var n := epsilon.stateNum;
    ghost var F := PairProducts(p, observ.buffer, al, be, t);
    var symbol := observ.buffer[t + 1];
    assert Sym(observ.buffer, t + 1) == symbol;
    sum := sum0;
    for j := 0 to n
      invariant sum == sum0 + Sum(j, Row(F, i))
      invariant forall b {:trigger epsilon.table[t, i, b]} :: 0 <= b < j ==> epsilon.table[t, i, b] == F(i, b)
      invariant forall s, a, b {:trigger epsilon.table[s, a, b]} :: 0 <= s < epsilon.table.Length0 && 0 <= a < epsilon.table.Length1 && 0 <= b < epsilon.table.Length2 && (s != t || a != i) ==>
                  epsilon.table[s, a, b] == old(epsilon.table[s, a, b])
    {
      var x1, x2, x3, x4 := alpha.table[t, i], hmm.transition[i, j], hmm.observation[symbol, j], beta.table[t + 1, j];
      assert x1 == al(t, i) && x2 == A(p, i, j) && x3 == B(p, Sym(observ.buffer, t + 1), j) && x4 == be(t + 1, j);
      var x := x1 * x2 * x3 * x4;
      assert x == Row(F, i)(j);
      SumStep(j, Row(F, i));
      epsilon.table[t, i, j] := x;
      sum := sum + x;
    }
  }

  /** The j loop of the normalization (train.c:128-130): row i of slice t
      divided by the slice sum. */
  method NormalizeRow(ghost p: Lambda, ghost o: seq<int>, epsilon: Epsilon, ghost al: (int, int) -> real, ghost be: (int, int) -> real,
                      t: int, i: int, sum: real)
    requires 0 <= t < epsilon.table.Length0 && 0 <= i < epsilon.stateNum <= epsilon.table.Length1 && epsilon.stateNum <= epsilon.table.Length2
    requires sum == PairSum(p, o, al, be, epsilon.stateNum, t) != 0.0
    requires forall b {:trigger epsilon.table[t, i, b]} :: 0 <= b < epsilon.stateNum ==>
               epsilon.table[t, i, b] == PairProducts(p, o, al, be, t)(i, b)
    modifies epsilon.table
    ensures forall b {:trigger epsilon.table[t, i, b]} :: 0 <= b < epsilon.stateNum ==>
              epsilon.table[t, i, b] == PairPosteriors(p, o, al, be, epsilon.stateNum, t)(i, b)
    ensures forall s, a, b {:trigger epsilon.table[s, a, b]} :: 0 <= s < epsilon.table.Length0 && 0 <= a < epsilon.table.Length1 && 0 <= b < epsilon.table.Length2 && (s != t || a != i) ==>
              epsilon.table[s, a, b] == old(epsilon.table[s, a, b])
  {
    var n := epsilon.stateNum;
    for j := 0 to n
      invariant forall b {:trigger epsilon.table[t, i, b]} :: 0 <= b < j ==>
                  epsilon.table[t, i, b] == PairPosteriors(p, o, al, be, n, t)(i, b)
      invariant forall b {:trigger epsilon.table[t, i, b]} :: j <= b < n ==>
                  epsilon.table[t, i, b] == PairProducts(p, o, al, be, t)(i, b)
      invariant forall s, a, b {:trigger epsilon.table[s, a, b]} :: 0 <= s < epsilon.table.Length0 && 0 <= a < epsilon.table.Length1 && 0 <= b < epsilon.table.Length2 && (s != t || a != i) ==>
                  epsilon.table[s, a, b] == old(epsilon.table[s, a, b])
    {
      var x := epsilon.table[t, i, j];
      assert PairPosteriors(p, o, al, be, n, t)(i, j) == Quot(x, sum);
      epsilon.table[t, i, j] := x / sum;
    }
  }

  // ---------------------------------------------------------------------
  // The tables the passes fill, read as the recurrences of the model

  /** alpha as a matrix over all (t, i): the forward variables of p on o. */
  function AlphaOf(p: Lambda, o: seq<int>): (int, int) -> real
  {
    (t, i) => if t >= 0 then Alpha(p, o, t, i) else 0.0
  }

  /** beta as a matrix over all (t, i): the backward variables of p on o. */
  function BetaOf(p: Lambda, o: seq<int>): (int, int) -> real
  {
    (t, i) => if t >= 0 then Beta(p, o, t, i) else 0.0
  }

  /** The row sums calc_delta divides by are P(O | lambda). */
  lemma ProductSumIsProb(p: Lambda, o: seq<int>, t: nat)
    requires t < |o|
    ensures Sum(p.stateNum, Product(AlphaOf(p, o), BetaOf(p, o), t)) == ForwardProb(p, o)
  {
    SumExt(p.stateNum, Product(AlphaOf(p, o), BetaOf(p, o), t), AlphaBeta(p, o, t));
    ForwardBackwardAgree(p, o, t);
  }

  /** On the forward and backward variables, calc_delta computes the state
      posterior gamma. */
  lemma PosteriorIsGamma(p: Lambda, o: seq<int>, t: nat, i: int)
    requires t < |o|
    ensures Posterior(AlphaOf(p, o), BetaOf(p, o), p.stateNum, t, i) == Gamma(p, o, t, i)
  {
    var al, be := AlphaOf(p, o), BetaOf(p, o);
    var num, den := al(t, i) * be(t, i), Sum(p.stateNum, Product(al, be, t));
    assert den == Sum(p.stateNum, AlphaBeta(p, o, t)) by {
      SumExt(p.stateNum, Product(al, be, t), AlphaBeta(p, o, t));
    }
    assert num == AlphaBeta(p, o, t)(i);
    assert Posterior(al, be, p.stateNum, t, i) == Quot(num, den);
  }

  /** The pair products baum_welch_algo forms from the buffer of ob are the
      pair terms of its symbols. */
  lemma PairProductsAreTerms(p: Lambda, ob: Observation, t: nat)
    requires t + 1 < ob.seqNum <= |ob.buffer|
    ensures forall i, j :: PairProducts(p, ob.buffer, AlphaOf(p, Symbols(ob)), BetaOf(p, Symbols(ob)), t)(i, j)
                           == PairTerms(p, Symbols(ob), t)(i, j)
  {
    assert Sym(ob.buffer, t + 1) == Sym(Symbols(ob), t + 1);
  }

  /** The slice sums baum_welch_algo divides by are P(O | lambda). */
  lemma PairSumIsProb(p: Lambda, ob: Observation, t: nat)
    requires t + 1 < ob.seqNum <= |ob.buffer|
    ensures PairSum(p, ob.buffer, AlphaOf(p, Symbols(ob)), BetaOf(p, Symbols(ob)), p.stateNum, t) == ForwardProb(p, Symbols(ob))
  {
    var o := Symbols(ob);
    PairProductsAreTerms(p, ob, t);
    SumExt2(p.stateNum, p.stateNum, PairProducts(p, ob.buffer, AlphaOf(p, o), BetaOf(p, o), t), PairTerms(p, o, t));
    PairTotalIsRowSum(p, o, t);
    ForwardBackwardAgree(p, o, t);
  }

  /** On the forward and backward variables, baum_welch_algo computes the
      pair posterior xi. */
  lemma PairPosteriorIsXi(p: Lambda, ob: Observation, t: nat, i: int, j: int)
    requires t + 1 < ob.seqNum <= |ob.buffer|
    ensures PairPosterior(p, ob.buffer, AlphaOf(p, Symbols(ob)), BetaOf(p, Symbols(ob)), p.stateNum, t, i, j)
            == Xi(p, Symbols(ob), t, i, j)
  {
    var o := Symbols(ob);
    PairProductsAreTerms(p, ob, t);
    SumExt2(p.stateNum, p.stateNum, PairProducts(p, ob.buffer, AlphaOf(p, o), BetaOf(p, o), t), PairTerms(p, o, t));
  }

  /** One pass of the n loop of main (train.c:213-218) on its own: alpha,
      beta, delta and epsilon of one training sequence. With P(O | lambda)
      nonzero (the C code divides by it), delta holds the state posteriors
      and epsilon the pair posteriors of its symbols under the model. */
  method EStep(hmm: Hmm, ghost p: Lambda, observ: Observation, alpha: Table, beta: Table, delta: Table, epsilon: Epsilon)
    requires hmm.Stores(p) && Fits(hmm, observ)
    requires Room(alpha.table, observ.seqNum, hmm.stateNum) && Room(beta.table, observ.seqNum, hmm.stateNum)
    requires Room(delta.table, observ.seqNum, hmm.stateNum) && Room3(epsilon.table, observ.seqNum - 1, hmm.stateNum)
    requires Apart(hmm, alpha.table, beta.table, delta.table)
    requires ForwardProb(p, Symbols(observ)) != 0.0
    modifies alpha, alpha.table, beta, beta.table, delta, delta.table, epsilon, epsilon.table
    ensures delta.stateNum == hmm.stateNum && Posteriors(p, observ, delta, epsilon)
  {
    ghost var o := Symbols(observ);
    ghost var al, be := AlphaOf(p, o), BetaOf(p, o);
    ForwardAlgo(hmm, p, observ, alpha);
    BackwardAlgo(hmm, p, observ, beta);
    assert Shows(alpha.table, alpha.seqNum, alpha.stateNum, al);
    assert Shows(beta.table, alpha.seqNum, alpha.stateNum, be);
    forall t | 0 <= t < alpha.seqNum
      ensures Sum(alpha.stateNum, Product(al, be, t)) != 0.0
    {
      ProductSumIsProb(p, o, t);
    }
    CalcDelta(alpha, beta, delta, al, be);
    forall t | 0 <= t < alpha.seqNum - 1
      ensures PairSum(p, observ.buffer, al, be, alpha.stateNum, t) != 0.0
    {
      PairSumIsProb(p, observ, t);
    }
    BaumWelchAlgo(hmm, p, observ, alpha, beta, epsilon, al, be);
    forall t, i | 0 <= t < observ.seqNum && 0 <= i < hmm.stateNum
      ensures delta.table[t, i] == Gamma(p, o, t, i)
    {
      PosteriorIsGamma(p, o, t, i);
    }
    forall t, i, j | 0 <= t < observ.seqNum - 1 && 0 <= i < hmm.stateNum && 0 <= j < hmm.stateNum
      ensures epsilon.table[t, i, j] == Xi(p, o, t, i, j)
    {
      PairPosteriorIsXi(p, observ, t, i, j);
    }
  }

  /** delta and epsilon hold the state and pair posteriors of the symbols of
      ob under p. */
  ghost predicate Posteriors(p: Lambda, ob: Observation, delta: Table, epsilon: Epsilon)
    reads delta, delta.table, epsilon.table
  {
    && delta.seqNum == ob.seqNum
    && Room(delta.table, ob.seqNum, p.stateNum) && Room3(epsilon.table, ob.seqNum - 1, p.stateNum)
    && (forall t, i {:trigger delta.table[t, i]} :: 0 <= t < ob.seqNum && 0 <= i < p.stateNum ==>
          delta.table[t, i] == Gamma(p, Symbols(ob), t, i))
    && forall t, i, j {:trigger epsilon.table[t, i, j]} ::
          0 <= t < ob.seqNum - 1 && 0 <= i < p.stateNum && 0 <= j < p.stateNum ==>
          epsilon.table[t, i, j] == Xi(p, Symbols(ob), t, i, j)
  }

  /** The alpha, beta and delta buffers of one sequence are three different
      buffers, none of them a matrix of the model. */
  ghost predicate Apart(hmm: Hmm, a: array2<real>, b: array2<real>, d: array2<real>)
    reads hmm
  {
    && a != b && a != d && b != d
    && a != hmm.transition && a != hmm.observation
    && b != hmm.transition && b != hmm.observation
    && d != hmm.transition && d != hmm.observation
  }

  // ---------------------------------------------------------------------
  // The n loop of main (train.c:213-218)

  /** What train_model reads after the n loop, as values: the posteriors of
      the first K observations under p. */
  function CountsOf(p: Lambda, obs: seq<Observation>, K: nat): Counts
  {
    Counts(K,
      n => if 0 <= n < |obs| then obs[n].seqNum else 0,
      (n, t, i) => if 0 <= n < |obs| && t >= 0 then Gamma(p, Symbols(obs[n]), t, i) else 0.0,
      (n, t, i, j) => if 0 <= n < |obs| && t >= 0 then Xi(p, Symbols(obs[n]), t, i, j) else 0.0,
      (n, t) => if 0 <= n < |obs| then Sym(Symbols(obs[n]), t) else -1)
  }

  function TablesOf(tables: seq<Table>): (r: seq<array2<real>>)
    ensures |r| == |tables| && forall n :: 0 <= n < |tables| ==> r[n] == tables[n].table
  {
    seq(|tables|, n requires 0 <= n < |tables| => tables[n].table)
  }

  function SlicesOf(tables: seq<Epsilon>): (r: seq<array3<real>>)
    ensures |r| == |tables| && forall n :: 0 <= n < |tables| ==> r[n] == tables[n].table
  {
    seq(|tables|, n requires 0 <= n < |tables| => tables[n].table)
  }

  /** The global arrays of train.c for the first K observations: every
      buffer large enough for its observation, the three tables of one
      observation apart, and no delta or epsilon buffer shared with
      another observation's. */
  ghost predicate Workspace(hmm: Hmm, train: array<Observation>, K: int,
                            alpha: seq<Table>, beta: seq<Table>, delta: seq<Table>, epsilon: seq<Epsilon>)
    reads hmm, train
  {
    && 0 <= K <= train.Length && K <= |alpha| && K <= |beta| && K <= |delta| && K <= |epsilon|
    && (forall n :: 0 <= n < K ==>
          && Room(alpha[n].table, train[n].seqNum, hmm.stateNum) && Room(beta[n].table, train[n].seqNum, hmm.stateNum)
          && Room(delta[n].table, train[n].seqNum, hmm.stateNum) && Room3(epsilon[n].table, train[n].seqNum - 1, hmm.stateNum)
          && Apart(hmm, alpha[n].table, beta[n].table, delta[n].table))
    && forall n, m :: 0 <= n < K && 0 <= m < K && n != m ==>
          && delta[m].table != alpha[n].table && delta[m].table != beta[n].table && delta[m].table != delta[n].table
          && epsilon[m].table != epsilon[n].table
  }

  /** The n loop of main: the E-step of every training sequence. Afterwards
      delta and epsilon hold the posteriors of the batch under the model. */
  method Expectation(hmm: Hmm, ghost p: Lambda, train: array<Observation>, trainNum: int,
                     alpha: seq<Table>, beta: seq<Table>, delta: seq<Table>, epsilon: seq<Epsilon>)
    requires hmm.Stores(p) && Workspace(hmm, train, trainNum, alpha, beta, delta, epsilon)
    requires forall n :: 0 <= n < trainNum ==> Fits(hmm, train[n]) && ForwardProb(p, Symbols(train[n])) != 0.0
    modifies alpha[..trainNum], TablesOf(alpha[..trainNum]), beta[..trainNum], TablesOf(beta[..trainNum])
    modifies delta[..trainNum], TablesOf(delta[..trainNum]), epsilon[..trainNum], SlicesOf(epsilon[..trainNum])
    ensures forall n :: 0 <= n < trainNum ==> delta[n].stateNum == hmm.stateNum && Posteriors(p, train[n], delta[n], epsilon[n])
  {
    for n := 0 to trainNum
      invariant hmm.Stores(p)
      invariant forall m :: 0 <= m < n ==> delta[m].stateNum == hmm.stateNum && Posteriors(p, train[m], delta[m], epsilon[m])
    {
      assert alpha[..trainNum][n] == alpha[n] && beta[..trainNum][n] == beta[n];
      assert delta[..trainNum][n] == delta[n] && epsilon[..trainNum][n] == epsilon[n];
      EStep(hmm, p, train[n], alpha[n], beta[n], delta[n], epsilon[n]);
    }
  }

  /** The posteriors the tables hold, read as the values train_model works on. */
  lemma CountedFromPosteriors(p: Lambda, train: array<Observation>, K: nat, delta: seq<Table>, epsilon: seq<Epsilon>)
    requires K <= train.Length && K <= |delta| && K <= |epsilon|
    requires forall n :: 0 <= n < K ==> Observes(train[n], p.observNum) && Posteriors(p, train[n], delta[n], epsilon[n])
    ensures CountedDelta(CountsOf(p, train[..], K), p.stateNum, delta)
    ensures CountedEpsilon(CountsOf(p, train[..], K), p.stateNum, epsilon)
    ensures CountedSymbols(CountsOf(p, train[..], K), train)
  {
    var c, obs := CountsOf(p, train[..], K), train[..];
    forall n | 0 <= n < K
      ensures 1 <= c.len(n) == delta[n].seqNum && Room(delta[n].table, c.len(n), p.stateNum)
      ensures Room3(epsilon[n].table, c.len(n) - 1, p.stateNum)
      ensures c.len(n) <= |train[n].buffer|
    {
      assert obs[n] == train[n];
    }
    forall n, t, i | 0 <= n < K && 0 <= t < c.len(n) && 0 <= i < p.stateNum
      ensures delta[n].table[t, i] == c.gam(n, t, i)
    {
      assert obs[n] == train[n];
    }
    forall n, t, i, j | 0 <= n < K && 0 <= t < c.len(n) - 1 && 0 <= i < p.stateNum && 0 <= j < p.stateNum
      ensures epsilon[n].table[t, i, j] == c.xi(n, t, i, j)
    {
      assert obs[n] == train[n];
    }
    forall n, t | 0 <= n < K && 0 <= t < c.len(n)
      ensures train[n].buffer[t] == c.sym(n, t)
    {
      assert obs[n] == train[n];
      assert Sym(Symbols(train[n]), t) == train[n].buffer[t];
    }
  }

  // ---------------------------------------------------------------------
  // One iteration of main (train.c:211-221)

  /** What one iteration needs of a model and a batch of K observations:
      readable observations, P(O | lambda) nonzero for each, and nonzero
      denominators in train_model (the C code divides by all of them). */
  ghost predicate Trainable(p: Lambda, obs: seq<Observation>, K: int)
  {
    && 1 <= K <= |obs|
    && (forall n :: 0 <= n < K ==> Observes(obs[n], p.observNum) && ForwardProb(p, Symbols(obs[n])) != 0.0)
    && (forall a :: 0 <= a < p.stateNum ==> TransDen(CountsOf(p, obs, K), a) != 0.0)
    && (forall a :: 0 <= a < p.stateNum ==> EmitDen(CountsOf(p, obs, K), a) != 0.0)
  }

  /** The model one Baum-Welch iteration makes of p on the first K observations. */
  ghost function Update(p: Lambda, obs: seq<Observation>, K: nat): Lambda
  {
    Reestimate(CountsOf(p, obs, K), p.stateNum, p.observNum)
  }

  /** One iteration of the i loop of main: the E-step over the batch, then
      train_model. The model is overwritten with Update of the old one. */
  method TrainIteration(hmm: Hmm, ghost p: Lambda, train: array<Observation>, trainNum: int,
                        alpha: seq<Table>, beta: seq<Table>, delta: seq<Table>, epsilon: seq<Epsilon>)
    requires hmm.Stores(p) && Workspace(hmm, train, trainNum, alpha, beta, delta, epsilon)
    requires Trainable(p, train[..], trainNum)
    modifies hmm.initial, hmm.transition, hmm.observation
    modifies alpha[..trainNum], TablesOf(alpha[..trainNum]), beta[..trainNum], TablesOf(beta[..trainNum])
    modifies delta[..trainNum], TablesOf(delta[..trainNum]), epsilon[..trainNum], SlicesOf(epsilon[..trainNum])
    ensures hmm.Stores(Update(p, train[..], trainNum))
  {
    ghost var obs := train[..];
    forall n | 0 <= n < trainNum
      ensures Fits(hmm, train[n]) && ForwardProb(p, Symbols(train[n])) != 0.0
    {
      assert obs[n] == train[n];
    }
    Expectation(hmm, p, train, trainNum, alpha, beta, delta, epsilon);
    forall n | 0 <= n < trainNum
      ensures Observes(train[n], p.observNum)
    {
      assert obs[n] == train[n];
    }
    CountedFromPosteriors(p, train, trainNum, delta, epsilon);
    TrainModel(hmm, delta, epsilon, train, trainNum, CountsOf(p, obs, trainNum));
  }

  /** One iteration turns a batch the model can train on into a stochastic
      model: the new rows and columns sum to 1. */
  lemma UpdateStochastic(p: Lambda, obs: seq<Observation>, K: nat)
    requires Trainable(p, obs, K)
    ensures Stochastic(Update(p, obs, K))
  {
    var c, N, M := CountsOf(p, obs, K), p.stateNum, p.observNum;
    forall n | 0 <= n < K
      ensures Sum(N, Across(c.gam, n, 0)) == 1.0
    {
      GammaRowSumsToOne(p, Symbols(obs[n]), 0);
      SumExt(N, Across(c.gam, n, 0), GammaRow(p, Symbols(obs[n]), 0));
    }
    forall i, n, t | 0 <= i < N && 0 <= n < K && 0 <= t < c.len(n) - 1
      ensures Sum(N, Across(XiFrom(c, i), n, t)) == c.gam(n, t, i)
    {
      XiMarginal(p, Symbols(obs[n]), t, i);
      SumExt(N, Across(XiFrom(c, i), n, t), Row(XiEntries(p, Symbols(obs[n]), t), i));
    }
    ReestimateStochastic(c, N, M);
  }

  /** One iteration keeps a non-negative model non-negative. */
  lemma UpdateNonNegative(p: Lambda, obs: seq<Observation>, K: nat)
    requires NonNegative(p)
    ensures NonNegative(Update(p, obs, K))
  {
    var c := CountsOf(p, obs, K);
    forall n, t, i | 0 <= n < K && 0 <= t && 0 <= i < p.stateNum
      ensures c.gam(n, t, i) >= 0.0
    {
      if n < |obs| {
        GammaNonNegative(p, Symbols(obs[n]), t, i);
      }
    }
    forall n, t, i, j | 0 <= n < K && 0 <= t && 0 <= i < p.stateNum && 0 <= j < p.stateNum
      ensures c.xi(n, t, i, j) >= 0.0
    {
      if n < |obs| {
        XiNonNegative(p, Symbols(obs[n]), t, i, j);
      }
    }
    ReestimateNonNegative(c, p.stateNum, p.observNum);
  }

  /** The model after k iterations from p. */
  ghost function Iterate(p: Lambda, obs: seq<Observation>, K: nat, k: nat): Lambda
    decreases k
  {
    if k == 0 then p else Iterate(Update(p, obs, K), obs, K, k - 1)
  }

  /** Each of the next k iterations from p can be carried out: every model
      on the way is Trainable on the batch. */
  ghost predicate TrainableFor(p: Lambda, obs: seq<Observation>, K: nat, k: int)
    decreases k
  {
    k <= 0 || (Trainable(p, obs, K) && TrainableFor(Update(p, obs, K), obs, K, k - 1))
  }

  /** The first of k > 0 iterations can be carried out, and so can the
      remaining k - 1 from the model it makes. */
  lemma TrainableNext(p: Lambda, obs: seq<Observation>, K: nat, k: nat)
    requires k > 0 && TrainableFor(p, obs, K, k)
    ensures Trainable(p, obs, K) && TrainableFor(Update(p, obs, K), obs, K, k - 1)
    ensures Iterate(p, obs, K, k) == Iterate(Update(p, obs, K), obs, K, k - 1)
  {
  }

  /** The i loop of main (train.c:211-221): iter iterations, each on the
      model the previous one left; no iteration when iter <= 0. */
  method TrainLoop(hmm: Hmm, ghost p: Lambda, iter: int, train: array<Observation>, trainNum: int,
                   alpha: seq<Table>, beta: seq<Table>, delta: seq<Table>, epsilon: seq<Epsilon>)
    requires hmm.Stores(p) && Workspace(hmm, train, trainNum, alpha, beta, delta, epsilon)
    requires 0 <= trainNum && TrainableFor(p, train[..], trainNum, iter)
    modifies hmm.initial, hmm.transition, hmm.observation
    modifies alpha[..trainNum], TablesOf(alpha[..trainNum]), beta[..trainNum], TablesOf(beta[..trainNum])
    modifies delta[..trainNum], TablesOf(delta[..trainNum]), epsilon[..trainNum], SlicesOf(epsilon[..trainNum])
    ensures hmm.Stores(Iterate(p, train[..], trainNum, if iter > 0 then iter else 0))
  {
    ghost var obs := train[..];
    ghost var total: nat := if iter > 0 then iter else 0;
    ghost var cur, rest := p, total;
    var i := 0;
    while i < iter
      invariant 0 <= i <= total && rest == total - i && obs == train[..]
      invariant hmm.Stores(cur) && Iterate(cur, obs, trainNum, rest) == Iterate(p, obs, trainNum, total)
      invariant TrainableFor(cur, obs, trainNum, rest)
      invariant Workspace(hmm, train, trainNum, alpha, beta, delta, epsilon)
    {
      TrainableNext(cur, obs, trainNum, rest);
      TrainIteration(hmm, cur, train, trainNum, alpha, beta, delta, epsilon);
      cur, rest := Update(cur, obs, trainNum), rest - 1;
      i := i + 1;
    }
  }

  /** Every iterate of a non-negative model is non-negative. */
  lemma {:induction false} IterateNonNegative(p: Lambda, obs: seq<Observation>, K: nat, k: nat)
    requires NonNegative(p)
    ensures NonNegative(Iterate(p, obs, K, k))
    decreases k
  {
    if k > 0 {
      UpdateNonNegative(p, obs, K);
      IterateNonNegative(Update(p, obs, K), obs, K, k - 1);
    }
  }

  /** After k >= 1 iterations that can all be carried out the model is
      stochastic, whatever the initial model was. */
  lemma {:induction false} IterateStochastic(p: Lambda, obs: seq<Observation>, K: nat, k: nat)
    requires k >= 1 && TrainableFor(p, obs, K, k)
    ensures Stochastic(Iterate(p, obs, K, k))
    decreases k
  {
    if k == 1 {
      UpdateStochastic(p, obs, K);
    } else {
      IterateStochastic(Update(p, obs, K), obs, K, k - 1);
    }
  }

  /** A model that one iteration reproduces is reproduced by every number of
      iterations: training started at a fixed point stays there. */
  lemma {:induction false} FixedPointStays(p: Lambda, obs: seq<Observation>, K: nat, k: nat)
    requires Update(p, obs, K) == p
    ensures Iterate(p, obs, K, k) == p
    decreases k
  {
    if k > 0 {
      FixedPointStays(p, obs, K, k - 1);
    }
  }

  // ---------------------------------------------------------------------
  // train_model (train.c:136-183)

  /** The delta tables of the first c.count sequences hold c's state
      posteriors, their lengths are c's, and each has at least one row. */
  ghost predicate CountedDelta(c: Counts, N: int, delta: seq<Table>)
    reads set n | 0 <= n < |delta| && n < c.count :: delta[n]
    reads set n | 0 <= n < |delta| && n < c.count :: delta[n].table
  {
    && c.count <= |delta|
    && (forall n :: 0 <= n < c.count ==> 1 <= c.len(n) == delta[n].seqNum && Room(delta[n].table, c.len(n), N))
    && forall n, t, i {:trigger delta[n].table[t, i]} :: 0 <= n < c.count && 0 <= t < c.len(n) && 0 <= i < N ==>
         delta[n].table[t, i] == c.gam(n, t, i)
  }

  /** The epsilon tables of the first c.count sequences hold c's pair
      posteriors for every t < len - 1. */
  ghost predicate CountedEpsilon(c: Counts, N: int, epsilon: seq<Epsilon>)
    reads set n | 0 <= n < |epsilon| && n < c.count :: epsilon[n].table
  {
    && c.count <= |epsilon|
    && (forall n :: 0 <= n < c.count ==> Room3(epsilon[n].table, c.len(n) - 1, N))
    && forall n, t, i, j {:trigger epsilon[n].table[t, i, j]} ::
         0 <= n < c.count && 0 <= t < c.len(n) - 1 && 0 <= i < N && 0 <= j < N ==>
         epsilon[n].table[t, i, j] == c.xi(n, t, i, j)
  }

  /** The first c.count training sequences hold c's symbols. */
  ghost predicate CountedSymbols(c: Counts, train: array<Observation>)
    reads train
  {
    && c.count <= train.Length
    && (forall n :: 0 <= n < c.count ==> c.len(n) <= |train[n].buffer|)
    && forall n, t {:trigger train[n].buffer[t]} :: 0 <= n < c.count && 0 <= t < c.len(n) ==> train[n].buffer[t] == c.sym(n, t)
  }

  /** train_model: the model is overwritten with the re-estimate from the
      posteriors in delta and epsilon. The C code divides by train_num and
      by both denominators, so those must be nonzero. */
  method TrainModel(hmm: Hmm, delta: seq<Table>, epsilon: seq<Epsilon>, train: array<Observation>, trainNum: int,
                    ghost c: Counts)
    requires hmm.Valid()
    requires 1 <= trainNum == c.count
    requires CountedDelta(c, hmm.stateNum, delta) && CountedEpsilon(c, hmm.stateNum, epsilon)
    requires CountedSymbols(c, train)
    requires forall n :: 0 <= n < trainNum ==> delta[n].table != hmm.transition && delta[n].table != hmm.observation
    requires forall a :: 0 <= a < hmm.stateNum ==> TransDen(c, a) != 0.0
    requires forall a :: 0 <= a < hmm.stateNum ==> EmitDen(c, a) != 0.0
    modifies hmm.initial, hmm.transition, hmm.observation
    ensures hmm.Stores(Reestimate(c, hmm.stateNum, hmm.observNum))
  {
    ghost var r := Reestimate(c, hmm.stateNum, hmm.observNum);
    ReestimateEntries(c, hmm.stateNum, hmm.observNum);
    UpdateInitial(hmm, delta, trainNum, c, r);
    UpdateTransition(hmm, delta, epsilon, trainNum, c, r);
    UpdateObservation(hmm, delta, train, trainNum, c, r);
  }

  /** The first block of train_model (train.c:143-150): initial[i]. */
  method UpdateInitial(hmm: Hmm, delta: seq<Table>, trainNum: int, ghost c: Counts, ghost r: Lambda)
    requires hmm.Valid()
    requires 1 <= trainNum == c.count
    requires CountedDelta(c, hmm.stateNum, delta)
    requires forall i :: 0 <= i < hmm.stateNum ==> Pi(r, i) == Quot(InitialNum(c, i), c.count as real)
    modifies hmm.initial
    ensures forall i :: 0 <= i < hmm.stateNum ==> hmm.initial[i] == Pi(r, i)
  {
    for i := 0 to hmm.stateNum
      invariant forall a :: 0 <= a < i ==> hmm.initial[a] == Pi(r, a)
    {
      var v := InitialEntry(delta, trainNum, i, c, hmm.stateNum);
      hmm.initial[i] := v;
    }
  }

  /** The second block of train_model (train.c:153-165): transition[i][j]. */
  method UpdateTransition(hmm: Hmm, delta: seq<Table>, epsilon: seq<Epsilon>, trainNum: int, ghost c: Counts, ghost r: Lambda)
    requires hmm.Valid()
    requires trainNum == c.count
    requires CountedDelta(c, hmm.stateNum, delta) && CountedEpsilon(c, hmm.stateNum, epsilon)
    requires forall n :: 0 <= n < trainNum ==> delta[n].table != hmm.transition
    requires forall a :: 0 <= a < hmm.stateNum ==> TransDen(c, a) != 0.0
    requires forall i, j :: 0 <= i < hmm.stateNum && 0 <= j < hmm.stateNum ==> A(r, i, j) == Quot(TransNum(c, i, j), TransDen(c, i))
    modifies hmm.transition
    ensures forall a, b {:trigger hmm.transition[a, b]} :: 0 <= a < hmm.stateNum && 0 <= b < hmm.stateNum ==> hmm.transition[a, b] == A(r, a, b)
  {
    for i := 0 to hmm.stateNum
      invariant CountedDelta(c, hmm.stateNum, delta)
      invariant forall a, b {:trigger hmm.transition[a, b]} :: 0 <= a < i && 0 <= b < hmm.stateNum ==> hmm.transition[a, b] == A(r, a, b)
    {
      TransitionRowFill(hmm, delta, epsilon, trainNum, i, c, r);
    }
  }

  /** The third block of train_model (train.c:168-182): observation[k][j]. */
  method UpdateObservation(hmm: Hmm, delta: seq<Table>, train: array<Observation>, trainNum: int, ghost c: Counts, ghost r: Lambda)
    requires hmm.Valid()
    requires trainNum == c.count
    requires CountedDelta(c, hmm.stateNum, delta) && CountedSymbols(c, train)
    requires forall n :: 0 <= n < trainNum ==> delta[n].table != hmm.observation
    requires forall a :: 0 <= a < hmm.stateNum ==> EmitDen(c, a) != 0.0
    requires forall k, j :: 0 <= k < hmm.observNum && 0 <= j < hmm.stateNum ==> B(r, k, j) == Quot(EmitNum(c, k, j), EmitDen(c, j))
    modifies hmm.observation
    ensures forall a, b {:trigger hmm.observation[a, b]} :: 0 <= a < hmm.observNum && 0 <= b < hmm.stateNum ==> hmm.observation[a, b] == B(r, a, b)
  {
    for k := 0 to hmm.observNum
      invariant CountedDelta(c, hmm.stateNum, delta)
      invariant forall a, b {:trigger hmm.observation[a, b]} :: 0 <= a < k && 0 <= b < hmm.stateNum ==> hmm.observation[a, b] == B(r, a, b)
    {
      EmissionRowFill(hmm, delta, train, trainNum, k, c, r);
    }
  }

  /** The j loop for transition[i][*] (train.c:154-164). */
  method TransitionRowFill(hmm: Hmm, delta: seq<Table>, epsilon: seq<Epsilon>, trainNum: int, i: int, ghost c: Counts, ghost r: Lambda)
    requires hmm.Valid() && 0 <= i < hmm.stateNum
    requires trainNum == c.count
    requires CountedDelta(c, hmm.stateNum, delta) && CountedEpsilon(c, hmm.stateNum, epsilon)
    requires forall n :: 0 <= n < trainNum ==> delta[n].table != hmm.transition
    requires forall a :: 0 <= a < hmm.stateNum ==> TransDen(c, a) != 0.0
    requires forall b :: 0 <= b < hmm.stateNum ==> A(r, i, b) == Quot(TransNum(c, i, b), TransDen(c, i))
    modifies hmm.transition
    ensures forall b {:trigger hmm.transition[i, b]} :: 0 <= b < hmm.stateNum ==> hmm.transition[i, b] == A(r, i, b)
    ensures forall a, b {:trigger hmm.transition[a, b]} :: 0 <= a < hmm.transition.Length0 && 0 <= b < hmm.transition.Length1 && a != i ==>
              hmm.transition[a, b] == old(hmm.transition[a, b])
  {
    var N := hmm.stateNum;
    for j := 0 to N
      invariant CountedDelta(c, N, delta)
      invariant forall b {:trigger hmm.transition[i, b]} :: 0 <= b < j ==> hmm.transition[i, b] == A(r, i, b)
      invariant forall a, b {:trigger hmm.transition[a, b]} :: 0 <= a < hmm.transition.Length0 && 0 <= b < hmm.transition.Length1 && a != i ==>
                  hmm.transition[a, b] == old(hmm.transition[a, b])
    {
      TransitionCell(hmm, delta, epsilon, trainNum, i, j, c, r);
    }
  }

  /** One pass of the j loop for transition[i][j] (train.c:155-163). */
  method TransitionCell(hmm: Hmm, delta: seq<Table>, epsilon: seq<Epsilon>, trainNum: int, i: int, j: int, ghost c: Counts, ghost r: Lambda)
    requires hmm.Valid() && 0 <= i < hmm.stateNum && 0 <= j < hmm.stateNum
    requires trainNum == c.count
    requires CountedDelta(c, hmm.stateNum, delta) && CountedEpsilon(c, hmm.stateNum, epsilon)
    requires forall a :: 0 <= a < hmm.stateNum ==> TransDen(c, a) != 0.0
    requires forall b :: 0 <= b < hmm.stateNum ==> A(r, i, b) == Quot(TransNum(c, i, b), TransDen(c, i))
    modifies hmm.transition
    ensures hmm.transition[i, j] == A(r, i, j)
    ensures forall a, b {:trigger hmm.transition[a, b]} :: 0 <= a < hmm.transition.Length0 && 0 <= b < hmm.transition.Length1 && (a != i || b != j) ==>
              hmm.transition[a, b] == old(hmm.transition[a, b])
  {
    var sumEpsilon, sumDelta := TransitionSums(delta, epsilon, trainNum, i, j, c, hmm.stateNum);
    hmm.transition[i, j] := sumEpsilon / sumDelta;
  }

  /** The j loop for observation[k][*] (train.c:169-181). */
  method EmissionRowFill(hmm: Hmm, delta: seq<Table>, train: array<Observation>, trainNum: int, k: int, ghost c: Counts, ghost r: Lambda)
    requires hmm.Valid() && 0 <= k < hmm.observNum
    requires trainNum == c.count
    requires CountedDelta(c, hmm.stateNum, delta) && CountedSymbols(c, train)
    requires forall n :: 0 <= n < trainNum ==> delta[n].table != hmm.observation
    requires forall a :: 0 <= a < hmm.stateNum ==> EmitDen(c, a) != 0.0
    requires forall b :: 0 <= b < hmm.stateNum ==> B(r, k, b) == Quot(EmitNum(c, k, b), EmitDen(c, b))
    modifies hmm.observation
    ensures forall b {:trigger hmm.observation[k, b]} :: 0 <= b < hmm.stateNum ==> hmm.observation[k, b] == B(r, k, b)
    ensures forall a, b {:trigger hmm.observation[a, b]} :: 0 <= a < hmm.observation.Length0 && 0 <= b < hmm.observation.Length1 && a != k ==>
              hmm.observation[a, b] == old(hmm.observation[a, b])
  {
    var N := hmm.stateNum;
    for j := 0 to N
      invariant CountedDelta(c, N, delta)
      invariant forall b {:trigger hmm.observation[k, b]} :: 0 <= b < j ==> hmm.observation[k, b] == B(r, k, b)
      invariant forall a, b {:trigger hmm.observation[a, b]} :: 0 <= a < hmm.observation.Length0 && 0 <= b < hmm.observation.Length1 && a != k ==>
                  hmm.observation[a, b] == old(hmm.observation[a, b])
    {
      EmissionCell(hmm, delta, train, trainNum, k, j, c, r);
    }
  }

  /** One pass of the j loop for observation[k][j] (train.c:170-180). */
  method EmissionCell(hmm: Hmm, delta: seq<Table>, train: array<Observation>, trainNum: int, k: int, j: int, ghost c: Counts, ghost r: Lambda)
    requires hmm.Valid() && 0 <= k < hmm.observNum && 0 <= j < hmm.stateNum
    requires trainNum == c.count
    requires CountedDelta(c, hmm.stateNum, delta) && CountedSymbols(c, train)
    requires forall a :: 0 <= a < hmm.stateNum ==> EmitDen(c, a) != 0.0
    requires forall b :: 0 <= b < hmm.stateNum ==> B(r, k, b) == Quot(EmitNum(c, k, b), EmitDen(c, b))
    modifies hmm.observation
    ensures hmm.observation[k, j] == B(r, k, j)
    ensures forall a, b {:trigger hmm.observation[a, b]} :: 0 <= a < hmm.observation.Length0 && 0 <= b < hmm.observation.Length1 && (a != k || b != j) ==>
              hmm.observation[a, b] == old(hmm.observation[a, b])
  {
    var numerator, denominator := EmissionSums(delta, train, trainNum, k, j, c, hmm.stateNum);
    hmm.observation[k, j] := numerator / denominator;
  }

  /** The n loop for initial[i] (train.c:144-148): the mean of delta[n][0][i]. */
  method InitialEntry(delta: seq<Table>, trainNum: int, i: int, ghost c: Counts, ghost N: int) returns (v: real)
    requires 1 <= trainNum == c.count && 0 <= i < N
    requires CountedDelta(c, N, delta)
    ensures v == Quot(InitialNum(c, i), c.count as real)
  {
    var sum := 0.0;
    for n := 0 to trainNum
      invariant sum == Sum(n, Row(FirstGams(c), i))
    {
      var x := delta[n].table[0, i];
      assert x == Row(FirstGams(c), i)(n);
      sum := sum + x;
    }
    v := sum / trainNum as real;
  }

  /** The n and t loops for transition[i][j] (train.c:155-162): the
      expected transitions from i to j and from i. */
  method TransitionSums(delta: seq<Table>, epsilon: seq<Epsilon>, trainNum: int, i: int, j: int, ghost c: Counts, ghost N: int)
    returns (sumEpsilon: real, sumDelta: real)
    requires trainNum == c.count && 0 <= i < N && 0 <= j < N
    requires CountedDelta(c, N, delta) && CountedEpsilon(c, N, epsilon)
    ensures sumEpsilon == TransNum(c, i, j) && sumDelta == TransDen(c, i)
  {
    sumDelta, sumEpsilon := 0.0, 0.0;
    for n := 0 to trainNum
      invariant sumEpsilon == BatchSum(XiFrom(c, i), Shorter(c.len), n, j)
      invariant sumDelta == BatchSum(c.gam, Shorter(c.len), n, i)
    {
      sumEpsilon, sumDelta := SequenceTransitions(delta, epsilon, n, i, j, c, N, sumEpsilon, sumDelta);
    }
  }

  /** The t loop for transition[i][j] over sequence n (train.c:158-161),
      added to the running sums. */
  method SequenceTransitions(delta: seq<Table>, epsilon: seq<Epsilon>, n: int, i: int, j: int, ghost c: Counts, ghost N: int,
                             e0: real, d0: real) returns (sumEpsilon: real, sumDelta: real)
    requires 0 <= n < c.count && 0 <= i < N && 0 <= j < N
    requires CountedDelta(c, N, delta) && CountedEpsilon(c, N, epsilon)
    requires e0 == BatchSum(XiFrom(c, i), Shorter(c.len), n, j) && d0 == BatchSum(c.gam, Shorter(c.len), n, i)
    ensures sumEpsilon == BatchSum(XiFrom(c, i), Shorter(c.len), n + 1, j)
    ensures sumDelta == BatchSum(c.gam, Shorter(c.len), n + 1, i)
  {
    ghost var H := XiFrom(c, i);
    sumEpsilon, sumDelta := e0, d0;
    for t := 0 to delta[n].seqNum - 1
      invariant sumEpsilon == e0 + Sum(t, Along(H, n, j))
      invariant sumDelta == d0 + Sum(t, Along(c.gam, n, i))
    {
      var x, y := epsilon[n].table[t, i, j], delta[n].table[t, i];
      assert x == Along(H, n, j)(t) && y == Along(c.gam, n, i)(t);
      sumEpsilon := sumEpsilon + x;
      sumDelta := sumDelta + y;
    }
    BatchSumStep(H, Shorter(c.len), n, j, e0, sumEpsilon - e0);
    BatchSumStep(c.gam, Shorter(c.len), n, i, d0, sumDelta - d0);
  }

  /** The n and t loops for observation[k][j] (train.c:170-179): the
      expected visits to j where symbol k was seen, and to j. */
  method EmissionSums(delta: seq<Table>, train: array<Observation>, trainNum: int, k: int, j: int, ghost c: Counts, ghost N: int)
    returns (numerator: real, denominator: real)
    requires trainNum == c.count && 0 <= j < N
    requires CountedDelta(c, N, delta) && CountedSymbols(c, train)
    ensures numerator == EmitNum(c, k, j) && denominator == EmitDen(c, j)
  {
    denominator, numerator := 0.0, 0.0;
    for n := 0 to trainNum
      invariant numerator == BatchSum(GamSeen(c, j), c.len, n, k)
      invariant denominator == BatchSum(c.gam, c.len, n, j)
    {
      numerator, denominator := SequenceEmissions(delta, train, n, k, j, c, N, numerator, denominator);
    }
  }

  /** The t loop for observation[k][j] over sequence n (train.c:173-178),
      added to the running sums. */
  method SequenceEmissions(delta: seq<Table>, train: array<Observation>, n: int, k: int, j: int, ghost c: Counts, ghost N: int,
                           u0: real, d0: real) returns (numerator: real, denominator: real)
    requires 0 <= n < c.count && 0 <= j < N
    requires CountedDelta(c, N, delta) && CountedSymbols(c, train)
    requires u0 == BatchSum(GamSeen(c, j), c.len, n, k) && d0 == BatchSum(c.gam, c.len, n, j)
    ensures numerator == BatchSum(GamSeen(c, j), c.len, n + 1, k)
    ensures denominator == BatchSum(c.gam, c.len, n + 1, j)
  {
    ghost var H := GamSeen(c, j);
    numerator, denominator := u0, d0;
    for t := 0 to delta[n].seqNum
      invariant numerator == u0 + Sum(t, Along(H, n, k))
      invariant denominator == d0 + Sum(t, Along(c.gam, n, j))
    {
      var x := delta[n].table[t, j];
      assert x == Along(c.gam, n, j)(t);
      if train[n].buffer[t] == k {
        numerator := numerator + x;
      }
      assert Along(H, n, k)(t) == (if train[n].buffer[t] == k then x else 0.0);
      denominator := denominator + x;
    }
    BatchSumStep(H, c.len, n, k, u0, numerator - u0);
    BatchSumStep(c.gam, c.len, n, j, d0, denominator - d0);
  }
}
