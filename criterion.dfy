/** The bookkeeping of the multi-task criterion (criterion.py): how the
    constructor's keyword arguments are resolved from the command-line
    namespace, how the fixed head layout slices logits and targets and how
    labels are flattened and masked for logging, and how logging outputs from
    several workers are totalled and dispatched to AUC meters. The loss and
    score arithmetic itself is floating point and stays abstract: scores are
    values of an opaque type `S`, sigmoid and softmax are parameters. */
module Criterion {
  import opened Wrappers

  // ===========================================================================
  // build_criterion: keyword arguments for the constructor
  // ===========================================================================

  /** The five kinds of a Python signature parameter. */
  datatype ParamKind =
    | PositionalOnly
    | PositionalOrKeyword
    | VarPositional
    | KeywordOnly
    | VarKeyword

  /** One parameter of the criterion's constructor signature. */
  datatype Param = Param(name: string, kind: ParamKind, hasDefault: bool)

  /** A value bound to a constructor parameter: the whole namespace (for the
      parameter named `args`) or one attribute of it. */
  datatype Bound<V> = WholeArgs | Attr(value: V)

  /** The two `NotImplementedError`s resolution can raise. */
  datatype BuildError =
    | NotSupported(kind: ParamKind)   // positional-only, *args or **kwargs
    | UnableToInfer                   // no attribute, no default

  predicate Unsupported(k: ParamKind) {
    k == PositionalOnly || k == VarPositional || k == VarKeyword
  }

  /** The parameter receives a value: it is `args`, or the namespace has an
      attribute of that name. */
  predicate Binds<V>(p: Param, ns: map<string, V>) {
    p.name == "args" || p.name in ns
  }

  /** Resolution raises when it reaches this parameter. */
  predicate Fails<V>(p: Param, ns: map<string, V>) {
    Unsupported(p.kind) || (!Binds(p, ns) && !p.hasDefault)
  }

  /** The error raised at a failing parameter. */
  function ErrorAt(p: Param): BuildError {
    if Unsupported(p.kind) then NotSupported(p.kind) else UnableToInfer
  }

  /** `args` takes the namespace itself, whatever attributes it has. */
  function BoundValue<V>(name: string, ns: map<string, V>): Bound<V>
    requires name == "args" || name in ns
  {
    if name == "args" then WholeArgs else Attr(ns[name])
  }

  function BoundNames<V>(params: seq<Param>, ns: map<string, V>): set<string> {
    set i | 0 <= i < |params| && Binds(params[i], ns) :: params[i].name
  }

  /** The keyword arguments of a resolution that raises nothing. */
  function Bindings<V>(params: seq<Param>, ns: map<string, V>): map<string, Bound<V>> {
    map name | name in BoundNames(params, ns) :: BoundValue(name, ns)
  }

  /** Index of the first parameter, in signature order, at which resolution
      raises. */
  function FirstFailure<V>(params: seq<Param>, ns: map<string, V>): (r: Option<nat>)
    ensures r.Some? ==> r.value < |params| && Fails(params[r.value], ns)
    ensures r.Some? ==> forall j :: 0 <= j < r.value ==> !Fails(params[j], ns)
    ensures r.None? ==> forall j :: 0 <= j < |params| ==> !Fails(params[j], ns)
  {
    if params == [] then None
    else if Fails(params[0], ns) then Some(0)
    else match FirstFailure(params[1..], ns)
      case None => None
      case Some(i) => Some(i + 1)
  }

  /** What build_criterion produces: the first offending parameter decides
      the error; otherwise every parameter that is `args` or a namespace
      attribute is bound and every other one (it has a default) is omitted. */
  function Resolve<V>(params: seq<Param>, ns: map<string, V>): (r: Result<map<string, Bound<V>>, BuildError>)
    ensures r.Err? <==> exists i :: 0 <= i < |params| && Fails(params[i], ns)
    ensures r.Err? ==>
      exists i :: 0 <= i < |params| && Fails(params[i], ns) && r.error == ErrorAt(params[i])
        && forall j :: 0 <= j < i ==> !Fails(params[j], ns)
    ensures r.Ok? ==> forall i :: 0 <= i < |params| ==>
      (params[i].name in r.value <==> Binds(params[i], ns))
    ensures r.Ok? ==> forall name :: name in r.value ==>
      exists i :: 0 <= i < |params| && params[i].name == name
    ensures r.Ok? && "args" in r.value ==> r.value["args"] == WholeArgs
    ensures r.Ok? ==> forall name :: name in r.value && name != "args" ==>
      name in ns && r.value[name] == Attr(ns[name])
  {
    match FirstFailure(params, ns)
    case Some(i) => Err(ErrorAt(params[i]))
    case None => Ok(Bindings(params, ns))
  }

  /** Adding one parameter that resolves extends the bindings by at most its
      own entry. */
  lemma {:induction false} BindingsSnoc<V>(params: seq<Param>, p: Param, ns: map<string, V>)
    ensures Bindings(params + [p], ns) ==
      if Binds(p, ns) then Bindings(params, ns)[p.name := BoundValue(p.name, ns)]
      else Bindings(params, ns)
  {
    var ps := params + [p];
    assert forall i :: 0 <= i < |params| ==> ps[i] == params[i];
    assert ps[|params|] == p;
    var withP := BoundNames(ps, ns);
    var without := BoundNames(params, ns);
    if Binds(p, ns) {
      assert withP == without + {p.name};
    } else {
      assert withP == without;
    }
  }

  /** build_criterion: one pass over the signature, filling `init_args`. */
  method BuildCriterion<V>(params: seq<Param>, ns: map<string, V>)
    returns (r: Result<map<string, Bound<V>>, BuildError>)
    ensures r == Resolve(params, ns)
  {
    var initArgs: map<string, Bound<V>> := map[];
    var i := 0;
    while i < |params|
      invariant 0 <= i <= |params|
      invariant forall j :: 0 <= j < i ==> !Fails(params[j], ns)
      invariant initArgs == Bindings(params[..i], ns)
    {
      var p := params[i];
      BindingsSnoc(params[..i], p, ns);
      assert params[..i + 1] == params[..i] + [p];
      if p.kind == PositionalOnly || p.kind == VarPositional || p.kind == VarKeyword {
        return Err(NotSupported(p.kind));
      }
      if p.name == "args" {
        initArgs := initArgs["args" := WholeArgs];
      } else if p.name in ns {
        initArgs := initArgs[p.name := Attr(ns[p.name])];
      } else if p.hasDefault {
      } else {
        return Err(UnableToInfer);
      }
      i := i + 1;
    }
    assert params[..i] == params;
    return Ok(initArgs);
  }

  /** The signature of MultiTaskCriterion's constructor: `(self, args)`. */
  const CriterionSignature: seq<Param> := [Param("args", PositionalOrKeyword, false)]

  /** Whatever the namespace holds, the criterion is built from the namespace
      itself and from nothing else. */
  lemma {:induction false} CriterionAlwaysBuilds<V>(ns: map<string, V>)
    ensures Resolve(CriterionSignature, ns) == Ok(map["args" := WholeArgs])
  {
    var p := CriterionSignature[0];
    assert !Fails(p, ns);
    assert FirstFailure(CriterionSignature[1..], ns) == None;
    assert BoundNames(CriterionSignature, ns) == {"args"};
    assert Bindings(CriterionSignature, ns) == map["args" := WholeArgs];
  }

  // ===========================================================================
  // forward: head layout, flattened binary labels, masked multi-class labels
  // ===========================================================================

  /** The binary head: logits [0, 22) against target columns [0, 22). */
  const BinaryWidth: nat := 22
  /** Class counts of the six multi-class heads, for target columns 22..27. */
  const HeadWidths: seq<nat> := [6, 6, 5, 5, 5, 3]
  /** Row widths of the model's logits, (batch, 52), and targets, (batch, 28). */
  const LogitWidth: nat := 52
  const TargetWidth: nat := 28
  /** The label the cross-entropy loss ignores and the logging masks out. */
  const IgnoreIndex: int := -1

  function Sum(ws: seq<nat>): nat {
    if ws == [] then 0 else Sum(ws[..|ws| - 1]) + ws[|ws| - 1]
  }

  /** The value of `idx` when head k is reached: its first logit. */
  function HeadStart(k: nat): nat
    requires k <= |HeadWidths|
  {
    BinaryWidth + Sum(HeadWidths[..k])
  }

  lemma {:induction false} HeadStartStep(k: nat)
    requires k < |HeadWidths|
    ensures HeadStart(k + 1) == HeadStart(k) + HeadWidths[k]
  {
    assert HeadWidths[..k + 1][..k] == HeadWidths[..k];
  }

  /** The heads start right after the binary logits and end exactly at the
      last logit. */
  lemma {:induction false} HeadStartEnds()
    ensures HeadStart(0) == BinaryWidth
    ensures HeadStart(|HeadWidths|) == LogitWidth
  {
    assert HeadWidths[..0] == [];
    HeadStartStep(0); HeadStartStep(1); HeadStartStep(2);
    HeadStartStep(3); HeadStartStep(4); HeadStartStep(5);
  }

  /** Which target column a head reads and which logits `[start, end)` it
      slices. */
  datatype HeadSlice = HeadSlice(column: nat, start: nat, end: nat)

  /** Every slice is well formed and each one starts where the previous one
      ends. */
  predicate Contiguous(hs: seq<HeadSlice>) {
    && (forall k :: 0 <= k < |hs| ==> hs[k].start <= hs[k].end)
    && (forall k :: 0 <= k < |hs| - 1 ==> hs[k].end == hs[k + 1].start)
  }

  /** Contiguous slices never overlap: an earlier one ends before a later one
      starts. */
  lemma {:induction false} ContiguousSlicesDisjoint(hs: seq<HeadSlice>, k: nat, l: nat)
    requires Contiguous(hs) && k < l < |hs|
    ensures hs[k].end <= hs[l].start
  {
    if l > k + 1 {
      ContiguousSlicesDisjoint(hs, k, l - 1);
    }
  }

  /** The loss loop of forward: `idx` starts after the binary logits and each
      head advances it by its class count. The heads read target columns
      22..27, tile the logits from 22 up to exactly 52, and never overlap. */
  method HeadLayout() returns (heads: seq<HeadSlice>)
    ensures |heads| == |HeadWidths|
    ensures forall k :: 0 <= k < |heads| ==>
      heads[k].column == BinaryWidth + k && heads[k].end == heads[k].start + HeadWidths[k]
    ensures heads[0].start == BinaryWidth && heads[|heads| - 1].end == LogitWidth
    ensures Contiguous(heads)
    ensures forall k, l :: 0 <= k < l < |heads| ==> heads[k].end <= heads[l].start
  {
    heads := [];
    var idx := BinaryWidth;
    var k := 0;
    while k < |HeadWidths|
      invariant 0 <= k <= |HeadWidths| && |heads| == k
      invariant idx == HeadStart(k)
      invariant forall j :: 0 <= j < k ==>
        heads[j] == HeadSlice(BinaryWidth + j, HeadStart(j), HeadStart(j) + HeadWidths[j])
    {
      HeadStartStep(k);
      heads := heads + [HeadSlice(BinaryWidth + k, idx, idx + HeadWidths[k])];
      idx := idx + HeadWidths[k];
      k := k + 1;
    }
    HeadStartEnds();
    HeadStartStep(|HeadWidths| - 1);
    forall k | 0 <= k < |heads| - 1 ensures heads[k].end == heads[k + 1].start {
      HeadStartStep(k);
    }
    forall k, l | 0 <= k < l < |heads| ensures heads[k].end <= heads[l].start {
      ContiguousSlicesDisjoint(heads, k, l);
    }
  }

  /** Every row is at least `cols` wide. */
  predicate AtLeastCols<T>(m: seq<seq<T>>, cols: nat) {
    forall r :: 0 <= r < |m| ==> cols <= |m[r]|
  }

  /** `m[:, c]`. */
  function Column<T>(m: seq<seq<T>>, c: nat): seq<T>
    requires AtLeastCols(m, c + 1)
  {
    seq(|m|, r requires 0 <= r < |m| => m[r][c])
  }

  /** `m.T[:cols].flatten()`: column 0 of every row, then column 1, and so on. */
  function FlattenColumns<T>(m: seq<seq<T>>, cols: nat): seq<T>
    requires AtLeastCols(m, cols)
  {
    if cols == 0 then [] else FlattenColumns(m, cols - 1) + Column(m, cols - 1)
  }

  /** `sum([[i for _ in range(n)] for i in range(cols)], [])`. */
  function ClassIds(n: nat, cols: nat): seq<nat> {
    if cols == 0 then [] else ClassIds(n, cols - 1) + seq(n, _ => cols - 1)
  }

  lemma {:induction false} PositiveFactor(a: int, n: int)
    requires n > 0 && a * n > 0
    ensures a > 0
  {
  }

  lemma {:induction false} DivModInBlock(c: nat, r: nat, n: nat)
    requires r < n
    ensures (c * n + r) / n == c && (c * n + r) % n == r
  {
    var j := c * n + r;
    var d := j / n - c;
    assert d * n == r - j % n;
    assert (d + 1) * n == d * n + n;
    assert (1 - d) * n == n - d * n;
    PositiveFactor(d + 1, n);
    PositiveFactor(1 - d, n);
  }

  /** Index j falls in the block of column c. */
  lemma {:induction false} BlockBounds(j: nat, c: nat, n: nat)
    requires c * n <= j < c * n + n
    ensures j / n == c && j % n == j - c * n
  {
    DivModInBlock(c, j - c * n, n);
  }

  lemma {:induction false} FlattenColumnsLength<T>(m: seq<seq<T>>, cols: nat)
    requires AtLeastCols(m, cols)
    ensures |FlattenColumns(m, cols)| == cols * |m|
  {
    if cols > 0 {
      FlattenColumnsLength(m, cols - 1);
      assert (cols - 1) * |m| + |m| == cols * |m|;
    }
  }

  /** The label at row r, column c lands at position `c * n + r` of the
      flattened labels. */
  lemma {:induction false} FlattenColumnsEntry<T>(m: seq<seq<T>>, cols: nat, r: nat, c: nat)
    requires AtLeastCols(m, cols) && r < |m| && c < cols
    ensures c * |m| + r < |FlattenColumns(m, cols)|
    ensures FlattenColumns(m, cols)[c * |m| + r] == m[r][c]
  {
    var n := |m|;
    FlattenColumnsLength(m, cols);
    FlattenColumnsLength(m, cols - 1);
    var before := (cols - 1) * n;
    assert before + n == cols * n;
    if c < cols - 1 {
      FlattenColumnsEntry(m, cols - 1, r, c);
    } else {
      assert c * n + r == before + r;
    }
  }

  /** Entry j of the flattened labels comes from row `j % n`, column `j / n`:
      the binary labels are laid out column by column. */
  lemma {:induction false} FlattenColumnsAt<T>(m: seq<seq<T>>, cols: nat, j: nat)
    requires AtLeastCols(m, cols) && j < cols * |m|
    ensures |FlattenColumns(m, cols)| == cols * |m|
    ensures j / |m| < cols && FlattenColumns(m, cols)[j] == m[j % |m|][j / |m|]
  {
    var n := |m|;
    FlattenColumnsLength(m, cols);
    var c, r := j / n, j % n;
    assert j == c * n + r;
    assert (cols - c) * n == cols * n - c * n;
    PositiveFactor(cols - c, n);
    FlattenColumnsEntry(m, cols, r, c);
  }

  /** `y_class` holds 22 * n entries and entry j is `j / n`: the column of the
      label at the same position of the flattened `y_true`. */
  lemma {:induction false} ClassIdsAt(n: nat, cols: nat)
    ensures |ClassIds(n, cols)| == cols * n
    ensures forall j :: 0 <= j < cols * n ==> ClassIds(n, cols)[j] == j / n
  {
    if cols > 0 {
      ClassIdsAt(n, cols - 1);
      forall j | 0 <= j < cols * n ensures ClassIds(n, cols)[j] == j / n {
        if j < (cols - 1) * n {
        } else {
          BlockBounds(j, cols - 1, n);
        }
      }
    }
  }

  /** Indices of the rows whose label is not the ignore index, in order. */
  function KeptRows(ys: seq<int>): (rows: seq<nat>)
    ensures forall k :: 0 <= k < |rows| ==> rows[k] < |ys| && ys[rows[k]] != IgnoreIndex
    ensures forall k, l :: 0 <= k < l < |rows| ==> rows[k] < rows[l]
    ensures forall i :: 0 <= i < |ys| && ys[i] != IgnoreIndex ==> i in rows
  {
    if ys == [] then []
    else
      var rest := KeptRows(ys[..|ys| - 1]);
      if ys[|ys| - 1] != IgnoreIndex then rest + [|ys| - 1] else rest
  }

  /** `np.where(y_true != -1)` applied to the labels and to the score rows
      alike: the kept labels and scores are those of the rows in KeptRows, in
      the same order, so no -1 label survives and the pairs stay aligned. */
  function Mask<X>(ys: seq<int>, xs: seq<X>): (r: (seq<int>, seq<X>))
    requires |ys| == |xs|
    ensures |r.0| == |r.1| == |KeptRows(ys)|
    ensures forall k :: 0 <= k < |r.0| ==>
      r.0[k] == ys[KeptRows(ys)[k]] && r.1[k] == xs[KeptRows(ys)[k]]
    ensures IgnoreIndex !in r.0
  {
    if ys == [] then ([], [])
    else
      var rest := Mask(ys[..|ys| - 1], xs[..|xs| - 1]);
      if ys[|ys| - 1] != IgnoreIndex then (rest.0 + [ys[|ys| - 1]], rest.1 + [xs[|xs| - 1]])
      else rest
  }

  /** What forward logs for one multi-class head (`multiclass_y_true_<col>`
      and `multiclass_y_score_<col>`). */
  datatype HeadOutput<S> = HeadOutput(column: nat, yTrue: seq<int>, yScore: seq<seq<S>>)

  /** The logging output of forward, without the floating-point loss. */
  datatype LoggingOutput<S> = LoggingOutput(
    batchSize: nat,
    sampleSize: nat,
    binaryYTrue: seq<int>,
    binaryYScore: seq<S>,
    binaryYClass: seq<nat>,
    heads: seq<HeadOutput<S>>)

  /** `torch.sigmoid(logits)`, elementwise. */
  function MapMatrix<S>(f: S -> S, m: seq<seq<S>>): (r: seq<seq<S>>)
    ensures |r| == |m| && forall i :: 0 <= i < |m| ==> |r[i]| == |m[i]|
  {
    seq(|m|, i requires 0 <= i < |m| => seq(|m[i]|, j requires 0 <= j < |m[i]| => f(m[i][j])))
  }

  /** `torch.softmax(logits[:, lo:hi], dim=-1)`, one row at a time. */
  function SoftmaxRows<S>(softmax: seq<S> -> seq<S>, logits: seq<seq<S>>, lo: nat, hi: nat): seq<seq<S>>
    requires lo <= hi && AtLeastCols(logits, hi)
  {
    seq(|logits|, r requires 0 <= r < |logits| => softmax(logits[r][lo..hi]))
  }

  /** The shapes forward asserts: logits (batch, 52), targets (batch, 28). */
  predicate Shaped<S>(logits: seq<seq<S>>, target: seq<seq<int>>) {
    && |logits| == |target|
    && (forall r :: 0 <= r < |logits| ==> |logits[r]| == LogitWidth)
    && (forall r :: 0 <= r < |target| ==> |target[r]| == TargetWidth)
  }

  /** One iteration of the logging loop: target column 22 + k and the
      softmax of the logits `[lo, lo + width)`, masked together. */
  function HeadLogAt<S>(logits: seq<seq<S>>, target: seq<seq<int>>, softmax: seq<S> -> seq<S>, k: nat, lo: nat): (r: HeadOutput<S>)
    requires k < |HeadWidths| && Shaped(logits, target) && lo + HeadWidths[k] <= LogitWidth
    ensures r.column == BinaryWidth + k
  {
    var scores := SoftmaxRows(softmax, logits, lo, lo + HeadWidths[k]);
    var masked := Mask(Column(target, BinaryWidth + k), scores);
    HeadOutput(BinaryWidth + k, masked.0, masked.1)
  }

  /** What head k logs: its iteration at the logit where the head starts. */
  function HeadLog<S>(logits: seq<seq<S>>, target: seq<seq<int>>, softmax: seq<S> -> seq<S>, k: nat): (r: HeadOutput<S>)
    requires k < |HeadWidths| && Shaped(logits, target)
    ensures r.column == BinaryWidth + k
  {
    HeadStartStep(k);
    HeadStartMonotone(k + 1, |HeadWidths|);
    HeadStartEnds();
    HeadLogAt(logits, target, softmax, k, HeadStart(k))
  }

  /** The logging part of forward. The batch size is the number of target
      rows and the sample size is always 1; the binary labels, scores and
      class ids are the column-major flattenings described by
      FlattenColumnsAt and ClassIdsAt; head k logs target column 22 + k and
      the softmax of the logits HeadLayout assigns to it, both masked by
      Mask. */
  method Forward<S>(logits: seq<seq<S>>, target: seq<seq<int>>, sigmoid: S -> S, softmax: seq<S> -> seq<S>)
    returns (out: LoggingOutput<S>)
    requires Shaped(logits, target)
    ensures out.batchSize == |target| && out.sampleSize == 1
    ensures out.binaryYTrue == FlattenColumns(target, BinaryWidth)
    ensures out.binaryYScore == FlattenColumns(MapMatrix(sigmoid, logits), BinaryWidth)
    ensures out.binaryYClass == ClassIds(|target|, BinaryWidth)
    ensures |out.heads| == |HeadWidths|
    ensures forall k :: 0 <= k < |HeadWidths| ==> out.heads[k] == HeadLog(logits, target, softmax, k)
  {
    var sampleSize := 1;
    var idx := BinaryWidth;
    var yClass := ClassIds(|target|, idx);
    var yTrue := FlattenColumns(target, idx);
    var yScore := FlattenColumns(MapMatrix(sigmoid, logits), idx);
    HeadStartEnds();
    var heads: seq<HeadOutput<S>> := [];
    var k := 0;
    while k < |HeadWidths|
      invariant 0 <= k <= |HeadWidths| && |heads| == k
      invariant idx == HeadStart(k)
      invariant heads == HeadLogs(logits, target, softmax, k)
    {
      HeadStartStep(k);
      HeadStartMonotone(k + 1, |HeadWidths|);
      var head := HeadLogAt(logits, target, softmax, k, idx);
      heads := heads + [head];
      idx := idx + HeadWidths[k];
      k := k + 1;
    }
    out := LoggingOutput(|target|, sampleSize, yTrue, yScore, yClass, heads);
    forall k | 0 <= k < |HeadWidths| ensures out.heads[k] == HeadLog(logits, target, softmax, k) {
      HeadLogsAt(logits, target, softmax, |HeadWidths|, k);
    }
  }

  /** The logs of heads 0 to k - 1, in head order. */
  function HeadLogs<S>(logits: seq<seq<S>>, target: seq<seq<int>>, softmax: seq<S> -> seq<S>, k: nat): (r: seq<HeadOutput<S>>)
    requires k <= |HeadWidths| && Shaped(logits, target)
    ensures |r| == k
  {
    if k == 0 then [] else HeadLogs(logits, target, softmax, k - 1) + [HeadLog(logits, target, softmax, k - 1)]
  }

  lemma {:induction false} HeadLogsAt<S>(logits: seq<seq<S>>, target: seq<seq<int>>, softmax: seq<S> -> seq<S>, k: nat, j: nat)
    requires j < k <= |HeadWidths| && Shaped(logits, target)
    ensures HeadLogs(logits, target, softmax, k)[j] == HeadLog(logits, target, softmax, j)
  {
    if j < k - 1 {
      HeadLogsAt(logits, target, softmax, k - 1, j);
    }
  }

  lemma {:induction false} HeadStartMonotone(k: nat, l: nat)
    requires k <= l <= |HeadWidths|
    ensures HeadStart(k) <= HeadStart(l)
  {
    if k < l {
      HeadStartMonotone(k, l - 1);
      HeadStartStep(l - 1);
    }
  }

  /** The binary labels, scores and class ids forward logs line up entry by
      entry: position j holds row `j % n`, column `j / n`, and the class id
      recorded there is that column. */
  lemma {:induction false} BinaryLogAligned<S>(logits: seq<seq<S>>, target: seq<seq<int>>, sigmoid: S -> S, j: nat)
    requires Shaped(logits, target) && j < BinaryWidth * |target|
    ensures |FlattenColumns(target, BinaryWidth)| == |ClassIds(|target|, BinaryWidth)| == BinaryWidth * |target|
    ensures |FlattenColumns(MapMatrix(sigmoid, logits), BinaryWidth)| == BinaryWidth * |target|
    ensures j / |target| < BinaryWidth
    ensures ClassIds(|target|, BinaryWidth)[j] == j / |target|
    ensures FlattenColumns(target, BinaryWidth)[j] == target[j % |target|][j / |target|]
    ensures FlattenColumns(MapMatrix(sigmoid, logits), BinaryWidth)[j] == sigmoid(logits[j % |target|][j / |target|])
  {
    FlattenColumnsAt(target, BinaryWidth, j);
    FlattenColumnsAt(MapMatrix(sigmoid, logits), BinaryWidth, j);
    ClassIdsAt(|target|, BinaryWidth);
  }

  // ===========================================================================
  // reduce_metrics: totals and AUC dispatch over the workers' logging outputs
  // ===========================================================================

  /** One logging output as reduce_metrics sees it: its keys in insertion
      order and the values of its integer-valued entries. Nothing ties the
      domain of `counts` to `keys`, so the lemmas also cover records that no
      Python dict yields; that only widens what they state. */
  datatype LogRecord = LogRecord(keys: seq<string>, counts: map<string, int>)

  /** `log.get(key, 0)`. */
  function GetCount(log: LogRecord, key: string): int {
    if key in log.counts then log.counts[key] else 0
  }

  /** `sum(log.get(key, 0) for log in logging_outputs)`. */
  function SumCount(logs: seq<LogRecord>, key: string): int {
    if logs == [] then 0 else SumCount(logs[..|logs| - 1], key) + GetCount(logs[|logs| - 1], key)
  }

  /** `sample_size or 1`. */
  function LossDivisor(sampleSize: int): int {
    if sampleSize == 0 then 1 else sampleSize
  }

  /** What reduce_metrics hands to the metrics module. */
  datatype MetricEvent =
    | LossScalar(weight: int, divisor: int)  // log_scalar("loss", loss_sum / divisor / log 2, weight)
    | BatchSizeScalar(total: int)            // log_scalar("batch_size", total)
    | BinaryAuc                              // log_custom(AUCMeter, "_auc", ...) for the binary head
    | MulticlassAuc(suffix: string, cls: int)  // the same for one multi-class column

  /** The exceptions reduce_metrics can raise: `logging_outputs[0]` of an
      empty list, `np.concatenate` of an empty list, `int()` of a suffix that
      is not an integer literal. */
  datatype ReduceError = IndexError | EmptyConcat(key: string) | InvalidLiteral(text: string)

  /** The events issued, and the exception that ended the call, if any. */
  datatype Reduction = Reduction(events: seq<MetricEvent>, error: Option<ReduceError>)

  /** The key set of criterion.py as the intent reads: six separate keys. */
  const BuiltinKeys: set<string> :=
    {"loss", "batch_size", "sample_size", "binary_y_true", "binary_y_score", "binary_y_class"}

  /** The key set as written: without a comma, Python joins the last two
      string literals into one key. */
  const BuiltinKeysAsWritten: set<string> :=
    {"loss", "batch_size", "sample_size", "binary_y_true", "binary_y_score" + "binary_y_class"}

  const MulticlassPrefix: string := "multiclass"

  /** `k.startswith("multiclass")`. */
  predicate IsMulticlassKey(k: string) {
    |k| >= |MulticlassPrefix| && k[..|MulticlassPrefix|] == MulticlassPrefix
  }

  /** `k[-2:]`. */
  function LastTwo(k: string): string {
    if |k| >= 2 then k[|k| - 2..] else k
  }

  function TrueKey(suffix: string): string { "multiclass_y_true_" + suffix }
  function ScoreKey(suffix: string): string { "multiclass_y_score_" + suffix }

  /** Some logging output has the key, so concatenating it has an array. */
  predicate AnyHasKey(logs: seq<LogRecord>, key: string) {
    exists i :: 0 <= i < |logs| && key in logs[i].keys
  }

  predicate IsDigit(ch: char) { '0' <= ch <= '9' }

  /** The ASCII characters `int()` strips as whitespace: space and `\t\n\v\f\r`.
      The separators 0x1c..0x1f count as space for `str.strip`, not for `int()`. */
  predicate IsSpace(ch: char) {
    ch == ' ' || ch == '\t' || ch == '\n' || ch == '\r' || ch == '\U{0B}' || ch == '\U{0C}'
  }

  function StripLeft(s: string): string {
    if s != [] && IsSpace(s[0]) then StripLeft(s[1..]) else s
  }

  function StripRight(s: string): string {
    if s != [] && IsSpace(s[|s| - 1]) then StripRight(s[..|s| - 1]) else s
  }

  predicate AllDigits(s: string) {
    forall i :: 0 <= i < |s| ==> IsDigit(s[i])
  }

  function DigitsValue(s: string): nat
    requires AllDigits(s)
  {
    if s == [] then 0 else 10 * DigitsValue(s[..|s| - 1]) + (s[|s| - 1] as int - '0' as int)
  }

  /** `int(s)` on ASCII text: surrounding whitespace, an optional sign, then
      at least one decimal digit. */
  function PyInt(s: string): Option<int> {
    var t := StripRight(StripLeft(s));
    if t != [] && (t[0] == '+' || t[0] == '-') && t[1..] != [] && AllDigits(t[1..]) then
      var magnitude: int := DigitsValue(t[1..]);
      Some(if t[0] == '-' then -magnitude else magnitude)
    else if t != [] && AllDigits(t) then Some(DigitsValue(t))
    else None
  }
  /** `int()` strips a leading space but not the separator 0x1c. */
  lemma PyIntSeparatorNotSpace()
    ensures PyInt(" 7") == Some(7)
    ensures PyInt("\U{1C}7") == None
  {
    assert StripLeft(" 7") == StripLeft("7") == "7";
    assert StripLeft("\U{1C}7") == "\U{1C}7";
  }


  function DigitChar(d: nat): char
    requires d < 10
  {
    ('0' as int + d) as char
  }

  /** `f"{c}"`: the decimal digits of c. */
  function Decimal(c: nat): string
    decreases c
  {
    if c < 10 then [DigitChar(c)] else Decimal(c / 10) + [DigitChar(c % 10)]
  }

  lemma {:induction false} DecimalDigits(c: nat)
    ensures Decimal(c) != [] && AllDigits(Decimal(c)) && DigitsValue(Decimal(c)) == c
    ensures 10 <= c < 100 ==> |Decimal(c)| == 2
    decreases c
  {
    var d := Decimal(c);
    if c >= 10 {
      DecimalDigits(c / 10);
      assert d[..|d| - 1] == Decimal(c / 10);
    }
  }

  /** Reading back the decimal text of a column number gives the number. */
  lemma {:induction false} PyIntDecimal(c: nat)
    ensures PyInt(Decimal(c)) == Some(c)
  {
    var d := Decimal(c);
    DecimalDigits(c);
    assert !IsSpace(d[0]) && !IsSpace(d[|d| - 1]);
    assert StripRight(StripLeft(d)) == d;
  }

  /** Distinct column numbers have distinct decimal texts. */
  lemma {:induction false} DecimalInjective(c: nat, c': nat)
    requires Decimal(c) == Decimal(c')
    ensures c == c'
  {
    PyIntDecimal(c);
    PyIntDecimal(c');
  }

  /** The keys a multi-class key adds to `builtin_keys`. */
  function PairKeys(k: string): set<string> {
    {TrueKey(LastTwo(k)), ScoreKey(LastTwo(k))}
  }

  /** The work reduce_metrics does for one multi-class key: concatenate the
      `multiclass_y_true_` and `multiclass_y_score_` arrays of its last two
      characters (each needs at least one output holding it) and read those
      characters as the class number. */
  function VisitMulticlass(logs: seq<LogRecord>, k: string): Result<MetricEvent, ReduceError> {
    var suffix := LastTwo(k);
    if !AnyHasKey(logs, TrueKey(suffix)) then Err(EmptyConcat(TrueKey(suffix)))
    else if !AnyHasKey(logs, ScoreKey(suffix)) then Err(EmptyConcat(ScoreKey(suffix)))
    else match PyInt(suffix)
      case None => Err(InvalidLiteral(suffix))
      case Some(cls) => Ok(MulticlassAuc(suffix, cls))
  }

  /** The per-key loop of reduce_metrics, from some key onwards with the
      current `builtin_keys`: a key that is builtin or does not start with
      "multiclass" is passed over; any other key is visited, adds its pair of
      keys to `builtin_keys` and logs one AUC. */
  function Dispatch(logs: seq<LogRecord>, keys: seq<string>, builtin: set<string>): Reduction
    decreases |keys|
  {
    if keys == [] then Reduction([], None)
    else if keys[0] in builtin || !IsMulticlassKey(keys[0]) then Dispatch(logs, keys[1..], builtin)
    else match VisitMulticlass(logs, keys[0])
      case Err(e) => Reduction([], Some(e))
      case Ok(event) =>
        var rest := Dispatch(logs, keys[1..], builtin + PairKeys(keys[0]));
        Reduction([event] + rest.events, rest.error)
  }

  predicate HasBinaryPair(log: LogRecord) {
    "binary_y_true" in log.keys && "binary_y_score" in log.keys
  }

  /** reduce_metrics: the two scalars, then (reading `logging_outputs[0]`)
      the binary AUC and the per-key dispatch. */
  function Reduce(logs: seq<LogRecord>): Reduction {
    var sampleSize := SumCount(logs, "sample_size");
    var scalars := [LossScalar(sampleSize, LossDivisor(sampleSize)), BatchSizeScalar(SumCount(logs, "batch_size"))];
    if logs == [] then Reduction(scalars, Some(IndexError))
    else if HasBinaryPair(logs[0]) && !AnyHasKey(logs, "binary_y_class") then
      Reduction(scalars, Some(EmptyConcat("binary_y_class")))
    else
      var binary := if HasBinaryPair(logs[0]) then [BinaryAuc] else [];
      var rest := Dispatch(logs, logs[0].keys, BuiltinKeys);
      Reduction(scalars + binary + rest.events, rest.error)
  }

  /** The per-key loop of reduce_metrics, appending to the events logged so
      far. `builtin_keys` starts as the set as written, missing comma
      included, and grows as multi-class keys are met; the result is that of
      the intended set. */
  method DispatchKeys(logs: seq<LogRecord>, keys: seq<string>, logged: seq<MetricEvent>) returns (red: Reduction)
    ensures var rest := Dispatch(logs, keys, BuiltinKeys);
      red == Reduction(logged + rest.events, rest.error)
  {
    var events := logged;
    var builtin := BuiltinKeysAsWritten;
    ghost var whole := Dispatch(logs, keys, builtin);
    MissingCommaHarmless(logs, keys);
    assert keys[0..] == keys;
    var i := 0;
    while i < |keys|
      invariant 0 <= i <= |keys|
      invariant var rest := Dispatch(logs, keys[i..], builtin);
        Reduction(events + rest.events, rest.error) == Reduction(logged + whole.events, whole.error)
    {
      var k := keys[i];
      ghost var old_builtin := builtin;
      if k !in builtin && IsMulticlassKey(k) {
        var visit := VisitMulticlass(logs, k);
        DispatchVisit(logs, keys, i, builtin);
        if visit.Err? {
          return Reduction(events, Some(visit.error));
        }
        var suffix := LastTwo(k);
        builtin := builtin + {TrueKey(suffix), ScoreKey(suffix)};
        assert builtin == old_builtin + PairKeys(k);
        ghost var rest := Dispatch(logs, keys[i + 1..], builtin);
        assert events + ([visit.value] + rest.events) == events + [visit.value] + rest.events;
        events := events + [visit.value];
      } else {
        DispatchSkip(logs, keys, i, builtin);
      }
      i := i + 1;
    }
    assert keys[i..] == [];
    return Reduction(events, None);
  }

  /** reduce_metrics: the two scalars, the binary AUC when the first output
      holds the binary pair, then the per-key loop. */
  method ReduceMetrics(logs: seq<LogRecord>) returns (red: Reduction)
    ensures red == Reduce(logs)
  {
    var sampleSize := SumCount(logs, "sample_size");
    var batchSize := SumCount(logs, "batch_size");
    var events := [LossScalar(sampleSize, LossDivisor(sampleSize)), BatchSizeScalar(batchSize)];
    if |logs| == 0 {
      return Reduction(events, Some(IndexError));
    }
    if HasBinaryPair(logs[0]) {
      if !AnyHasKey(logs, "binary_y_class") {
        return Reduction(events, Some(EmptyConcat("binary_y_class")));
      }
      events := events + [BinaryAuc];
    }
    red := DispatchKeys(logs, logs[0].keys, events);
  }

  /** The key loop passes over a builtin key or one that does not start
      with "multiclass". */
  lemma {:induction false} DispatchSkip(logs: seq<LogRecord>, keys: seq<string>, i: nat, builtin: set<string>)
    requires i < |keys| && (keys[i] in builtin || !IsMulticlassKey(keys[i]))
    ensures Dispatch(logs, keys[i..], builtin) == Dispatch(logs, keys[i + 1..], builtin)
  {
    assert keys[i..][0] == keys[i] && keys[i..][1..] == keys[i + 1..];
  }

  /** The key loop visits any other key: an exception ends it, otherwise it
      logs the key's AUC and carries on with the pair's keys builtin. */
  lemma {:induction false} DispatchVisit(logs: seq<LogRecord>, keys: seq<string>, i: nat, builtin: set<string>)
    requires i < |keys| && keys[i] !in builtin && IsMulticlassKey(keys[i])
    ensures VisitMulticlass(logs, keys[i]).Err? ==>
      Dispatch(logs, keys[i..], builtin) == Reduction([], Some(VisitMulticlass(logs, keys[i]).error))
    ensures VisitMulticlass(logs, keys[i]).Ok? ==>
      var rest := Dispatch(logs, keys[i + 1..], builtin + PairKeys(keys[i]));
      Dispatch(logs, keys[i..], builtin) == Reduction([VisitMulticlass(logs, keys[i]).value] + rest.events, rest.error)
  {
    assert keys[i..][0] == keys[i] && keys[i..][1..] == keys[i + 1..];
  }

  /** The dispatch loop raises only concatenation and literal errors. */
  lemma {:induction false} DispatchNeverIndexError(logs: seq<LogRecord>, keys: seq<string>, builtin: set<string>)
    ensures Dispatch(logs, keys, builtin).error != Some(IndexError)
    decreases |keys|
  {
    if keys != [] {
      DispatchNeverIndexError(logs, keys[1..], builtin);
      DispatchNeverIndexError(logs, keys[1..], builtin + PairKeys(keys[0]));
    }
  }

  /** The totals count a missing key as 0 (SumCount). The loss scalar's
      divisor is the summed sample size, or 1 when that sum is 0. The batch
      size is the plain sum. An empty list of outputs raises IndexError right
      after the two scalars, and nothing else does. */
  lemma {:induction false} ReduceTotals(logs: seq<LogRecord>)
    ensures var red := Reduce(logs);
      && |red.events| >= 2
      && red.events[0] == LossScalar(SumCount(logs, "sample_size"), red.events[0].divisor)
      && red.events[0].divisor != 0
      && (SumCount(logs, "sample_size") != 0 ==> red.events[0].divisor == SumCount(logs, "sample_size"))
      && (SumCount(logs, "sample_size") == 0 ==> red.events[0].divisor == 1)
      && red.events[1] == BatchSizeScalar(SumCount(logs, "batch_size"))
      && (red.error == Some(IndexError) <==> logs == [])
  {
    if logs != [] {
      DispatchNeverIndexError(logs, logs[0].keys, BuiltinKeys);
    }
  }

  /** The keys of a sequence that start with "multiclass", in order. */
  function MulticlassKeys(keys: seq<string>): seq<string> {
    if keys == [] then []
    else (if IsMulticlassKey(keys[0]) then [keys[0]] else []) + MulticlassKeys(keys[1..])
  }

  /** Keys that do not start with "multiclass" never trigger a per-class
      log: dispatch over the multi-class keys alone gives the same events and
      the same error. */
  lemma {:induction false} DispatchIgnoresOtherKeys(logs: seq<LogRecord>, keys: seq<string>, builtin: set<string>)
    ensures Dispatch(logs, keys, builtin) == Dispatch(logs, MulticlassKeys(keys), builtin)
    decreases |keys|
  {
    if keys != [] {
      var k := keys[0];
      DispatchIgnoresOtherKeys(logs, keys[1..], builtin);
      DispatchIgnoresOtherKeys(logs, keys[1..], builtin + PairKeys(k));
      if IsMulticlassKey(k) {
        var mk := MulticlassKeys(keys);
        assert mk == [k] + MulticlassKeys(keys[1..]);
        assert mk != [] && mk[0] == k && mk[1..] == MulticlassKeys(keys[1..]);
      } else {
        assert MulticlassKeys(keys) == MulticlassKeys(keys[1..]);
      }
    }
  }

  /** With no key starting with "multiclass", dispatch logs nothing. */
  lemma {:induction false} NoMulticlassKeyNoLog(logs: seq<LogRecord>, keys: seq<string>, builtin: set<string>)
    requires forall i :: 0 <= i < |keys| ==> !IsMulticlassKey(keys[i])
    ensures Dispatch(logs, keys, builtin) == Reduction([], None)
  {
    assert MulticlassKeys(keys) == [] by {
      NoMulticlassKeys(keys);
    }
    DispatchIgnoresOtherKeys(logs, keys, builtin);
  }

  lemma {:induction false} NoMulticlassKeys(keys: seq<string>)
    requires forall i :: 0 <= i < |keys| ==> !IsMulticlassKey(keys[i])
    ensures MulticlassKeys(keys) == []
  {
    if keys != [] {
      NoMulticlassKeys(keys[1..]);
    }
  }

  /** Two builtin sets that agree on every key starting with "multiclass"
      dispatch alike. */
  lemma {:induction false} DispatchDependsOnMulticlassBuiltins(
    logs: seq<LogRecord>, keys: seq<string>, b1: set<string>, b2: set<string>)
    requires forall k :: IsMulticlassKey(k) ==> (k in b1 <==> k in b2)
    ensures Dispatch(logs, keys, b1) == Dispatch(logs, keys, b2)
    decreases |keys|
  {
    if keys != [] {
      var added := PairKeys(keys[0]);
      DispatchDependsOnMulticlassBuiltins(logs, keys[1..], b1, b2);
      DispatchDependsOnMulticlassBuiltins(logs, keys[1..], b1 + added, b2 + added);
    }
  }

  /** As written, the set holds neither "binary_y_score" nor
      "binary_y_class" but the joined key "binary_y_scorebinary_y_class". */
  lemma {:induction false} MissingCommaJoinsKeys()
    ensures "binary_y_score" !in BuiltinKeysAsWritten && "binary_y_class" !in BuiltinKeysAsWritten
    ensures "binary_y_scorebinary_y_class" in BuiltinKeysAsWritten
    ensures "binary_y_score" in BuiltinKeys && "binary_y_class" in BuiltinKeys
  {
    assert "binary_y_score" + "binary_y_class" == "binary_y_scorebinary_y_class";
  }

  /** Neither set names a "multiclass" key, so the missing comma changes no
      dispatch: the as-written set and the intended one give the same events
      and errors for every list of outputs and every key order. */
  lemma {:induction false} MissingCommaHarmless(logs: seq<LogRecord>, keys: seq<string>)
    ensures Dispatch(logs, keys, BuiltinKeysAsWritten) == Dispatch(logs, keys, BuiltinKeys)
  {
    forall k | IsMulticlassKey(k) ensures k !in BuiltinKeysAsWritten && k !in BuiltinKeys {
      assert k[0] == 'm';
    }
    DispatchDependsOnMulticlassBuiltins(logs, keys, BuiltinKeysAsWritten, BuiltinKeys);
  }

  /** A key of the form `multiclass_y_true_NN` or `multiclass_y_score_NN`,
      the only multi-class keys forward writes. */
  predicate IsPairKey(k: string) {
    |LastTwo(k)| == 2 && (k == TrueKey(LastTwo(k)) || k == ScoreKey(LastTwo(k)))
  }

  /** `builtin_keys` holds both keys of a pair or neither. */
  ghost predicate PairClosed(builtin: set<string>) {
    forall s :: TrueKey(s) in builtin <==> ScoreKey(s) in builtin
  }

  /** The class suffix an event logs, "" for the other events. */
  function SuffixOf(e: MetricEvent): string {
    if e.MulticlassAuc? then e.suffix else ""
  }

  lemma {:induction false} KeyShapes(s: string, t: string)
    ensures TrueKey(s) != ScoreKey(t)
    ensures TrueKey(s) == TrueKey(t) ==> s == t
    ensures ScoreKey(s) == ScoreKey(t) ==> s == t
  {
    assert TrueKey(s)[13] == 't' && ScoreKey(t)[13] == 's';
    assert TrueKey(s)[18..] == s && TrueKey(t)[18..] == t;
    assert ScoreKey(s)[19..] == s && ScoreKey(t)[19..] == t;
  }

  /** When every key starting with "multiclass" is a y_true/y_score key, the
      key loop after the first key sees the same kind of keys, and visiting a
      key keeps `builtin_keys` closed under pairing. */
  lemma {:induction false} PairClosedGrows(builtin: set<string>, k: string)
    requires PairClosed(builtin) && IsPairKey(k)
    ensures PairClosed(builtin + PairKeys(k))
    ensures k !in builtin ==> TrueKey(LastTwo(k)) !in builtin && k in builtin + PairKeys(k)
  {
    var s := LastTwo(k);
    var grown := builtin + PairKeys(k);
    forall t ensures TrueKey(t) in grown <==> ScoreKey(t) in grown {
      KeyShapes(t, s);
      KeyShapes(s, t);
    }
  }

  /** The dispatch logs only per-class AUCs, for suffixes whose keys were not
      builtin yet. */
  lemma {:induction false} DispatchFreshAucs(logs: seq<LogRecord>, keys: seq<string>, builtin: set<string>)
    requires forall i :: 0 <= i < |keys| && IsMulticlassKey(keys[i]) ==> IsPairKey(keys[i])
    requires PairClosed(builtin)
    ensures forall e :: e in Dispatch(logs, keys, builtin).events ==>
      e.MulticlassAuc? && TrueKey(e.suffix) !in builtin
    decreases |keys|
  {
    if keys != [] {
      var k := keys[0];
      var tail := keys[1..];
      assert forall i :: 0 <= i < |tail| ==> tail[i] == keys[i + 1];
      if k in builtin || !IsMulticlassKey(k) {
        DispatchFreshAucs(logs, tail, builtin);
      } else if VisitMulticlass(logs, k).Ok? {
        PairClosedGrows(builtin, k);
        DispatchFreshAucs(logs, tail, builtin + PairKeys(k));
      }
    }
  }

  /** No suffix is logged twice. */
  lemma {:induction false} DispatchSuffixesDistinct(logs: seq<LogRecord>, keys: seq<string>, builtin: set<string>)
    requires forall i :: 0 <= i < |keys| && IsMulticlassKey(keys[i]) ==> IsPairKey(keys[i])
    requires PairClosed(builtin)
    ensures forall i, j :: 0 <= i < j < |Dispatch(logs, keys, builtin).events| ==>
      SuffixOf(Dispatch(logs, keys, builtin).events[i]) != SuffixOf(Dispatch(logs, keys, builtin).events[j])
    decreases |keys|
  {
    if keys != [] {
      var k := keys[0];
      var tail := keys[1..];
      assert forall i :: 0 <= i < |tail| ==> tail[i] == keys[i + 1];
      if k in builtin || !IsMulticlassKey(k) {
        DispatchSuffixesDistinct(logs, tail, builtin);
        assert Dispatch(logs, keys, builtin) == Dispatch(logs, tail, builtin);
      } else if VisitMulticlass(logs, k).Ok? {
        var s := LastTwo(k);
        var grown := builtin + PairKeys(k);
        PairClosedGrows(builtin, k);
        DispatchSuffixesDistinct(logs, tail, grown);
        DispatchFreshAucs(logs, tail, grown);
        var rest := Dispatch(logs, tail, grown);
        forall i | 0 <= i < |rest.events| ensures SuffixOf(rest.events[i]) != s {
          assert rest.events[i] in rest.events;
        }
        var ev := VisitMulticlass(logs, k).value;
        assert SuffixOf(ev) == s;
        var evs := Dispatch(logs, keys, builtin).events;
        assert evs == [ev] + rest.events;
        assert forall i :: 0 < i < |evs| ==> evs[i] == rest.events[i - 1];
      } else {
        assert Dispatch(logs, keys, builtin).events == [];
      }
    }
  }

  /** Unless an exception stops it, the dispatch logs the suffix of every
      multi-class key that was not builtin. */
  lemma {:induction false} DispatchCoversKeys(logs: seq<LogRecord>, keys: seq<string>, builtin: set<string>)
    requires forall i :: 0 <= i < |keys| && IsMulticlassKey(keys[i]) ==> IsPairKey(keys[i])
    requires PairClosed(builtin)
    ensures var red := Dispatch(logs, keys, builtin);
      red.error.None? ==>
        forall i :: 0 <= i < |keys| && IsMulticlassKey(keys[i]) && keys[i] !in builtin ==>
          exists e :: e in red.events && SuffixOf(e) == LastTwo(keys[i])
    decreases |keys|
  {
    if keys != [] {
      var k := keys[0];
      var tail := keys[1..];
      assert forall i :: 0 <= i < |tail| ==> tail[i] == keys[i + 1];
      if k in builtin || !IsMulticlassKey(k) {
        DispatchCoversKeys(logs, tail, builtin);
      } else if VisitMulticlass(logs, k).Ok? {
        var ev := VisitMulticlass(logs, k).value;
        var s := LastTwo(k);
        var grown := builtin + PairKeys(k);
        PairClosedGrows(builtin, k);
        DispatchCoversKeys(logs, tail, grown);
        var rest := Dispatch(logs, tail, grown);
        var evs := Dispatch(logs, keys, builtin).events;
        assert evs == [ev] + rest.events;
        if rest.error.None? {
          forall i | 0 <= i < |keys| && IsMulticlassKey(keys[i]) && keys[i] !in builtin
            ensures exists e :: e in evs && SuffixOf(e) == LastTwo(keys[i])
          {
            var t := LastTwo(keys[i]);
            if t == s {
              assert ev in evs && SuffixOf(ev) == s;
            } else {
              assert IsPairKey(keys[i]);
              assert LastTwo(TrueKey(s)) == s && LastTwo(ScoreKey(s)) == s;
              assert keys[i] != TrueKey(s) && keys[i] != ScoreKey(s);
              assert keys[i] !in grown;
              assert i > 0 && tail[i - 1] == keys[i];
              var e :| e in rest.events && SuffixOf(e) == t;
              assert e in evs;
            }
          }
        }
      }
    }
  }

  /** reduce_metrics starts from a builtin set that names no y_true or
      y_score key, so it is closed under pairing. */
  lemma {:induction false} BuiltinKeysPairClosed()
    ensures PairClosed(BuiltinKeys)
  {
    forall t ensures TrueKey(t) !in BuiltinKeys && ScoreKey(t) !in BuiltinKeys {
      assert TrueKey(t)[0] == 'm' && ScoreKey(t)[0] == 'm';
    }
  }

  /** No key starting with "multiclass" is builtin from the start. */
  lemma {:induction false} MulticlassNotBuiltin(k: string)
    requires IsMulticlassKey(k)
    ensures k !in BuiltinKeys
  {
    assert k[0] == 'm';
  }

  /** Unless the class ids are missing, reduce_metrics logs at most three
      events that are not per-class AUCs and then exactly what the key loop
      over the first output's keys logs, with its error. */
  lemma {:induction false} ReduceSplit(logs: seq<LogRecord>)
    requires |logs| > 0 && !(HasBinaryPair(logs[0]) && !AnyHasKey(logs, "binary_y_class"))
    ensures var red := Reduce(logs);
      var rest := Dispatch(logs, logs[0].keys, BuiltinKeys);
      var p := |red.events| - |rest.events|;
      && 0 <= p <= 3
      && red.events[p..] == rest.events
      && red.error == rest.error
      && (forall i :: 0 <= i < p ==> !red.events[i].MulticlassAuc?)
  {
    var rest := Dispatch(logs, logs[0].keys, BuiltinKeys);
    var sampleSize := SumCount(logs, "sample_size");
    var pre := [LossScalar(sampleSize, LossDivisor(sampleSize)), BatchSizeScalar(SumCount(logs, "batch_size"))]
      + (if HasBinaryPair(logs[0]) then [BinaryAuc] else []);
    assert Reduce(logs) == Reduction(pre + rest.events, rest.error);
    assert (pre + rest.events)[|pre|..] == rest.events;
  }

  /** When the class ids are missing, reduce_metrics raises after the two
      scalars. */
  lemma {:induction false} ReduceClassIdsMissing(logs: seq<LogRecord>)
    requires |logs| > 0 && HasBinaryPair(logs[0]) && !AnyHasKey(logs, "binary_y_class")
    ensures Reduce(logs).error.Some?
    ensures forall i :: 0 <= i < |Reduce(logs).events| ==> !Reduce(logs).events[i].MulticlassAuc?
  {
  }

  /** When the first output's multi-class keys are all y_true/y_score keys,
      reduce_metrics logs each class suffix at most once. */
  lemma {:induction false} ReduceSuffixesDistinct(logs: seq<LogRecord>)
    requires |logs| > 0
    requires forall i :: 0 <= i < |logs[0].keys| && IsMulticlassKey(logs[0].keys[i]) ==> IsPairKey(logs[0].keys[i])
    ensures forall i, j :: 0 <= i < j < |Reduce(logs).events| && Reduce(logs).events[i].MulticlassAuc? ==>
      SuffixOf(Reduce(logs).events[i]) != SuffixOf(Reduce(logs).events[j])
  {
    var keys := logs[0].keys;
    var evs := Reduce(logs).events;
    if HasBinaryPair(logs[0]) && !AnyHasKey(logs, "binary_y_class") {
      ReduceClassIdsMissing(logs);
    } else {
      BuiltinKeysPairClosed();
      var rest := Dispatch(logs, keys, BuiltinKeys).events;
      ReduceSplit(logs);
      DispatchSuffixesDistinct(logs, keys, BuiltinKeys);
      SuffixesDistinctAfterPrelude(evs, rest, |evs| - |rest|);
    }
  }

  /** Events whose tail from `p` has distinct suffixes, and whose first `p`
      events are not multi-class AUCs, log each multi-class suffix once. */
  lemma {:induction false} SuffixesDistinctAfterPrelude(evs: seq<MetricEvent>, rest: seq<MetricEvent>, p: int)
    requires 0 <= p <= |evs| && evs[p..] == rest
    requires forall i :: 0 <= i < p ==> !evs[i].MulticlassAuc?
    requires forall i, j :: 0 <= i < j < |rest| ==> SuffixOf(rest[i]) != SuffixOf(rest[j])
    ensures forall i, j :: 0 <= i < j < |evs| && evs[i].MulticlassAuc? ==> SuffixOf(evs[i]) != SuffixOf(evs[j])
  {
    forall i, j | 0 <= i < j < |evs| && evs[i].MulticlassAuc?
      ensures SuffixOf(evs[i]) != SuffixOf(evs[j])
    {
      assert evs[i] == rest[i - p];
      assert evs[j] == rest[j - p];
    }
  }

  /** Under the same condition and unless it raises, reduce_metrics logs the
      suffix of every multi-class key of the first output. */
  lemma {:induction false} ReduceCoversKeys(logs: seq<LogRecord>)
    requires |logs| > 0
    requires forall i :: 0 <= i < |logs[0].keys| && IsMulticlassKey(logs[0].keys[i]) ==> IsPairKey(logs[0].keys[i])
    ensures Reduce(logs).error.None? ==>
      forall i :: 0 <= i < |logs[0].keys| && IsMulticlassKey(logs[0].keys[i]) ==>
        exists e :: e in Reduce(logs).events && e.MulticlassAuc? && e.suffix == LastTwo(logs[0].keys[i])
  {
    var keys := logs[0].keys;
    var red := Reduce(logs);
    if HasBinaryPair(logs[0]) && !AnyHasKey(logs, "binary_y_class") {
      ReduceClassIdsMissing(logs);
    } else if red.error.None? {
      BuiltinKeysPairClosed();
      var rest := Dispatch(logs, keys, BuiltinKeys);
      ReduceSplit(logs);
      DispatchCoversKeys(logs, keys, BuiltinKeys);
      DispatchFreshAucs(logs, keys, BuiltinKeys);
      var p := |red.events| - |rest.events|;
      forall i | 0 <= i < |keys| && IsMulticlassKey(keys[i])
        ensures exists e :: e in red.events && e.MulticlassAuc? && e.suffix == LastTwo(keys[i])
      {
        MulticlassNotBuiltin(keys[i]);
        var e :| e in rest.events && SuffixOf(e) == LastTwo(keys[i]);
        assert e in red.events[p..];
      }
    }
  }

  /** `int("22")` is 22. */
  lemma {:induction false} PyIntTwentyTwo()
    ensures PyInt("22") == Some(22)
  {
    assert Decimal(22) == Decimal(2) + [DigitChar(2)] == "22";
    PyIntDecimal(22);
  }

  /** Visiting a multi-class key with suffix "22", when the one output holds
      both keys of that suffix, logs the class-22 AUC. */
  lemma {:induction false} VisitTwentyTwo(logs: seq<LogRecord>, k: string)
    requires |logs| == 1 && LastTwo(k) == "22"
    requires TrueKey("22") in logs[0].keys && ScoreKey("22") in logs[0].keys
    ensures VisitMulticlass(logs, k) == Ok(MulticlassAuc("22", 22))
  {
    PyIntTwentyTwo();
  }

  /** Four keys where the first two are visited and succeed, and the last two
      are builtin by then, log the first two keys' AUCs and nothing else. */
  lemma {:induction false} DispatchTwoVisits(logs: seq<LogRecord>, keys: seq<string>, builtin: set<string>)
    requires |keys| == 4
    requires keys[0] !in builtin && IsMulticlassKey(keys[0]) && VisitMulticlass(logs, keys[0]).Ok?
    requires keys[1] !in builtin + PairKeys(keys[0]) && IsMulticlassKey(keys[1]) && VisitMulticlass(logs, keys[1]).Ok?
    requires keys[2] in builtin + PairKeys(keys[0]) + PairKeys(keys[1])
    requires keys[3] in builtin + PairKeys(keys[0]) + PairKeys(keys[1])
    ensures Dispatch(logs, keys, builtin)
      == Reduction([VisitMulticlass(logs, keys[0]).value, VisitMulticlass(logs, keys[1]).value], None)
  {
    var b1 := builtin + PairKeys(keys[0]);
    var b2 := b1 + PairKeys(keys[1]);
    DispatchSkip(logs, keys, 3, b2);
    assert keys[4..] == [];
    DispatchSkip(logs, keys, 2, b2);
    DispatchVisit(logs, keys, 1, b1);
    DispatchVisit(logs, keys, 0, builtin);
    assert keys[0..] == keys;
  }

  /** The keys of the example below: two multi-class keys of suffix "22" that
      are not y_true/y_score keys, then the pair of suffix "22". */
  lemma {:induction false} DuplicateSuffixKeys(keys: seq<string>)
    requires keys == ["multiclass_a_22", "multiclass_b_22", TrueKey("22"), ScoreKey("22")]
    ensures IsMulticlassKey(keys[0]) && IsMulticlassKey(keys[1])
    ensures LastTwo(keys[0]) == "22" && LastTwo(keys[1]) == "22"
    ensures keys[0] !in BuiltinKeys && keys[1] !in BuiltinKeys + PairKeys(keys[0])
    ensures keys[2] in PairKeys(keys[0]) && keys[3] in PairKeys(keys[0])
  {
    assert keys[0][..10] == MulticlassPrefix && keys[1][..10] == MulticlassPrefix;
    MulticlassNotBuiltin(keys[0]);
    MulticlassNotBuiltin(keys[1]);
    assert keys[1] !in PairKeys(keys[0]) by {
      assert keys[1][11] == 'b' && TrueKey("22")[11] == 'y' && ScoreKey("22")[11] == 'y';
    }
  }

  /** Keys of another shape break the guarantee: a first output with keys
      `multiclass_a_22` and `multiclass_b_22` makes reduce_metrics log the
      class-22 AUC twice, since only the y_true/y_score keys of suffix "22"
      become builtin. */
  lemma {:induction false} DuplicateSuffixExample()
    ensures var keys := ["multiclass_a_22", "multiclass_b_22", TrueKey("22"), ScoreKey("22")];
      Dispatch([LogRecord(keys, map[])], keys, BuiltinKeys)
        == Reduction([MulticlassAuc("22", 22), MulticlassAuc("22", 22)], None)
  {
    var keys := ["multiclass_a_22", "multiclass_b_22", TrueKey("22"), ScoreKey("22")];
    var logs := [LogRecord(keys, map[])];
    DuplicateSuffixKeys(keys);
    VisitTwentyTwo(logs, keys[0]);
    VisitTwentyTwo(logs, keys[1]);
    DispatchTwoVisits(logs, keys, BuiltinKeys);
  }

  // ---------------------------------------------------------------------------
  // reduce_metrics over the outputs forward produces
  // ---------------------------------------------------------------------------

  /** The keys forward writes before the heads, in insertion order. */
  const BaseKeys: seq<string> :=
    ["loss", "batch_size", "sample_size", "binary_y_true", "binary_y_score", "binary_y_class"]

  /** `multiclass_y_true_{i}` and `multiclass_y_score_{i}` for each head, in
      head order. */
  function HeadKeys<S>(heads: seq<HeadOutput<S>>): seq<string> {
    if heads == [] then []
    else [TrueKey(Decimal(heads[0].column)), ScoreKey(Decimal(heads[0].column))] + HeadKeys(heads[1..])
  }

  /** The logging output of forward as reduce_metrics reads it. */
  function ToRecord<S>(out: LoggingOutput<S>): LogRecord {
    LogRecord(BaseKeys + HeadKeys(out.heads), map["batch_size" := out.batchSize, "sample_size" := out.sampleSize])
  }

  /** The heads forward produces: one per multi-class column, 22 to 27. */
  predicate ForwardHeads<S>(heads: seq<HeadOutput<S>>) {
    |heads| == |HeadWidths| && forall k :: 0 <= k < |heads| ==> heads[k].column == BinaryWidth + k
  }

  /** The per-class AUC logs of columns from 22 + k to 27, in column order. */
  function ColumnAucs(k: nat): (r: seq<MetricEvent>)
    ensures |r| == if k < |HeadWidths| then |HeadWidths| - k else 0
    decreases |HeadWidths| - k
  {
    if k >= |HeadWidths| then []
    else [MulticlassAuc(Decimal(BinaryWidth + k), BinaryWidth + k)] + ColumnAucs(k + 1)
  }

  lemma {:induction false} ColumnAucsAt(k: nat, j: nat)
    requires k + j < |HeadWidths|
    ensures ColumnAucs(k)[j] == MulticlassAuc(Decimal(BinaryWidth + k + j), BinaryWidth + k + j)
    decreases j
  {
    if j > 0 {
      ColumnAucsAt(k + 1, j - 1);
    }
  }

  lemma {:induction false} SumCountConstant(logs: seq<LogRecord>, key: string, v: int)
    requires forall i :: 0 <= i < |logs| ==> GetCount(logs[i], key) == v
    ensures SumCount(logs, key) == |logs| * v
  {
    if logs != [] {
      SumCountConstant(logs[..|logs| - 1], key, v);
    }
  }

  lemma {:induction false} DispatchSkipsBuiltinPrefix(logs: seq<LogRecord>, pre: seq<string>, rest: seq<string>, builtin: set<string>)
    requires forall i :: 0 <= i < |pre| ==> pre[i] in builtin
    ensures Dispatch(logs, pre + rest, builtin) == Dispatch(logs, rest, builtin)
  {
    if pre == [] {
      assert pre + rest == rest;
    } else {
      var keys := pre + rest;
      assert keys[0] == pre[0] && keys[0] in builtin;
      assert keys[1..] == pre[1..] + rest;
      assert Dispatch(logs, keys, builtin) == Dispatch(logs, keys[1..], builtin);
      DispatchSkipsBuiltinPrefix(logs, pre[1..], rest, builtin);
    }
  }

  lemma {:induction false} MulticlassPairKeys(s: string)
    ensures IsMulticlassKey(TrueKey(s)) && IsMulticlassKey(ScoreKey(s))
    ensures |s| == 2 ==> LastTwo(TrueKey(s)) == s && LastTwo(ScoreKey(s)) == s
  {
    assert TrueKey(s)[..10] == MulticlassPrefix;
    assert ScoreKey(s)[..10] == MulticlassPrefix;
  }

  /** Some output holds both arrays of column c. */
  predicate ColumnLogged(logs: seq<LogRecord>, c: nat) {
    AnyHasKey(logs, TrueKey(Decimal(c))) && AnyHasKey(logs, ScoreKey(Decimal(c)))
  }

  /** Neither key of column c is builtin yet. */
  predicate ColumnFresh(builtin: set<string>, c: nat) {
    TrueKey(Decimal(c)) !in builtin && ScoreKey(Decimal(c)) !in builtin
  }

  /** The two keys of one head, met with neither of them builtin: the first
      logs the column's AUC and makes both builtin, the second is passed over. */
  lemma {:induction false} DispatchHeadPair(logs: seq<LogRecord>, c: nat, tail: seq<string>, builtin: set<string>)
    requires 10 <= c <= 99 && ColumnLogged(logs, c) && ColumnFresh(builtin, c)
    ensures var d := Decimal(c);
      var rest := Dispatch(logs, tail, builtin + {TrueKey(d), ScoreKey(d)});
      Dispatch(logs, [TrueKey(d), ScoreKey(d)] + tail, builtin) ==
        Reduction([MulticlassAuc(d, c)] + rest.events, rest.error)
  {
    var d := Decimal(c);
    DecimalDigits(c);
    MulticlassPairKeys(d);
    PyIntDecimal(c);
    var keys := [TrueKey(d), ScoreKey(d)] + tail;
    assert PairKeys(TrueKey(d)) == {TrueKey(d), ScoreKey(d)};
    assert VisitMulticlass(logs, TrueKey(d)) == Ok(MulticlassAuc(d, c));
    assert keys[1..] == [ScoreKey(d)] + tail;
    assert ([ScoreKey(d)] + tail)[1..] == tail;
  }

  /** Making one column's keys builtin leaves every other column fresh. */
  lemma {:induction false} FreshAfterPair(builtin: set<string>, c: nat, c': nat)
    requires ColumnFresh(builtin, c') && c != c'
    ensures ColumnFresh(builtin + {TrueKey(Decimal(c)), ScoreKey(Decimal(c))}, c')
  {
    var d, e := Decimal(c), Decimal(c');
    KeyShapes(d, e);
    KeyShapes(e, d);
    if d == e {
      DecimalInjective(c, c');
    }
  }

  lemma {:induction false} HeadKeysAt<S>(heads: seq<HeadOutput<S>>, k: nat)
    requires k < |heads|
    ensures HeadKeys(heads[k..]) ==
      [TrueKey(Decimal(heads[k].column)), ScoreKey(Decimal(heads[k].column))] + HeadKeys(heads[k + 1..])
  {
    assert heads[k..][1..] == heads[k + 1..];
  }

  /** From head k on, with every remaining column logged and none of its keys
      builtin yet, each head logs its own column's AUC once, in column order. */
  lemma {:induction false} DispatchForwardHeads<S>(
    logs: seq<LogRecord>, heads: seq<HeadOutput<S>>, k: nat, builtin: set<string>)
    requires ForwardHeads(heads) && k <= |heads|
    requires forall c :: BinaryWidth + k <= c < TargetWidth ==> ColumnLogged(logs, c) && ColumnFresh(builtin, c)
    ensures Dispatch(logs, HeadKeys(heads[k..]), builtin) == Reduction(ColumnAucs(k), None)
    decreases |heads| - k
  {
    if k == |heads| {
      assert heads[k..] == [];
    } else {
      var c: nat := BinaryWidth + k;
      var d := Decimal(c);
      var grown := builtin + {TrueKey(d), ScoreKey(d)};
      forall c' | BinaryWidth + k + 1 <= c' < TargetWidth
        ensures ColumnLogged(logs, c') && ColumnFresh(grown, c')
      {
        FreshAfterPair(builtin, c, c');
      }
      DispatchForwardHeads(logs, heads, k + 1, grown);
      HeadKeysAt(heads, k);
      DispatchHeadPair(logs, c, HeadKeys(heads[k + 1..]), builtin);
    }
  }

  /** Both keys of head j are among the head keys. */
  lemma {:induction false} HeadKeysIn<S>(heads: seq<HeadOutput<S>>, j: nat)
    requires j < |heads|
    ensures TrueKey(Decimal(heads[j].column)) in HeadKeys(heads)
    ensures ScoreKey(Decimal(heads[j].column)) in HeadKeys(heads)
  {
    if j > 0 {
      HeadKeysIn(heads[1..], j - 1);
    }
  }

  /** In the first output, every multi-class column is logged and fresh. */
  lemma {:induction false} ForwardColumnsLogged<S>(logs: seq<LogRecord>, heads: seq<HeadOutput<S>>)
    requires |logs| > 0 && ForwardHeads(heads) && logs[0].keys == BaseKeys + HeadKeys(heads)
    ensures forall c :: BinaryWidth <= c < TargetWidth ==> ColumnLogged(logs, c) && ColumnFresh(BuiltinKeys, c)
  {
    forall c | BinaryWidth <= c < TargetWidth
      ensures ColumnLogged(logs, c) && ColumnFresh(BuiltinKeys, c)
    {
      var j := c - BinaryWidth;
      var d := Decimal(c);
      HeadKeysIn(heads, j);
      assert TrueKey(d)[0] == 'm' && ScoreKey(d)[0] == 'm';
      assert TrueKey(d) in logs[0].keys && ScoreKey(d) in logs[0].keys;
    }
  }

  /** When the first output holds the binary pair and some output holds the
      class ids, reduce_metrics logs the two scalars and the binary AUC and
      then whatever the key loop logs. */
  lemma {:induction false} ReduceWithBinaryPair(logs: seq<LogRecord>)
    requires |logs| > 0 && HasBinaryPair(logs[0]) && AnyHasKey(logs, "binary_y_class")
    ensures var sampleSize := SumCount(logs, "sample_size");
      var rest := Dispatch(logs, logs[0].keys, BuiltinKeys);
      Reduce(logs) == Reduction(
        [LossScalar(sampleSize, LossDivisor(sampleSize)), BatchSizeScalar(SumCount(logs, "batch_size")), BinaryAuc]
          + rest.events,
        rest.error)
  {
    var sampleSize := SumCount(logs, "sample_size");
    var scalars := [LossScalar(sampleSize, LossDivisor(sampleSize)), BatchSizeScalar(SumCount(logs, "batch_size"))];
    assert scalars + [BinaryAuc] == [LossScalar(sampleSize, LossDivisor(sampleSize)), BatchSizeScalar(SumCount(logs, "batch_size")), BinaryAuc];
  }

  /** The first output written by forward holds the binary pair and the
      class ids. */
  lemma {:induction false} ForwardKeysBinary<S>(logs: seq<LogRecord>, heads: seq<HeadOutput<S>>)
    requires |logs| > 0 && logs[0].keys == BaseKeys + HeadKeys(heads)
    ensures HasBinaryPair(logs[0]) && AnyHasKey(logs, "binary_y_class")
  {
    var keys := logs[0].keys;
    assert keys[3] == "binary_y_true" && keys[4] == "binary_y_score" && keys[5] == "binary_y_class";
  }

  /** The key loop over forward's keys logs one AUC per column, in order. */
  lemma {:induction false} ForwardKeysDispatch<S>(logs: seq<LogRecord>, heads: seq<HeadOutput<S>>)
    requires |logs| > 0 && ForwardHeads(heads) && logs[0].keys == BaseKeys + HeadKeys(heads)
    ensures Dispatch(logs, logs[0].keys, BuiltinKeys) == Reduction(ColumnAucs(0), None)
  {
    DispatchSkipsBuiltinPrefix(logs, BaseKeys, HeadKeys(heads), BuiltinKeys);
    ForwardColumnsLogged(logs, heads);
    assert heads[0..] == heads;
    DispatchForwardHeads(logs, heads, 0, BuiltinKeys);
  }

  /** Reducing outputs whose first one has forward's keys: the two scalars,
      the binary AUC, then one AUC per multi-class column in order, and no
      exception. */
  lemma {:induction false} ReduceOfForwardKeys<S>(logs: seq<LogRecord>, heads: seq<HeadOutput<S>>)
    requires |logs| > 0 && ForwardHeads(heads) && logs[0].keys == BaseKeys + HeadKeys(heads)
    ensures var sampleSize := SumCount(logs, "sample_size");
      Reduce(logs) == Reduction(
        [LossScalar(sampleSize, LossDivisor(sampleSize)), BatchSizeScalar(SumCount(logs, "batch_size")), BinaryAuc]
          + ColumnAucs(0),
        None)
  {
    ForwardKeysBinary(logs, heads);
    ReduceWithBinaryPair(logs);
    ForwardKeysDispatch(logs, heads);
  }

  /** reduce_metrics over the logging outputs of n >= 1 forward calls: the
      loss is weighted and divided by n (each output has sample size 1), the
      batch sizes are summed, the binary AUC is logged, then one AUC for each
      multi-class column 22..27 in order, and nothing is raised. */
  lemma {:induction false} ReduceForwardOutputs<S>(outs: seq<LoggingOutput<S>>)
    requires |outs| > 0
    requires forall i :: 0 <= i < |outs| ==> outs[i].sampleSize == 1 && ForwardHeads(outs[i].heads)
    ensures var logs := seq(|outs|, i requires 0 <= i < |outs| => ToRecord(outs[i]));
      Reduce(logs) == Reduction(
        [LossScalar(|outs|, |outs|), BatchSizeScalar(SumCount(logs, "batch_size")), BinaryAuc] + ColumnAucs(0),
        None)
  {
    var logs := seq(|outs|, i requires 0 <= i < |outs| => ToRecord(outs[i]));
    SumCountConstant(logs, "sample_size", 1);
    ReduceOfForwardKeys(logs, outs[0].heads);
  }
}
