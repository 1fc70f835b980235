/** The left-to-right composer of src/pipe.ts: a start value threaded through a list of
    one-argument functions. The source's overloads allow a different type at each step;
    here every step maps one type `T` to itself. */
module Pipe {

  /** `pipe(start, ...fns)`: `fns.reduce((prev, fn) => fn(prev), start)`. */
  function Pipe<T>(start: T, fns: seq<T -> T>): (r: T)
    ensures |fns| == 0 ==> r == start
    ensures |fns| == 1 ==> r == fns[0](start)
  {
    if |fns| == 0 then start else Pipe(fns[0](start), fns[1..])
  }

  /** A reference definition: `fn(...f2(f1(start)))`, the last function outermost. */
  function Nested<T>(start: T, fns: seq<T -> T>): T
    decreases |fns|
  {
    if |fns| == 0 then start else fns[|fns| - 1](Nested(start, fns[..|fns| - 1]))
  }

  /** The values the reduce's accumulator takes, one per step: it starts at `start`, each
      function is applied exactly once, in list order, to the previous value, and the last
      value is the result of the pipe. */
  function Accumulators<T>(start: T, fns: seq<T -> T>): (vs: seq<T>)
    ensures |vs| == |fns| + 1 && vs[0] == start
    ensures forall i :: 0 <= i < |fns| ==> vs[i + 1] == fns[i](vs[i])
    ensures vs[|fns|] == Pipe(start, fns)
  {
    if |fns| == 0 then [start] else [start] + Accumulators(fns[0](start), fns[1..])
  }

  /** Splitting law: piping through `fs + gs` is piping through `fs`, then through `gs`. */
  lemma {:induction false} PipeSplit<T>(start: T, fs: seq<T -> T>, gs: seq<T -> T>)
    ensures Pipe(start, fs + gs) == Pipe(Pipe(start, fs), gs)
    decreases |fs|
  {
    if |fs| == 0 {
      assert fs + gs == gs;
    } else {
      assert (fs + gs)[1..] == fs[1..] + gs;
      PipeSplit(fs[0](start), fs[1..], gs);
    }
  }

  /** Adding a function at the end applies it to the previous result. */
  lemma PipeAppend<T>(start: T, fs: seq<T -> T>, g: T -> T)
    ensures Pipe(start, fs + [g]) == g(Pipe(start, fs))
  {
    PipeSplit(start, fs, [g]);
  }

  /** The reduce computes the nested application: `pipe(start, f1, ..., fn) == fn(...f1(start))`. */
  lemma {:induction false} PipeIsNested<T>(start: T, fns: seq<T -> T>)
    ensures Pipe(start, fns) == Nested(start, fns)
    decreases |fns|
  {
    if |fns| > 0 {
      var init := fns[..|fns| - 1];
      PipeIsNested(start, init);
      assert init + [fns[|fns| - 1]] == fns;
      PipeAppend(start, init, fns[|fns| - 1]);
    }
  }

  /** `passThrough`: the identity transform. */
  function PassThrough<T>(x: T): T {
    x
  }

  /** Inserting `passThrough` anywhere in the list leaves the result unchanged. */
  lemma PassThroughIsNeutral<T>(start: T, fs: seq<T -> T>, gs: seq<T -> T>)
    ensures Pipe(start, fs + [PassThrough] + gs) == Pipe(start, fs + gs)
  {
    PipeSplit(start, fs + [PassThrough], gs);
    PipeAppend(start, fs, PassThrough);
    PipeSplit(start, fs, gs);
  }

  /** The example in the doc comment: 10, then `x => x + 1`, then `x => x * 2`. The reduce
      gives 22, not the 42 the comment states. */
  lemma DocExample()
    ensures Pipe(10, [(x: int) => x + 1, (x: int) => x * 2]) == 22
  {
    var fns := [(x: int) => x + 1, (x: int) => x * 2];
    assert fns[1..] == [(x: int) => x * 2];
  }
}
