/** The optimization policy `optimization()`: chunk splitting always, the
    two minimizers only in production. */
module Optimization {
  import opened Wrappers
  import opened Environment

  datatype Minimizer = CssAssetsMinimizer | TerserMinimizer

  datatype SplitChunks = SplitChunks(chunks: string)

  /** `minimizer` is `None` when the configuration leaves the field unset. */
  datatype Optimization = Optimization(splitChunks: SplitChunks, minimizer: Option<seq<Minimizer>>)

  const SplitAll: SplitChunks := SplitChunks("all")

  function Optimize(env: Env): (r: Optimization)
    ensures r.splitChunks.chunks == "all"
    ensures r.minimizer.Some? <==> IsProd(env)
    ensures r.minimizer.Some? ==> r.minimizer.value == [CssAssetsMinimizer, TerserMinimizer]
  {
    var config := Optimization(SplitAll, None);
    if IsProd(env) then config.(minimizer := Some([CssAssetsMinimizer, TerserMinimizer]))
    else config
  }

  /** Production only adds the minimizer list to the development policy:
      splitting is the same, and nothing else differs. */
  lemma ProductionOnlyAddsMinimizers()
    ensures Optimize(Production).(minimizer := None) == Optimize(Development)
    ensures Optimize(Production).splitChunks == Optimize(Development).splitChunks
  {
  }
}
