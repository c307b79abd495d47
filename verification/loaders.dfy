/** Loader steps and the style loader-chain builder `CssLoaders(extra)`.
    Loaders are opaque tags; only their listed order and options matter here. */
module Loaders {
  import opened Wrappers
  import opened Environment

  datatype LoaderName =
    | MiniCssExtractLoader   // the stylesheet-extraction plugin's loader
    | CssLoader              // 'css-loader'
    | SassLoader             // 'sass-loader'
    | RawLoader              // 'raw-loader'
    | PugPlainLoader         // 'pug-plain-loader'
    | FileLoader             // 'file-loader'

  /** A bare loader name carries no options; the extraction and pug loaders
      carry the hot-reload pair. */
  datatype LoaderOptions = NoOptions | Reload(hmr: bool, reloadAll: bool)

  datatype Step = Step(loader: LoaderName, options: LoaderOptions)

  /** A step written as a bare loader name. */
  function Plain(loader: LoaderName): Step
  {
    Step(loader, NoOptions)
  }

  /** The names of a chain's steps, in order. */
  function Names(chain: seq<Step>): (r: seq<LoaderName>)
    ensures |r| == |chain|
    ensures forall i :: 0 <= i < |chain| ==> r[i] == chain[i].loader
  {
    if chain == [] then [] else [chain[0].loader] + Names(chain[1..])
  }

  /** `a` is listed strictly before `b` in the chain. Webpack applies a
      `use` list from last to first, so `b` runs before `a`. */
  predicate Precedes(names: seq<LoaderName>, a: LoaderName, b: LoaderName) {
    exists i, j :: 0 <= i < j < |names| && names[i] == a && names[j] == b
  }

  /** `CssLoaders(extra)`: the list holding the extraction loader (hot
      reload in development, always reloading everything), then 'css-loader',
      then `extra` if one is given. A falsy `extra` in the configuration is `None` here. */
  function CssLoaders(env: Env, extra: Option<Step>): (r: seq<Step>)
    ensures |r| == if extra.Some? then 3 else 2
    ensures r[0].loader == MiniCssExtractLoader
    ensures r[0].options == Reload(IsDev(env), true)
    ensures r[1] == Plain(CssLoader)
    ensures extra.Some? ==> r[2] == extra.value
  {
    var base := [Step(MiniCssExtractLoader, Reload(IsDev(env), true)), Plain(CssLoader)];
    if extra.Some? then base + [extra.value] else base
  }

  /** With an extra step the chain is the plain chain followed by that step,
      so the extra step is listed after extraction and 'css-loader'. */
  lemma CssLoadersExtendBase(env: Env, extra: Step)
    ensures CssLoaders(env, Some(extra)) == CssLoaders(env, None) + [extra]
    ensures Precedes(Names(CssLoaders(env, Some(extra))), MiniCssExtractLoader, extra.loader)
    ensures Precedes(Names(CssLoaders(env, Some(extra))), CssLoader, extra.loader)
  {
  }

  /** The environment changes only the options of the style chain, never
      which loaders it lists or in what order. */
  lemma CssLoadersNamesIgnoreEnv(extra: Option<Step>)
    ensures Names(CssLoaders(Development, extra)) == Names(CssLoaders(Production, extra))
  {
  }
}
