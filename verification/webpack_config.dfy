/** The exported configuration record, built once from the resolved
    environment. Plugins are opaque tags carrying only the options the
    configuration sets; paths, the entry module and the template are the
    literal strings the configuration names. */
module WebpackConfig {
  import opened Wrappers
  import opened Environment
  import opened Naming
  import opened Loaders
  import opened Rules
  import opened Optimization

  datatype Plugin =
    | HtmlPlugin(template: string, collapseWhitespace: bool)
    | CleanPlugin
    | CssExtractPlugin(filename: string)

  datatype DevServer = DevServer(port: nat, hot: bool)

  datatype Config = Config(
    mode: string,
    entry: map<string, string>,
    outputFilename: string,
    optimization: Optimization,
    devServer: DevServer,
    plugins: seq<Plugin>,
    rules: seq<Rule>)

  /** The literal `mode`; it does not follow the environment. */
  const Mode: string := "development"
  const DevServerPort: nat := 4200

  /** The configuration for one environment. */
  function Build(env: Env): (c: Config)
  {
    Config(
      Mode,
      map["main" := "./index.js"],
      FileName(env, "js"),
      Optimize(env),
      DevServer(DevServerPort, IsDev(env)),
      [ HtmlPlugin("./index.pug", IsProd(env)),
        CleanPlugin,
        CssExtractPlugin(FileName(env, "css")) ],
      RuleTable(env))
  }

  /** The configuration as exported: NODE_ENV is read once and every
      environment-dependent field is derived from that one reading. */
  function FromProcess(nodeEnv: Option<string>): (c: Config)
    ensures c.devServer.hot <==> nodeEnv == Some(DevelopmentToken)
    ensures c.optimization.minimizer.Some? <==> nodeEnv != Some(DevelopmentToken)
  {
    Build(Resolve(nodeEnv))
  }

  /** The extracted stylesheet's name template, from the extraction plugin. */
  function StylesheetName(c: Config): (r: Option<string>)
    ensures r.Some? ==> exists i :: 0 <= i < |c.plugins| && c.plugins[i] == CssExtractPlugin(r.value)
  {
    if |c.plugins| == 3 && c.plugins[2].CssExtractPlugin? then Some(c.plugins[2].filename) else None
  }

  /** Every `hmr` flag in the rule table. */
  predicate HmrFlagsAre(rules: seq<Rule>, value: bool) {
    forall k, i :: 0 <= k < |rules| && 0 <= i < |rules[k].use| && rules[k].use[i].options.Reload? ==>
      rules[k].use[i].options.hmr == value
  }

  /** Script bundle and stylesheet use one naming strategy: both decode to
      their own extension under the same environment, both are hashed
      exactly in production, and they differ only in the extension. */
  lemma OutputNamesAgree(env: Env)
    ensures var c := Build(env);
      && StylesheetName(c).Some?
      && ExtensionOf(env, c.outputFilename) == Some("js")
      && ExtensionOf(env, StylesheetName(c).value) == Some("css")
      && (IsHashed(c.outputFilename) <==> IsProd(env))
      && (IsHashed(StylesheetName(c).value) <==> IsProd(env))
      && c.outputFilename[..|c.outputFilename| - 2] == StylesheetName(c).value[..|StylesheetName(c).value| - 3]
  {
  }

  /** Every environment toggle agrees with the one resolved environment:
      dev-server `hot`, the extraction loader's and the pug loader's `hmr`
      are all `isDev`, and HTML `collapseWhitespace` is `isProd`; so exactly
      one of `hot` and `collapseWhitespace` is on. */
  lemma TogglesAgree(env: Env)
    ensures var c := Build(env);
      && HmrFlagsAre(c.rules, c.devServer.hot)
      && c.devServer.hot == IsDev(env)
      && c.plugins[0].collapseWhitespace == IsProd(env)
      && c.devServer.hot != c.plugins[0].collapseWhitespace
  {
  }

  /** With NODE_ENV unset the build is a production build: hashed output
      names, both minimizers, no hot reloading, whitespace collapsed. */
  lemma UnsetIsProduction()
    ensures var c := FromProcess(None);
      && IsHashed(c.outputFilename)
      && c.optimization.minimizer == Some([CssAssetsMinimizer, TerserMinimizer])
      && !c.devServer.hot
      && c.plugins[0].collapseWhitespace
  {
  }
}
