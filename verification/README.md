# Build configuration of a pug/scss front end, modelled in Dafny

The repository's `webpack.config.js` is a declarative bundler configuration
with a small amount of environment-dependent logic: it reads `NODE_ENV` once,
derives `isDev`/`isProd`, and from that flag chooses plain or hash-qualified
output names, the hot-reload options of the style and template loaders, the
HTML minification switch, the dev-server `hot` flag and whether the two
minimizers are installed. It also fixes the table of file-type rules and
their ordered loader chains.

This project models that logic as pure functions over an `Env` datatype
(`Development | Production`) and proves what the configuration promises
about it. Loaders, minimizers and plugins are opaque tags; the exported
object is an immutable `Config` record.

Modules, one per concern of the configuration:

- `Wrappers` (`wrappers.dfy`): `Option`, used for the absent `NODE_ENV`, the
  missing extra loader and the unset minimizer list.
- `Environment` (`environment.dfy`): `Env`, `IsDev`, `IsProd`, `Resolve`.
- `Naming` (`naming.dfy`): the `filename(ext)` template, its inverse
  `ExtensionOf` and the `IsHashed` shape test.
- `Loaders` (`loaders.dfy`): loader steps with their options and the style
  chain builder `CssLoaders`.
- `Rules` (`rules.dfy`): the five matchers, their extension lists, the rule
  table, and which chain a file name selects.
- `Optimization` (`optimization.dfy`): the `optimization()` policy.
- `WebpackConfig` (`webpack_config.dfy`): the exported record and the
  consistency of its environment toggles.

Modelling choices:

- `NODE_ENV` is a parameter of type `Option<string>`; `None` is an unset
  variable. The comparison is the strict `===`, so only the exact string
  `development` selects development.
- `CssLoaders(extra)` pushes `extra` when it is truthy. The only call with an
  argument passes `'sass-loader'`; here `extra` is an `Option<Step>`, and a
  falsy argument (none, `undefined`, the empty string) is `None`.
- A rule's `test` is a regular expression `\.(e1|e2|…)$`. It is modelled as
  the list of alternatives: a file name is accepted when it ends with a dot
  followed by one of them. No regular-expression engine is modelled.
- The bundler applies every rule whose test accepts a file. The model
  selects the first accepting rule (`FirstMatch`). It proves that no file
  name is accepted by two matchers, so the first accepting rule is the only
  one, and both readings give the same chain.
- Chunk splitting (`splitChunks.chunks = 'all'`) is set in both
  environments, as the configuration does; only the minimizers depend on the
  environment.
- Asset rules use a bare `file-loader` with no output sub-directory option,
  so emitted images and fonts are not routed anywhere in particular here.
- `[name]` and `[hash]` stay literal placeholder text. The bundler fills them
  in later.

## Model

| member | source | states |
|---|---|---|
| Environment.Resolve | webpack.config.js:8-9 | the environment is development exactly when NODE_ENV is the string "development"; any other value, and an unset variable, is production; `isProd` is the negation of `isDev` |
| Environment.ResolveToken | webpack.config.js:8 | each environment is selected by some NODE_ENV value, and resolving that value gives the environment back |
| Naming.FileName | webpack.config.js:28 | every name starts with "[name]." and ends with "." + ext; a development name adds only the extension, a production name has "[hash]." right after "[name]." |
| Naming.ExtensionOfFileName | webpack.config.js:28 | decoding a name built for an environment returns the extension it was built from |
| Naming.FileNameOfExtension | webpack.config.js:28 | any name that decodes under an environment is exactly the name built from the decoded extension |
| Naming.FileNameInjective | webpack.config.js:28 | in one environment, two extensions with the same name template are equal |
| Naming.ProductionInsertsOnlyHash | webpack.config.js:28 | the production name is the development name with only "[hash]." inserted after "[name]." |
| Naming.HashedIffProduction | webpack.config.js:28 | for an extension without a bracket, the name is hash-qualified exactly in production |
| Loaders.CssLoaders | webpack.config.js:30-44 | the chain is the list holds the extraction loader with `hmr = isDev` and `reloadAll = true`, then css-loader, then the extra step if one is given; two steps without an extra, three with one |
| Loaders.CssLoadersExtendBase | webpack.config.js:39-41 | with an extra step the chain is the plain chain followed by that step, so the extra step is listed after extraction and after css-loader |
| Loaders.CssLoadersNamesIgnoreEnv | webpack.config.js:31-38 | the environment changes only the extraction loader's options, never the loaders of the style chain or their listed order |
| Rules.RuleTable | webpack.config.js:76-106 | exactly five rules in the order css, scss, pug, image, font; css gets the plain style chain, scss the style chain with sass-loader; pug lists raw-loader before pug-plain-loader, the latter with `hmr = isDev`; images and fonts a single file-loader |
| Rules.FirstMatch | webpack.config.js:76-106 | the selected rule accepts the file and no earlier rule does; no selection means no rule accepts it |
| Rules.ChainOfAcceptingRule | webpack.config.js:76-106 | whichever of the five rules accepts a file, the chain the table gives that file is that rule's loader chain, independent of rule order |
| Rules.ChainOfUnmatchedFile | webpack.config.js:76-106 | a file that none of the five rules accepts gets no loader chain |
| Rules.MatchersDisjoint | webpack.config.js:78-103 | no file name is accepted by two different matchers |
| Rules.MatchIsUnique | webpack.config.js:76-106 | a rule that accepts a file is the one selected for it, so rule order never decides a file's chain |
| Rules.ChainsIgnoreEnv | webpack.config.js:76-106 | every rule has the same matcher and the same loader sequence in both environments |
| Rules.StyleChains | webpack.config.js:77-84 | a `.scss` file gets extraction, css-loader, sass-loader, listed in that order; a `.css` file gets extraction and css-loader only |
| Rules.PugChain | webpack.config.js:85-97 | in the chain of a `.pug` file, raw-loader is listed strictly before pug-plain-loader |
| Rules.AssetChains | webpack.config.js:98-105 | a file with any image or font extension gets exactly one file-loader step |
| Rules.ScriptsUnmatched | webpack.config.js:76-106 | the table holds no script rule: a `.js` file selects no loader chain |
| Optimization.Optimize | webpack.config.js:11-26 | chunk splitting is "all" in both environments; a minimizer list is present exactly in production and is the CSS minimizer followed by Terser |
| Optimization.ProductionOnlyAddsMinimizers | webpack.config.js:18-23 | the production policy differs from the development policy only by the minimizer list |
| WebpackConfig.FromProcess | webpack.config.js:8-108 | the exported configuration object (its body is `Build` applied to the environment resolved from NODE_ENV, covering the whole record at lines 48-108): the dev-server `hot` flag is on exactly when NODE_ENV is "development", and the minimizers are present exactly when it is not |
| WebpackConfig.OutputNamesAgree | webpack.config.js:54-73 | the script bundle and the extracted stylesheet decode to "js" and "css" under the same environment, both are hashed exactly in production, and the two names differ only in the extension |
| WebpackConfig.TogglesAgree | webpack.config.js:59-96 | every loader `hmr` flag equals the dev-server `hot` flag, which is `isDev`; HTML `collapseWhitespace` is `isProd`; exactly one of `hot` and `collapseWhitespace` is on |
| WebpackConfig.UnsetIsProduction | webpack.config.js:8-23 | with NODE_ENV unset the output name is hashed, both minimizers are installed, hot reload is off and whitespace is collapsed |

## Left out

- The `require` calls for `path`, the plugins and the loaders (lines 1-6) and the plugin instances (lines 20-21, 64-73): foreign library objects, kept only as opaque tags with the options the configuration sets.
- `context` and `output.path` (lines 49 and 56): host path resolution through `path.resolve`, with no logic of its own.
- `console.log` of the flag (line 46): output only.
- `mode` (line 50) and the dev-server port (line 60): constants that do not follow the environment, kept as the literals `"development"` and `4200`.
- What the bundler, the loaders, the minimizers and the plugins do, including how `[hash]` is computed and how webpack combines several matching rules: external behaviour.
- Page discovery and entry-to-page binding: the configuration has one literal entry `main` (lines 51-53) and one literal template `./index.pug` (line 65). It has no discovery or binding code to model.
- The order in which webpack executes a rule's `use` list: webpack applies the list from last to first, so sass-loader and pug-plain-loader run first. That is bundler behaviour. The model states only the order in which loaders are listed.
- Script transpilation rules: the configuration has none. `Rules.ScriptsUnmatched` states that scripts select no chain.
- Naming.HashedIffProduction: proved only for extensions without a `[`. In development, an extension that itself begins with `[hash].` would give a hashed-looking name. The configuration only passes `js` and `css`.
