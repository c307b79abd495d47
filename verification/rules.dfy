/** The `module.rules` table: five file-type matchers, each bound to an
    ordered loader chain. A matcher's `test` is a regular expression of the
    form `\.(e1|e2|...)$`; here it is the list of extensions it accepts, and
    a file name is accepted when it ends with a dot and one of them. */
module Rules {
  import opened Wrappers
  import opened Environment
  import opened Loaders
  import Naming

  datatype Matcher = CssFiles | ScssFiles | PugFiles | ImageFiles | FontFiles

  /** The alternatives of each matcher's regular expression. */
  function Extensions(m: Matcher): seq<string>
  {
    match m
    case CssFiles => ["css"]
    case ScssFiles => ["scss"]
    case PugFiles => ["pug"]
    case ImageFiles => ["png", "jpg", "svg", "gif"]
    case FontFiles => ["ttf", "woff", "woff2", "eot"]
  }

  /** Whether the matcher's `test` accepts the file name. */
  predicate Tests(m: Matcher, file: string) {
    exists i :: 0 <= i < |Extensions(m)| && Naming.EndsWith(file, "." + Extensions(m)[i])
  }

  datatype Rule = Rule(test: Matcher, use: seq<Step>)

  /** The five rules in their configured order. */
  function RuleTable(env: Env): (r: seq<Rule>)
    ensures |r| == 5
    ensures [r[0].test, r[1].test, r[2].test, r[3].test, r[4].test]
         == [CssFiles, ScssFiles, PugFiles, ImageFiles, FontFiles]
    ensures r[0].use == CssLoaders(env, None)
    ensures r[1].use == CssLoaders(env, Some(Plain(SassLoader)))
    ensures Names(r[2].use) == [RawLoader, PugPlainLoader]
    ensures r[2].use[1].options == Reload(IsDev(env), true)
    ensures Names(r[3].use) == Names(r[4].use) == [FileLoader]
  {
    [ Rule(CssFiles, CssLoaders(env, None)),
      Rule(ScssFiles, CssLoaders(env, Some(Plain(SassLoader)))),
      Rule(PugFiles, [Plain(RawLoader), Step(PugPlainLoader, Reload(IsDev(env), true))]),
      Rule(ImageFiles, [Plain(FileLoader)]),
      Rule(FontFiles, [Plain(FileLoader)]) ]
  }

  /** The index of the first rule whose test accepts the file, if any. */
  function FirstMatch(rules: seq<Rule>, file: string): (r: Option<nat>)
    ensures r.Some? ==> r.value < |rules| && Tests(rules[r.value].test, file)
    ensures r.Some? ==> forall j :: 0 <= j < r.value ==> !Tests(rules[j].test, file)
    ensures r.None? ==> forall j :: 0 <= j < |rules| ==> !Tests(rules[j].test, file)
  {
    if rules == [] then None
    else if Tests(rules[0].test, file) then Some(0)
    else match FirstMatch(rules[1..], file)
      case None => None
      case Some(k) => Some(k + 1)
  }

  /** The loader chain the table applies to a file, empty when no rule
      accepts it. */
  function ChainFor(env: Env, file: string): seq<Step>
  {
    var rules := RuleTable(env);
    match FirstMatch(rules, file)
    case None => []
    case Some(k) => rules[k].use
  }

  /** No extension any matcher accepts contains a dot. */
  predicate DotFree(e: string) {
    forall i :: 0 <= i < |e| ==> e[i] != '.'
  }

  /** Where a dotted extension ends a file name: the dot, then the
      extension's characters. */
  lemma DottedSuffixAt(file: string, e: string)
    requires Naming.EndsWith(file, "." + e)
    ensures |e| < |file| && file[|file| - |e| - 1] == '.'
    ensures forall i :: |file| - |e| <= i < |file| ==> file[i] == e[i - (|file| - |e|)]
  {
  }

  /** A file name ends with at most one dotted, dot-free extension: the two
      suffixes would have to agree on where the last dot is. */
  lemma {:induction false} DottedSuffixUnique(file: string, a: string, b: string)
    requires DotFree(a) && DotFree(b)
    requires Naming.EndsWith(file, "." + a) && Naming.EndsWith(file, "." + b)
    ensures a == b
  {
    // the dot before the shorter extension would fall inside the longer one
    DottedSuffixAt(file, a);
    DottedSuffixAt(file, b);
    if |a| == |b| {
      assert "." + a == file[|file| - |a| - 1..] == "." + b;
      assert a == ("." + a)[1..] == ("." + b)[1..] == b;
    }
  }

  /** Every configured extension is dot-free, and no extension belongs to
      two matchers. */
  lemma ExtensionsSeparate(m1: Matcher, m2: Matcher, i: nat, j: nat)
    requires i < |Extensions(m1)| && j < |Extensions(m2)|
    ensures DotFree(Extensions(m1)[i])
    ensures m1 != m2 ==> Extensions(m1)[i] != Extensions(m2)[j]
  {
  }

  /** No file name is accepted by two different matchers. */
  lemma {:induction false} MatchersDisjoint(m1: Matcher, m2: Matcher, file: string)
    requires Tests(m1, file) && Tests(m2, file)
    ensures m1 == m2
  {
    var i :| 0 <= i < |Extensions(m1)| && Naming.EndsWith(file, "." + Extensions(m1)[i]);
    var j :| 0 <= j < |Extensions(m2)| && Naming.EndsWith(file, "." + Extensions(m2)[j]);
    ExtensionsSeparate(m1, m2, i, j);
    ExtensionsSeparate(m2, m1, j, i);
    DottedSuffixUnique(file, Extensions(m1)[i], Extensions(m2)[j]);
  }

  /** The first matching rule is the only one: the table's order never
      decides which chain a file gets. */
  lemma {:induction false} MatchIsUnique(env: Env, file: string, k: nat)
    requires k < 5 && Tests(RuleTable(env)[k].test, file)
    ensures FirstMatch(RuleTable(env), file) == Some(k)
  {
    var rules := RuleTable(env);
    var first := FirstMatch(rules, file);
    assert first.Some?;
    MatchersDisjoint(rules[first.value].test, rules[k].test, file);
    // the five matchers of the table are pairwise different
    assert rules[first.value].test == rules[k].test;
  }

  /** A file gets the chain of the rule that accepts it, whatever that
      rule's position in the table. */
  lemma ChainOfAcceptingRule(env: Env, file: string, k: nat)
    requires k < 5 && Tests(RuleTable(env)[k].test, file)
    ensures ChainFor(env, file) == RuleTable(env)[k].use
  {
    MatchIsUnique(env, file, k);
  }

  /** A file no rule accepts gets no chain. */
  lemma ChainOfUnmatchedFile(env: Env, file: string)
    requires forall k :: 0 <= k < 5 ==> !Tests(RuleTable(env)[k].test, file)
    ensures ChainFor(env, file) == []
  {
  }

  /** The loader names of every rule are the same in both environments;
      only options such as `hmr` follow the environment. */
  lemma ChainsIgnoreEnv(k: nat)
    requires k < 5
    ensures RuleTable(Development)[k].test == RuleTable(Production)[k].test
    ensures Names(RuleTable(Development)[k].use) == Names(RuleTable(Production)[k].use)
  {
  }

  /** A `.scss` file's chain lists extraction, then 'css-loader', then
      'sass-loader'; a `.css` file's chain lists only the first two. */
  lemma StyleChains(env: Env, stem: string)
    ensures Names(ChainFor(env, stem + ".scss")) == [MiniCssExtractLoader, CssLoader, SassLoader]
    ensures Names(ChainFor(env, stem + ".css")) == [MiniCssExtractLoader, CssLoader]
  {
    var scss := stem + ".scss";
    assert Naming.EndsWith(scss, "." + Extensions(ScssFiles)[0]);
    MatchIsUnique(env, scss, 1);
    var css := stem + ".css";
    assert Naming.EndsWith(css, "." + Extensions(CssFiles)[0]);
    MatchIsUnique(env, css, 0);
  }

  /** In a `.pug` file's chain, raw-loader is listed strictly before
      pug-plain-loader; webpack applies the list from last to first. */
  lemma PugChain(env: Env, stem: string)
    ensures Precedes(Names(ChainFor(env, stem + ".pug")), RawLoader, PugPlainLoader)
  {
    var pug := stem + ".pug";
    assert Naming.EndsWith(pug, "." + Extensions(PugFiles)[0]);
    MatchIsUnique(env, pug, 2);
    var names := Names(ChainFor(env, pug));
    assert names[0] == RawLoader && names[1] == PugPlainLoader;
  }

  /** Images and fonts are each emitted by a single 'file-loader'. */
  lemma AssetChains(env: Env, stem: string, ext: string)
    requires ext in Extensions(ImageFiles) || ext in Extensions(FontFiles)
    ensures Names(ChainFor(env, stem + "." + ext)) == [FileLoader]
  {
    var file := stem + "." + ext;
    assert Naming.EndsWith(file, "." + ext) by {
      assert file == stem + ("." + ext);
    }
    var m := if ext in Extensions(ImageFiles) then ImageFiles else FontFiles;
    var i :| 0 <= i < |Extensions(m)| && Extensions(m)[i] == ext;
    MatchIsUnique(env, file, if m == ImageFiles then 3 else 4);
  }

  /** The table has no script rule: a `.js` file passes through no loader
      chain of this table, whatever its stem. */
  lemma ScriptsUnmatched(env: Env, stem: string)
    ensures ChainFor(env, stem + ".js") == []
  {
    var file := stem + ".js";
    assert Naming.EndsWith(file, "." + "js");
    forall m: Matcher | Tests(m, file)
      ensures false
    {
      var i :| 0 <= i < |Extensions(m)| && Naming.EndsWith(file, "." + Extensions(m)[i]);
      ExtensionsSeparate(m, m, i, i);
      DottedSuffixUnique(file, Extensions(m)[i], "js");
    }
  }
}
