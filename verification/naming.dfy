/** Output filename strategy: the `filename(ext)` template used for the
    script bundle and for the extracted stylesheet. `[name]` and `[hash]`
    are placeholders the bundler fills in later; here they are literal text. */
module Naming {
  import opened Wrappers
  import opened Environment

  const NamePrefix: string := "[name]."
  const HashToken: string := "[hash]."

  predicate StartsWith(s: string, prefix: string) {
    |prefix| <= |s| && s[..|prefix|] == prefix
  }

  predicate EndsWith(s: string, suffix: string) {
    |suffix| <= |s| && s[|s| - |suffix|..] == suffix
  }

  /** An extension as the configuration passes it: no placeholder bracket,
      so it cannot itself be mistaken for a hash token. */
  predicate PlainExtension(ext: string) {
    forall i :: 0 <= i < |ext| ==> ext[i] != '['
  }

  /** The part of a name template that sits between `[name].` and the
      extension: nothing in development, the hash token in production. */
  function Infix(env: Env): string {
    if IsDev(env) then "" else HashToken
  }

  /** `filename(ext)`: a plain name in development, a hash-qualified one in
      production. */
  function FileName(env: Env, ext: string): (r: string)
    ensures StartsWith(r, NamePrefix)
    ensures EndsWith(r, "." + ext)
    ensures IsDev(env) ==> |r| == |NamePrefix| + |ext|
    ensures IsProd(env) ==> |r| == |NamePrefix| + |HashToken| + |ext|
    ensures IsProd(env) ==> StartsWith(r, NamePrefix + HashToken)
  {
    NamePrefix + Infix(env) + ext
  }

  /** The inverse of `FileName` for a fixed environment: the extension a
      template was built from, or `None` if it has not the right shape. */
  function ExtensionOf(env: Env, name: string): Option<string>
  {
    var head := NamePrefix + Infix(env);
    if StartsWith(name, head) then Some(name[|head|..]) else None
  }

  /** A template carries a content hash exactly when it starts with
      `[name].[hash].`. */
  predicate IsHashed(name: string) {
    StartsWith(name, NamePrefix + HashToken)
  }

  /** Decoding an encoded name gives back its extension. */
  lemma ExtensionOfFileName(env: Env, ext: string)
    ensures ExtensionOf(env, FileName(env, ext)) == Some(ext)
  {
  }

  /** Every name that decodes is the encoding of what it decodes to. */
  lemma FileNameOfExtension(env: Env, name: string)
    requires ExtensionOf(env, name).Some?
    ensures FileName(env, ExtensionOf(env, name).value) == name
  {
  }

  /** Within one environment, different extensions give different names. */
  lemma FileNameInjective(env: Env, a: string, b: string)
    requires FileName(env, a) == FileName(env, b)
    ensures a == b
  {
    ExtensionOfFileName(env, a);
    ExtensionOfFileName(env, b);
  }

  /** The production name is the development name with only the hash
      token inserted after `[name].`. */
  lemma ProductionInsertsOnlyHash(ext: string)
    ensures FileName(Production, ext)
         == NamePrefix + HashToken + FileName(Development, ext)[|NamePrefix|..]
  {
  }

  /** For a plain extension, the name is hashed exactly in production: hashed
      and unhashed names are never produced in the wrong environment. */
  lemma {:induction false} HashedIffProduction(env: Env, ext: string)
    requires PlainExtension(ext)
    ensures IsHashed(FileName(env, ext)) <==> IsProd(env)
  {
    var name := FileName(env, ext);
    var hashed := NamePrefix + HashToken;
    if IsDev(env) {
      assert name == NamePrefix + ext;
      if |ext| == 0 {
        assert |name| < |hashed|;
      } else {
        // the character after `[name].` is the extension's first one, never
        // the bracket that opens the hash token
        assert name[|NamePrefix|] == ext[0] != '[';
        assert hashed[|NamePrefix|] == '[';
      }
    } else {
      assert name == hashed + ext;
      assert name[..|hashed|] == hashed;
    }
  }
}
