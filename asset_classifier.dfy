/**
 * The texture-asset test used when a file is dropped on the viewer
 * (`isTextureAsset`): cut the name at its first `?` and compare what is
 * left against six extensions, exactly and case-sensitively.
 */
module AssetClassifier {
  import opened Strings

  /** The six suffixes that mark a texture. */
  predicate IsTextureSuffix(s: string) {
    s == ".ktx" || s == ".ktx2" || s == ".png" || s == ".jpg" || s == ".jpeg" || s == ".webp"
  }

  /** The name without its query string: everything before the first `?`. */
  function StripQuery(name: string): (r: string)
    ensures r <= name
    ensures '?' !in r
    ensures |r| == |name| || name[|r|] == '?'
  {
    IndexOfChar(name, '?');
    var q := IndexOf(name, "?");
    if q != -1 then name[..q] else name
  }

  /** `isTextureAsset(name)`. */
  predicate IsTextureAsset(name: string) {
    var n := StripQuery(name);
    EndsWith(n, ".ktx") ||
    EndsWith(n, ".ktx2") ||
    EndsWith(n, ".png") ||
    EndsWith(n, ".jpg") ||
    EndsWith(n, ".jpeg") ||
    EndsWith(n, ".webp")
  }

  /** A prefix of `name` that holds no `?` and stops at a `?` or at the end is the one the query cut keeps. */
  lemma {:induction false} QueryCutIsUnique(name: string, k: int)
    requires 0 <= k <= |name|
    requires '?' !in name[..k]
    requires k == |name| || name[k] == '?'
    ensures StripQuery(name) == name[..k]
  {
    var r := StripQuery(name);
    assert forall j :: 0 <= j < k ==> name[j] != '?' by {
      forall j | 0 <= j < k ensures name[j] != '?' { assert name[..k][j] == name[j]; }
    }
    assert forall j :: 0 <= j < |r| ==> name[j] != '?' by {
      forall j | 0 <= j < |r| ensures name[j] != '?' { assert r[j] == name[j]; }
    }
  }

  /**
   * The classification, stated without reference to `indexOf`: a name is a
   * texture asset exactly when its part before the first `?` (all of it when
   * there is none) has one of the six suffixes as a tail.
   */
  lemma TextureAssetCharacterization(name: string, k: int)
    requires 0 <= k <= |name|
    requires '?' !in name[..k]
    requires k == |name| || name[k] == '?'
    ensures IsTextureAsset(name) <==> exists j :: 0 <= j <= k && IsTextureSuffix(name[j..k])
  {
    QueryCutIsUnique(name, k);
    var n := name[..k];
    SuffixListMatches(n);
    assert forall j :: 0 <= j <= k ==> n[j..] == name[j..k];
  }

  /** The six `endsWith` tests hold together exactly when some tail of the name is a texture suffix. */
  lemma SuffixListMatches(n: string)
    ensures (exists j :: 0 <= j <= |n| && IsTextureSuffix(n[j..])) <==>
      (EndsWith(n, ".ktx") || EndsWith(n, ".ktx2") || EndsWith(n, ".png") ||
       EndsWith(n, ".jpg") || EndsWith(n, ".jpeg") || EndsWith(n, ".webp"))
  {
    forall j | 0 <= j <= |n| && IsTextureSuffix(n[j..])
      ensures EndsWith(n, ".ktx") || EndsWith(n, ".ktx2") || EndsWith(n, ".png") ||
              EndsWith(n, ".jpg") || EndsWith(n, ".jpeg") || EndsWith(n, ".webp")
    {
      assert |n[j..]| == |n| - j;
    }
    if EndsWith(n, ".ktx") { assert IsTextureSuffix(n[|n| - 4..]); }
    if EndsWith(n, ".ktx2") { assert IsTextureSuffix(n[|n| - 5..]); }
    if EndsWith(n, ".png") { assert IsTextureSuffix(n[|n| - 4..]); }
    if EndsWith(n, ".jpg") { assert IsTextureSuffix(n[|n| - 4..]); }
    if EndsWith(n, ".jpeg") { assert IsTextureSuffix(n[|n| - 5..]); }
    if EndsWith(n, ".webp") { assert IsTextureSuffix(n[|n| - 5..]); }
  }

  /** A query string never changes the classification. */
  lemma QueryStringIsIgnored(name: string, query: string)
    requires '?' !in name
    ensures IsTextureAsset(name + "?" + query) == IsTextureAsset(name)
  {
    var full := name + "?" + query;
    assert full[..|name|] == name;
    QueryCutIsUnique(full, |name|);
    assert name[..|name|] == name;
    QueryCutIsUnique(name, |name|);
  }

  /** A name can only end with a suffix whose last character it shares. */
  lemma EndsWithLastChar(n: string, suffix: string)
    requires |suffix| > 0 && EndsWith(n, suffix)
    ensures n[|n| - 1] == suffix[|suffix| - 1]
  {
    assert n[|n| - |suffix|..][|suffix| - 1] == n[|n| - 1];
  }

  /** Every texture suffix ends in `x`, `2`, `g` or `p`; a name ending otherwise is no texture. */
  lemma NotTextureByLastChar(name: string, k: int)
    requires 0 < k <= |name|
    requires '?' !in name[..k]
    requires k == |name| || name[k] == '?'
    requires name[k - 1] !in {'x', '2', 'g', 'p'}
    ensures !IsTextureAsset(name)
  {
    QueryCutIsUnique(name, k);
    var n := name[..k];
    assert n[|n| - 1] == name[k - 1];
    if EndsWith(n, ".ktx") { EndsWithLastChar(n, ".ktx"); }
    if EndsWith(n, ".ktx2") { EndsWithLastChar(n, ".ktx2"); }
    if EndsWith(n, ".png") { EndsWithLastChar(n, ".png"); }
    if EndsWith(n, ".jpg") { EndsWithLastChar(n, ".jpg"); }
    if EndsWith(n, ".jpeg") { EndsWithLastChar(n, ".jpeg"); }
    if EndsWith(n, ".webp") { EndsWithLastChar(n, ".webp"); }
  }

  /** No case folding: an upper-case `.PNG` extension is not a texture asset. */
  lemma UpperCaseExtensionIsNotTexture(name: string)
    requires '?' !in name
    ensures !IsTextureAsset(name + ".PNG")
  {
    var n := name + ".PNG";
    assert n[..|n|] == n;
    assert n[|n| - 1] == 'G';
    NotTextureByLastChar(n, |n|);
  }

  /** Worked classifications of a few names. */
  lemma Ktx2Example()
    ensures IsTextureAsset("model.ktx2")
  {
    QueryCutIsUnique("model.ktx2", 10);
  }

  lemma QueryStringExample()
    ensures IsTextureAsset("img.jpeg?v=2")
  {
    QueryCutIsUnique("img.jpeg?v=2", 8);
  }

  lemma UpperCaseExample()
    ensures !IsTextureAsset("tex.PNG")
  {
    UpperCaseExtensionIsNotTexture("tex");
    assert "tex" + ".PNG" == "tex.PNG";
  }

  lemma EnvironmentMapExample()
    ensures !IsTextureAsset("scene.hdr")
  {
    NotTextureByLastChar("scene.hdr", 9);
  }

  lemma QueryHidesExtensionExample()
    ensures !IsTextureAsset("a.glb?x=.png")
  {
    NotTextureByLastChar("a.glb?x=.png", 5);
  }
}
