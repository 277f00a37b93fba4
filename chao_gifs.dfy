/**
 * Construction of the type -> state -> URI table (src/chao/chaoGifs.ts): two
 * nested left folds over the chao types and the gif file names, cached in a
 * module singleton after the first call.
 */
module ChaoGifs {
  import opened Wrappers
  import opened ChaoTypes
  import opened GifUriHelper

  /** The gif files every chao type has, named without extension. */
  const GifFiles: seq<string> :=
    ["idle", "walking", "falling", "sitting", "standing_happy", "sitting_happy", "flying"]

  /** `createGifUri`: `${baseUrl}/${chaoType}/${chaoType}_${gifFile}.gif`. */
  function GifUri(baseUrl: string, chaoType: string, gifFile: string): string {
    baseUrl + "/" + chaoType + "/" + chaoType + "_" + gifFile + ".gif"
  }

  /** `pat` occurs in `s` starting at index `i`. */
  predicate OccursAt(s: string, pat: string, i: int) {
    0 <= i && i + |pat| <= |s| && s[i..i + |pat|] == pat
  }

  /** `pat` occurs somewhere in `s`. */
  predicate Contains(s: string, pat: string) {
    exists i :: 0 <= i <= |s| && OccursAt(s, pat, i)
  }

  /** `String.prototype.replace` with a string pattern: only the first occurrence is replaced. */
  function ReplaceFirst(s: string, pat: string, rep: string): (r: string)
    decreases |s|
  {
    if |s| < |pat| then s
    else if s[..|pat|] == pat then rep + s[|pat|..]
    else [s[0]] + ReplaceFirst(s[1..], pat, rep)
  }

  /** Without an occurrence of the pattern, `replace` returns its input unchanged. */
  lemma {:induction false} ReplaceFirstWithoutOccurrence(s: string, pat: string, rep: string)
    requires !Contains(s, pat)
    ensures ReplaceFirst(s, pat, rep) == s
    decreases |s|
  {
    if |s| < |pat| {
    } else if s[..|pat|] == pat {
      assert OccursAt(s, pat, 0);
    } else {
      forall i | OccursAt(s[1..], pat, i)
        ensures false
      {
        assert s[1..][i..i + |pat|] == s[i + 1..i + 1 + |pat|];
        assert OccursAt(s, pat, i + 1);
      }
      ReplaceFirstWithoutOccurrence(s[1..], pat, rep);
    }
  }

  /** A string lacking the pattern's first character does not contain the pattern. */
  lemma MissingFirstCharacter(s: string, pat: string)
    requires |pat| > 0 && pat[0] !in s
    ensures !Contains(s, pat)
  {
  }

  /** `extractStateName`: the file name with its first ".gif" removed. */
  function ExtractStateName(gifFile: string): string {
    ReplaceFirst(gifFile, ".gif", "")
  }

  /** No entry of `GifFiles` contains ".gif", so each state name is its file name. */
  lemma StateNamesAreFileNames()
    ensures forall f :: f in GifFiles ==> ExtractStateName(f) == f
  {
    forall f | f in GifFiles
      ensures ExtractStateName(f) == f
    {
      assert '.' !in f;
      MissingFirstCharacter(f, ".gif");
      ReplaceFirstWithoutOccurrence(f, ".gif", "");
    }
  }

  /** The inner `reduce`: one type's state name -> URI record, folding `files` left to right. */
  function TypeGifs(baseUrl: string, chaoType: string, files: seq<string>): GifUris
    decreases |files|
  {
    if files == [] then map[]
    else
      var f := files[|files| - 1];
      TypeGifs(baseUrl, chaoType, files[..|files| - 1])[ExtractStateName(f) := GifUri(baseUrl, chaoType, f)]
  }

  /** When every state name is its file name, the record holds exactly the files, each with its URI. */
  lemma {:induction false} TypeGifsContents(baseUrl: string, chaoType: string, files: seq<string>)
    requires forall f :: f in files ==> ExtractStateName(f) == f
    ensures TypeGifs(baseUrl, chaoType, files).Keys == set f | f in files
    ensures forall f :: f in files ==> TypeGifs(baseUrl, chaoType, files)[f] == GifUri(baseUrl, chaoType, f)
    decreases |files|
  {
    if files != [] {
      var init := files[..|files| - 1];
      var f := files[|files| - 1];
      assert forall g :: g in files <==> g in init || g == f;
      TypeGifsContents(baseUrl, chaoType, init);
    }
  }

  /** The outer `reduce`: chao type -> `TypeGifs`, folding `types` left to right. */
  function TypeTable(baseUrl: string, types: seq<string>): ChaoTypeUris
    decreases |types|
  {
    if types == [] then map[]
    else
      var t := types[|types| - 1];
      TypeTable(baseUrl, types[..|types| - 1])[t := TypeGifs(baseUrl, t, GifFiles)]
  }

  /** The table has an entry for exactly the given types, each built from `GifFiles`. */
  lemma {:induction false} TypeTableContents(baseUrl: string, types: seq<string>)
    ensures TypeTable(baseUrl, types).Keys == set t | t in types
    ensures forall t :: t in types ==> TypeTable(baseUrl, types)[t] == TypeGifs(baseUrl, t, GifFiles)
    decreases |types|
  {
    if types != [] {
      var init := types[..|types| - 1];
      assert forall g :: g in types <==> g in init || g == types[|types| - 1];
      TypeTableContents(baseUrl, init);
    }
  }

  /** The table `createChaoTypeUris` builds on its first call. */
  function BuildChaoTypeUris(baseUrl: string): ChaoTypeUris {
    TypeTable(baseUrl, ChaoTypeValues)
  }

  /**
   * Every chao type gets an entry with exactly the seven state names, and the
   * URI for (t, g) is `base/t/t_g.gif`.
   */
  lemma ChaoTypeUrisShape(baseUrl: string)
    ensures BuildChaoTypeUris(baseUrl).Keys == set t | t in ChaoTypeValues
    ensures forall t :: t in ChaoTypeValues ==> BuildChaoTypeUris(baseUrl)[t].Keys == set g | g in GifFiles
    ensures forall t, g :: t in ChaoTypeValues && g in GifFiles ==>
              BuildChaoTypeUris(baseUrl)[t][g] == GifUri(baseUrl, t, g)
  {
    TypeTableContents(baseUrl, ChaoTypeValues);
    StateNamesAreFileNames();
    forall t | t in ChaoTypeValues
      ensures BuildChaoTypeUris(baseUrl)[t].Keys == set g | g in GifFiles
      ensures forall g :: g in GifFiles ==> BuildChaoTypeUris(baseUrl)[t][g] == GifUri(baseUrl, t, g)
    {
      TypeGifsContents(baseUrl, t, GifFiles);
    }
  }

  /**
   * With the built table every known type resolves every file to its URI, and
   * the code-watch assets, which have no key, resolve to ''.
   */
  lemma GeneratedUrisFromBuiltTable(baseUrl: string, chaoType: string, stateName: string)
    requires chaoType in ChaoTypeValues
    ensures stateName in GifFiles ==>
              GenerateGifUri(Some(BuildChaoTypeUris(baseUrl)), chaoType, stateName) == GifUri(baseUrl, chaoType, stateName)
    ensures GenerateGifUri(Some(BuildChaoTypeUris(baseUrl)), chaoType, "code_watch_to_left") == ""
    ensures GenerateGifUri(Some(BuildChaoTypeUris(baseUrl)), chaoType, "code_watch_to_right") == ""
  {
    ChaoTypeUrisShape(baseUrl);
    var table := BuildChaoTypeUris(baseUrl);
    assert chaoType in table;
    var gifs := table[chaoType];
    assert gifs.Keys == set g | g in GifFiles;
    CodeWatchGifsAreNotListed();
    assert "code_watch_to_left" !in gifs && "code_watch_to_right" !in gifs;
  }

  /** Every listed gif name is shorter than either code-watch name. */
  lemma CodeWatchGifsAreNotListed()
    ensures "code_watch_to_left" !in GifFiles && "code_watch_to_right" !in GifFiles
  {
    assert forall f :: f in GifFiles ==> |f| < 15;
    assert |"code_watch_to_left"| == 18 && |"code_watch_to_right"| == 19;
  }

  /** Holder of the module variable `chaoTypeUrisSingleton`. */
  class ChaoGifCache {
    var chaoTypeUrisSingleton: Option<ChaoTypeUris>

    constructor ()
      ensures chaoTypeUrisSingleton == None
    {
      chaoTypeUrisSingleton := None;
    }

    /**
     * `createChaoTypeUris`: the first call builds and caches the table; every
     * later call returns the cached table whatever `baseUrl` it is given.
     */
    method CreateChaoTypeUris(baseUrl: string) returns (uris: ChaoTypeUris)
      modifies this
      ensures old(chaoTypeUrisSingleton).Some? ==>
                uris == old(chaoTypeUrisSingleton).value && chaoTypeUrisSingleton == old(chaoTypeUrisSingleton)
      ensures old(chaoTypeUrisSingleton).None? ==>
                uris == BuildChaoTypeUris(baseUrl) && chaoTypeUrisSingleton == Some(uris)
    {
      if chaoTypeUrisSingleton.Some? {
        return chaoTypeUrisSingleton.value;
      }
      uris := TypeTable(baseUrl, ChaoTypeValues);
      chaoTypeUrisSingleton := Some(uris);
    }
  }
}
