/** The expression-level string work of the plugin utilities: the entry-class
    name test used by `get_classes` and the storage-directory name that
    `install_plugin` derives from a repository URL. */
module PluginNames {

  /** `str.lower` on one character (ASCII letters only). */
  function LowerChar(c: char): char
  {
    if 'A' <= c <= 'Z' then (c as int - 'A' as int + 'a' as int) as char else c
  }

  /** `str.lower`: every character lower-cased, the length kept. */
  function Lower(s: string): (r: string)
    ensures |r| == |s|
    ensures forall i :: 0 <= i < |s| ==> r[i] == LowerChar(s[i])
  {
    seq(|s|, i requires 0 <= i < |s| => LowerChar(s[i]))
  }

  predicate EndsWith(s: string, suffix: string)
  {
    |suffix| <= |s| && s[|s| - |suffix|..] == suffix
  }

  /** The test `get_classes` applies to each exported class name:
      its lower-cased form ends with "plugin" or is "main". */
  predicate IsEntryClassName(name: string): (b: bool)
    ensures b <==> (6 <= |name| && Lower(name[|name| - 6..]) == "plugin") || Lower(name) == "main"
  {
    EndsWith(Lower(name), "plugin") || Lower(name) == "main"
  }

  /** The test ignores case: two names with the same lower-cased form
      either both qualify or both do not. */
  lemma EntryClassNameIgnoresCase(a: string, b: string)
    requires Lower(a) == Lower(b)
    ensures IsEntryClassName(a) <==> IsEntryClassName(b)
  {
  }

  /** A few names the test accepts and rejects. */
  lemma EntryClassNameExamples()
    ensures IsEntryClassName("WeatherPlugin")
    ensures IsEntryClassName("Main")
    ensures !IsEntryClassName("Helper")
  {
    assert Lower("WeatherPlugin") == "weatherplugin";
    assert Lower("WeatherPlugin")[7..] == "plugin";
    assert Lower("Main") == "main";
    assert Lower("Helper") == "helper";
  }

  /** `if url.endswith("/"): url = url[:-1]`: at most one slash is removed. */
  function DropTrailingSlash(url: string): (r: string)
    ensures url == r || url == r + "/"
    ensures url == r + "/" <==> (|url| > 0 && url[|url| - 1] == '/')
  {
    if |url| > 0 && url[|url| - 1] == '/' then url[..|url| - 1] else url
  }

  /** `s.split("/")[-1]`: everything after the last slash (all of `s` when it
      has none). */
  function LastSegment(s: string): (r: string)
    ensures '/' !in r
    ensures |r| <= |s| && s[|s| - |r|..] == r
    ensures |r| < |s| ==> s[|s| - |r| - 1] == '/'
  {
    if |s| == 0 || s[|s| - 1] == '/' then ""
    else LastSegment(s[..|s| - 1]) + [s[|s| - 1]]
  }

  /** `s.replace("-", "_")`. */
  function ReplaceHyphens(s: string): (r: string)
    ensures |r| == |s|
    ensures '-' !in r
    ensures forall i :: 0 <= i < |s| ==> r[i] == (if s[i] == '-' then '_' else s[i])
  {
    seq(|s|, i requires 0 <= i < |s| => if s[i] == '-' then '_' else s[i])
  }

  /** The storage-directory name `install_plugin` derives from a repository
      URL. */
  function InstallDirName(url: string): (r: string)
    ensures |r| <= |url|
    ensures '-' !in r && '/' !in r
  {
    ReplaceHyphens(LastSegment(DropTrailingSlash(url)))
  }

  /** The segment after the last slash is exactly the final segment. */
  lemma {:induction false} LastSegmentOfJoin(base: string, seg: string)
    requires '/' !in seg
    ensures LastSegment(base + "/" + seg) == seg
  {
    if seg == [] {
      assert base + "/" + seg == base + "/";
    } else {
      var init := seg[..|seg| - 1];
      assert base + "/" + seg == (base + "/" + init) + [seg[|seg| - 1]];
      assert (base + "/" + seg)[..|base + "/" + seg| - 1] == base + "/" + init;
      LastSegmentOfJoin(base, init);
      assert init + [seg[|seg| - 1]] == seg;
    }
  }

  /** For a repository URL `base/seg` or `base/seg/` the storage directory is
      `seg` with every hyphen replaced by an underscore. */
  lemma InstallDirNameOfRepository(base: string, seg: string)
    requires seg != "" && '/' !in seg
    ensures InstallDirName(base + "/" + seg) == ReplaceHyphens(seg)
    ensures InstallDirName(base + "/" + seg + "/") == ReplaceHyphens(seg)
  {
    var url := base + "/" + seg;
    assert url[|url| - 1] == seg[|seg| - 1];
    assert DropTrailingSlash(url) == url;
    LastSegmentOfJoin(base, seg);
    assert (url + "/")[..|url + "/"| - 1] == url;
    assert DropTrailingSlash(url + "/") == url;
  }

  /** Only one trailing slash is dropped: a URL ending in two slashes yields
      the empty name, so `install_plugin` then works on the store directory
      itself. */
  lemma InstallDirNameOfDoubleSlash(base: string)
    ensures InstallDirName(base + "//") == ""
  {
    assert (base + "//")[..|base + "//"| - 1] == base + "/";
  }
}
