/**
 * The web view that shows an animated GIF: the configured path is split at its last '/'
 * into the folder, used as the page's base URL, and the file name, which the page's one
 * image refers to.
 */
module GifView {
  import opened JavaLang

  /** The page text around the file name. */
  const HTML_PREFIX: string := "<html><center><img src=\""
  const HTML_SUFFIX: string := "\"></html>"

  /** A folder is empty or ends with '/'. */
  predicate IsFolder(folder: string)
  {
    folder == [] || folder[|folder| - 1] == '/'
  }

  /**
   * `path.substring(0, path.lastIndexOf('/') + 1)` and the rest of the path: the folder up to
   * and including the last '/', and the file name after it.
   */
  function SplitPath(path: string): (r: (string, string))
    ensures r.0 + r.1 == path
    ensures IsFolder(r.0) && '/' !in r.1
    ensures '/' !in path ==> r.0 == [] && r.1 == path
  {
    var cut := LastIndexOf(path, '/') + 1;
    assert path[..cut] + path[cut..] == path;
    (path[..cut], path[cut..])
  }

  /** There is only one way to cut a path into a folder and a file name without '/'. */
  lemma SplitPathUnique(path: string, folder: string, filename: string)
    requires folder + filename == path
    requires IsFolder(folder) && '/' !in filename
    ensures SplitPath(path) == (folder, filename)
  {
    var last := LastIndexOf(path, '/');
    if folder == [] {
      assert path == filename;
    } else {
      var at := |folder| - 1;
      assert path[at] == '/';
      assert forall k :: at < k < |path| ==> path[k] == filename[k - |folder|];
      assert last == at;
    }
  }

  /** The page's text: one centred image whose source is the file name. */
  function Html(filename: string): (r: string)
    ensures |r| == |HTML_PREFIX| + |filename| + |HTML_SUFFIX|
    ensures r[..|HTML_PREFIX|] == HTML_PREFIX
    ensures r[|HTML_PREFIX|..|HTML_PREFIX| + |filename|] == filename
    ensures r[|HTML_PREFIX| + |filename|..] == HTML_SUFFIX
  {
    HTML_PREFIX + filename + HTML_SUFFIX
  }

  /** What `loadDataWithBaseURL` is given. */
  datatype Page = Page(baseUrl: string, data: string, mimeType: string, encoding: string, historyUrl: string)

  /** The constructor's load: the folder as base URL, the page as UTF-8 HTML, no history URL. */
  function Load(path: string): (p: Page)
    ensures p.mimeType == "text/html" && p.encoding == "utf-8" && p.historyUrl == []
    ensures IsFolder(p.baseUrl)
  {
    var (folder, filename) := SplitPath(path);
    Page(folder, Html(filename), "text/html", "utf-8", "")
  }

  /** The image source read back from the page, appended to the base URL, is the configured path. */
  lemma LoadResolvesToPath(path: string)
    ensures var p := Load(path);
      |p.data| >= |HTML_PREFIX| + |HTML_SUFFIX|
      && p.baseUrl + p.data[|HTML_PREFIX|..|p.data| - |HTML_SUFFIX|] == path
  {
    var (folder, filename) := SplitPath(path);
    var r := Html(filename);
    assert |r| - |HTML_SUFFIX| == |HTML_PREFIX| + |filename|;
  }
}
