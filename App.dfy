/** Page lookup of the application shell (app.py): the page registry is
    read in registration order and the first page whose module name ends in
    "." followed by the wanted name gives the link target. */
module App {

  /** One entry of the page registry: the page's Python module and the URL
      path it is served under. */
  datatype Page = Page(moduleName: string, relativePath: string)

  predicate EndsWith(s: string, suffix: string) {
    |suffix| <= |s| && s[|s| - |suffix|..] == suffix
  }

  /** Whether `page` is the page of module `name`. */
  predicate Matches(page: Page, name: string) {
    EndsWith(page.moduleName, "." + name)
  }

  /** Page `i` matches `name` and no page registered before it does. */
  predicate FirstMatchAt(registry: seq<Page>, name: string, i: nat)
    requires i < |registry|
  {
    Matches(registry[i], name) && forall j :: 0 <= j < i ==> !Matches(registry[j], name)
  }

  /** Relative path of the first registered page whose module ends in
      "." + `name`, or the site root "/" when there is none. */
  function GetPageRelativePath(registry: seq<Page>, name: string): (r: string)
    ensures (forall i :: 0 <= i < |registry| ==> !Matches(registry[i], name)) ==> r == "/"
    ensures forall i :: 0 <= i < |registry| && FirstMatchAt(registry, name, i) ==>
                          r == registry[i].relativePath
    ensures r == "/" || exists i :: 0 <= i < |registry| && r == registry[i].relativePath
  {
    if registry == [] then "/"
    else if Matches(registry[0], name) then registry[0].relativePath
    else
      var r := GetPageRelativePath(registry[1..], name);
      assert forall i :: 1 <= i < |registry| ==> registry[i] == registry[1..][i - 1];
      r
  }

  /** The dotted-suffix rule on the two pages the header links to. */
  lemma SuffixMatchExamples()
    ensures Matches(Page("pages.collect_data", "/collect-data"), "collect_data")
    ensures !Matches(Page("pages.xcollect_data", "/xcollect-data"), "collect_data")
    ensures !Matches(Page("collect_data", "/collect-data"), "collect_data")
  {
    assert "pages.collect_data"[5..] == ".collect_data";
    var x := "pages.xcollect_data";
    assert x[|x| - 13] == 'x';
  }
}
