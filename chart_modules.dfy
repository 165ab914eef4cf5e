/**
 * `get_chart_modules_content` (app/template_helpers.py): the `.js` files of
 * the chart-module directory, the four dependency-ordered ones first and the
 * rest alphabetically, each wrapped in a guarded block and joined with blank
 * lines; outside debug mode the result is kept on the application and served
 * again. The directory listing and the files' texts are parameters.
 */
module ChartModules {
  import Text

  /** The dependency order. */
  const Priority: seq<string> := ["gauge.js", "bar.js", "line.js", "doughnut.js"]

  const NoModules := "// No chart modules found"

  predicate IsJs(name: string) {
    Text.EndsWith(name, ".js")
  }

  /** `[f for f in os.listdir(dir) if f.endswith('.js')]`. */
  function JsFiles(names: seq<string>): (r: seq<string>)
    ensures forall f :: f in r <==> f in names && IsJs(f)
    ensures multiset(r) <= multiset(names)
  {
    if names == [] then []
    else
      var rest := JsFiles(names[1..]);
      assert names == [names[0]] + names[1..];
      if IsJs(names[0]) then [names[0]] + rest else rest
  }

  /** `list.remove(x)`: the first occurrence goes. */
  function RemoveFirst(s: seq<string>, x: string): (r: seq<string>)
    requires x in s
    ensures multiset(r) == multiset(s) - multiset{x}
    ensures |r| == |s| - 1
  {
    assert s == [s[0]] + s[1..];
    if s[0] == x then s[1..] else [s[0]] + RemoveFirst(s[1..], x)
  }

  /**
   * The priority loop over `priority`: each name that is still among the
   * files moves, in turn, from the files to the ordered list.
   */
  function PriorityPass(priority: seq<string>, files: seq<string>): (r: (seq<string>, seq<string>))
    ensures multiset(r.0) + multiset(r.1) == multiset(files)
  {
    if priority == [] then ([], files)
    else
      var (ordered, rest) := PriorityPass(priority[..|priority| - 1], files);
      var p := priority[|priority| - 1];
      if p in rest then (ordered + [p], RemoveFirst(rest, p)) else (ordered, rest)
  }

  // ---------------------------------------------------------------------------
  // sorted()

  /** Python's string order: code point by code point, a proper prefix first. */
  predicate LexLe(a: string, b: string) {
    a == [] || (b != [] && (a[0] < b[0] || (a[0] == b[0] && LexLe(a[1..], b[1..]))))
  }

  lemma {:induction false} LexTotal(a: string, b: string)
    ensures LexLe(a, b) || LexLe(b, a)
  {
    if a != [] && b != [] && a[0] == b[0] {
      LexTotal(a[1..], b[1..]);
    }
  }

  predicate Sorted(s: seq<string>) {
    forall i :: 0 < i < |s| ==> LexLe(s[i - 1], s[i])
  }

  function Insert(x: string, s: seq<string>): (r: seq<string>)
    requires Sorted(s)
    ensures Sorted(r) && multiset(r) == multiset(s) + multiset{x}
    ensures r != [] && (r[0] == x || (s != [] && r[0] == s[0]))
  {
    if s == [] || LexLe(x, s[0]) then [x] + s
    else
      LexTotal(x, s[0]);
      assert s == [s[0]] + s[1..];
      [s[0]] + Insert(x, s[1..])
  }

  /** `sorted(files)`. */
  function Sort(s: seq<string>): (r: seq<string>)
    ensures Sorted(r) && multiset(r) == multiset(s)
  {
    if s == [] then []
    else
      assert s == [s[0]] + s[1..];
      Insert(s[0], Sort(s[1..]))
  }

  /** The priority names present, in priority order, then the other files sorted. */
  function Arranged(priority: seq<string>, files: seq<string>): seq<string> {
    var (ordered, rest) := PriorityPass(priority, files);
    ordered + Sort(rest)
  }

  /** The order the files are concatenated in. */
  function OrderedFiles(jsFiles: seq<string>): seq<string> {
    Arranged(Priority, jsFiles)
  }

  /** Keeping only the priority names that occur in `files`, in priority order. */
  function Present(priority: seq<string>, files: seq<string>): seq<string> {
    if priority == [] then []
    else
      var p := priority[|priority| - 1];
      Present(priority[..|priority| - 1], files) + (if p in files then [p] else [])
  }

  /**
   * Each step of the priority pass takes one name the earlier steps did not
   * touch, so, for names that are all different, the ordered part is the
   * present priority names in priority order, and a name is still among the
   * files exactly when it was and the pass has not taken it.
   */
  lemma {:induction false} PriorityPassTakesPresent(priority: seq<string>, files: seq<string>)
    requires forall i, j :: 0 <= i < j < |priority| ==> priority[i] != priority[j]
    ensures PriorityPass(priority, files).0 == Present(priority, files)
    ensures Leftover(priority, files, PriorityPass(priority, files).1)
  {
    if priority != [] {
      var init := priority[..|priority| - 1];
      var p := priority[|priority| - 1];
      assert priority == init + [p];
      PriorityPassTakesPresent(init, files);
      PriorityPassOrderedFrom(init, files);
      var (ordered, rest) := PriorityPass(init, files);
      assert p !in init;
      if p in rest {
        PriorityStepTakes(init, p, files, ordered, rest);
      } else {
        PriorityStepSkips(init, p, files, rest);
      }
    }
  }

  /** A name is left among the files when it was one and the pass had no reason to take it. */
  ghost predicate Leftover(priority: seq<string>, files: seq<string>, rest: seq<string>) {
    forall f :: f in rest <==> f in files && (f !in priority || multiset(files)[f] > 1)
  }

  /** A step of the pass that takes `p`. */
  lemma PriorityStepTakes(init: seq<string>, p: string, files: seq<string>, ordered: seq<string>, rest: seq<string>)
    requires p !in init && p in rest && Leftover(init, files, rest)
    requires multiset(ordered) + multiset(rest) == multiset(files)
    requires forall f :: f in ordered ==> f in init
    ensures Leftover(init + [p], files, RemoveFirst(rest, p))
  {
    var r := RemoveFirst(rest, p);
    forall f
      ensures f in r <==> f in files && (f !in init + [p] || multiset(files)[f] > 1)
    {
      assert multiset(r)[f] == multiset(rest)[f] - (if f == p then 1 else 0);
      if f == p {
        assert multiset(ordered)[p] == 0;
        assert multiset(rest)[p] == multiset(files)[p];
      }
      assert f in init + [p] <==> f in init || f == p;
    }
  }

  /** A step of the pass that finds `p` gone. */
  lemma PriorityStepSkips(init: seq<string>, p: string, files: seq<string>, rest: seq<string>)
    requires p !in rest && Leftover(init, files, rest)
    ensures Leftover(init + [p], files, rest)
  {
    forall f
      ensures f in rest <==> f in files && (f !in init + [p] || multiset(files)[f] > 1)
    {
      assert f in init + [p] <==> f in init || f == p;
    }
  }

  /** The pass only ever takes names from `priority`. */
  lemma {:induction false} PriorityPassOrderedFrom(priority: seq<string>, files: seq<string>)
    ensures forall f :: f in PriorityPass(priority, files).0 ==> f in priority
  {
    if priority != [] {
      PriorityPassOrderedFrom(priority[..|priority| - 1], files);
    }
  }

  /**
   * For files that are all different: the arrangement is a permutation of
   * the files, nothing dropped and nothing repeated; the present priority
   * names come first, in priority order; then every other file, sorted.
   */
  lemma ArrangedMeaning(priority: seq<string>, files: seq<string>)
    requires forall i, j :: 0 <= i < j < |priority| ==> priority[i] != priority[j]
    requires forall f :: multiset(files)[f] <= 1
    ensures var a := Arranged(priority, files);
      var n := |Present(priority, files)|;
      multiset(a) == multiset(files)
      && n <= |a| && a[..n] == Present(priority, files)
      && Sorted(a[n..])
      && (forall f :: f in a[n..] <==> f in files && f !in priority)
  {
    PriorityPassTakesPresent(priority, files);
    var (front, rest) := PriorityPass(priority, files);
    var a := front + Sort(rest);
    assert a[..|front|] == front && a[|front|..] == Sort(rest);
    forall f
      ensures f in Sort(rest) <==> f in files && f !in priority
    {
      assert f in Sort(rest) <==> f in multiset(Sort(rest));
    }
  }

  lemma PriorityDistinct()
    ensures forall i, j :: 0 <= i < j < |Priority| ==> Priority[i] != Priority[j]
  {
  }

  /**
   * The concatenation order for a directory listing (whose names are all
   * different): a permutation of the listing's `.js` files; the priority
   * files present first, in the dependency order; then every other `.js`
   * file, alphabetically.
   */
  lemma OrderedFilesMeaning(listing: seq<string>)
    requires forall i, j :: 0 <= i < j < |listing| ==> listing[i] != listing[j]
    ensures var js := JsFiles(listing);
      var ordered := OrderedFiles(js);
      var n := |Present(Priority, js)|;
      multiset(ordered) == multiset(js)
      && n <= |ordered| && ordered[..n] == Present(Priority, js)
      && Sorted(ordered[n..])
      && (forall f :: f in ordered[n..] <==> f in js && f !in Priority)
  {
    var js := JsFiles(listing);
    forall f
      ensures multiset(js)[f] <= 1
    {
      DistinctCountsOne(listing, f);
    }
    PriorityDistinct();
    ArrangedMeaning(Priority, js);
  }

  lemma {:induction false} DistinctCountsOne(s: seq<string>, f: string)
    requires forall i, j :: 0 <= i < j < |s| ==> s[i] != s[j]
    ensures multiset(s)[f] <= 1
  {
    if s != [] {
      assert s == [s[0]] + s[1..];
      DistinctCountsOne(s[1..], f);
      if s[0] == f {
        assert f !in s[1..];
      }
    }
  }

  // ---------------------------------------------------------------------------
  // Wrapping and concatenation

  /** The banner and the opening of the `try` block in front of a module. */
  function Opening(name: string): string {
    "// ==================== " + name + " ====================\n" + "try {\n"
  }

  /** The `catch` that logs a module's failure, and the closing banner. */
  function Closing(name: string): string {
    "\n} catch (error) {\n"
    + "    console.error('Error loading chart module " + name + ":', error);\n}\n"
    + "// ==================== End " + name + " ===================="
  }

  /** The guarded block one module becomes. */
  function Wrapped(name: string, content: string): string {
    Opening(name) + content + Closing(name)
  }

  /** One module's part: its wrapped text, or a warning comment when it cannot be read. */
  function Part(name: string, contents: map<string, string>): string {
    if name in contents then Wrapped(name, contents[name]) else "// Warning: " + name + " not found"
  }

  /** The content for a listing: the parts, in order, joined with blank lines. */
  function Concatenated(listing: seq<string>, contents: map<string, string>): string {
    Text.Join(Parts(OrderedFiles(JsFiles(listing)), contents), "\n\n")
  }

  function Parts(ordered: seq<string>, contents: map<string, string>): (r: seq<string>)
    ensures |r| == |ordered|
  {
    seq(|ordered|, i requires 0 <= i < |ordered| => Part(ordered[i], contents))
  }

  /** A module's own text appears whole inside its block, between `try {` and the `catch`. */
  lemma WrappedKeepsContent(name: string, content: string)
    ensures Text.Contains(Wrapped(name, content), content)
  {
    var w := Wrapped(name, content);
    var n := |Opening(name)|;
    assert w[n..n + |content|] == content;
    assert Text.OccursAt(w, content, n);
  }

  /** Every part occurs in what `sep.join` makes of the parts. */
  lemma {:induction false} JoinHasParts(parts: seq<string>, sep: string, i: nat)
    requires i < |parts|
    ensures Text.Contains(Text.Join(parts, sep), parts[i])
  {
    var s := Text.Join(parts, sep);
    if i == 0 {
      assert Text.OccursAt(s, parts[0], 0);
    } else {
      JoinHasParts(parts[1..], sep, i - 1);
      var k := |parts[0] + sep|;
      assert s[k..|s|] == Text.Join(parts[1..], sep);
      Text.ContainsInfix(s, k, |s|, parts[i]);
    }
  }

  /** `p` occurring at `k` in `s` and containing `q` makes `s` contain `q`. */
  lemma ContainsThrough(s: string, p: string, k: nat, q: string)
    requires Text.OccursAt(s, p, k) && Text.Contains(p, q)
    ensures Text.Contains(s, q)
  {
    Text.ContainsInfix(s, k, k + |p|, q);
  }

  /**
   * Every `.js` file of the listing contributes its part to the content: its
   * wrapped text, which holds the file's own text whole, or the warning
   * comment when it cannot be read.
   */
  lemma ConcatenatedHasEveryModule(listing: seq<string>, contents: map<string, string>, f: string)
    requires f in listing && IsJs(f)
    ensures Text.Contains(Concatenated(listing, contents), Part(f, contents))
    ensures f in contents ==> Text.Contains(Concatenated(listing, contents), contents[f])
  {
    var ordered := OrderedFiles(JsFiles(listing));
    assert multiset(ordered) == multiset(JsFiles(listing));
    assert f in multiset(ordered);
    var i :| 0 <= i < |ordered| && ordered[i] == f;
    var parts := Parts(ordered, contents);
    assert parts[i] == Part(f, contents);
    JoinHasParts(parts, "\n\n", i);
    if f in contents {
      var s := Concatenated(listing, contents);
      var k := Text.IndexOf(s, parts[i], 0).value;
      WrappedKeepsContent(f, contents[f]);
      ContainsThrough(s, parts[i], k, contents[f]);
    }
  }

  // ---------------------------------------------------------------------------
  // The cached helper

  /**
   * One call of the helper: outside debug a non-empty cached text is served
   * as it is; otherwise the listing (`None` when the directory is missing) is
   * concatenated, and outside debug the result is kept. The answer is the new
   * cache and the text.
   */
  function ChartContent(cache: string, debug: bool, listing: seq<string>, found: bool, contents: map<string, string>): (string, string) {
    if !debug && cache != "" then (cache, cache)
    else if !found then (cache, NoModules)
    else
      var text := Concatenated(listing, contents);
      (if !debug then text else cache, text)
  }

  /**
   * Outside debug mode, once a non-empty text has been produced it is served
   * by every later call, whatever the directory then holds; in debug mode the
   * kept text is never read or written.
   */
  lemma ChartContentCached(cache: string, listing: seq<string>, found: bool, contents: map<string, string>,
                           listing2: seq<string>, found2: bool, contents2: map<string, string>)
    ensures var (c1, t1) := ChartContent(cache, false, listing, found, contents);
      (t1 != "" && (found || cache != "") ==> ChartContent(c1, false, listing2, found2, contents2) == (c1, t1))
    ensures ChartContent(cache, true, listing, found, contents).0 == cache
    ensures found ==> ChartContent(cache, true, listing, found, contents).1 == Concatenated(listing, contents)
  {
  }

  /** A missing directory gives the fixed comment and keeps nothing. */
  lemma MissingDirectory(cache: string, debug: bool, listing: seq<string>, contents: map<string, string>)
    requires debug || cache == ""
    ensures ChartContent(cache, debug, listing, false, contents) == (cache, NoModules)
  {
  }

  /** The application object the helper keeps its text on (`_chart_modules_cache`, "" when unset). */
  class ChartApp {
    var cache: string

    constructor ()
      ensures cache == ""
    {
      cache := "";
    }

    method GetChartModulesContent(debug: bool, listing: seq<string>, found: bool, contents: map<string, string>)
      returns (r: string)
      modifies this
      ensures (cache, r) == ChartContent(old(cache), debug, listing, found, contents)
    {
      if !debug && cache != "" {
        return cache;
      }
      if !found {
        return NoModules;
      }
      var ordered := OrderFiles(Priority, JsFiles(listing));
      var parts := WrapAll(ordered, contents);
      r := Text.Join(parts, "\n\n");
      if !debug {
        cache := r;
      }
    }
  }

  /** The two ordering loops: the priority names present, then the rest sorted. */
  method OrderFiles(priority: seq<string>, allJs: seq<string>) returns (ordered: seq<string>)
    ensures ordered == Arranged(priority, allJs)
  {
    var remaining := allJs;
    ordered := [];
    var i := 0;
    while i < |priority|
      invariant 0 <= i <= |priority|
      invariant (ordered, remaining) == PriorityPass(priority[..i], allJs)
    {
      var p := priority[i];
      assert priority[..i + 1][..i] == priority[..i];
      if p in remaining {
        ordered := ordered + [p];
        remaining := RemoveFirst(remaining, p);
      }
      i := i + 1;
    }
    assert priority[..|priority|] == priority;
    ordered := ordered + Sort(remaining);
  }

  /** The wrapping loop: one part per file, in order. */
  method WrapAll(ordered: seq<string>, contents: map<string, string>) returns (parts: seq<string>)
    ensures parts == Parts(ordered, contents)
  {
    parts := [];
    var i := 0;
    while i < |ordered|
      invariant 0 <= i <= |ordered|
      invariant parts == Parts(ordered[..i], contents)
    {
      assert ordered[..i + 1][..i] == ordered[..i];
      if ordered[i] in contents {
        parts := parts + [Wrapped(ordered[i], contents[ordered[i]])];
      } else {
        parts := parts + ["// Warning: " + ordered[i] + " not found"];
      }
      i := i + 1;
    }
    assert ordered[..|ordered|] == ordered;
  }
}
